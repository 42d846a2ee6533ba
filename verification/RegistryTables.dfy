/** The registry's tables as maps: keys, cascades, the unique triple and the AUTOINCREMENT counters,
    with one operation per registry call. */
module RegistryTables {
  import opened Wrappers
  import opened Jobs

  datatype Database = Database(
    name: string, driver: string, params: Params, storageTargetId: int, agentId: int, enabled: bool)

  // A last run date is the number of a local calendar day; None is the empty text.
  datatype Schedule = Schedule(databaseId: int, timeOfDay: string, enabled: bool, lastRun: Option<int>)
  datatype Group = Group(name: string, enabled: bool)
  datatype SharedTime = SharedTime(groupId: int, timeOfDay: string, lastRun: Option<int>)
  datatype Channel = Channel(kind: string, name: string, config: string)

  datatype Tables = Tables(
    databases: map<int, Database>, lastDatabase: nat,
    schedules: map<int, Schedule>, lastSchedule: nat,
    groups: map<int, Group>, lastGroup: nat,
    members: set<(int, int)>,        // (shared schedule, database)
    times: map<int, SharedTime>, lastTime: nat,
    channels: map<int, Channel>, lastChannel: nat,
    links: set<(int, int)>)          // (database, notify channel)

  const EMPTY := Tables(map[], 0, map[], 0, map[], 0, {}, map[], 0, map[], 0, {})

  datatype Op =
    | CreateDatabase(d: Database)
    | UpdateDatabase(id: int, d: Database)
    | SetEnabled(id: int, enabled: bool)
    | DeleteDatabase(id: int)
    | CreateSchedule(databaseId: int, timeOfDay: string)
    | DeleteSchedule(id: int)
    | MarkSchedule(id: int, day: int)
    | CreateGroup(name: string, databaseIds: seq<int>)
    | UpdateGroup(id: int, name: string, databaseIds: seq<int>)
    | SetGroupEnabled(id: int, enabled: bool)
    | DeleteGroup(id: int)
    | CreateTime(groupId: int, timeOfDay: string)
    | DeleteTime(id: int)
    | MarkTime(id: int, day: int)
    | CreateChannel(c: Channel)
    | DeleteChannel(id: int)
    | SetChannels(databaseId: int, channelIds: seq<int>)

  predicate SameTriple(a: Database, b: Database) {
    a.name == b.name && a.agentId == b.agentId && a.driver == b.driver
  }

  // The unique index on (name, agent_id, driver) would be violated by d under any other id.
  predicate Taken(t: Tables, d: Database, self: int) {
    exists id <- t.databases :: id != self && SameTriple(t.databases[id], d)
  }

  function ExceptFirst(pairs: set<(int, int)>, id: int): set<(int, int)> {
    set x | x in pairs && x.0 != id
  }

  function ExceptSecond(pairs: set<(int, int)>, id: int): set<(int, int)> {
    set x | x in pairs && x.1 != id
  }

  // Deleting a database takes its schedules, memberships and channel links along.
  function DropDatabase(t: Tables, id: int): Tables {
    t.(databases := t.databases - {id},
       schedules := map s | s in t.schedules && t.schedules[s].databaseId != id :: t.schedules[s],
       members := ExceptSecond(t.members, id),
       links := ExceptFirst(t.links, id))
  }

  function DropGroup(t: Tables, id: int): Tables {
    t.(groups := t.groups - {id},
       times := map s | s in t.times && t.times[s].groupId != id :: t.times[s],
       members := ExceptFirst(t.members, id))
  }

  function DropChannel(t: Tables, id: int): Tables {
    t.(channels := t.channels - {id}, links := ExceptSecond(t.links, id))
  }

  // The insert loop of a membership table: it stops at the first id the foreign key or the
  // primary key refuses, keeping what it inserted before.
  function InsertAll(pairs: set<(int, int)>, key: int, keyKnown: bool, known: set<int>, ids: seq<int>)
    : (r: (set<(int, int)>, bool))
    decreases |ids|
  {
    if ids == [] then (pairs, true)
    else if !keyKnown || ids[0] !in known || (key, ids[0]) in pairs then (pairs, false)
    else InsertAll(pairs + {(key, ids[0])}, key, keyKnown, known, ids[1..])
  }

  function ReplaceAll(pairs: set<(int, int)>, key: int, keyKnown: bool, known: set<int>, ids: seq<int>)
    : (set<(int, int)>, bool)
  {
    InsertAll(ExceptFirst(pairs, key), key, keyKnown, known, ids)
  }

  function ReplaceMembers(t: Tables, g: int, ids: seq<int>): (Tables, bool) {
    var (pairs, ok) := ReplaceAll(t.members, g, g in t.groups, t.databases.Keys, ids);
    (t.(members := pairs), ok)
  }

  function ReplaceLinks(t: Tables, d: int, ids: seq<int>): (Tables, bool) {
    var (pairs, ok) := ReplaceAll(t.links, d, d in t.databases, t.channels.Keys, ids);
    (t.(links := pairs), ok)
  }

  function MarkScheduleRun(t: Tables, id: int, day: int): Tables {
    if id in t.schedules then t.(schedules := t.schedules[id := t.schedules[id].(lastRun := Some(day))]) else t
  }

  function MarkTimeRun(t: Tables, id: int, day: int): Tables {
    if id in t.times then t.(times := t.times[id := t.times[id].(lastRun := Some(day))]) else t
  }

  // The new tables, and whether every statement succeeded.
  function Apply(t: Tables, op: Op): (Tables, bool) {
    match op
    case CreateDatabase(d) =>
      if Taken(t, d, 0) then (t, false)
      else (t.(databases := t.databases[t.lastDatabase + 1 := d], lastDatabase := t.lastDatabase + 1), true)
    case UpdateDatabase(id, d) =>
      if id !in t.databases then (t, true)
      else if Taken(t, d, id) then (t, false)
      else (t.(databases := t.databases[id := d]), true)
    case SetEnabled(id, enabled) =>
      if id !in t.databases then (t, true)
      else (t.(databases := t.databases[id := t.databases[id].(enabled := enabled)]), true)
    case DeleteDatabase(id) => (DropDatabase(t, id), true)
    case CreateSchedule(databaseId, timeOfDay) =>
      if databaseId !in t.databases then (t, false)
      else (t.(schedules := t.schedules[t.lastSchedule + 1 := Schedule(databaseId, timeOfDay, true, None)],
               lastSchedule := t.lastSchedule + 1), true)
    case DeleteSchedule(id) => (t.(schedules := t.schedules - {id}), true)
    case MarkSchedule(id, day) => (MarkScheduleRun(t, id, day), true)
    case CreateGroup(name, ids) =>
      ReplaceMembers(GroupCreated(t, name), t.lastGroup + 1, ids)
    case UpdateGroup(id, name, ids) => ReplaceMembers(GroupRenamed(t, id, name), id, ids)
    case SetGroupEnabled(id, enabled) =>
      if id !in t.groups then (t, true)
      else (t.(groups := t.groups[id := t.groups[id].(enabled := enabled)]), true)
    case DeleteGroup(id) => (DropGroup(t, id), true)
    case CreateTime(groupId, timeOfDay) =>
      if groupId !in t.groups then (t, false)
      else (t.(times := t.times[t.lastTime + 1 := SharedTime(groupId, timeOfDay, None)],
               lastTime := t.lastTime + 1), true)
    case DeleteTime(id) => (t.(times := t.times - {id}), true)
    case MarkTime(id, day) => (MarkTimeRun(t, id, day), true)
    case CreateChannel(c) =>
      (t.(channels := t.channels[t.lastChannel + 1 := c], lastChannel := t.lastChannel + 1), true)
    case DeleteChannel(id) => (DropChannel(t, id), true)
    case SetChannels(databaseId, ids) => ReplaceLinks(t, databaseId, ids)
  }

  // ---------- Integrity ----------

  predicate NoDangling(t: Tables) {
    && (forall s <- t.schedules :: t.schedules[s].databaseId in t.databases)
    && (forall s <- t.times :: t.times[s].groupId in t.groups)
    && (forall m <- t.members :: m.0 in t.groups && m.1 in t.databases)
    && (forall l <- t.links :: l.0 in t.databases && l.1 in t.channels)
  }

  predicate TriplesUnique(t: Tables) {
    forall a, b | a in t.databases && b in t.databases :: SameTriple(t.databases[a], t.databases[b]) ==> a == b
  }

  ghost predicate CountersAhead(t: Tables) {
    && (forall id <- t.databases :: 1 <= id <= t.lastDatabase)
    && (forall id <- t.schedules :: 1 <= id <= t.lastSchedule)
    && (forall id <- t.groups :: 1 <= id <= t.lastGroup)
    && (forall id <- t.times :: 1 <= id <= t.lastTime)
    && (forall id <- t.channels :: 1 <= id <= t.lastChannel)
  }

  ghost predicate Integrity(t: Tables) {
    NoDangling(t) && TriplesUnique(t) && CountersAhead(t)
  }

  // How many ids the insert loop gets through: all of a list of distinct known ids, else those
  // before the first repeated or unknown one.
  ghost predicate InsertsExactly(keyKnown: bool, known: set<int>, ids: seq<int>, n: nat) {
    && n <= |ids|
    && (n > 0 ==> keyKnown)
    && (forall i :: 0 <= i < n ==> ids[i] in known && ids[i] !in ids[..i])
    && (n < |ids| ==> !keyKnown || ids[n] !in known || ids[n] in ids[..n])
  }

  lemma {:induction false} InsertAllFrom(
    pairs: set<(int, int)>, key: int, keyKnown: bool, known: set<int>, ids: seq<int>, k: nat) returns (n: nat)
    requires k <= |ids| && (k > 0 ==> keyKnown)
    requires forall i :: 0 <= i < k ==> ids[i] in known && ids[i] !in ids[..i]
    requires forall m :: m in pairs && m.0 == key ==> m.1 in ids[..k]
    requires forall i :: 0 <= i < k ==> (key, ids[i]) in pairs
    ensures InsertsExactly(keyKnown, known, ids, n) && k <= n
    ensures InsertAll(pairs, key, keyKnown, known, ids[k..]).1 <==> n == |ids|
    ensures forall m :: m in InsertAll(pairs, key, keyKnown, known, ids[k..]).0 <==>
              if m.0 == key then m.1 in ids[..n] else m in pairs
    decreases |ids| - k
  {
    n := k;
    if k < |ids| && keyKnown && ids[k] in known && (key, ids[k]) !in pairs {
      assert ids[k..][1..] == ids[k + 1..];
      assert ids[..k + 1] == ids[..k] + [ids[k]];
      assert ids[k] !in ids[..k];
      n := InsertAllFrom(pairs + {(key, ids[k])}, key, keyKnown, known, ids, k + 1);
    } else if k < |ids| && (key, ids[k]) in pairs {
      assert (key, ids[k]).1 in ids[..k];
    }
  }

  // Replacing a set leaves exactly the ids before the first bad one, all of them when there is
  // none, and touches no other key's pairs.
  lemma ReplaceIsExact(pairs: set<(int, int)>, key: int, keyKnown: bool, known: set<int>, ids: seq<int>)
    returns (n: nat)
    ensures InsertsExactly(keyKnown, known, ids, n)
    ensures var r := ReplaceAll(pairs, key, keyKnown, known, ids);
            && (r.1 <==> n == |ids|)
            && (forall m :: m in r.0 <==> if m.0 == key then m.1 in ids[..n] else m in pairs)
  {
    n := InsertAllFrom(ExceptFirst(pairs, key), key, keyKnown, known, ids, 0);
    assert ids[0..] == ids;
  }

  lemma NewDatabaseKeeps(t: Tables, d: Database)
    requires Integrity(t)
    ensures Integrity(Apply(t, CreateDatabase(d)).0)
  {}

  lemma DatabaseRowKeeps(t: Tables, id: int, d: Database)
    requires Integrity(t)
    ensures Integrity(Apply(t, UpdateDatabase(id, d)).0)
  {}

  lemma DatabaseOpKeeps(t: Tables, op: Op)
    requires Integrity(t) && (op.SetEnabled? || op.DeleteDatabase?)
    ensures Integrity(Apply(t, op).0)
  {}

  lemma ScheduleOpKeeps(t: Tables, op: Op)
    requires Integrity(t) && (op.CreateSchedule? || op.DeleteSchedule? || op.CreateTime? || op.DeleteTime?)
    ensures Integrity(Apply(t, op).0)
  {}

  lemma MarkKeeps(t: Tables, op: Op)
    requires Integrity(t) && (op.MarkSchedule? || op.MarkTime?)
    ensures Integrity(Apply(t, op).0)
  {}

  lemma GroupOpKeeps(t: Tables, op: Op)
    requires Integrity(t) && (op.SetGroupEnabled? || op.DeleteGroup?)
    ensures Integrity(Apply(t, op).0)
  {}

  lemma ChannelOpKeeps(t: Tables, op: Op)
    requires Integrity(t) && (op.CreateChannel? || op.DeleteChannel?)
    ensures Integrity(Apply(t, op).0)
  {}

  lemma ReplaceMembersKeeps(t: Tables, g: int, ids: seq<int>)
    requires Integrity(t)
    ensures Integrity(ReplaceMembers(t, g, ids).0)
  {
    var n := ReplaceIsExact(t.members, g, g in t.groups, t.databases.Keys, ids);
  }

  lemma ReplaceLinksKeeps(t: Tables, d: int, ids: seq<int>)
    requires Integrity(t)
    ensures Integrity(ReplaceLinks(t, d, ids).0)
  {
    var n := ReplaceIsExact(t.links, d, d in t.databases, t.channels.Keys, ids);
  }

  function GroupCreated(t: Tables, name: string): Tables {
    t.(groups := t.groups[t.lastGroup + 1 := Group(name, true)], lastGroup := t.lastGroup + 1)
  }

  function GroupRenamed(t: Tables, id: int, name: string): Tables {
    if id in t.groups then t.(groups := t.groups[id := t.groups[id].(name := name)]) else t
  }

  lemma GroupRowsKeep(t: Tables, id: int, name: string)
    requires Integrity(t)
    ensures Integrity(GroupCreated(t, name)) && Integrity(GroupRenamed(t, id, name))
  {}

  lemma ReplacingOpKeeps(t: Tables, op: Op)
    requires Integrity(t) && (op.CreateGroup? || op.UpdateGroup? || op.SetChannels?)
    ensures Integrity(Apply(t, op).0)
  {
    match op
    case CreateGroup(name, ids) =>
      GroupRowsKeep(t, 0, name);
      ReplaceMembersKeeps(GroupCreated(t, name), t.lastGroup + 1, ids);
    case UpdateGroup(id, name, ids) =>
      GroupRowsKeep(t, id, name);
      ReplaceMembersKeeps(GroupRenamed(t, id, name), id, ids);
    case SetChannels(databaseId, ids) => ReplaceLinksKeeps(t, databaseId, ids);
  }

  lemma OpKeepsIntegrity(t: Tables, op: Op)
    requires Integrity(t)
    ensures Integrity(Apply(t, op).0)
  {
    if op.CreateDatabase? { NewDatabaseKeeps(t, op.d);
    } else if op.UpdateDatabase? { DatabaseRowKeeps(t, op.id, op.d);
    } else if op.SetEnabled? || op.DeleteDatabase? { DatabaseOpKeeps(t, op);
    } else if op.SetGroupEnabled? || op.DeleteGroup? { GroupOpKeeps(t, op);
    } else if op.CreateChannel? || op.DeleteChannel? { ChannelOpKeeps(t, op);
    } else if op.MarkSchedule? || op.MarkTime? { MarkKeeps(t, op);
    } else if op.CreateGroup? || op.UpdateGroup? || op.SetChannels? { ReplacingOpKeeps(t, op);
    } else { ScheduleOpKeeps(t, op); }
  }

  function ApplyAll(t: Tables, ops: seq<Op>): Tables
    decreases |ops|
  {
    if ops == [] then t else ApplyAll(Apply(t, ops[0]).0, ops[1..])
  }

  // Whatever the sequence of calls, failed ones included: no dangling schedule, time, membership
  // or link, no two databases with one triple, and no id above its counter.
  lemma {:induction false} IntegrityHolds(t: Tables, ops: seq<Op>)
    requires Integrity(t)
    ensures Integrity(ApplyAll(t, ops))
    decreases |ops|
  {
    if ops != [] {
      OpKeepsIntegrity(t, ops[0]);
      IntegrityHolds(Apply(t, ops[0]).0, ops[1..]);
    }
  }

  // ---------- Resolving a finished job to its database ----------

  predicate Resolves(t: Tables, job: Job, id: int) {
    && id in t.databases
    && t.databases[id].name == job.dbName && t.databases[id].agentId == job.agentId
    && t.databases[id].driver == job.driver
  }

  // A job built from row id resolves to that row, and to no other, exactly while the row is
  // there with the same triple, whatever calls were made in between.
  lemma {:induction false} JobFindsItsDatabase(t: Tables, ops: seq<Op>, id: int, runId: int)
    requires Integrity(t) && id in t.databases
    ensures var d := t.databases[id];
            var job := NewBackupJob(d.name, d.driver, d.params, d.storageTargetId, d.agentId, runId);
            var u := ApplyAll(t, ops);
            (forall x :: Resolves(u, job, x) <==> x == id)
            <==> (id in u.databases && SameTriple(u.databases[id], d))
  {
    IntegrityHolds(t, ops);
    var d, u := t.databases[id], ApplyAll(t, ops);
    var job := NewBackupJob(d.name, d.driver, d.params, d.storageTargetId, d.agentId, runId);
    if forall x :: Resolves(u, job, x) <==> x == id { assert Resolves(u, job, id); }
    if id in u.databases && SameTriple(u.databases[id], d) {
      forall x | Resolves(u, job, x) ensures x == id { assert SameTriple(u.databases[x], u.databases[id]); }
    }
  }

  // ---------- Run dates ----------

  // Apart from the two marks, no call changes a schedule or a shared time that is there before and
  // after it, and one that is new has an id never used before and no run date.
  lemma OnlyMarksWriteDates(t: Tables, op: Op)
    requires CountersAhead(t) && !op.MarkSchedule? && !op.MarkTime?
    ensures var u := Apply(t, op).0;
            && t.lastSchedule <= u.lastSchedule && t.lastTime <= u.lastTime
            && (forall id <- u.schedules ::
                  if id in t.schedules then u.schedules[id] == t.schedules[id]
                  else t.lastSchedule < id && u.schedules[id].lastRun == None)
            && (forall id <- u.times ::
                  if id in t.times then u.times[id] == t.times[id]
                  else t.lastTime < id && u.times[id].lastRun == None)
  {}
}
