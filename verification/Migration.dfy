/** The chain Open runs over a registry file of any age, one stage per statement or transaction. */
module Migration {
  import opened Wrappers
  import opened RegistryTables
  import opened Scheduler

  datatype OldTime = OldTime(timeOfDay: string, lastRun: Option<int>)

  // A file: its rows, and which of the old shapes its tables still have. While the agent column is
  // missing the rows' agentId means nothing, and likewise the groups' names.
  datatype File = File(
    t: Tables,
    hasDatabases: bool,               // the databases table exists at all
    hasAgent: bool,                   // databases.agent_id
    nameUnique: bool,                 // the old inline UNIQUE(name)
    tripleIndex: bool,                // idx_databases_name_agent_driver
    hasGroups: bool,                  // the shared_schedules table exists at all
    hasName: bool,                    // shared_schedules.name
    oldTimes: Option<map<int, OldTime>>, // shared_schedules.time_of_day and last_run_date
    hasEvents: bool,                  // notify_channels.notify_on_success and notify_on_error
    fk: bool)                         // foreign keys are enforced on this connection

  // The order in which a scan of a table yields its rows.
  ghost predicate Listing(ids: seq<int>, keys: set<int>) {
    && (forall i, j :: 0 <= i < j < |ids| ==> ids[i] != ids[j])
    && (forall i :: 0 <= i < |ids| ==> ids[i] in keys)
    && (forall id :: id in keys ==> exists i :: 0 <= i < |ids| && ids[i] == id)
  }

  function Connect(f: File): File { f.(fk := true) }

  // CREATE TABLE IF NOT EXISTS gives a missing table its current shape and leaves others alone.
  function ApplySchema(f: File): File {
    var g := if f.hasDatabases then f
             else f.(hasDatabases := true, hasAgent := true, nameUnique := false, tripleIndex := false);
    if g.hasGroups then g else g.(hasGroups := true, hasName := true, oldTimes := None)
  }

  predicate Covers(src: map<int, OldTime>, ids: seq<int>) {
    forall i :: 0 <= i < |ids| ==> ids[i] in src
  }

  function InsertTimes(t: Tables, src: map<int, OldTime>, ids: seq<int>): (u: Tables)
    requires Covers(src, ids)
    ensures u == t.(times := u.times, lastTime := u.lastTime)
    decreases |ids|
  {
    if ids == [] then t
    else
      var time := SharedTime(ids[0], src[ids[0]].timeOfDay, src[ids[0]].lastRun);
      InsertTimes(t.(times := t.times[t.lastTime + 1 := time], lastTime := t.lastTime + 1), src, ids[1..])
  }

  function SharedTimes(f: File, ids: seq<int>): File
    requires f.oldTimes.Some? ==> Covers(f.oldTimes.value, ids)
  {
    if f.oldTimes.None? then f
    else f.(t := InsertTimes(f.t, f.oldTimes.value, ids), oldTimes := None)
  }

  function ChannelEvents(f: File): File { f.(hasEvents := false) }

  function AgentColumn(f: File): File {
    if f.hasAgent then f
    else f.(hasAgent := true,
            t := f.t.(databases := map id | id in f.t.databases :: f.t.databases[id].(agentId := 0)))
  }

  function MaxOf(ids: seq<int>): nat {
    if ids == [] then 0 else if ids[0] > MaxOf(ids[1..]) then ids[0] else MaxOf(ids[1..])
  }

  function SchedulesWithout(rows: map<int, Schedule>, ids: set<int>): map<int, Schedule> {
    map s | s in rows && rows[s].databaseId !in ids :: rows[s]
  }

  function MembersWithout(pairs: set<(int, int)>, ids: set<int>): set<(int, int)> {
    set x | x in pairs && x.1 !in ids
  }

  function LinksWithout(pairs: set<(int, int)>, ids: set<int>): set<(int, int)> {
    set x | x in pairs && x.0 !in ids
  }

  // DROP TABLE empties the table first, and with foreign keys enforced that takes along every row
  // that refers to one of its rows.
  function DropDatabases(f: File): File {
    var t := f.t.(databases := map[], lastDatabase := 0);
    f.(nameUnique := false, tripleIndex := false,
       t := if f.fk then t.(schedules := SchedulesWithout(t.schedules, f.t.databases.Keys),
                            members := MembersWithout(t.members, f.t.databases.Keys),
                            links := LinksWithout(t.links, f.t.databases.Keys))
            else t)
  }

  // The rows are copied aside with their ids, and renamed back once the old table is gone; the new
  // table's counter is the largest id inserted.
  function Rebuild(f: File, ids: seq<int>): File {
    var g := DropDatabases(f);
    g.(t := g.t.(databases := f.t.databases, lastDatabase := MaxOf(ids)))
  }

  function NameScope(f: File, ids: seq<int>): File {
    if f.nameUnique then Rebuild(f.(fk := false), ids).(fk := true) else f
  }

  function NameColumn(f: File): File {
    if f.hasName then f
    else f.(hasName := true,
            t := f.t.(groups := map id | id in f.t.groups :: f.t.groups[id].(name := "")))
  }

  // The orders a scan of shared_schedules and of databases takes.
  datatype Scans = Scans(groups: seq<int>, rows: seq<int>)

  ghost predicate Scanned(f: File, sc: Scans) {
    Listing(sc.groups, f.t.groups.Keys) && Listing(sc.rows, f.t.databases.Keys)
  }

  const STAGES: nat := 7

  // One stage of Open; the fifth re-checks the foreign keys, the last creates the unique index.
  function Stage(f: File, sc: Scans, n: nat): Result<File> {
    match n
    case 1 => Ok(ApplySchema(f))
    case 2 => if f.oldTimes.Some? && !Covers(f.oldTimes.value, sc.groups) then Err("no such row")
              else Ok(SharedTimes(f, sc.groups))
    case 3 => Ok(ChannelEvents(f))
    case 4 => Ok(AgentColumn(f))
    case 5 => if f.nameUnique && !NoDangling(NameScope(f, sc.rows).t) then Err("foreign_key_check found violations")
              else Ok(NameScope(f, sc.rows))
    case 6 => Ok(NameColumn(f))
    case 7 => if !f.tripleIndex && !TriplesUnique(f.t) then Err("UNIQUE constraint failed")
              else Ok(f.(tripleIndex := true))
    case _ => Ok(f)
  }

  // The file once n stages have run; a crash leaves some such file behind.
  function After(f: File, sc: Scans, n: nat): Result<File> {
    if n == 0 then Ok(Connect(f))
    else
      var before := After(f, sc, n - 1);
      if before.Err? then before else Stage(before.value, sc, n)
  }

  function Open(f: File, sc: Scans): Result<File> { After(f, sc, STAGES) }

  // ---------- What legacy files look like ----------

  predicate NamesUnique(t: Tables) {
    forall a, b | a in t.databases && b in t.databases :: t.databases[a].name == t.databases[b].name ==> a == b
  }

  // Every shape an earlier release could have left: a table that is missing holds no rows, a file
  // without the agent column still has UNIQUE(name), and one-time shared schedules come without
  // rows in the newer times table.
  ghost predicate Legacy(f: File) {
    && NoDangling(f.t) && CountersAhead(f.t)
    && (!f.hasDatabases ==> f.t.databases == map[])
    && (!f.hasGroups ==> f.t.groups == map[])
    && (f.hasDatabases && !f.hasAgent ==> f.nameUnique)
    && (f.hasDatabases && f.nameUnique ==> NamesUnique(f.t))
    && (f.hasDatabases && !f.nameUnique ==> TriplesUnique(f.t))
    && (f.hasGroups && f.oldTimes.Some? ==> f.t.times == map[] && f.oldTimes.value.Keys == f.t.groups.Keys)
  }

  // Stage n has nothing left to do.
  predicate Done(f: File, n: nat) {
    && (n >= 1 ==> f.hasDatabases && f.hasGroups)
    && (n >= 2 ==> f.oldTimes.None?)
    && (n >= 3 ==> !f.hasEvents)
    && (n >= 4 ==> f.hasAgent)
    && (n >= 5 ==> !f.nameUnique)
    && (n >= 6 ==> f.hasName)
    && (n >= 7 ==> f.tripleIndex)
  }

  function WithAgent(f: File, d: Database): Database {
    if f.hasAgent then d else d.(agentId := 0)
  }

  function WithName(f: File, g: Group): Group {
    if f.hasName then g else g.(name := "")
  }

  // Everything in the file g that came from f, whatever stages lie between.
  ghost predicate Carried(f: File, g: File) {
    && g.t.databases.Keys == f.t.databases.Keys
    && (forall id <- f.t.databases :: WithAgent(g, g.t.databases[id]) == WithAgent(f, f.t.databases[id]))
    && g.t.schedules == f.t.schedules && g.t.lastSchedule == f.t.lastSchedule
    && g.t.groups.Keys == f.t.groups.Keys && g.t.lastGroup == f.t.lastGroup
    && (forall id <- f.t.groups :: WithName(g, g.t.groups[id]) == WithName(f, f.t.groups[id]))
    && g.t.members == f.t.members && g.t.links == f.t.links
    && g.t.channels == f.t.channels && g.t.lastChannel == f.t.lastChannel
    && (f.oldTimes.None? ==> g.t.times == f.t.times && g.t.lastTime == f.t.lastTime)
    && g.fk
  }

  lemma {:induction false} MaxIsBound(ids: seq<int>, id: int)
    requires id in ids
    ensures id <= MaxOf(ids)
  {
    if id != ids[0] { MaxIsBound(ids[1..], id); }
  }

  lemma {:induction false} InsertTimesCounts(t: Tables, src: map<int, OldTime>, ids: seq<int>)
    requires Covers(src, ids) && forall i :: 0 <= i < |ids| ==> ids[i] in t.groups
    requires NoDangling(t) && CountersAhead(t)
    ensures NoDangling(InsertTimes(t, src, ids)) && CountersAhead(InsertTimes(t, src, ids))
    decreases |ids|
  {
    if ids != [] {
      var time := SharedTime(ids[0], src[ids[0]].timeOfDay, src[ids[0]].lastRun);
      var u := t.(times := t.times[t.lastTime + 1 := time], lastTime := t.lastTime + 1);
      InsertTimesCounts(u, src, ids[1..]);
    }
  }

  ghost predicate Ready(f: File, sc: Scans, n: nat) {
    Legacy(f) && Scanned(f, sc) && Done(f, n) && f.fk
  }

  // Shapes only get newer.
  predicate Newer(f: File, g: File) {
    && (f.oldTimes.None? ==> g.oldTimes.None?) && (f.hasAgent ==> g.hasAgent) && (f.hasName ==> g.hasName)
  }

  // What the databases counter will be once the table has its current shape.
  function Counter(f: File, sc: Scans): nat {
    if f.hasDatabases && f.nameUnique then MaxOf(sc.rows) else f.t.lastDatabase
  }

  ghost predicate Evolves(f: File, g: File, sc: Scans) {
    Carried(f, g) && Newer(f, g) && Counter(g, sc) == Counter(f, sc)
  }

  lemma EvolvesOn(f: File, g: File, h: File, sc: Scans)
    requires Evolves(f, g, sc) && Evolves(g, h, sc)
    ensures Evolves(f, h, sc)
  {}

  lemma SchemaKeeps(f: File, sc: Scans)
    requires Ready(f, sc, 0)
    ensures Ready(ApplySchema(f), sc, 1) && Evolves(f, ApplySchema(f), sc)
  {}

  lemma TimesKeep(f: File, sc: Scans)
    requires Ready(f, sc, 1)
    ensures f.oldTimes.Some? ==> Covers(f.oldTimes.value, sc.groups)
    ensures Ready(SharedTimes(f, sc.groups), sc, 2) && Evolves(f, SharedTimes(f, sc.groups), sc)
  {
    if f.oldTimes.Some? { InsertTimesCounts(f.t, f.oldTimes.value, sc.groups); }
  }

  lemma AgentKeeps(f: File, sc: Scans)
    requires Ready(f, sc, 3)
    ensures Ready(AgentColumn(f), sc, 4) && Evolves(f, AgentColumn(f), sc)
  {}

  // With foreign keys off the rebuild cascades nowhere.
  lemma NameScopeKeeps(f: File, sc: Scans)
    requires Ready(f, sc, 4)
    ensures Ready(NameScope(f, sc.rows), sc, 5) && Evolves(f, NameScope(f, sc.rows), sc)
  {
    forall id | id in f.t.databases ensures id <= MaxOf(sc.rows) { MaxIsBound(sc.rows, id); }
  }

  // The rebuild keeps every schedule, membership and link exactly when foreign keys are off or there
  // is none to lose: enforced, they would all have gone with the old table.
  lemma RebuildNeedsKeysOff(f: File, ids: seq<int>)
    requires NoDangling(f.t)
    ensures var t := Rebuild(f, ids).t;
            (t.schedules == f.t.schedules && t.members == f.t.members && t.links == f.t.links)
            <==> (!f.fk || (f.t.schedules == map[] && f.t.members == {} && f.t.links == {}))
    ensures f.fk ==> var t := Rebuild(f, ids).t; t.schedules == map[] && t.members == {} && t.links == {}
  {
    var ids := f.t.databases.Keys;
    forall s: int ensures s !in SchedulesWithout(f.t.schedules, ids) {
      if s in f.t.schedules { assert f.t.schedules[s].databaseId in f.t.databases; }
    }
    forall m: (int, int) ensures m !in MembersWithout(f.t.members, ids) {
      if m in f.t.members { assert m.1 in f.t.databases; }
    }
    forall l: (int, int) ensures l !in LinksWithout(f.t.links, ids) {
      if l in f.t.links { assert l.0 in f.t.databases; }
    }
    assert SchedulesWithout(f.t.schedules, ids) == map[];
    assert MembersWithout(f.t.members, ids) == {} && LinksWithout(f.t.links, ids) == {};
  }

  lemma NameKeeps(f: File, sc: Scans)
    requires Ready(f, sc, 5)
    ensures Ready(NameColumn(f), sc, 6) && Evolves(f, NameColumn(f), sc)
  {}

  lemma StageKeeps(f: File, sc: Scans, n: nat)
    requires Ready(f, sc, n) && n < STAGES
    ensures Stage(f, sc, n + 1).Ok?
    ensures Ready(Stage(f, sc, n + 1).value, sc, n + 1) && Evolves(f, Stage(f, sc, n + 1).value, sc)
  {
    match n
    case 0 => SchemaKeeps(f, sc);
    case 1 => TimesKeep(f, sc);
    case 3 => AgentKeeps(f, sc);
    case 4 => NameScopeKeeps(f, sc);
    case 5 => NameKeeps(f, sc);
    case _ =>
  }

  lemma {:induction false} PrefixReady(f: File, sc: Scans, n: nat)
    requires Legacy(f) && Scanned(f, sc) && n <= STAGES
    ensures After(f, sc, n).Ok? && Ready(After(f, sc, n).value, sc, n)
  {
    if n > 0 {
      PrefixReady(f, sc, n - 1);
      StageKeeps(After(f, sc, n - 1).value, sc, n - 1);
    }
  }

  lemma EvolvesItself(f: File, sc: Scans)
    requires f.fk
    ensures Evolves(f, f, sc)
  {}

  // From any point of the chain to any later one, every legacy file carries everything over.
  lemma {:induction false} PrefixCarries(f: File, sc: Scans, j: nat, n: nat)
    requires Legacy(f) && Scanned(f, sc) && j <= n <= STAGES
    ensures After(f, sc, j).Ok? && After(f, sc, n).Ok?
    ensures Evolves(After(f, sc, j).value, After(f, sc, n).value, sc)
    decreases n
  {
    if j == n {
      PrefixReady(f, sc, n);
      EvolvesItself(After(f, sc, n).value, sc);
    } else {
      PrefixCarries(f, sc, j, n - 1);
      NextEvolves(f, sc, n - 1);
      EvolvesOn(After(f, sc, j).value, After(f, sc, n - 1).value, After(f, sc, n).value, sc);
    }
  }

  lemma {:induction false} NextEvolves(f: File, sc: Scans, n: nat)
    requires Legacy(f) && Scanned(f, sc) && n < STAGES
    ensures After(f, sc, n).Ok? && After(f, sc, n + 1).Ok?
    ensures Evolves(After(f, sc, n).value, After(f, sc, n + 1).value, sc)
  {
    PrefixReady(f, sc, n);
    StageKeeps(After(f, sc, n).value, sc, n);
  }

  // Opening any legacy file succeeds - in particular the unique index can always be built and the
  // rebuild loses no row to a cascade - and leaves a current file with every row, id, schedule,
  // membership and channel link it had.
  lemma OpenPreserves(f: File, sc: Scans)
    requires Legacy(f) && Scanned(f, sc)
    ensures Open(f, sc).Ok?
    ensures var g := Open(f, sc).value;
            && Carried(f, g) && Done(g, STAGES) && Integrity(g.t)
            && (forall id <- f.t.databases :: g.t.databases[id] == WithAgent(f, f.t.databases[id]))
            && (forall id <- f.t.groups :: g.t.groups[id] == WithName(f, f.t.groups[id]))
  {
    PrefixCarries(f, sc, 0, STAGES);
    PrefixReady(f, sc, STAGES);
  }

  // ---------- Interrupted and repeated opens ----------

  lemma {:induction false} DoneStagesDoNothing(g: File, sc: Scans, k: nat, j: nat)
    requires Done(g, k) && g.fk && j <= k <= STAGES
    ensures After(g, sc, j) == Ok(g)
  {
    if j > 0 { DoneStagesDoNothing(g, sc, k, j - 1); }
  }

  lemma {:induction false} RestartCatchesUp(f: File, g: File, sc: Scans, k: nat, n: nat)
    requires Legacy(f) && Scanned(f, sc) && k <= n <= STAGES && After(f, sc, k) == Ok(g)
    ensures After(g, sc, n) == After(f, sc, n)
    decreases n
  {
    if n == k {
      PrefixReady(f, sc, k);
      DoneStagesDoNothing(g, sc, k, k);
    } else {
      RestartCatchesUp(f, g, sc, k, n - 1);
    }
  }

  lemma {:induction false} MaxIsThere(ids: seq<int>)
    ensures MaxOf(ids) == 0 || exists i :: 0 <= i < |ids| && ids[i] == MaxOf(ids)
  {
    if ids != [] {
      MaxIsThere(ids[1..]);
      if MaxOf(ids) != 0 && ids[0] != MaxOf(ids) {
        var i :| 0 <= i < |ids[1..]| && ids[1..][i] == MaxOf(ids[1..]);
        assert ids[i + 1] == MaxOf(ids);
      }
    }
  }

  lemma {:induction false} MaxWithin(a: seq<int>, b: seq<int>, keys: set<int>)
    requires Listing(a, keys) && Listing(b, keys)
    ensures MaxOf(a) <= MaxOf(b)
  {
    MaxIsThere(a);
    if MaxOf(a) != 0 {
      var i :| 0 <= i < |a| && a[i] == MaxOf(a);
      var j :| 0 <= j < |b| && b[j] == a[i];
      MaxIsBound(b, b[j]);
    }
  }

  // Once the old times are moved, the orders of the scans no longer matter.
  lemma {:induction false} SameOnceMoved(g: File, sc: Scans, sc': Scans, n: nat)
    requires g.oldTimes.None? && MaxOf(sc.rows) == MaxOf(sc'.rows)
    ensures After(g, sc, n) == After(g, sc', n)
    ensures After(g, sc, n).Ok? ==> After(g, sc, n).value.oldTimes.None?
  {
    if n > 0 { SameOnceMoved(g, sc, sc', n - 1); }
  }

  // A process that died after any number of stages, whatever its connection had set, is made up
  // for by the next Open, which scans in whatever order it likes: it ends where an uninterrupted
  // one would have. Opening a current file changes nothing.
  lemma {:induction false} RestartConverges(f: File, g: File, sc: Scans, sc': Scans, k: nat, fk: bool)
    requires Legacy(f) && Scanned(f, sc) && Scanned(g, sc') && k <= STAGES && After(f, sc, k) == Ok(g)
    ensures Open(g.(fk := fk), sc') == Open(f, if k >= 2 then sc else sc')
    ensures k == STAGES ==> Open(g, sc') == Ok(g)
  {
    PrefixReady(f, sc, k);
    PrefixCarries(f, sc, 0, k);
    SameStart(g.(fk := fk), g, sc', STAGES);
    if k >= 2 {
      MaxWithin(sc.rows, sc'.rows, g.t.databases.Keys);
      MaxWithin(sc'.rows, sc.rows, g.t.databases.Keys);
      SameOnceMoved(g, sc, sc', STAGES);
      RestartCatchesUp(f, g, sc, k, STAGES);
    } else {
      EarlyStages(f, sc, sc', k);
      RestartCatchesUp(f, g, sc', k, STAGES);
    }
    if k == STAGES { DoneStagesDoNothing(g, sc', STAGES, STAGES); }
  }

  lemma {:induction false} EarlyStages(f: File, sc: Scans, sc': Scans, k: nat)
    requires k < 2
    ensures After(f, sc, k) == After(f, sc', k)
  {
    assert After(f, sc, 0) == After(f, sc', 0);
  }

  lemma {:induction false} SameStart(f: File, g: File, sc: Scans, n: nat)
    requires Connect(f) == Connect(g)
    ensures After(f, sc, n) == After(g, sc, n)
  {
    if n > 0 { SameStart(f, g, sc, n - 1); }
  }

  // ---------- The id counter of databases ----------

  // The rebuilt table's AUTOINCREMENT counter restarts at the largest surviving id, so an id that
  // a deleted database once had is handed out again exactly when the file still had UNIQUE(name)
  // and its newest databases had been deleted.
  lemma RebuildLowersTheCounter(f: File, sc: Scans)
    requires Legacy(f) && Scanned(f, sc)
    ensures Open(f, sc).Ok?
    ensures Open(f, sc).value.t.lastDatabase
         == if f.hasDatabases && f.nameUnique then MaxOf(sc.rows) else f.t.lastDatabase
    ensures Open(f, sc).value.t.lastDatabase + 1 <= f.t.lastDatabase
       <==> f.hasDatabases && f.nameUnique && MaxOf(sc.rows) < f.t.lastDatabase
  {
    PrefixCarries(f, sc, 0, STAGES);
    PrefixReady(f, sc, STAGES);
  }

  // The id that CreateDatabase hands out after opening is one the file had already used exactly
  // under that condition.
  lemma {:induction false} ReusedIds(f: File, sc: Scans, d: Database)
    requires Legacy(f) && Scanned(f, sc) && Open(f, sc).Ok?
    ensures var t := Open(f, sc).value.t;
            !Taken(t, d, 0) ==>
              && Apply(t, CreateDatabase(d)).1
              && Apply(t, CreateDatabase(d)).0.databases == t.databases[t.lastDatabase + 1 := d]
              && (t.lastDatabase + 1 <= f.t.lastDatabase
                  <==> f.hasDatabases && f.nameUnique && MaxOf(sc.rows) < f.t.lastDatabase)
  {
    RebuildLowersTheCounter(f, sc);
  }

  // Two databases were created under an old release, and the second one deleted again.
  const SHRUNK := File(EMPTY.(databases := map[1 := SHOP], lastDatabase := 2),
                       true, false, true, false, true, true, None, false, true)

  // Opening that file and creating a database gives the new one the deleted one's id.
  lemma {:induction false} IdTwoReturns(d: Database)
    requires d.name != "shop"
    ensures Legacy(SHRUNK) && Scanned(SHRUNK, Scans([], [1])) && Open(SHRUNK, Scans([], [1])).Ok?
    ensures var t := Open(SHRUNK, Scans([], [1])).value.t;
            Apply(t, CreateDatabase(d)) == (t.(databases := map[1 := SHOP, 2 := d], lastDatabase := 2), true)
  {
    var sc := Scans([], [1]);
    assert sc.rows[0] == 1;
    OpenPreserves(SHRUNK, sc);
    RebuildLowersTheCounter(SHRUNK, sc);
    var t := Open(SHRUNK, sc).value.t;
    assert MaxOf([1]) == 1;
    assert t.databases[1] == SHOP && t.databases.Keys == {1};
    assert t.databases == map[1 := SHOP];
  }

  // ---------- Shared times ----------

  // The due query over the old one-time-per-row shape.
  predicate OldDue(f: File, g: int, d: int, hhmm: string, day: int) {
    && f.oldTimes.Some? && g in f.oldTimes.value
    && g in f.t.groups && f.t.groups[g].enabled && (g, d) in f.t.members
    && d in f.t.databases && f.t.databases[d].enabled
    && f.oldTimes.value[g].timeOfDay == hhmm && f.oldTimes.value[g].lastRun != Some(day)
  }

  lemma {:induction false} InsertTimesAt(t: Tables, src: map<int, OldTime>, ids: seq<int>)
    requires Covers(src, ids) && forall id <- t.times :: id <= t.lastTime
    ensures var u := InsertTimes(t, src, ids);
            && u.lastTime == t.lastTime + |ids|
            && (forall id :: id in u.times <==> id in t.times || t.lastTime < id <= t.lastTime + |ids|)
            && (forall id :: id in t.times ==> u.times[id] == t.times[id])
            && (forall i :: 0 <= i < |ids| ==>
                  u.times[t.lastTime + 1 + i] == SharedTime(ids[i], src[ids[i]].timeOfDay, src[ids[i]].lastRun))
    decreases |ids|
  {
    if ids != [] {
      var time := SharedTime(ids[0], src[ids[0]].timeOfDay, src[ids[0]].lastRun);
      var v := t.(times := t.times[t.lastTime + 1 := time], lastTime := t.lastTime + 1);
      InsertTimesAt(v, src, ids[1..]);
      var u := InsertTimes(t, src, ids);
      forall i | 0 <= i < |ids|
        ensures u.times[t.lastTime + 1 + i] == SharedTime(ids[i], src[ids[i]].timeOfDay, src[ids[i]].lastRun)
      {
        if i > 0 { assert ids[i] == ids[1..][i - 1]; assert t.lastTime + 1 + i == v.lastTime + 1 + (i - 1); }
      }
    }
  }

  ghost function OldDueGroups(f: File, ids: seq<int>, n: nat, d: int, hhmm: string, day: int): set<int>
    requires n <= |ids|
  {
    set i | 0 <= i < n && OldDue(f, ids[i], d, hhmm, day) :: ids[i]
  }

  ghost function NewDueTimes(t: Tables, base: int, n: nat, d: int, hhmm: string, day: int): set<int> {
    set id | base <= id < base + n && Due(t, Shared(id, d), hhmm, day)
  }

  lemma OldStep(f: File, ids: seq<int>, n: nat, d: int, hhmm: string, day: int)
    requires 0 < n <= |ids| && forall i :: 0 <= i < n - 1 ==> ids[i] != ids[n - 1]
    ensures |OldDueGroups(f, ids, n, d, hhmm, day)|
         == |OldDueGroups(f, ids, n - 1, d, hhmm, day)| + if OldDue(f, ids[n - 1], d, hhmm, day) then 1 else 0
  {
    var a, a' := OldDueGroups(f, ids, n, d, hhmm, day), OldDueGroups(f, ids, n - 1, d, hhmm, day);
    assert a == a' + if OldDue(f, ids[n - 1], d, hhmm, day) then {ids[n - 1]} else {};
  }

  lemma NewStep(t: Tables, base: int, n: nat, d: int, hhmm: string, day: int)
    requires 0 < n
    ensures |NewDueTimes(t, base, n, d, hhmm, day)|
         == |NewDueTimes(t, base, n - 1, d, hhmm, day)| + if Due(t, Shared(base + n - 1, d), hhmm, day) then 1 else 0
  {
    var b, b' := NewDueTimes(t, base, n, d, hhmm, day), NewDueTimes(t, base, n - 1, d, hhmm, day);
    assert b == b' + if Due(t, Shared(base + n - 1, d), hhmm, day) then {base + n - 1} else {};
  }

  lemma {:induction false} SameCount(
    f: File, t: Tables, ids: seq<int>, base: int, n: nat, d: int, hhmm: string, day: int)
    requires n <= |ids| && forall i, j :: 0 <= i < j < |ids| ==> ids[i] != ids[j]
    requires forall id :: base <= id < base + n ==>
               (Due(t, Shared(id, d), hhmm, day) <==> OldDue(f, ids[id - base], d, hhmm, day))
    ensures |OldDueGroups(f, ids, n, d, hhmm, day)| == |NewDueTimes(t, base, n, d, hhmm, day)|
  {
    if n == 0 {
      assert OldDueGroups(f, ids, n, d, hhmm, day) == {} && NewDueTimes(t, base, n, d, hhmm, day) == {};
    } else {
      SameCount(f, t, ids, base, n - 1, d, hhmm, day);
      OldStep(f, ids, n, d, hhmm, day);
      NewStep(t, base, n, d, hhmm, day);
    }
  }

  ghost function AllOldDue(f: File, d: int, hhmm: string, day: int): set<int> {
    set g | g in f.t.groups && OldDue(f, g, d, hhmm, day)
  }

  ghost function AllNewDue(t: Tables, d: int, hhmm: string, day: int): set<int> {
    set id | id in t.times && Due(t, Shared(id, d), hhmm, day)
  }

  // For every minute, date and database, the due query over the migrated tables returns that
  // database as often as the query over the old shape did, already-fired dates included.
  lemma SharedTimesKeepDueJobs(f: File, sc: Scans, d: int, hhmm: string, day: int)
    requires Legacy(f) && Scanned(f, sc) && f.hasGroups && f.oldTimes.Some?
    ensures Open(f, sc).Ok?
    ensures |AllNewDue(Open(f, sc).value.t, d, hhmm, day)| == |AllOldDue(f, d, hhmm, day)|
  {
    TimesAfterOpen(f, sc);
    var t, n, base := Open(f, sc).value.t, |sc.groups|, f.t.lastTime + 1;
    forall id | base <= id < base + n
      ensures Due(t, Shared(id, d), hhmm, day) <==> OldDue(f, sc.groups[id - base], d, hhmm, day)
    {
      EachDueAlike(f, sc, id, d, hhmm, day);
    }
    SameCount(f, t, sc.groups, base, n, d, hhmm, day);
    assert AllNewDue(t, d, hhmm, day) == NewDueTimes(t, base, n, d, hhmm, day);
    assert AllOldDue(f, d, hhmm, day) == OldDueGroups(f, sc.groups, n, d, hhmm, day);
  }

  lemma {:induction false} EachDueAlike(f: File, sc: Scans, id: int, d: int, hhmm: string, day: int)
    requires Legacy(f) && Scanned(f, sc) && f.hasGroups && f.oldTimes.Some?
    requires f.t.lastTime + 1 <= id < f.t.lastTime + 1 + |sc.groups|
    ensures Open(f, sc).Ok?
    ensures Due(Open(f, sc).value.t, Shared(id, d), hhmm, day)
       <==> OldDue(f, sc.groups[id - f.t.lastTime - 1], d, hhmm, day)
  {
    PrefixReady(f, sc, STAGES);
    PrefixCarries(f, sc, 0, STAGES);
    TimesAfterOpen(f, sc);
    DueAlike(f, Open(f, sc).value, sc.groups[id - f.t.lastTime - 1], id, d, hhmm, day);
  }

  ghost predicate TimesOf(t: Tables, src: map<int, OldTime>, ids: seq<int>, base: int)
    requires Covers(src, ids)
  {
    && (forall id :: id in t.times <==> base <= id < base + |ids|)
    && (forall id :: id in t.times ==>
          base <= id < base + |ids|
          && t.times[id] == SharedTime(ids[id - base], src[ids[id - base]].timeOfDay, src[ids[id - base]].lastRun))
  }

  lemma {:induction false} InsertTimesFill(t: Tables, src: map<int, OldTime>, ids: seq<int>)
    requires Covers(src, ids) && t.times == map[]
    ensures TimesOf(InsertTimes(t, src, ids), src, ids, t.lastTime + 1)
  {
    InsertTimesAt(t, src, ids);
    var u := InsertTimes(t, src, ids);
    forall id | id in u.times
      ensures t.lastTime + 1 <= id < t.lastTime + 1 + |ids|
      ensures var i := id - t.lastTime - 1;
              u.times[id] == SharedTime(ids[i], src[ids[i]].timeOfDay, src[ids[i]].lastRun)
    {
      var i := id - t.lastTime - 1;
      assert u.times[t.lastTime + 1 + i] == u.times[id];
    }
  }

  lemma {:induction false} SecondStage(f: File, sc: Scans)
    requires Legacy(f) && Scanned(f, sc) && f.hasGroups && f.oldTimes.Some?
    ensures Covers(f.oldTimes.value, sc.groups)
    ensures After(f, sc, 2).Ok?
    ensures After(f, sc, 2).value.t == InsertTimes(f.t, f.oldTimes.value, sc.groups)
    ensures After(f, sc, 2).value.oldTimes.None?
  {
    assert After(f, sc, 0) == Ok(Connect(f));
    assert After(f, sc, 1) == Ok(ApplySchema(Connect(f)));
  }

  // One time row per old row, in scan order, with its time and last run date.
  lemma TimesAfterOpen(f: File, sc: Scans)
    requires Legacy(f) && Scanned(f, sc) && f.hasGroups && f.oldTimes.Some?
    ensures Open(f, sc).Ok? && Covers(f.oldTimes.value, sc.groups)
    ensures TimesOf(Open(f, sc).value.t, f.oldTimes.value, sc.groups, f.t.lastTime + 1)
  {
    PrefixCarries(f, sc, 2, STAGES);
    SecondStage(f, sc);
    InsertTimesFill(f.t, f.oldTimes.value, sc.groups);
  }

  lemma DueAlike(f: File, h: File, g: int, id: int, d: int, hhmm: string, day: int)
    requires Carried(Connect(f), h) && f.oldTimes.Some? && g in f.oldTimes.value && g in f.t.groups
    requires h.hasAgent && h.hasName
    requires id in h.t.times
             && h.t.times[id] == SharedTime(g, f.oldTimes.value[g].timeOfDay, f.oldTimes.value[g].lastRun)
    ensures Due(h.t, Shared(id, d), hhmm, day) <==> OldDue(f, g, d, hhmm, day)
  {}
}
