/** What each call on the registry changes, row by row, and what it leaves alone. */
module RegistryCalls {
  import opened Wrappers
  import opened RegistryTables

  // Every row but this one, and every row of the other tables, stays.
  ghost predicate OtherRowsStay<T>(before: map<int, T>, after: map<int, T>, id: int) {
    && (forall r :: r != id ==> (r in after <==> r in before))
    && (forall r :: r != id && r in before ==> after[r] == before[r])
  }

  ghost predicate Adds<T>(before: map<int, T>, last: nat, after: map<int, T>, last': nat, row: T) {
    last' == last + 1 && last' in after && after[last'] == row && OtherRowsStay(before, after, last')
  }

  ghost predicate Removes<T>(before: map<int, T>, after: map<int, T>, id: int) {
    id !in after && OtherRowsStay(before, after, id)
  }

  // No other row has the same name on the same agent with the same driver.
  ghost predicate Free(t: Tables, d: Database, self: int) {
    forall id <- t.databases ::
      id != self ==> t.databases[id].name != d.name || t.databases[id].agentId != d.agentId
                     || t.databases[id].driver != d.driver
  }

  lemma CreateDatabaseMeans(t: Tables, d: Database)
    requires Integrity(t)
    ensures var (u, ok) := Apply(t, CreateDatabase(d));
            && (ok <==> Free(t, d, 0)) && (!ok ==> u == t)
            && (ok ==> Adds(t.databases, t.lastDatabase, u.databases, u.lastDatabase, d))
            && u == t.(databases := u.databases, lastDatabase := u.lastDatabase)
  {
    assert Taken(t, d, 0) <==> !Free(t, d, 0);
  }

  lemma UpdateDatabaseMeans(t: Tables, id: int, d: Database)
    ensures var (u, ok) := Apply(t, UpdateDatabase(id, d));
            && (ok <==> id !in t.databases || Free(t, d, id)) && (!ok || id !in t.databases ==> u == t)
            && (ok && id in t.databases ==>
                  id in u.databases && u.databases[id] == d && OtherRowsStay(t.databases, u.databases, id))
            && u == t.(databases := u.databases)
  {
    assert Taken(t, d, id) <==> !Free(t, d, id);
  }

  // A database that is switched on or off changes in nothing else.
  lemma SetEnabledMeans(t: Tables, id: int, enabled: bool)
    ensures var u := Apply(t, SetEnabled(id, enabled)).0;
            && u == t.(databases := u.databases) && OtherRowsStay(t.databases, u.databases, id)
            && (id in u.databases <==> id in t.databases)
            && (id in t.databases ==>
                  var a, b := t.databases[id], u.databases[id];
                  && b.enabled == enabled && b.name == a.name && b.driver == a.driver && b.params == a.params
                  && b.storageTargetId == a.storageTargetId && b.agentId == a.agentId)
  {}

  // A deleted database takes along exactly the rows that refer to it.
  lemma DeleteDatabaseMeans(t: Tables, id: int)
    ensures var u := Apply(t, DeleteDatabase(id)).0;
            && Removes(t.databases, u.databases, id)
            && (forall s :: s in u.schedules <==> s in t.schedules && t.schedules[s].databaseId != id)
            && (forall s <- u.schedules :: u.schedules[s] == t.schedules[s])
            && (forall m :: m in u.members <==> m in t.members && m.1 != id)
            && (forall l :: l in u.links <==> l in t.links && l.0 != id)
            && u == t.(databases := u.databases, schedules := u.schedules, members := u.members, links := u.links)
  {}

  lemma ScheduleCallsMean(t: Tables, id: int, timeOfDay: string)
    ensures var (u, ok) := Apply(t, CreateSchedule(id, timeOfDay));
            && (ok <==> id in t.databases) && (!ok ==> u == t)
            && (ok ==> Adds(t.schedules, t.lastSchedule, u.schedules, u.lastSchedule,
                            Schedule(id, timeOfDay, true, None)))
            && u == t.(schedules := u.schedules, lastSchedule := u.lastSchedule)
    ensures var u := Apply(t, DeleteSchedule(id)).0;
            Removes(t.schedules, u.schedules, id) && u == t.(schedules := u.schedules)
  {}

  lemma TimeCallsMean(t: Tables, id: int, timeOfDay: string)
    ensures var (u, ok) := Apply(t, CreateTime(id, timeOfDay));
            && (ok <==> id in t.groups) && (!ok ==> u == t)
            && (ok ==> Adds(t.times, t.lastTime, u.times, u.lastTime, SharedTime(id, timeOfDay, None)))
            && u == t.(times := u.times, lastTime := u.lastTime)
    ensures var u := Apply(t, DeleteTime(id)).0;
            Removes(t.times, u.times, id) && u == t.(times := u.times)
  {}

  lemma MarksMean(t: Tables, id: int, day: int)
    ensures var u := Apply(t, MarkSchedule(id, day)).0;
            && u == t.(schedules := u.schedules) && OtherRowsStay(t.schedules, u.schedules, id)
            && (id in u.schedules <==> id in t.schedules)
            && (id in t.schedules ==> u.schedules[id] == t.schedules[id].(lastRun := Some(day)))
    ensures var u := Apply(t, MarkTime(id, day)).0;
            && u == t.(times := u.times) && OtherRowsStay(t.times, u.times, id)
            && (id in u.times <==> id in t.times)
            && (id in t.times ==> u.times[id] == t.times[id].(lastRun := Some(day)))
  {}

  // The members of a shared schedule are the ids before the first bad one, and no other schedule's
  // change.
  ghost predicate MembersBecome(t: Tables, u: Tables, g: int, ids: seq<int>, ok: bool, known: bool) {
    exists n: nat :: InsertsExactly(known, t.databases.Keys, ids, n) && (ok <==> n == |ids|)
      && (forall m :: m in u.members <==> if m.0 == g then m.1 in ids[..n] else m in t.members)
  }

  lemma ReplaceMembersMeans(t: Tables, g: int, ids: seq<int>)
    ensures var (u, ok) := ReplaceMembers(t, g, ids);
            u == t.(members := u.members) && MembersBecome(t, u, g, ids, ok, g in t.groups)
  {
    var n := ReplaceIsExact(t.members, g, g in t.groups, t.databases.Keys, ids);
  }

  // A new shared schedule is on, and its row stays even when an id is refused.
  lemma CreateGroupMeans(t: Tables, name: string, ids: seq<int>)
    ensures var (u, ok) := Apply(t, CreateGroup(name, ids));
            && Adds(t.groups, t.lastGroup, u.groups, u.lastGroup, Group(name, true))
            && u == t.(groups := u.groups, lastGroup := u.lastGroup, members := u.members)
            && MembersBecome(t, u, u.lastGroup, ids, ok, true)
  {
    ReplaceMembersMeans(GroupCreated(t, name), t.lastGroup + 1, ids);
  }

  lemma UpdateGroupMeans(t: Tables, id: int, name: string, ids: seq<int>)
    ensures var (u, ok) := Apply(t, UpdateGroup(id, name, ids));
            && OtherRowsStay(t.groups, u.groups, id) && (id in u.groups <==> id in t.groups)
            && (id in t.groups ==> u.groups[id].name == name && u.groups[id].enabled == t.groups[id].enabled)
            && u == t.(groups := u.groups, members := u.members)
            && MembersBecome(t, u, id, ids, ok, id in t.groups)
  {
    ReplaceMembersMeans(GroupRenamed(t, id, name), id, ids);
  }

  lemma SetGroupEnabledMeans(t: Tables, id: int, enabled: bool)
    ensures var u := Apply(t, SetGroupEnabled(id, enabled)).0;
            && u == t.(groups := u.groups) && OtherRowsStay(t.groups, u.groups, id)
            && (id in u.groups <==> id in t.groups)
            && (id in t.groups ==> u.groups[id].name == t.groups[id].name && u.groups[id].enabled == enabled)
  {}

  lemma DeleteGroupMeans(t: Tables, id: int)
    ensures var u := Apply(t, DeleteGroup(id)).0;
            && Removes(t.groups, u.groups, id)
            && (forall s :: s in u.times <==> s in t.times && t.times[s].groupId != id)
            && (forall s <- u.times :: u.times[s] == t.times[s])
            && (forall m :: m in u.members <==> m in t.members && m.0 != id)
            && u == t.(groups := u.groups, times := u.times, members := u.members)
  {}

  lemma ChannelCallsMean(t: Tables, id: int, c: Channel)
    ensures var (u, ok) := Apply(t, CreateChannel(c));
            && ok && Adds(t.channels, t.lastChannel, u.channels, u.lastChannel, c)
            && u == t.(channels := u.channels, lastChannel := u.lastChannel)
    ensures var u := Apply(t, DeleteChannel(id)).0;
            && Removes(t.channels, u.channels, id)
            && (forall l :: l in u.links <==> l in t.links && l.1 != id)
            && u == t.(channels := u.channels, links := u.links)
  {}

  lemma SetChannelsMeans(t: Tables, d: int, ids: seq<int>)
    ensures var (u, ok) := Apply(t, SetChannels(d, ids));
            && u == t.(links := u.links)
            && (exists n: nat ::
                  InsertsExactly(d in t.databases, t.channels.Keys, ids, n) && (ok <==> n == |ids|)
                  && (forall l :: l in u.links <==> if l.0 == d then l.1 in ids[..n] else l in t.links))
  {
    var n := ReplaceIsExact(t.links, d, d in t.databases, t.channels.Keys, ids);
  }

  // What integrity says, table by table.
  lemma IntegrityMeans(t: Tables)
    requires Integrity(t)
    ensures forall s <- t.schedules :: t.schedules[s].databaseId in t.databases && 1 <= s <= t.lastSchedule
    ensures forall s <- t.times :: t.times[s].groupId in t.groups && 1 <= s <= t.lastTime
    ensures forall m <- t.members :: m.0 in t.groups && m.1 in t.databases
    ensures forall l <- t.links :: l.0 in t.databases && l.1 in t.channels
    ensures forall id <- t.databases :: 1 <= id <= t.lastDatabase && Free(t, t.databases[id], id)
    ensures forall id <- t.groups :: 1 <= id <= t.lastGroup
    ensures forall id <- t.channels :: 1 <= id <= t.lastChannel
  {
    forall id, other | id in t.databases && other in t.databases && id != other
      ensures t.databases[other].name != t.databases[id].name || t.databases[other].agentId != t.databases[id].agentId
              || t.databases[other].driver != t.databases[id].driver
    {
      assert !SameTriple(t.databases[other], t.databases[id]);
    }
  }
}
