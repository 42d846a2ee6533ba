/** The registry as an object over mutable tables, and the scheduler's pass over it. Every method is
    tied to the operation or query of RegistryTables and Scheduler it carries out. */
module RegistryStore {
  import opened Wrappers
  import opened Jobs
  import opened RunLog
  import opened RegistryTables
  import opened Scheduler

  class Registry {
    var databases: map<int, Database>
    var lastDatabase: nat
    var schedules: map<int, Schedule>
    var lastSchedule: nat
    var groups: map<int, Group>
    var lastGroup: nat
    var members: set<(int, int)>
    var times: map<int, SharedTime>
    var lastTime: nat
    var channels: map<int, Channel>
    var lastChannel: nat
    var links: set<(int, int)>

    function Contents(): Tables
      reads this
    {
      Tables(databases, lastDatabase, schedules, lastSchedule, groups, lastGroup, members,
             times, lastTime, channels, lastChannel, links)
    }

    constructor ()
      ensures Contents() == EMPTY && Integrity(Contents())
    {
      databases, lastDatabase, schedules, lastSchedule := map[], 0, map[], 0;
      groups, lastGroup, members, times, lastTime := map[], 0, {}, map[], 0;
      channels, lastChannel, links := map[], 0, {};
    }

    // Whether the unique index already holds d's triple under another id.
    method TripleTaken(d: Database, self: int) returns (taken: bool)
      ensures taken <==> Taken(Contents(), d, self)
    {
      var rows := databases.Items;
      taken := false;
      while rows != {}
        invariant rows <= databases.Items
        invariant !taken ==> forall id :: id in databases && (id, databases[id]) !in rows ==>
                    id == self || !SameTriple(databases[id], d)
        invariant taken ==> Taken(Contents(), d, self)
        decreases rows
      {
        var row :| row in rows;
        rows := rows - {row};
        if row.0 != self && SameTriple(row.1, d) {
          assert SameTriple(Contents().databases[row.0], d);
          taken := true;
        }
      }
    }

    method Create(d: Database) returns (id: Option<int>)
      modifies this
      ensures Contents() == RegistryTables.Apply(old(Contents()), CreateDatabase(d)).0
      ensures id == if Taken(old(Contents()), d, 0) then None else Some(old(lastDatabase) + 1)
    {
      var taken := TripleTaken(d, 0);
      if taken {
        return None;
      }
      lastDatabase := lastDatabase + 1;
      databases := databases[lastDatabase := d];
      id := Some(lastDatabase);
    }

    method Update(id: int, d: Database) returns (ok: bool)
      modifies this
      ensures (Contents(), ok) == RegistryTables.Apply(old(Contents()), UpdateDatabase(id, d))
    {
      if id !in databases {
        return true;
      }
      var taken := TripleTaken(d, id);
      if taken {
        return false;
      }
      databases := databases[id := d];
      ok := true;
    }

    method Delete(id: int)
      modifies this
      ensures Contents() == DropDatabase(old(Contents()), id)
    {
      databases := databases - {id};
      schedules := map s | s in schedules && schedules[s].databaseId != id :: schedules[s];
      members := set m | m in members && m.1 != id;
      links := set l | l in links && l.0 != id;
    }

    // The row a finished job belongs to; with the unique index there is at most one.
    method GetByNameAgentDriver(name: string, agentId: int, driver: string) returns (found: Option<int>)
      ensures found.Some? ==>
                found.value in databases && databases[found.value].name == name
                && databases[found.value].agentId == agentId && databases[found.value].driver == driver
      ensures found.None? ==>
                forall id :: id in databases ==>
                  databases[id].name != name || databases[id].agentId != agentId || databases[id].driver != driver
    {
      var rows := databases.Items;
      while rows != {}
        invariant rows <= databases.Items
        invariant forall id :: id in databases && (id, databases[id]) !in rows ==>
                    databases[id].name != name || databases[id].agentId != agentId || databases[id].driver != driver
        decreases rows
      {
        var row :| row in rows;
        if row.1.name == name && row.1.agentId == agentId && row.1.driver == driver {
          return Some(row.0);
        }
        rows := rows - {row};
      }
      found := None;
    }

    // Not one transaction: what was inserted before the first refused id stays.
    method SetSharedScheduleDatabases(g: int, ids: seq<int>) returns (ok: bool)
      modifies this`members
      ensures (Contents(), ok) == ReplaceMembers(old(Contents()), g, ids)
      ensures exists n: nat :: InsertsExactly(g in groups, databases.Keys, ids, n) && (ok <==> n == |ids|)
                && (forall m :: m in members <==> if m.0 == g then m.1 in ids[..n] else m in old(members))
    {
      ghost var n := ReplaceIsExact(members, g, g in groups, databases.Keys, ids);
      members := set m | m in members && m.0 != g;
      var k := 0;
      while k < |ids|
        invariant k <= |ids|
        invariant ReplaceAll(old(members), g, g in groups, databases.Keys, ids)
               == InsertAll(members, g, g in groups, databases.Keys, ids[k..])
      {
        assert ids[k..][1..] == ids[k + 1..];
        if g !in groups || ids[k] !in databases || (g, ids[k]) in members {
          return false;
        }
        members := members + {(g, ids[k])};
        k := k + 1;
      }
      ok := true;
    }

    method SetDatabaseNotifyChannels(d: int, ids: seq<int>) returns (ok: bool)
      modifies this`links
      ensures (Contents(), ok) == ReplaceLinks(old(Contents()), d, ids)
      ensures exists n: nat :: InsertsExactly(d in databases, channels.Keys, ids, n) && (ok <==> n == |ids|)
                && (forall l :: l in links <==> if l.0 == d then l.1 in ids[..n] else l in old(links))
    {
      ghost var n := ReplaceIsExact(links, d, d in databases, channels.Keys, ids);
      links := set l | l in links && l.0 != d;
      var k := 0;
      while k < |ids|
        invariant k <= |ids|
        invariant ReplaceAll(old(links), d, d in databases, channels.Keys, ids)
               == InsertAll(links, d, d in databases, channels.Keys, ids[k..])
      {
        assert ids[k..][1..] == ids[k + 1..];
        if d !in databases || ids[k] !in channels || (d, ids[k]) in links {
          return false;
        }
        links := links + {(d, ids[k])};
        k := k + 1;
      }
      ok := true;
    }

    // Both due queries, in whatever order the rows come.
    method ListDue(shared: bool, hhmm: string, day: int) returns (rows: seq<Trigger>)
      ensures CompleteListing(Contents(), shared, hhmm, day, rows)
      ensures !shared ==> forall s :: Own(s) in rows <==>
                && s in schedules && schedules[s].enabled && schedules[s].timeOfDay == hhmm
                && schedules[s].lastRun != Some(day)
                && schedules[s].databaseId in databases && databases[schedules[s].databaseId].enabled
      ensures shared ==> forall i, d :: Shared(i, d) in rows <==>
                && i in times && times[i].timeOfDay == hhmm && times[i].lastRun != Some(day)
                && times[i].groupId in groups && groups[times[i].groupId].enabled
                && (times[i].groupId, d) in members && d in databases && databases[d].enabled
    {
      var todo: set<Trigger> :=
        if shared then set i, d | i in times && d in databases :: Shared(i, d) else set i | i in schedules :: Own(i);
      assert forall x: Trigger :: x.Shared? == shared && Due(Contents(), x, hhmm, day) ==> x in todo;
      rows := [];
      while todo != {}
        invariant Listed(Contents(), shared, hhmm, day, rows)
        invariant forall i :: 0 <= i < |rows| ==> rows[i] !in todo
        invariant forall x :: x in todo ==> x.Shared? == shared
        invariant forall x: Trigger :: x.Shared? == shared && Due(Contents(), x, hhmm, day) ==> x in rows || x in todo
        decreases todo
      {
        var x :| x in todo;
        todo := todo - {x};
        if Due(Contents(), x, hhmm, day) {
          rows := rows + [x];
        }
      }
    }

    method MarkRun(x: Trigger, day: int)
      modifies this
      ensures Contents() == Mark(old(Contents()), x, day)
      ensures schedules == if x.Own? && x.id in old(schedules)
                           then old(schedules)[x.id := old(schedules)[x.id].(lastRun := Some(day))] else old(schedules)
      ensures times == if x.Shared? && x.id in old(times)
                       then old(times)[x.id := old(times)[x.id].(lastRun := Some(day))] else old(times)
    {
      if x.Own? && x.id in schedules {
        schedules := schedules[x.id := schedules[x.id].(lastRun := Some(day))];
      } else if x.Shared? && x.id in times {
        times := times[x.id := times[x.id].(lastRun := Some(day))];
      }
    }
  }

  // The desk a scheduler leaves behind, seen from the one it started from.
  ghost predicate Shows(s: Desk, reg: Registry, runs: RunTables, q: Client)
    reads reg, runs, q
  {
    s.t == reg.Contents() && s.log == runs.Contents() && s.items == q.items
  }

  method EnqueueDue(reg: Registry, runs: RunTables, q: Client, x: Trigger, day: int, o: Outcome, ghost s: Desk)
    requires Shows(s, reg, runs, q) && Exists(s.t, x)
    modifies reg, runs, q
    ensures Shows(Fire(s, x, day, o), reg, runs, q)
    ensures forall d :: IsFor(s.t, x, d) ==>
              && d in s.t.databases
              && Enqueues(s.log, s.items, runs.Contents(), q.items, d, s.t.databases[d], o.row, o.push)
  {
    forall d | IsFor(s.t, x, d)
      ensures d in s.t.databases
      ensures var u := Fire(s, x, day, o);
              Enqueues(s.log, s.items, u.log, u.items, d, s.t.databases[d], o.row, o.push)
    {
      FireEnqueues(s, x, d, day, o);
    }
    var id := DatabaseOf(reg.Contents(), x);
    var d := reg.databases[id];
    var created := runs.CreateBackupRun(EnqueuedRow(id, d.name, d.driver), !o.row.Refused?);
    var runId := if o.row.Stored? then created else 0;
    var job := NewBackupJob(d.name, d.driver, d.params, d.storageTargetId, d.agentId, runId);
    var ok := q.Push(job, !o.push.Refused?, o.push.Stored?);
    if !ok {
      return;
    }
    if o.marked {
      reg.MarkRun(x, day);
    }
  }

  method EnqueueAll(reg: Registry, runs: RunTables, q: Client, rows: seq<Trigger>, day: int,
                    outs: seq<Outcome>, ghost s: Desk)
    requires |rows| == |outs| && Shows(s, reg, runs, q) && AllExist(s.t, rows)
    modifies reg, runs, q
    ensures Shows(FireAll(s, rows, day, outs), reg, runs, q)
  {
    ghost var u := s;
    var k := 0;
    while k < |rows|
      invariant k <= |rows| && Shows(u, reg, runs, q) && AllExist(u.t, rows[k..])
      invariant FireAll(s, rows, day, outs) == FireAll(u, rows[k..], day, outs[k..])
    {
      assert rows[k..][1..] == rows[k + 1..] && outs[k..][1..] == outs[k + 1..];
      FireKeepsRows(u, rows[k], day, outs[k], rows[k + 1..]);
      EnqueueDue(reg, runs, q, rows[k], day, outs[k], u);
      u := Fire(u, rows[k], day, outs[k]);
      k := k + 1;
    }
  }

  // One tick: list and enqueue the due schedules, then the due shared times. A listing that fails
  // yields no rows and does not keep the other from being made.
  method CheckAndEnqueue(reg: Registry, runs: RunTables, q: Client, hhmm: string, day: int,
                         ownFails: bool, sharedFails: bool, outcome: Trigger -> Outcome, ghost s: Desk)
    returns (own: seq<Trigger>, shared: seq<Trigger>, ghost u: Desk)
    requires Shows(s, reg, runs, q) && s.day == day
    modifies reg, runs, q
    ensures if ownFails then own == [] else CompleteListing(s.t, false, hhmm, day, own)
    ensures u == FireAll(s, own, day, Outs(own, outcome))
    ensures if sharedFails then shared == [] else CompleteListing(u.t, true, hhmm, day, shared)
    ensures Shows(FireAll(u, shared, day, Outs(shared, outcome)), reg, runs, q)
    ensures old(q.items) <= u.items <= q.items
    ensures JobsOfPass(s.t, own, Outs(own, outcome), u.items[|old(q.items)|..])
    ensures JobsOfPass(u.t, shared, Outs(shared, outcome), q.items[|u.items|..])
  {
    own, shared := [], [];
    if !ownFails {
      own := reg.ListDue(false, hhmm, day);
    }
    EnqueueAll(reg, runs, q, own, day, Outs(own, outcome), s);
    u := FireAll(s, own, day, Outs(own, outcome));
    FireAllAdds(s, own, day, Outs(own, outcome));
    if !sharedFails {
      shared := reg.ListDue(true, hhmm, day);
    }
    EnqueueAll(reg, runs, q, shared, day, Outs(shared, outcome), u);
    FireAllAdds(u, shared, day, Outs(shared, outcome));
  }

  function Outs(rows: seq<Trigger>, outcome: Trigger -> Outcome): seq<Outcome> {
    seq(|rows|, i requires 0 <= i < |rows| => outcome(rows[i]))
  }
}
