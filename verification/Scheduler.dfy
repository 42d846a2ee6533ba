/** What is due, what one pass of the scheduler does about it, and what every pass keeps. */
module Scheduler {
  import opened Wrappers
  import opened Jobs
  import opened RunLog
  import opened RegistryTables

  // One thing that can become due: a schedule of its own, or a shared time for one member.
  datatype Trigger = Own(id: int) | Shared(id: int, databaseId: int)

  predicate KeyExists(t: Tables, x: Trigger) {
    if x.Own? then x.id in t.schedules else x.id in t.times
  }

  predicate Exists(t: Tables, x: Trigger) {
    match x
    case Own(id) => id in t.schedules && t.schedules[id].databaseId in t.databases
    case Shared(id, d) =>
      id in t.times && t.times[id].groupId in t.groups && (t.times[id].groupId, d) in t.members && d in t.databases
  }

  function DatabaseOf(t: Tables, x: Trigger): int
    requires Exists(t, x)
  {
    if x.Own? then t.schedules[x.id].databaseId else x.databaseId
  }

  predicate Active(t: Tables, x: Trigger) {
    && Exists(t, x) && t.databases[DatabaseOf(t, x)].enabled
    && (if x.Own? then t.schedules[x.id].enabled else t.groups[t.times[x.id].groupId].enabled)
  }

  function TimeOf(t: Tables, x: Trigger): string
    requires KeyExists(t, x)
  {
    if x.Own? then t.schedules[x.id].timeOfDay else t.times[x.id].timeOfDay
  }

  function LastRun(t: Tables, x: Trigger): Option<int> {
    if !KeyExists(t, x) then None
    else if x.Own? then t.schedules[x.id].lastRun else t.times[x.id].lastRun
  }

  // The WHERE clause of both due queries.
  predicate Due(t: Tables, x: Trigger, hhmm: string, day: int) {
    Active(t, x) && TimeOf(t, x) == hhmm && LastRun(t, x) != Some(day)
  }

  function Mark(t: Tables, x: Trigger, day: int): Tables {
    if x.Own? then MarkScheduleRun(t, x.id, day) else MarkTimeRun(t, x.id, day)
  }

  predicate SameKey(x: Trigger, y: Trigger) {
    x.id == y.id && (x.Own? <==> y.Own?)
  }

  datatype Event = Event(x: Trigger, day: int)

  // The tables, the run log and the list a scheduler works on; the latest local date it has seen;
  // the jobs that reached the list, and those of them that were not followed by a mark.
  datatype Desk = Desk(
    t: Tables, log: Log, items: seq<Job>, day: int, jobs: multiset<Event>, unmarked: multiset<Event>)

  datatype Outcome = Outcome(row: Write, push: Write, marked: bool)

  const GOOD := Outcome(Stored, Stored, true)

  function JobFor(d: Database, runId: int): Job {
    NewBackupJob(d.name, d.driver, d.params, d.storageTargetId, d.agentId, runId)
  }

  function RowFor(id: int, d: Database): RunRow { EnqueuedRow(id, d.name, d.driver) }

  // Create the run row, push the job, mark the trigger; a failed row still pushes, a failed push
  // does not mark.
  function Fire(s: Desk, x: Trigger, day: int, o: Outcome): Desk
    requires Exists(s.t, x)
  {
    var id := DatabaseOf(s.t, x);
    var d := s.t.databases[id];
    var g := if o.row.Refused? then s.log else InsertRun(s.log, RowFor(id, d));
    var runId := if o.row.Stored? then s.log.lastRun + 1 else 0;
    var e := Event(x, day);
    if o.push.Refused? then s.(log := g)
    else
      var marks := o.push.Stored? && o.marked;
      s.(log := g, items := s.items + [JobFor(d, runId)],
         jobs := s.jobs + multiset{e},
         unmarked := if marks then s.unmarked else s.unmarked + multiset{e},
         t := if marks then Mark(s.t, x, day) else s.t)
  }

  // ---------- What firing a trigger puts on the list and in the log ----------

  // The job asks for this database, with its own connection, destination and agent.
  predicate JobIsFor(j: Job, d: Database) {
    && j.cmd == "backup" && j.dbName == d.name && j.driver == d.driver
    && j.storageTargetId == d.storageTargetId && j.agentId == d.agentId
    && (ParseParams(j.params) == d.params <==> Clean(d.params))
  }

  predicate RowIsFor(r: RunRow, id: int, d: Database) {
    && r.databaseId == id && r.dbName == d.name && r.driver == d.driver
    && r.state == Running && r.message == "" && r.durationMs == 0 && r.startedAt == ""
  }

  // Which database a trigger is for: the one its schedule belongs to, or the member of the group.
  predicate IsFor(t: Tables, x: Trigger, id: int) {
    match x
    case Own(s) => s in t.schedules && t.schedules[s].databaseId == id
    case Shared(_, d) => d == id
  }

  // One row, unless it was refused, under the next id; one job, unless its push was refused, that
  // carries that id if the row is known to be there; nothing else.
  ghost predicate Enqueues(
    g: Log, items: seq<Job>, g': Log, items': seq<Job>, id: int, d: Database, row: Write, push: Write)
  {
    && (if row.Refused? then g' == g
        else
          && g'.lastRun == g.lastRun + 1 && g'.files == g.files && g'.lastFile == g.lastFile
          && g'.lastRun in g'.runs && RowIsFor(g'.runs[g'.lastRun], id, d)
          && (forall r :: r != g'.lastRun ==> (r in g'.runs <==> r in g.runs))
          && (forall r :: r != g'.lastRun && r in g.runs ==> g'.runs[r] == g.runs[r]))
    && (if push.Refused? then items' == items
        else
          && |items'| == |items| + 1 && items <= items' && JobIsFor(items'[|items|], d)
          && items'[|items|].runId == if row.Stored? then g.lastRun + 1 else 0)
  }

  lemma JobForIsFor(d: Database, runId: int)
    ensures JobIsFor(JobFor(d, runId), d) && JobFor(d, runId).runId == runId
  {
    ParamsRoundTrip(d.params);
  }

  // A trigger enqueues the database it is for, and marks its own key, and only when the push is
  // known to have gone through.
  lemma FireEnqueues(s: Desk, x: Trigger, id: int, day: int, o: Outcome)
    requires Exists(s.t, x) && IsFor(s.t, x, id)
    ensures id in s.t.databases
    ensures var u := Fire(s, x, day, o);
            && Enqueues(s.log, s.items, u.log, u.items, id, s.t.databases[id], o.row, o.push)
            && u.jobs == s.jobs + (if o.push.Refused? then multiset{} else multiset{Event(x, day)})
            && u.day == s.day && (!(o.push.Stored? && o.marked) ==> u.t == s.t)
  {
    JobForIsFor(s.t.databases[id], if o.row.Stored? then s.log.lastRun + 1 else 0);
    assert DatabaseOf(s.t, x) == id;
    if !o.push.Refused? {
      var u := Fire(s, x, day, o);
      assert u.items == s.items + [JobFor(s.t.databases[id], if o.row.Stored? then s.log.lastRun + 1 else 0)];
    }
  }

  // Marking writes the date into the trigger's own row, and into no other.
  lemma MarkMeans(t: Tables, x: Trigger, day: int)
    ensures var u := Mark(t, x, day);
            && u == t.(schedules := u.schedules, times := u.times)
            && u.schedules.Keys == t.schedules.Keys && u.times.Keys == t.times.Keys
            && (forall id <- t.schedules ::
                  u.schedules[id]
                  == if x == Own(id) then t.schedules[id].(lastRun := Some(day)) else t.schedules[id])
            && (forall id <- t.times ::
                  u.times[id]
                  == if x.Shared? && x.id == id then t.times[id].(lastRun := Some(day)) else t.times[id])
  {}

  // The due queries, condition by condition.
  lemma DueMeans(t: Tables, x: Trigger, hhmm: string, day: int)
    ensures x.Own? ==>
              (Due(t, x, hhmm, day) <==>
                && x.id in t.schedules && t.schedules[x.id].enabled
                && t.schedules[x.id].databaseId in t.databases && t.databases[t.schedules[x.id].databaseId].enabled
                && t.schedules[x.id].timeOfDay == hhmm && t.schedules[x.id].lastRun != Some(day))
    ensures x.Shared? ==>
              (Due(t, x, hhmm, day) <==>
                && x.id in t.times && t.times[x.id].groupId in t.groups && t.groups[t.times[x.id].groupId].enabled
                && (t.times[x.id].groupId, x.databaseId) in t.members
                && x.databaseId in t.databases && t.databases[x.databaseId].enabled
                && t.times[x.id].timeOfDay == hhmm && t.times[x.id].lastRun != Some(day))
  {}

  // The job is for the database the trigger is for.
  predicate IsJobOf(t: Tables, x: Trigger, j: Job) {
    match x
    case Own(s) =>
      && s in t.schedules && t.schedules[s].databaseId in t.databases
      && JobIsFor(j, t.databases[t.schedules[s].databaseId])
    case Shared(_, d) => d in t.databases && JobIsFor(j, t.databases[d])
  }

  // One job for each row whose push landed, in order.
  predicate JobsOfPass(t: Tables, rows: seq<Trigger>, outs: seq<Outcome>, added: seq<Job>)
    requires |rows| == |outs|
    decreases |rows|
  {
    if rows == [] then added == []
    else if outs[0].push.Refused? then JobsOfPass(t, rows[1..], outs[1..], added)
    else added != [] && IsJobOf(t, rows[0], added[0]) && JobsOfPass(t, rows[1..], outs[1..], added[1..])
  }

  // The two tables have the same databases and give every schedule the same one.
  ghost predicate SameTargets(t: Tables, u: Tables) {
    && u.databases == t.databases && u.schedules.Keys == t.schedules.Keys
    && (forall s <- t.schedules :: u.schedules[s].databaseId == t.schedules[s].databaseId)
  }

  lemma FireKeepsTargets(s: Desk, x: Trigger, day: int, o: Outcome)
    requires Exists(s.t, x)
    ensures SameTargets(s.t, Fire(s, x, day, o).t)
  {
    MarkMeans(s.t, x, day);
  }

  lemma SameTargetsSameJob(t: Tables, u: Tables, x: Trigger, j: Job)
    requires SameTargets(t, u)
    ensures IsJobOf(u, x, j) <==> IsJobOf(t, x, j)
  {}

  lemma {:induction false} SameTargetsSameJobs(
    t: Tables, u: Tables, rows: seq<Trigger>, outs: seq<Outcome>, added: seq<Job>)
    requires |rows| == |outs| && SameTargets(t, u)
    ensures JobsOfPass(u, rows, outs, added) <==> JobsOfPass(t, rows, outs, added)
    decreases |rows|
  {
    if rows != [] {
      SameTargetsSameJobs(t, u, rows[1..], outs[1..], added);
      if added != [] {
        SameTargetsSameJobs(t, u, rows[1..], outs[1..], added[1..]);
        SameTargetsSameJob(t, u, rows[0], added[0]);
      }
    }
  }

  lemma FireAdds(s: Desk, x: Trigger, day: int, o: Outcome)
    requires Exists(s.t, x)
    ensures var u := Fire(s, x, day, o);
            if o.push.Refused? then u.items == s.items
            else |u.items| == |s.items| + 1 && s.items <= u.items && IsJobOf(s.t, x, u.items[|s.items|])
  {
    FireEnqueues(s, x, DatabaseOf(s.t, x), day, o);
  }

  // A pass adds to the list one job for each of its rows whose push landed, in order, each for the
  // database its trigger is for.
  lemma {:induction false} FireAllAdds(s: Desk, rows: seq<Trigger>, day: int, outs: seq<Outcome>)
    requires |rows| == |outs| && AllExist(s.t, rows)
    ensures var u := FireAll(s, rows, day, outs);
            s.items <= u.items && JobsOfPass(s.t, rows, outs, u.items[|s.items|..])
    decreases |rows|
  {
    if rows != [] {
      var v := Fire(s, rows[0], day, outs[0]);
      FireKeepsRows(s, rows[0], day, outs[0], rows[1..]);
      FireAllAdds(v, rows[1..], day, outs[1..]);
      FireKeepsTargets(s, rows[0], day, outs[0]);
      FireAdds(s, rows[0], day, outs[0]);
      var items := FireAll(s, rows, day, outs).items;
      SameTargetsSameJobs(s.t, v.t, rows[1..], outs[1..], items[|v.items|..]);
      OneMoreJob(s.t, rows, outs, s.items, v.items, items);
    }
  }

  lemma {:induction false} OneMoreJob(
    t: Tables, rows: seq<Trigger>, outs: seq<Outcome>, a: seq<Job>, b: seq<Job>, c: seq<Job>)
    requires |rows| == |outs| > 0 && a <= b <= c && JobsOfPass(t, rows[1..], outs[1..], c[|b|..])
    requires if outs[0].push.Refused? then b == a else |b| == |a| + 1 && IsJobOf(t, rows[0], b[|a|])
    ensures JobsOfPass(t, rows, outs, c[|a|..])
  {
    if !outs[0].push.Refused? {
      assert c[|a|..][0] == b[|a|];
      assert c[|a|..][1..] == c[|b|..];
    }
  }

  lemma MarkKeepsShape(t: Tables, x: Trigger, day: int, y: Trigger)
    ensures Exists(Mark(t, x, day), y) <==> Exists(t, y)
    ensures Active(Mark(t, x, day), y) <==> Active(t, y)
    ensures KeyExists(Mark(t, x, day), y) <==> KeyExists(t, y)
    ensures KeyExists(t, y) ==> TimeOf(Mark(t, x, day), y) == TimeOf(t, y)
    ensures LastRun(Mark(t, x, day), y)
         == if SameKey(x, y) && KeyExists(t, y) then Some(day) else LastRun(t, y)
  {}

  predicate AllExist(t: Tables, rows: seq<Trigger>) {
    forall i :: 0 <= i < |rows| ==> Exists(t, rows[i])
  }

  predicate Distinct(rows: seq<Trigger>) {
    forall i, j :: 0 <= i < j < |rows| ==> rows[i] != rows[j]
  }

  lemma FireKeepsRows(s: Desk, x: Trigger, day: int, o: Outcome, rows: seq<Trigger>)
    requires Exists(s.t, x) && AllExist(s.t, rows)
    ensures AllExist(Fire(s, x, day, o).t, rows)
  {
    forall i | 0 <= i < |rows| ensures Exists(Fire(s, x, day, o).t, rows[i]) { MarkKeepsShape(s.t, x, day, rows[i]); }
  }

  function FireAll(s: Desk, rows: seq<Trigger>, day: int, outs: seq<Outcome>): Desk
    requires |rows| == |outs| && AllExist(s.t, rows)
    decreases |rows|
  {
    if rows == [] then s
    else
      FireKeepsRows(s, rows[0], day, outs[0], rows[1..]);
      FireAll(Fire(s, rows[0], day, outs[0]), rows[1..], day, outs[1..])
  }

  // The rows are any due ones: a failed listing or a crash leaves some out.
  predicate Listed(t: Tables, shared: bool, hhmm: string, day: int, rows: seq<Trigger>) {
    Distinct(rows) && forall i :: 0 <= i < |rows| ==> rows[i].Shared? == shared && Due(t, rows[i], hhmm, day)
  }

  // One uninterrupted list-and-enqueue pass over triggers of one kind.
  ghost predicate IsPass(s: Desk, shared: bool, hhmm: string, day: int, rows: seq<Trigger>, outs: seq<Outcome>) {
    s.day <= day && |rows| == |outs| && Listed(s.t, shared, hhmm, day, rows)
  }

  // ---------- At most once ----------

  predicate Quiet(s: Desk, x: Trigger, day: int) {
    s.jobs[Event(x, day)] == s.unmarked[Event(x, day)]
  }

  predicate Counted(t: Tables, x: Trigger) {
    if x.Own? then x.id <= t.lastSchedule else x.id <= t.lastTime
  }

  // All but at most one job of an event went unmarked, and the marked one still shows.
  predicate EventInv(s: Desk, x: Trigger, d: int) {
    var e := Event(x, d);
    && s.unmarked[e] <= s.jobs[e] <= s.unmarked[e] + 1
    && (s.jobs[e] > 0 ==> d <= s.day && Counted(s.t, x))
    && (!Quiet(s, x, d) && KeyExists(s.t, x) ==>
          LastRun(s.t, x).Some? && d <= LastRun(s.t, x).value <= s.day)
  }

  ghost predicate Inv(s: Desk) {
    CountersAhead(s.t) && forall x: Trigger, d: int :: EventInv(s, x, d)
  }

  lemma FireKeepsEvent(s: Desk, x: Trigger, o: Outcome, y: Trigger, d: int)
    requires Exists(s.t, x) && EventInv(s, y, d) && Quiet(s, x, s.day) && Counted(s.t, x)
    ensures EventInv(Fire(s, x, s.day, o), y, d)
    ensures y != x && Quiet(s, y, s.day) ==> Quiet(Fire(s, x, s.day, o), y, s.day)
  {
    MarkKeepsShape(s.t, x, s.day, y);
  }

  lemma FireKeepsInv(s: Desk, x: Trigger, o: Outcome)
    requires Inv(s) && Exists(s.t, x) && Quiet(s, x, s.day)
    ensures Inv(Fire(s, x, s.day, o))
  {
    forall y: Trigger, d: int ensures EventInv(Fire(s, x, s.day, o), y, d) { FireKeepsEvent(s, x, o, y, d); }
  }

  lemma {:induction false} FireAllKeepsInv(s: Desk, rows: seq<Trigger>, outs: seq<Outcome>)
    requires Inv(s) && |rows| == |outs| && AllExist(s.t, rows) && Distinct(rows)
    requires forall i :: 0 <= i < |rows| ==> Quiet(s, rows[i], s.day)
    ensures Inv(FireAll(s, rows, s.day, outs))
    decreases |rows|
  {
    if rows != [] {
      var u := Fire(s, rows[0], s.day, outs[0]);
      FireKeepsInv(s, rows[0], outs[0]);
      FireKeepsRows(s, rows[0], s.day, outs[0], rows[1..]);
      forall i | 0 <= i < |rows[1..]| ensures Quiet(u, rows[1..][i], s.day) {
        assert EventInv(s, rows[1..][i], s.day);
        FireKeepsEvent(s, rows[0], outs[0], rows[1..][i], s.day);
      }
      FireAllKeepsInv(u, rows[1..], outs[1..]);
    }
  }

  // A trigger that is due has had no marked job today.
  lemma DueIsQuiet(s: Desk, x: Trigger, hhmm: string, day: int)
    requires EventInv(s, x, day) && s.day <= day && Due(s.t, x, hhmm, day)
    ensures Quiet(s, x, day)
  {}

  // An edit by the admin process leaves the run dates alone and never brings an id back.
  lemma EditKeepsInv(s: Desk, op: Op)
    requires Inv(s) && Integrity(s.t) && !op.MarkSchedule? && !op.MarkTime?
    ensures Inv(s.(t := Apply(s.t, op).0)) && Integrity(Apply(s.t, op).0)
  {
    OnlyMarksWriteDates(s.t, op);
    OpKeepsIntegrity(s.t, op);
    forall x: Trigger, d: int ensures EventInv(s.(t := Apply(s.t, op).0), x, d) { assert EventInv(s, x, d); }
  }

  lemma {:induction false} PassKeepsInv(
    s: Desk, shared: bool, hhmm: string, day: int, rows: seq<Trigger>, outs: seq<Outcome>)
    requires Inv(s) && Integrity(s.t) && IsPass(s, shared, hhmm, day, rows, outs)
    ensures var u := FireAll(s.(day := day), rows, day, outs); Inv(u) && Integrity(u.t)
  {
    var r := s.(day := day);
    forall x: Trigger, d: int ensures EventInv(r, x, d) { assert EventInv(s, x, d); }
    forall i | 0 <= i < |rows| ensures Quiet(r, rows[i], day) {
      assert EventInv(s, rows[i], day);
      DueIsQuiet(s, rows[i], hhmm, day);
    }
    FireAllKeepsInv(r, rows, outs);
    FireAllKeepsIntegrity(r, rows, day, outs);
  }

  lemma {:induction false} FireAllKeepsIntegrity(s: Desk, rows: seq<Trigger>, day: int, outs: seq<Outcome>)
    requires Integrity(s.t) && |rows| == |outs| && AllExist(s.t, rows)
    ensures Integrity(FireAll(s, rows, day, outs).t)
    decreases |rows|
  {
    if rows != [] {
      var x := rows[0];
      MarkKeeps(s.t, if x.Own? then MarkSchedule(x.id, day) else MarkTime(x.id, day));
      FireKeepsRows(s, x, day, outs[0], rows[1..]);
      FireAllKeepsIntegrity(Fire(s, x, day, outs[0]), rows[1..], day, outs[1..]);
    }
  }

  function Start(t: Tables, log: Log, items: seq<Job>, day: int): Desk {
    Desk(t, log, items, day, multiset{}, multiset{})
  }

  // ---------- What reached the list, and what is left due ----------

  lemma {:induction false} FireAllPushes(s: Desk, rows: seq<Trigger>, day: int, outs: seq<Outcome>)
    requires |rows| == |outs| && AllExist(s.t, rows)
    ensures var u := FireAll(s, rows, day, outs);
            && |u.items| + |s.jobs| == |s.items| + |u.jobs| && s.items <= u.items
            && u.day == s.day
    decreases |rows|
  {
    if rows != [] {
      FireKeepsRows(s, rows[0], day, outs[0], rows[1..]);
      FireAllPushes(Fire(s, rows[0], day, outs[0]), rows[1..], day, outs[1..]);
    }
  }

  predicate Marks(o: Outcome) { o.push.Stored? && o.marked }

  // Some row under y's key was marked.
  predicate MarksKey(rows: seq<Trigger>, outs: seq<Outcome>, y: Trigger)
    requires |rows| == |outs|
  {
    exists j :: 0 <= j < |rows| && SameKey(rows[j], y) && Marks(outs[j])
  }

  lemma MarksKeyStep(rows: seq<Trigger>, outs: seq<Outcome>, y: Trigger)
    requires |rows| == |outs| > 0
    ensures MarksKey(rows, outs, y) <==> (SameKey(rows[0], y) && Marks(outs[0])) || MarksKey(rows[1..], outs[1..], y)
  {
    if MarksKey(rows[1..], outs[1..], y) {
      var j :| 0 <= j < |rows| - 1 && SameKey(rows[1..][j], y) && Marks(outs[1..][j]);
      assert SameKey(rows[j + 1], y) && Marks(outs[j + 1]);
    }
    if j :| 0 <= j < |rows| && SameKey(rows[j], y) && Marks(outs[j]) {
      assert j == 0 || (SameKey(rows[1..][j - 1], y) && Marks(outs[1..][j - 1]));
    }
  }

  lemma {:induction false} FireAllMarks(s: Desk, rows: seq<Trigger>, day: int, outs: seq<Outcome>, y: Trigger)
    requires |rows| == |outs| && AllExist(s.t, rows) && KeyExists(s.t, y)
    ensures var u := FireAll(s, rows, day, outs);
            && (Active(u.t, y) <==> Active(s.t, y)) && KeyExists(u.t, y) && TimeOf(u.t, y) == TimeOf(s.t, y)
            && LastRun(u.t, y) == if MarksKey(rows, outs, y) then Some(day) else LastRun(s.t, y)
    decreases |rows|
  {
    if rows != [] {
      MarkKeepsShape(s.t, rows[0], day, y);
      FireKeepsRows(s, rows[0], day, outs[0], rows[1..]);
      FireAllMarks(Fire(s, rows[0], day, outs[0]), rows[1..], day, outs[1..], y);
      MarksKeyStep(rows, outs, y);
    }
  }

  // A listed trigger is due again at the next look in the same minute exactly when no trigger under
  // its key was marked in this pass, whether its own push failed or its mark did. For a schedule of
  // its own that depends on its own mark alone; a member of a shared time whose push failed is
  // skipped for the day once a sibling's job went through.
  lemma {:induction false} DueAgainUnlessMarked(
    s: Desk, hhmm: string, day: int, rows: seq<Trigger>, outs: seq<Outcome>, shared: bool, i: nat)
    requires IsPass(s, shared, hhmm, day, rows, outs) && i < |rows|
    ensures Due(FireAll(s.(day := day), rows, day, outs).t, rows[i], hhmm, day)
       <==> !MarksKey(rows, outs, rows[i])
    ensures !shared ==>
              (Due(FireAll(s.(day := day), rows, day, outs).t, rows[i], hhmm, day) <==> !Marks(outs[i]))
  {
    FireAllMarks(s.(day := day), rows, day, outs, rows[i]);
    if !shared {
      forall j | 0 <= j < |rows| && SameKey(rows[j], rows[i]) ensures j == i {
        assert rows[j] == rows[i];
      }
    }
  }

  predicate Landed(rows: seq<Trigger>, outs: seq<Outcome>, y: Trigger)
    requires |rows| == |outs|
  {
    exists j :: 0 <= j < |rows| && rows[j] == y && !outs[j].push.Refused?
  }

  lemma LandedStep(rows: seq<Trigger>, outs: seq<Outcome>, y: Trigger)
    requires |rows| == |outs| > 0 && Distinct(rows)
    ensures Landed(rows, outs, y)
       <==> if rows[0] == y then !outs[0].push.Refused? else Landed(rows[1..], outs[1..], y)
    ensures rows[0] == y ==> !Landed(rows[1..], outs[1..], y)
  {
    if Landed(rows[1..], outs[1..], y) {
      var j :| 0 <= j < |rows| - 1 && rows[1..][j] == y && !outs[1..][j].push.Refused?;
      assert rows[j + 1] == y && !outs[j + 1].push.Refused?;
    }
    if j :| 0 <= j < |rows| && rows[j] == y && !outs[j].push.Refused? {
      assert j == 0 || (rows[1..][j - 1] == y && !outs[1..][j - 1].push.Refused?);
    }
  }

  // A pass adds one job for each of its rows whose push landed, and no other.
  lemma {:induction false} FireAllJobs(s: Desk, rows: seq<Trigger>, day: int, outs: seq<Outcome>, y: Trigger, d: int)
    requires |rows| == |outs| && AllExist(s.t, rows) && Distinct(rows)
    ensures FireAll(s, rows, day, outs).jobs[Event(y, d)]
         == s.jobs[Event(y, d)] + if d == day && Landed(rows, outs, y) then 1 else 0
    decreases |rows|
  {
    if rows != [] {
      FireKeepsRows(s, rows[0], day, outs[0], rows[1..]);
      FireAllJobs(Fire(s, rows[0], day, outs[0]), rows[1..], day, outs[1..], y, d);
      LandedStep(rows, outs, y);
    }
  }

  // A listing that succeeded: the due triggers of one kind, each once, in any order.
  ghost predicate CompleteListing(t: Tables, shared: bool, hhmm: string, day: int, rows: seq<Trigger>) {
    && Listed(t, shared, hhmm, day, rows)
    && (forall x: Trigger :: x.Shared? == shared && Due(t, x, hhmm, day) ==> x in rows)
  }

  // A trigger whose job has landed gets a second one for the same date, at the next complete look
  // in the same minute, exactly when no trigger under its key was marked.
  lemma {:induction false} SecondJobUnlessMarked(
    s: Desk, hhmm: string, day: int, shared: bool, rows: seq<Trigger>, outs: seq<Outcome>,
    rows': seq<Trigger>, outs': seq<Outcome>, i: nat)
    requires IsPass(s, shared, hhmm, day, rows, outs) && i < |rows|
    requires s.jobs[Event(rows[i], day)] == 0 && !outs[i].push.Refused?
    requires CompleteListing(FireAll(s.(day := day), rows, day, outs).t, shared, hhmm, day, rows')
    requires |outs'| == |rows'| && forall j :: 0 <= j < |outs'| ==> !outs'[j].push.Refused?
    ensures FireAll(FireAll(s.(day := day), rows, day, outs), rows', day, outs').jobs[Event(rows[i], day)]
         == if MarksKey(rows, outs, rows[i]) then 1 else 2
  {
    var u := FireAll(s.(day := day), rows, day, outs);
    DueAgainUnlessMarked(s, hhmm, day, rows, outs, shared, i);
    FireAllJobs(s.(day := day), rows, day, outs, rows[i], day);
    assert Landed(rows, outs, rows[i]);
    FireAllJobs(u, rows', day, outs', rows[i], day);
    if rows[i] in rows' {
      var j :| 0 <= j < |rows'| && rows'[j] == rows[i];
      assert Landed(rows', outs', rows[i]);
    }
  }

  // ---------- A member that is skipped ----------

  const SHOP := Database("shop", "mysql", Params("db", "3306", "u", "p", ""), 1, 0, true)

  const TEAM := EMPTY.(databases := map[1 := SHOP, 2 := SHOP.(name := "blog")], lastDatabase := 2,
                       groups := map[1 := Group("night", true)], lastGroup := 1, members := {(1, 1), (1, 2)},
                       times := map[1 := SharedTime(1, "02:00", None)], lastTime := 1)

  // The first member's push fails, the second's goes through: the first has no job, and is not due
  // again that day.
  lemma SkippedMember(log: Log)
    ensures var rows, outs := [Shared(1, 1), Shared(1, 2)], [Outcome(Stored, Refused, false), GOOD];
            var s := Start(TEAM, log, [], 0);
            && IsPass(s, true, "02:00", 0, rows, outs)
            && var u := FireAll(s, rows, 0, outs);
               u.jobs[Event(rows[0], 0)] == 0 && u.jobs[Event(rows[1], 0)] == 1
               && forall hhmm :: !Due(u.t, rows[0], hhmm, 0)
  {
    var rows, outs := [Shared(1, 1), Shared(1, 2)], [Outcome(Stored, Refused, false), GOOD];
    var s := Start(TEAM, log, [], 0);
    assert Due(TEAM, rows[0], "02:00", 0) && Due(TEAM, rows[1], "02:00", 0);
    assert s == s.(day := 0);
    FireAllJobs(s, rows, 0, outs, rows[0], 0);
    FireAllJobs(s, rows, 0, outs, rows[1], 0);
    assert rows[1] == Shared(1, 2) && !outs[1].push.Refused?;
    FireAllMarks(s, rows, 0, outs, rows[0]);
    assert SameKey(rows[1], rows[0]) && Marks(outs[1]);
    assert LastRun(FireAll(s, rows, 0, outs).t, rows[0]) == Some(0);
  }
}
