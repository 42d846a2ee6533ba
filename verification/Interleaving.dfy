/** The scheduler one statement at a time, with the admin process editing the registry between any
    two of them, any statement failing, and the scheduler dying and restarting anywhere. */
module Interleaving {
  import opened Wrappers
  import opened Jobs
  import opened RunLog
  import opened RegistryTables
  import opened Scheduler
  import opened LocalClock

  // A row of a due query: the trigger, and its database as it was when the query ran.
  datatype Item = Item(x: Trigger, databaseId: int, d: Database)

  // How far enqueueDue has come with the first item.
  datatype Place = Fresh | Created(runId: int) | Pushed

  // A push that reached the list.
  datatype Fired = Fired(e: Event, d: Database, runId: int)

  datatype State = State(s: Desk, todo: seq<Item>, place: Place, fired: seq<Fired>)

  datatype Step =
    | List(shared: bool, hhmm: string, day: int, items: seq<Item>)
    | CreateRow(write: Write)
    | Push(write: Write)
    | MarkRun(stored: bool)
    | Edit(op: Op)
    | Crash

  function Triggers(items: seq<Item>): seq<Trigger> {
    seq(|items|, i requires 0 <= i < |items| => items[i].x)
  }

  predicate Enabled(st: State, step: Step) {
    match step
    case List(shared, hhmm, day, items) =>
      st.todo == [] && st.place.Fresh? && st.s.day <= day && Listed(st.s.t, shared, hhmm, day, Triggers(items))
      && (forall i :: 0 <= i < |items| ==>
            Exists(st.s.t, items[i].x) && IsFor(st.s.t, items[i].x, items[i].databaseId)
            && items[i].d == st.s.t.databases[items[i].databaseId])
    case CreateRow(_) => st.todo != [] && st.place.Fresh?
    case Push(_) => st.todo != [] && st.place.Created?
    case MarkRun(_) => st.todo != [] && st.place.Pushed?
    case Edit(op) => !op.MarkSchedule? && !op.MarkTime?
    case Crash => true
  }

  function EventOf(st: State): Event
    requires st.todo != []
  {
    Event(st.todo[0].x, st.s.day)
  }

  // Until its mark is stored, a job that reached the list counts as unmarked.
  function PushDesk(s: Desk, e: Event, job: Job): Desk {
    s.(items := s.items + [job], jobs := s.jobs + multiset{e}, unmarked := s.unmarked + multiset{e})
  }

  function MarkDesk(s: Desk, e: Event): Desk {
    s.(t := Mark(s.t, e.x, e.day), unmarked := s.unmarked - multiset{e})
  }

  function Next(st: State): State
    requires st.todo != []
  {
    st.(todo := st.todo[1..], place := Fresh)
  }

  function Apply(st: State, step: Step): State
    requires Enabled(st, step)
  {
    match step
    case List(_, _, day, items) => st.(s := st.s.(day := day), todo := items)
    case CreateRow(write) =>
      var row := RowFor(st.todo[0].databaseId, st.todo[0].d);
      st.(s := st.s.(log := if write.Refused? then st.s.log else InsertRun(st.s.log, row)),
          place := Created(if write.Stored? then st.s.log.lastRun + 1 else 0))
    case Push(write) =>
      var d, runId := st.todo[0].d, st.place.runId;
      var done := st.(s := PushDesk(st.s, EventOf(st), JobFor(d, runId)),
                      fired := st.fired + [Fired(EventOf(st), d, runId)], place := Pushed);
      if write.Refused? then Next(st) else if write.Stored? then done else Next(done)
    case MarkRun(stored) =>
      if stored then Next(st.(s := MarkDesk(st.s, EventOf(st)))) else Next(st)
    case Edit(op) => st.(s := st.s.(t := RegistryTables.Apply(st.s.t, op).0))
    case Crash => st.(todo := [], place := Fresh)
  }

  ghost predicate IsRun(states: seq<State>, steps: seq<Step>) {
    && |states| == |steps| + 1
    && (forall i :: 0 <= i < |steps| ==>
          Enabled(states[i], steps[i]) && states[i + 1] == Apply(states[i], steps[i]))
  }

  function Start(s: Desk): State { State(s, [], Fresh, []) }

  ghost predicate Starts(states: seq<State>, steps: seq<Step>) {
    && IsRun(states, steps)
    && var s := states[0].s;
       states[0] == Start(Scheduler.Start(s.t, s.log, s.items, s.day)) && Integrity(s.t)
  }

  // A scheduler that died forgets what it had listed, and nothing else; it can look again at once.
  lemma CrashStartsOver(st: State, shared: bool, hhmm: string, day: int)
    ensures var v := Apply(st, Crash);
            && v.s == st.s && v.fired == st.fired && v.todo == []
            && (st.s.day <= day ==> Enabled(v, List(shared, hhmm, day, [])))
  {}

  // ---------- What every step keeps ----------

  // No listed trigger has had a marked job for the date, and only the first can have had any since.
  ghost predicate TodoInv(st: State) {
    && (forall i, j :: 0 <= i < j < |st.todo| ==> st.todo[i].x != st.todo[j].x)
    && (forall i :: 0 <= i < |st.todo| ==>
          Quiet(st.s, st.todo[i].x, st.s.day) && Counted(st.s.t, st.todo[i].x))
    && (st.place.Pushed? ==> st.todo != [] && st.s.unmarked[EventOf(st)] > 0)
    && (st.place.Created? ==> st.todo != [])
  }

  ghost predicate Inv(st: State) {
    Scheduler.Inv(st.s) && Integrity(st.s.t) && TodoInv(st)
  }

  lemma PushKeeps(s: Desk, e: Event, job: Job)
    requires Scheduler.Inv(s) && Quiet(s, e.x, e.day) && Counted(s.t, e.x) && e.day == s.day
    ensures Scheduler.Inv(PushDesk(s, e, job))
  {
    forall y: Trigger, d: int ensures EventInv(PushDesk(s, e, job), y, d) { assert EventInv(s, y, d); }
  }

  lemma MarkKeepsEvent(s: Desk, e: Event, y: Trigger, d: int)
    requires EventInv(s, y, d) && Quiet(s, e.x, e.day) && e.day == s.day && s.unmarked[e] > 0
    ensures EventInv(MarkDesk(s, e), y, d)
    ensures y != e.x ==> (Quiet(MarkDesk(s, e), y, d) <==> Quiet(s, y, d))
  {
    MarkKeepsShape(s.t, e.x, e.day, y);
  }

  lemma MarkKeepsDesk(s: Desk, e: Event)
    requires Scheduler.Inv(s) && Integrity(s.t)
    requires Quiet(s, e.x, e.day) && e.day == s.day && s.unmarked[e] > 0
    ensures Scheduler.Inv(MarkDesk(s, e)) && Integrity(MarkDesk(s, e).t)
  {
    MarkKeeps(s.t, if e.x.Own? then MarkSchedule(e.x.id, e.day) else MarkTime(e.x.id, e.day));
    forall y: Trigger, d: int ensures EventInv(MarkDesk(s, e), y, d) {
      assert EventInv(s, y, d);
      MarkKeepsEvent(s, e, y, d);
    }
  }

  lemma ListKeeps(st: State, shared: bool, hhmm: string, day: int, items: seq<Item>)
    requires Inv(st) && Enabled(st, List(shared, hhmm, day, items))
    ensures Inv(Apply(st, List(shared, hhmm, day, items)))
  {
    var r := st.s.(day := day);
    forall x: Trigger, d: int ensures EventInv(r, x, d) { assert EventInv(st.s, x, d); }
    var rows := Triggers(items);
    forall i | 0 <= i < |items| ensures Quiet(r, items[i].x, day) && Counted(r.t, items[i].x) {
      assert rows[i] == items[i].x && EventInv(st.s, rows[i], day);
      DueIsQuiet(st.s, rows[i], hhmm, day);
    }
    forall i, j | 0 <= i < j < |items| ensures items[i].x != items[j].x { assert rows[i] != rows[j]; }
  }

  lemma RowKeeps(st: State, write: Write)
    requires Inv(st) && Enabled(st, CreateRow(write))
    ensures Inv(Apply(st, CreateRow(write)))
  {
    var v := Apply(st, CreateRow(write));
    forall x: Trigger, d: int ensures EventInv(v.s, x, d) { assert EventInv(st.s, x, d); }
  }

  lemma PushStepKeeps(st: State, write: Write)
    requires Inv(st) && Enabled(st, Push(write))
    ensures Inv(Apply(st, Push(write)))
  {
    PushKeeps(st.s, EventOf(st), JobFor(st.todo[0].d, st.place.runId));
  }

  lemma MarkStepKeeps(st: State, stored: bool)
    requires Inv(st) && Enabled(st, MarkRun(stored))
    ensures Inv(Apply(st, MarkRun(stored)))
  {
    if stored {
      var e := EventOf(st);
      MarkKeepsDesk(st.s, e);
      forall i | 0 < i < |st.todo| ensures Quiet(MarkDesk(st.s, e), st.todo[i].x, st.s.day) {
        assert EventInv(st.s, st.todo[i].x, st.s.day);
        MarkKeepsEvent(st.s, e, st.todo[i].x, st.s.day);
      }
    }
  }

  lemma EditStepKeeps(st: State, op: Op)
    requires Inv(st) && Enabled(st, Edit(op))
    ensures Inv(Apply(st, Edit(op)))
  {
    EditKeepsInv(st.s, op);
    OnlyMarksWriteDates(st.s.t, op);
  }

  lemma StepKeepsInv(st: State, step: Step)
    requires Inv(st) && Enabled(st, step)
    ensures Inv(Apply(st, step))
  {
    match step
    case List(shared, hhmm, day, items) => ListKeeps(st, shared, hhmm, day, items);
    case CreateRow(write) => RowKeeps(st, write);
    case Push(write) => PushStepKeeps(st, write);
    case MarkRun(stored) => MarkStepKeeps(st, stored);
    case Edit(op) => EditStepKeeps(st, op);
    case Crash =>
  }

  lemma {:induction false} RunKeepsInv(states: seq<State>, steps: seq<Step>, i: nat)
    requires Starts(states, steps) && i < |states|
    ensures Inv(states[i])
  {
    if i > 0 {
      RunKeepsInv(states, steps, i - 1);
      StepKeepsInv(states[i - 1], steps[i - 1]);
    }
  }

  // Over any run in which local dates do not go back, one trigger gets at most one job per date
  // more than its pushes that no stored mark followed.
  lemma AtMostOncePlusMisses(states: seq<State>, steps: seq<Step>, i: nat, x: Trigger, d: int)
    requires Starts(states, steps) && i < |states|
    ensures states[i].s.jobs[Event(x, d)] <= 1 + states[i].s.unmarked[Event(x, d)]
  {
    RunKeepsInv(states, steps, i);
    assert EventInv(states[i].s, x, d);
  }

  // ---------- The counted jobs are those on the list ----------

  function JobsOf(fired: seq<Fired>): seq<Job> {
    seq(|fired|, i requires 0 <= i < |fired| => JobFor(fired[i].d, fired[i].runId))
  }

  function EventsOf(fired: seq<Fired>): multiset<Event> {
    if fired == [] then multiset{} else EventsOf(fired[..|fired| - 1]) + multiset{fired[|fired| - 1].e}
  }

  ghost predicate OnTheList(st: State, before: seq<Job>) {
    st.s.items == before + JobsOf(st.fired) && st.s.jobs == EventsOf(st.fired)
  }

  lemma {:induction false} FiredOne(fired: seq<Fired>, f: Fired)
    ensures JobsOf(fired + [f]) == JobsOf(fired) + [JobFor(f.d, f.runId)]
    ensures EventsOf(fired + [f]) == EventsOf(fired) + multiset{f.e}
  {
    assert (fired + [f])[..|fired|] == fired;
  }

  lemma PushKeepsList(st: State, write: Write, before: seq<Job>)
    requires OnTheList(st, before) && Enabled(st, Push(write))
    ensures OnTheList(Apply(st, Push(write)), before)
  {
    FiredOne(st.fired, Fired(EventOf(st), st.todo[0].d, st.place.runId));
  }

  lemma StepKeepsList(st: State, step: Step, before: seq<Job>)
    requires OnTheList(st, before) && Enabled(st, step)
    ensures OnTheList(Apply(st, step), before)
  {
    if step.Push? { PushKeepsList(st, step.write, before); }
  }

  // The jobs counted are exactly what the scheduler appended to the list, in that order.
  lemma {:induction false} JobsAreOnTheList(states: seq<State>, steps: seq<Step>, i: nat)
    requires Starts(states, steps) && i < |states|
    ensures OnTheList(states[i], states[0].s.items)
    ensures var before, st := states[0].s.items, states[i];
            && |st.s.items| == |before| + |st.fired|
            && (forall k :: 0 <= k < |st.fired| ==>
                  && JobIsFor(st.s.items[|before| + k], st.fired[k].d)
                  && st.s.items[|before| + k].runId == st.fired[k].runId)
  {
    forall k | 0 <= k < |states[i].fired|
      ensures JobIsFor(JobsOf(states[i].fired)[k], states[i].fired[k].d)
      ensures JobsOf(states[i].fired)[k].runId == states[i].fired[k].runId
    {
      JobForIsFor(states[i].fired[k].d, states[i].fired[k].runId);
    }
    if i > 0 {
      JobsAreOnTheList(states, steps, i - 1);
      StepKeepsList(states[i - 1], steps[i - 1], states[0].s.items);
    }
  }

  // ---------- A mark never comes without its job ----------

  ghost predicate MarkHasJob(s: Desk, before: Tables, x: Trigger) {
    LastRun(s.t, x).Some? && LastRun(s.t, x) != LastRun(before, x) ==>
      exists y :: SameKey(x, y) && s.jobs[Event(y, LastRun(s.t, x).value)] > 0
  }

  lemma MarkDeskHasJob(s: Desk, before: Tables, e: Event, x: Trigger)
    requires EventInv(s, e.x, e.day) && s.unmarked[e] > 0 && MarkHasJob(s, before, x)
    ensures MarkHasJob(MarkDesk(s, e), before, x)
  {
    MarkKeepsShape(s.t, e.x, e.day, x);
    var u := MarkDesk(s, e);
    assert u.jobs == s.jobs && s.jobs[e] > 0;
    if SameKey(e.x, x) && KeyExists(s.t, x) {
      assert SameKey(x, e.x) && u.jobs[Event(e.x, e.day)] > 0;
    } else {
      assert LastRun(u.t, x) == LastRun(s.t, x);
    }
  }

  lemma PushDeskHasJob(s: Desk, before: Tables, e: Event, job: Job, x: Trigger)
    requires MarkHasJob(s, before, x)
    ensures MarkHasJob(PushDesk(s, e, job), before, x)
  {
    var u := PushDesk(s, e, job);
    if LastRun(s.t, x).Some? && LastRun(s.t, x) != LastRun(before, x) {
      var y :| SameKey(x, y) && s.jobs[Event(y, LastRun(s.t, x).value)] > 0;
      assert u.jobs[Event(y, LastRun(u.t, x).value)] > 0;
    }
  }

  lemma EditHasJob(s: Desk, before: Tables, op: Op, x: Trigger)
    requires CountersAhead(s.t) && !op.MarkSchedule? && !op.MarkTime? && MarkHasJob(s, before, x)
    ensures MarkHasJob(s.(t := RegistryTables.Apply(s.t, op).0), before, x)
  {
    OnlyMarksWriteDates(s.t, op);
  }

  lemma StepKeepsMark(st: State, step: Step, before: Tables, x: Trigger)
    requires Inv(st) && Enabled(st, step) && MarkHasJob(st.s, before, x)
    ensures MarkHasJob(Apply(st, step).s, before, x)
  {
    match step
    case Push(_) => PushDeskHasJob(st.s, before, EventOf(st), JobFor(st.todo[0].d, st.place.runId), x);
    case MarkRun(_) =>
      assert EventInv(st.s, st.todo[0].x, st.s.day);
      MarkDeskHasJob(st.s, before, EventOf(st), x);
    case Edit(op) => EditHasJob(st.s, before, op, x);
    case _ =>
  }

  // Any trigger, whenever it was created: a run date that is not the one it had at the start is a
  // date for which a job under its key is on the list.
  lemma {:induction false} EveryMarkHasAJob(states: seq<State>, steps: seq<Step>, i: nat, x: Trigger)
    requires Starts(states, steps) && i < |states|
    ensures MarkHasJob(states[i].s, states[0].s.t, x)
  {
    if i > 0 {
      EveryMarkHasAJob(states, steps, i - 1, x);
      RunKeepsInv(states, steps, i - 1);
      StepKeepsMark(states[i - 1], steps[i - 1], states[0].s.t, x);
    }
  }

  // ---------- Two jobs for one date ----------

  const NIGHTLY_TABLES := EMPTY.(databases := map[1 := SHOP], lastDatabase := 1,
                                 schedules := map[1 := Schedule(1, "02:00", true, None)], lastSchedule := 1)

  // A push that reached the list although the scheduler saw it fail leaves the schedule unmarked,
  // and the next look in the same minute gives it a second job for the date.
  lemma TwoJobsForOneDate() returns (states: seq<State>, steps: seq<Step>)
    ensures Starts(states, steps) && |states| == 7
    ensures states[6].s.jobs[Event(Own(1), 0)] == 2
  {
    var list := List(false, "02:00", 0, [Item(Own(1), 1, SHOP)]);
    steps := [list, CreateRow(Stored), Push(StoredUnseen), list, CreateRow(Stored), Push(Stored)];
    var s0 := Start(Scheduler.Start(NIGHTLY_TABLES, Log(map[], 0, map[], 0), [], 0));
    assert Triggers([Item(Own(1), 1, SHOP)]) == [Own(1)];
    var s1 := Apply(s0, steps[0]);
    var s2 := Apply(s1, steps[1]);
    var s3 := Apply(s2, steps[2]);
    assert s3.todo == [] && s3.s.t == NIGHTLY_TABLES;
    var s4 := Apply(s3, steps[3]);
    var s5 := Apply(s4, steps[4]);
    var s6 := Apply(s5, steps[5]);
    states := [s0, s1, s2, s3, s4, s5, s6];
  }

  // ---------- Times no clock reading equals ----------

  predicate IsReading(s: string) {
    exists m: nat :: m < MINUTES_PER_DAY && Format(m) == s
  }

  // A trigger that fired, or is about to, has a time that some clock reading equals.
  ghost predicate FiredOnTime(st: State, x: Trigger, d: int) {
    KeyExists(st.s.t, x) && (st.s.jobs[Event(x, d)] > 0 || x in Triggers(st.todo)) ==> IsReading(TimeOf(st.s.t, x))
  }

  lemma EditKeepsTime(st: State, op: Op, x: Trigger, d: int)
    requires Inv(st) && Enabled(st, Edit(op)) && FiredOnTime(st, x, d)
    ensures FiredOnTime(Apply(st, Edit(op)), x, d)
  {
    OnlyMarksWriteDates(st.s.t, op);
    assert EventInv(st.s, x, d);
    if x in Triggers(st.todo) {
      var i :| 0 <= i < |st.todo| && st.todo[i].x == x;
      assert Counted(st.s.t, x);
    }
  }

  lemma NextKeepsTime(st: State, x: Trigger, d: int)
    requires st.todo != [] && FiredOnTime(st, x, d)
    ensures FiredOnTime(Next(st), x, d)
  {
    assert forall i :: 0 <= i < |st.todo| - 1 ==> Triggers(st.todo[1..])[i] == Triggers(st.todo)[i + 1];
  }

  lemma PushKeepsTime(st: State, write: Write, x: Trigger, d: int)
    requires Enabled(st, Push(write)) && FiredOnTime(st, x, d)
    ensures FiredOnTime(Apply(st, Push(write)), x, d)
  {
    assert Triggers(st.todo)[0] == st.todo[0].x;
    var done := st.(s := PushDesk(st.s, EventOf(st), JobFor(st.todo[0].d, st.place.runId)),
                    fired := st.fired + [Fired(EventOf(st), st.todo[0].d, st.place.runId)], place := Pushed);
    assert FiredOnTime(done, x, d);
    NextKeepsTime(st, x, d);
    NextKeepsTime(done, x, d);
  }

  lemma MarkKeepsTime(st: State, stored: bool, x: Trigger, d: int)
    requires Enabled(st, MarkRun(stored)) && FiredOnTime(st, x, d)
    ensures FiredOnTime(Apply(st, MarkRun(stored)), x, d)
  {
    var e := EventOf(st);
    MarkKeepsShape(st.s.t, e.x, e.day, x);
    NextKeepsTime(st, x, d);
    NextKeepsTime(st.(s := MarkDesk(st.s, e)), x, d);
  }

  lemma ListKeepsTime(st: State, shared: bool, hhmm: string, day: int, items: seq<Item>, x: Trigger, d: int)
    requires Enabled(st, List(shared, hhmm, day, items)) && IsReading(hhmm) && FiredOnTime(st, x, d)
    ensures FiredOnTime(Apply(st, List(shared, hhmm, day, items)), x, d)
  {
    if x in Triggers(items) {
      var i :| 0 <= i < |items| && Triggers(items)[i] == x;
      assert Due(st.s.t, x, hhmm, day);
    }
  }

  lemma StepKeepsTime(st: State, step: Step, x: Trigger, d: int)
    requires Inv(st) && Enabled(st, step) && (step.List? ==> IsReading(step.hhmm)) && FiredOnTime(st, x, d)
    ensures FiredOnTime(Apply(st, step), x, d)
  {
    match step
    case List(shared, hhmm, day, items) => ListKeepsTime(st, shared, hhmm, day, items, x, d);
    case Push(write) => PushKeepsTime(st, write, x, d);
    case MarkRun(stored) => MarkKeepsTime(st, stored, x, d);
    case Edit(op) => EditKeepsTime(st, op, x, d);
    case _ =>
  }

  lemma {:induction false} RunFiresOnTime(states: seq<State>, steps: seq<Step>, i: nat, x: Trigger, d: int)
    requires Starts(states, steps) && i < |states|
    requires forall k :: 0 <= k < |steps| && steps[k].List? ==> IsReading(steps[k].hhmm)
    ensures FiredOnTime(states[i], x, d)
  {
    if i > 0 {
      RunFiresOnTime(states, steps, i - 1, x, d);
      RunKeepsInv(states, steps, i - 1);
      StepKeepsTime(states[i - 1], steps[i - 1], x, d);
    }
  }

  // A time that the form accepts but that is not five characters long never fires: not over any
  // run in which the scheduler looks for what the clock reads, whatever the admin process does.
  lemma ShortTimeNeverFires(states: seq<State>, steps: seq<Step>, i: nat, x: Trigger, d: int)
    requires Starts(states, steps) && i < |states|
    requires forall k :: 0 <= k < |steps| && steps[k].List? ==> IsReading(steps[k].hhmm)
    requires KeyExists(states[i].s.t, x) && Accepts(TimeOf(states[i].s.t, x)) && |TimeOf(states[i].s.t, x)| != 5
    ensures states[i].s.jobs[Event(x, d)] == 0
  {
    RunFiresOnTime(states, steps, i, x, d);
    AcceptedTimeCanMatch(TimeOf(states[i].s.t, x));
  }

  // ---------- Without interruption ----------

  ghost predicate Current(st: State) {
    && st.todo != [] && st.place.Fresh? && Exists(st.s.t, st.todo[0].x)
    && st.todo[0].databaseId == DatabaseOf(st.s.t, st.todo[0].x)
    && st.todo[0].d == st.s.t.databases[st.todo[0].databaseId]
  }

  ghost predicate Follows(st: State, step: Step, v: State) {
    Enabled(st, step) && v == Apply(st, step)
  }

  lemma RowThenPush(st: State, a: State, b: State, row: Write, push: Write)
    requires Current(st) && Follows(st, CreateRow(row), a) && Follows(a, Push(push), b)
    ensures var u := Fire(st.s, st.todo[0].x, st.s.day, Outcome(row, push, false));
            b.s == u && (push.Stored? ==> b.todo == st.todo && b.place == Pushed)
            && (!push.Stored? ==> b.todo == st.todo[1..] && b.place == Fresh)
  {}

  lemma MarkedFire(s: Desk, x: Trigger, day: int, row: Write)
    requires Exists(s.t, x)
    ensures Fire(s, x, day, Outcome(row, Stored, true))
         == MarkDesk(Fire(s, x, day, Outcome(row, Stored, false)), Event(x, day))
  {
    assert s.unmarked + multiset{Event(x, day)} - multiset{Event(x, day)} == s.unmarked;
  }

  // Whatever becomes of the three statements of one item, without an edit or a crash between them
  // they do what Fire does.
  lemma UninterruptedIsFire(st: State, a: State, b: State, c: State, o: Outcome)
    requires Current(st) && Follows(st, CreateRow(o.row), a) && Follows(a, Push(o.push), b)
    requires if o.push.Stored? then Follows(b, MarkRun(o.marked), c) else c == b
    ensures c.s == Fire(st.s, st.todo[0].x, st.s.day, o) && c.todo == st.todo[1..] && c.place == Fresh
  {
    RowThenPush(st, a, b, o.row, o.push);
    if o.push.Stored? {
      MarkedFire(st.s, st.todo[0].x, st.s.day, o.row);
    }
  }
}
