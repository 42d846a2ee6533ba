/** Exactly once per trigger per day: a scheduler that ticks often enough over a fixed registry,
    with nothing failing, under a fixed zone offset. */
module Coverage {
  import opened Wrappers
  import opened Protocol
  import opened RegistryTables
  import opened Scheduler
  import opened LocalClock

  // One look at the clock, and the due triggers of each kind in the order the queries gave them.
  datatype Tick = Tick(at: int, own: seq<Trigger>, shared: seq<Trigger>)

  function Goods(n: nat): seq<Outcome> { seq(n, _ => GOOD) }

  function FireGood(s: Desk, rows: seq<Trigger>, day: int): Desk
    requires AllExist(s.t, rows)
  {
    FireAll(s.(day := day), rows, day, Goods(|rows|))
  }

  ghost predicate TickStep(s: Desk, v: Desk, tick: Tick, offset: int) {
    var day, hhmm := DayOf(tick.at, offset), Format(MinuteOf(tick.at, offset));
    && CompleteListing(s.t, false, hhmm, day, tick.own)
    && CompleteListing(FireGood(s, tick.own, day).t, true, hhmm, day, tick.shared)
    && v == FireGood(FireGood(s, tick.own, day), tick.shared, day)
  }

  // Ticks in clock order, none more than a minute after the one before, begun on no earlier date
  // than the scheduler has seen.
  ghost predicate Ticking(states: seq<Desk>, ticks: seq<Tick>, offset: int) {
    && |ticks| > 0 && |states| == |ticks| + 1 && states[0].day <= DayOf(ticks[0].at, offset)
    && (forall i :: 0 <= i < |ticks| ==> TickStep(states[i], states[i + 1], ticks[i], offset))
    && (forall i :: 0 < i < |ticks| ==> ticks[i - 1].at <= ticks[i].at <= ticks[i - 1].at + MINUTE)
  }

  lemma {:induction false} NoneUnmarked(s: Desk, rows: seq<Trigger>, day: int)
    requires AllExist(s.t, rows)
    ensures FireAll(s, rows, day, Goods(|rows|)).unmarked == s.unmarked
    decreases |rows|
  {
    if rows != [] {
      FireKeepsRows(s, rows[0], day, GOOD, rows[1..]);
      assert Goods(|rows|)[1..] == Goods(|rows[1..]|);
      NoneUnmarked(Fire(s, rows[0], day, GOOD), rows[1..], day);
    }
  }

  lemma {:induction false} GoodEffect(s: Desk, rows: seq<Trigger>, day: int, y: Trigger, d: int)
    requires AllExist(s.t, rows) && Distinct(rows)
    ensures var u := FireAll(s, rows, day, Goods(|rows|));
            && u.jobs[Event(y, d)] == s.jobs[Event(y, d)] + (if d == day && y in rows then 1 else 0)
            && u.unmarked == s.unmarked
  {
    FireAllJobs(s, rows, day, Goods(|rows|), y, d);
    NoneUnmarked(s, rows, day);
    if y in rows {
      var j :| 0 <= j < |rows| && rows[j] == y;
      assert !Goods(|rows|)[j].push.Refused?;
    }
  }

  // What stands for trigger x of minute m and local day d after some ticks: `hit` says whether
  // one of them fell in that minute.
  predicate Standing(s: Desk, x: Trigger, m: nat, d: int, hit: bool)
    requires m < MINUTES_PER_DAY
  {
    && Active(s.t, x) && TimeOf(s.t, x) == Format(m)
    && s.jobs[Event(x, d)] == (if hit then 1 else 0)
    && (LastRun(s.t, x) == Some(d) ==> hit)
  }

  // A complete pass over x's kind hits x exactly when it falls in x's minute.
  lemma PassOverOwnKind(s: Desk, rows: seq<Trigger>, at: int, offset: int, x: Trigger, m: nat, d: int, hit: bool)
    requires m < MINUTES_PER_DAY && Inv(s) && s.unmarked == multiset{}
    requires var day := DayOf(at, offset);
             s.day <= day && CompleteListing(s.t, x.Shared?, Format(MinuteOf(at, offset)), day, rows)
    requires Standing(s, x, m, d, hit)
    ensures Standing(FireGood(s, rows, DayOf(at, offset)), x, m, d, hit || Within(at, d, m, offset))
  {
    var day, minute := DayOf(at, offset), MinuteOf(at, offset);
    WithinIsSameMinute(at, d, m, offset);
    if minute != m && Format(minute) == Format(m) { FormatIsInjective(minute, m); }
    GoodEffect(s.(day := day), rows, day, x, d);
    FireAllMarks(s.(day := day), rows, day, Goods(|rows|), x);
    assert EventInv(s, x, day);
    assert x in rows <==> Due(s.t, x, Format(minute), day);
    MarkedWhenListed(s.t, rows, Format(minute), day, x);
  }

  // In a pass without failures an active trigger's key is marked exactly when it is listed.
  lemma MarkedWhenListed(t: Tables, rows: seq<Trigger>, hhmm: string, day: int, x: Trigger)
    requires Active(t, x) && CompleteListing(t, x.Shared?, hhmm, day, rows)
    ensures MarksKey(rows, Goods(|rows|), x) <==> x in rows
  {
    if x in rows {
      var k :| 0 <= k < |rows| && rows[k] == x;
      assert SameKey(rows[k], x) && Marks(Goods(|rows|)[k]);
    }
    if k :| 0 <= k < |rows| && SameKey(rows[k], x) && Marks(Goods(|rows|)[k]) {
      assert Due(t, rows[k], hhmm, day);
      assert Due(t, x, hhmm, day);
    }
  }

  // A pass over the other kind changes nothing for x.
  lemma PassOverOtherKind(s: Desk, rows: seq<Trigger>, at: int, offset: int, x: Trigger, m: nat, d: int, hit: bool)
    requires m < MINUTES_PER_DAY
    requires Listed(s.t, !x.Shared?, Format(MinuteOf(at, offset)), DayOf(at, offset), rows)
    requires Standing(s, x, m, d, hit)
    ensures Standing(FireGood(s, rows, DayOf(at, offset)), x, m, d, hit)
  {
    var day := DayOf(at, offset);
    GoodEffect(s.(day := day), rows, day, x, d);
    FireAllMarks(s.(day := day), rows, day, Goods(|rows|), x);
  }

  ghost predicate Hit(ticks: seq<Tick>, n: nat, d: int, m: nat, offset: int)
    requires n <= |ticks|
  {
    exists i :: 0 <= i < n && Within(ticks[i].at, d, m, offset)
  }

  lemma GoodKeepsInv(s: Desk, shared: bool, hhmm: string, day: int, rows: seq<Trigger>)
    requires Inv(s) && Integrity(s.t) && s.unmarked == multiset{} && s.day <= day
    requires Listed(s.t, shared, hhmm, day, rows)
    ensures var u := FireGood(s, rows, day);
            Inv(u) && Integrity(u.t) && u.unmarked == multiset{} && u.day == day
  {
    PassKeepsInv(s, shared, hhmm, day, rows, Goods(|rows|));
    GoodEffect(s.(day := day), rows, day, Own(0), 0);
    FireAllPushes(s.(day := day), rows, day, Goods(|rows|));
  }

  lemma TickStands(s: Desk, v: Desk, tick: Tick, offset: int, x: Trigger, m: nat, d: int, hit: bool)
    requires m < MINUTES_PER_DAY && Inv(s) && Integrity(s.t) && s.unmarked == multiset{}
    requires s.day <= DayOf(tick.at, offset) && TickStep(s, v, tick, offset) && Standing(s, x, m, d, hit)
    ensures Inv(v) && Integrity(v.t) && v.unmarked == multiset{} && v.day == DayOf(tick.at, offset)
    ensures Standing(v, x, m, d, hit || Within(tick.at, d, m, offset))
  {
    var day, hhmm := DayOf(tick.at, offset), Format(MinuteOf(tick.at, offset));
    var u := FireGood(s, tick.own, day);
    GoodKeepsInv(s, false, hhmm, day, tick.own);
    GoodKeepsInv(u, true, hhmm, day, tick.shared);
    if x.Own? {
      PassOverOwnKind(s, tick.own, tick.at, offset, x, m, d, hit);
      PassOverOtherKind(u, tick.shared, tick.at, offset, x, m, d, hit || Within(tick.at, d, m, offset));
    } else {
      PassOverOtherKind(s, tick.own, tick.at, offset, x, m, d, hit);
      PassOverOwnKind(u, tick.shared, tick.at, offset, x, m, d, hit);
    }
  }

  // A trigger that can fire: active, with a time whose digits denote minute m, in a
  // registry read by a scheduler that has just started.
  ghost predicate Startable(s: Desk, x: Trigger, m: nat, d: int) {
    && m < MINUTES_PER_DAY
    && s == Start(s.t, s.log, s.items, s.day) && Integrity(s.t)
    && Active(s.t, x) && Denotes(TimeOf(s.t, x), m) && LastRun(s.t, x) != Some(d)
  }

  lemma {:induction false} RunStands(
    states: seq<Desk>, ticks: seq<Tick>, offset: int, x: Trigger, m: nat, d: int, n: nat)
    requires Ticking(states, ticks, offset) && n <= |ticks| && Startable(states[0], x, m, d)
    ensures Inv(states[n]) && Integrity(states[n].t) && states[n].unmarked == multiset{}
    ensures Standing(states[n], x, m, d, Hit(ticks, n, d, m, offset))
    ensures n > 0 ==> states[n].day == DayOf(ticks[n - 1].at, offset)
  {
    ReadingDenotes(TimeOf(states[0].t, x), m);
    if n > 0 {
      RunStands(states, ticks, offset, x, m, d, n - 1);
      if n > 1 { DaysFollowTime(ticks[n - 2].at, ticks[n - 1].at, offset); }
      assert TickStep(states[n - 1], states[n], ticks[n - 1], offset);
      TickStands(states[n - 1], states[n], ticks[n - 1], offset, x, m, d, Hit(ticks, n - 1, d, m, offset));
      assert Hit(ticks, n, d, m, offset)
        <==> Hit(ticks, n - 1, d, m, offset) || Within(ticks[n - 1].at, d, m, offset);
    }
  }

  // With gaps of at most a minute, a whole minute cannot pass unseen.
  lemma {:induction false} MinuteIsSeen(states: seq<Desk>, ticks: seq<Tick>, offset: int, d: int, m: nat, n: nat)
    requires Ticking(states, ticks, offset) && 0 < n <= |ticks|
    ensures Hit(ticks, n, d, m, offset)
       <==> ticks[0].at < MinuteStart(d, m, offset) + MINUTE && MinuteStart(d, m, offset) <= ticks[n - 1].at
    ensures ticks[0].at <= ticks[n - 1].at
  {
    if n == 1 {
      assert Hit(ticks, 1, d, m, offset) <==> Within(ticks[0].at, d, m, offset);
    } else {
      MinuteIsSeen(states, ticks, offset, d, m, n - 1);
      assert Hit(ticks, n, d, m, offset)
        <==> Hit(ticks, n - 1, d, m, offset) || Within(ticks[n - 1].at, d, m, offset);
    }
  }

  // Every schedule of its own, and every (shared time, member) pair, gets exactly one job for a
  // local date when its minute of that date meets the run, and none otherwise.
  lemma ExactlyOncePerDay(states: seq<Desk>, ticks: seq<Tick>, offset: int, x: Trigger, m: nat, d: int)
    requires Ticking(states, ticks, offset) && Startable(states[0], x, m, d)
    ensures states[|ticks|].jobs[Event(x, d)]
         == if ticks[0].at < MinuteStart(d, m, offset) + MINUTE
              && MinuteStart(d, m, offset) <= ticks[|ticks| - 1].at
            then 1 else 0
  {
    RunStands(states, ticks, offset, x, m, d, |ticks|);
    MinuteIsSeen(states, ticks, offset, d, m, |ticks|);
  }
}
