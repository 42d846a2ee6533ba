/** A Redis client that sends a push again when the answer got lost can put one job on the list
    twice. Run rows are finished at most once exactly when it does not. */
module Retries {
  import opened Wrappers
  import opened Jobs
  import opened RunLog
  import opened Consumer
  import opened Pipeline
  import opened PipelineTheorems

  datatype RetryStep = Once(step: Step) | PushTwice(p: int)

  function PushedTwice(w: World, p: int): World
    requires p in w.pending
  {
    var v := Pushing(w, p, Stored);
    v.(queue := v.queue + [w.pending[p]], pushed := v.pushed + [w.pending[p]])
  }

  ghost predicate FollowsRetrying(w: World, step: RetryStep, v: World, retries: bool) {
    match step
    case Once(s) => Follows(w, s, v)
    case PushTwice(p) => retries && p in w.pending && v == PushedTwice(w, p)
  }

  ghost predicate RetryRuns(states: seq<World>, steps: seq<RetryStep>, now: int, retries: bool) {
    && |states| == |steps| + 1 && states[0] == Initial(now)
    && (forall i :: 0 <= i < |steps| ==> FollowsRetrying(states[i], steps[i], states[i + 1], retries))
  }

  ghost predicate RowsOnlyAdvanceIn(states: seq<World>) {
    forall i, j, id :: 0 <= i <= j < |states| ==> RowStep(states[i], states[j], id)
  }

  // ---------- Without retries ----------

  lemma PlainRunsAdvance(states: seq<World>, steps: seq<RetryStep>, now: int)
    requires RetryRuns(states, steps, now, false)
    ensures RowsOnlyAdvanceIn(states)
  {
    forall i | 0 <= i < |steps| ensures steps[i].Once? && Follows(states[i], steps[i].step, states[i + 1]) {
      assert FollowsRetrying(states[i], steps[i], states[i + 1], false);
    }
    var plain := seq(|steps|, i requires 0 <= i < |steps| => steps[i].step);
    assert Runs(states, plain, now);
    forall i, j, id | 0 <= i <= j < |states| ensures RowStep(states[i], states[j], id) {
      RowsOnlyAdvance(states, plain, now, i, j, id);
    }
  }

  // ---------- With one ----------

  lemma Extended(states: seq<World>, steps: seq<RetryStep>, now: int, retries: bool, step: RetryStep, v: World)
    requires RetryRuns(states, steps, now, retries)
    requires FollowsRetrying(states[|steps|], step, v, retries)
    ensures RetryRuns(states + [v], steps + [step], now, retries)
  {
    var all, done := states + [v], steps + [step];
    forall i | 0 <= i < |done| ensures FollowsRetrying(all[i], done[i], all[i + 1], retries) {
      if i < |steps| {
        assert all[i] == states[i] && all[i + 1] == states[i + 1] && done[i] == steps[i];
      }
    }
  }

  const JOB := Job("backup", "shop", "mysql", "", 1, 0, 0)

  // A local job with row 1 is next, and the loop is about to look for it.
  predicate NextIsJob(w: World) {
    w.loop.Waiting? && !w.cancelled && w.queue != [] && w.queue[0] == JOB.(runId := 1)
    && 1 in w.log.runs && w.log.lastRun == 1
  }

  lemma Taken(w: World) returns (v: World, u: World)
    requires NextIsJob(w)
    ensures Follows(w, Begin, v) && Follows(v, Pop(true), u)
    ensures u == Popping(Signalled(w, Blocked, false), true)
    ensures u.acts == w.acts + [NewAct(JOB.(runId := 1), Phase.Taken)] && u.log == w.log
    ensures u.queue == w.queue[1..] && u.loop.Busy? && !u.cancelled
  {
    v := Signalled(w, Blocked, false);
    u := Popping(v, true);
  }

  lemma Attempted(w: World, k: nat, attempt: Attempt) returns (v: World, u: World)
    requires k < |w.acts| && w.acts[k] == NewAct(JOB.(runId := 1), Phase.Taken) && !w.cancelled && 1 in w.log.runs
    requires attempt.error.None? <==> attempt.result.Some?
    requires attempt.result.Some? ==> attempt.result.value.storageTargetId == 1
    ensures Follows(w, MarkStarted(k, "now", false), v) && Follows(v, LocalReturn(k, attempt, 1), u)
    ensures |u.acts| == |w.acts| && u.acts[k].phase.Returned?
    ensures u.acts[k].job == JOB.(runId := 1) && u.acts[k].attempt == attempt
    ensures u.log == w.log && u.queue == w.queue && u.loop == w.loop && u.cancelled == w.cancelled
  {
    v := Marking(w, k, "now", false);
    u := Settled(v, k, attempt, 1);
  }

  lemma Written(w: World, k: nat) returns (v: World, u: World)
    requires At(w, k, Returned) && w.acts[k].job == JOB.(runId := 1)
    requires !w.cancelled && 1 in w.log.runs && w.loop.Busy?
    ensures Follows(w, Record(k, 1, true), v) && Follows(v, RecordFile(k, 1, false), u)
    ensures |u.acts| == |w.acts| && 1 in u.log.runs && u.log.runs[1].state == StateOf(w.acts[k].attempt)
    ensures u.queue == w.queue && u.loop.Waiting? && !u.cancelled && u.log.lastRun == w.log.lastRun
  {
    v := Recording(w, k, 1, true);
    u := Filing(v, k, 1, false);
  }

  // The consumer takes the job through all its steps.
  lemma Processed(states: seq<World>, steps: seq<RetryStep>, now: int, attempt: Attempt)
    returns (states': seq<World>, steps': seq<RetryStep>)
    requires RetryRuns(states, steps, now, true) && NextIsJob(states[|steps|])
    requires attempt.error.None? <==> attempt.result.Some?
    requires attempt.result.Some? ==> attempt.result.value.storageTargetId == 1
    ensures RetryRuns(states', steps', now, true) && |steps'| == |steps| + 6 && states <= states'
    ensures var w, u := states[|steps|], states'[|steps'|];
            && 1 in u.log.runs && u.log.runs[1].state == StateOf(attempt)
            && u.queue == w.queue[1..] && u.loop.Waiting? && !u.cancelled && u.log.lastRun == 1
  {
    var w0 := states[|steps|];
    var k := |w0.acts|;
    var w1, w2 := Taken(w0);
    var w3, w4 := Attempted(w2, k, attempt);
    var w5, w6 := Written(w4, k);
    states', steps' := TwoMore(states, steps, now, Begin, Pop(true), w1, w2);
    states', steps' := TwoMore(states', steps', now, MarkStarted(k, "now", false), LocalReturn(k, attempt, 1), w3, w4);
    states', steps' := TwoMore(states', steps', now, Record(k, 1, true), RecordFile(k, 1, false), w5, w6);
  }

  lemma TwoMore(states: seq<World>, steps: seq<RetryStep>, now: int, first: Step, second: Step, v: World, u: World)
    returns (states': seq<World>, steps': seq<RetryStep>)
    requires RetryRuns(states, steps, now, true)
    requires Follows(states[|steps|], first, v) && Follows(v, second, u)
    ensures RetryRuns(states', steps', now, true)
    ensures states' == states + [v, u] && steps' == steps + [Once(first), Once(second)]
  {
    Extended(states, steps, now, true, Once(first), v);
    Extended(states + [v], steps + [Once(first)], now, true, Once(second), u);
    states', steps' := states + [v] + [u], steps + [Once(first)] + [Once(second)];
    assert states' == states + [v, u] && steps' == steps + [Once(first), Once(second)];
  }

  lemma DuplicateQueued() returns (states: seq<World>, steps: seq<RetryStep>)
    ensures RetryRuns(states, steps, 0, true) && |steps| == 2 && NextIsJob(states[2])
    ensures states[2].queue == [JOB.(runId := 1), JOB.(runId := 1)]
  {
    var w1 := Produce(Initial(0), 0, 1, JOB, Stored);
    var w2 := PushedTwice(w1, 0);
    states, steps := [Initial(0), w1, w2], [Once(CreateRun(0, 1, JOB, Stored)), PushTwice(0)];
  }

  // A push that was sent again: its job succeeds, runs a second time and fails, and the row that
  // said "success" says "error".
  lemma SuccessTurnsToError() returns (states: seq<World>, steps: seq<RetryStep>)
    ensures RetryRuns(states, steps, 0, true) && |states| == 15
    ensures 1 in states[8].log.runs && states[8].log.runs[1].state == Success
    ensures 1 in states[14].log.runs && states[14].log.runs[1].state == Error
    ensures !RowStep(states[8], states[14], 1)
  {
    var s2, t2 := DuplicateQueued();
    var success := Attempt(Some(UploadResult("shop.gz", "ref", 1, 1, "", 0)), None);
    var s8, t8 := Processed(s2, t2, 0, success);
    states, steps := Processed(s8, t8, 0, Failed("dump failed"));
    assert states[8] == s8[8];
  }

  // ---------- Exactly ----------

  ghost predicate FinishedAtMostOnce(retries: bool) {
    forall states, steps, now :: RetryRuns(states, steps, now, retries) ==> RowsOnlyAdvanceIn(states)
  }

  // Over all runs, rows only advance, and so are finished at most once, exactly when no push is
  // ever carried out twice.
  lemma FinishedOnceWithoutRetries(retries: bool)
    ensures FinishedAtMostOnce(retries) <==> !retries
  {
    if !retries {
      forall states, steps, now | RetryRuns(states, steps, now, retries) ensures RowsOnlyAdvanceIn(states) {
        PlainRunsAdvance(states, steps, now);
      }
    } else {
      var states, steps := SuccessTurnsToError();
      assert !RowsOnlyAdvanceIn(states);
    }
  }
}
