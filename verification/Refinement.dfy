/** The step system against the code it cuts into steps: uninterrupted, the steps of one enqueue
    are what the scheduler's loop body does, and the steps of one job are ProcessJob. */
module Refinement {
  import opened Jobs
  import opened RunLog
  import opened Consumer
  import opened Pipeline
  import opened PipelineInv
  import opened PipelineTheorems
  import Scheduler

  predicate Processing(w: World, k: nat, a: Act) {
    k < |w.acts| && w.acts[k] == a && a.job.cmd == "backup"
  }

  lemma Started(w: World, k: nat, a: Act, startedAt: string, stored: bool, v: World)
    requires Processing(w, k, a) && Follows(w, MarkStarted(k, startedAt, stored), v)
    ensures Processing(v, k, a.(phase := Marked, started := startedAt))
    ensures v.log == if stored && a.job.runId != 0 then SetStarted(w.log, a.job.runId, startedAt) else w.log
  {}

  lemma Attempted(w: World, k: nat, a: Act, attempt: Attempt, elapsedMs: int, v: World)
    requires Processing(w, k, a) && Follows(w, LocalReturn(k, attempt, elapsedMs), v)
    ensures Processing(v, k, Returning(a, attempt, elapsedMs)) && v.log == w.log
  {}

  lemma RowWritten(w: World, k: nat, databaseId: int, stored: bool)
    requires k < |w.acts|
    ensures var a, v := w.acts[k], Recording(w, k, databaseId, stored);
            && v.log == (if stored then Outcome(w, a, databaseId) else w.log)
            && |v.acts| == |w.acts| && v.acts[k].job == a.job && v.acts[k].attempt == a.attempt
  {
    RecordingCases(w, k, databaseId, stored);
    LogWritten(w, k, databaseId, stored);
  }

  lemma LogWritten(w: World, k: nat, databaseId: int, stored: bool)
    requires k < |w.acts|
    ensures Recording(w, k, databaseId, stored).log == if stored then Outcome(w, w.acts[k], databaseId) else w.log
  {}

  lemma FileWritten(w: World, k: nat, databaseId: int, stored: bool)
    requires k < |w.acts| && (stored ==> w.acts[k].attempt.result.Some?)
    ensures Filing(w, k, databaseId, stored).log
         == if stored then InsertFile(w.log, FileOf(w.acts[k].job, databaseId, w.acts[k].attempt.result.value))
            else w.log
  {}

  lemma RecordFollows(w: World, k: nat, databaseId: int, stored: bool, v: World)
    requires Follows(w, Record(k, databaseId, stored), v)
    ensures At(w, k, Returned) && v == Recording(w, k, databaseId, stored)
  {}

  lemma FileFollows(w: World, k: nat, databaseId: int, stored: bool, v: World)
    requires Follows(w, RecordFile(k, databaseId, stored), v)
    ensures k < |w.acts| && (stored ==> w.acts[k].attempt.result.Some?)
    ensures v == Filing(w, k, databaseId, stored)
  {}

  // The last two steps of any job, local or remote.
  lemma Recorded(w: World, w1: World, w2: World, k: nat, e: Env)
    requires k < |w.acts| && w.acts[k].attempt == e.attempt && w.acts[k].elapsedMs == e.elapsedMs
    requires Local(w.acts[k]) ==> w.acts[k].started == e.started
    requires e.attempt.error.None? ==> e.attempt.result.Some?
    requires Follows(w, Record(k, Row(e), e.runStored), w1)
    requires Follows(w1, RecordFile(k, Row(e), e.fileStored && e.attempt.error.None?), w2)
    ensures var job := w.acts[k].job;
            var g := if e.runStored then RecordRun(w.log, job, Row(e), e.started, e.elapsedMs, e.attempt) else w.log;
            w2.log == if e.fileStored && e.attempt.error.None?
                      then InsertFile(g, FileOf(job, Row(e), e.attempt.result.value)) else g
  {
    RecordFollows(w, k, Row(e), e.runStored, w1);
    RowWritten(w, k, Row(e), e.runStored);
    FileFollows(w1, k, Row(e), e.fileStored && e.attempt.error.None?, w2);
    FileWritten(w1, k, Row(e), e.fileStored && e.attempt.error.None?);
  }

  // A local job whose four steps run with nothing in between has exactly ProcessJob's effect.
  lemma LocalStepsAreProcessJob(w: World, w1: World, w2: World, w3: World, w4: World, k: nat, e: Env)
    requires k < |w.acts| && Follows(w, MarkStarted(k, e.started, e.startStored), w1)
    requires Follows(w1, LocalReturn(k, e.attempt, e.elapsedMs), w2)
    requires Follows(w2, Record(k, Row(e), e.runStored), w3)
    requires Follows(w3, RecordFile(k, Row(e), e.fileStored && e.attempt.error.None?), w4)
    ensures e.attempt.error.None? ==> e.attempt.result.Some?
    ensures w4.log == Processed(w.log, w.acts[k].job, e)
  {
    var a := w.acts[k];
    Started(w, k, a, e.started, e.startStored, w1);
    var a1 := a.(phase := Marked, started := e.started);
    Attempted(w1, k, a1, e.attempt, e.elapsedMs, w2);
    Recorded(w2, w3, w4, k, e);
  }

  // Every step but the five that can write the log.
  predicate Quiet(step: Step) { Rowless(step) && !step.RecordFile? }

  lemma JobLeavesLog(w: World, step: Step, v: World)
    requires Follows(w, step, v) && (step.SkipOther? || step.LocalReturn? || step.Kill?)
    ensures v.log == w.log
  {}

  lemma ListLeavesLog(w: World, step: Step, v: World)
    requires Follows(w, step, v) && (step.Push? || step.Abort? || step.Pop?)
    ensures v.log == w.log
  {}

  lemma QuietLeavesLog(w: World, step: Step, v: World)
    requires Follows(w, step, v) && Quiet(step)
    ensures v.log == w.log
  {
    if IsDispatch(step) || IsPosted(step) { DispatchLeavesLog(w, step, v);
    } else if IsPolling(step) { PollingLeavesLog(w, step, v);
    } else if IsOutside(step) { OutsideLeavesLog(w, step, v);
    } else if IsSignal(step) { SignalLeavesLog(w, step, v);
    } else if step.Push? || step.Abort? || step.Pop? { ListLeavesLog(w, step, v);
    } else { JobLeavesLog(w, step, v); }
  }

  lemma {:induction false} LogAlong(states: seq<World>, i: nat, j: nat)
    requires i <= j < |states| && forall m :: i <= m < j ==> states[m + 1].log == states[m].log
    ensures states[j].log == states[i].log
  {
    if i < j { LogAlong(states, i, j - 1); }
  }

  // A remote job whose dispatch and polling take it from popped to answered, while jobs are pushed
  // and popped, agents work, other dispatches go on and time passes but nothing else writes the
  // log, ends with exactly ProcessJob's effect for the attempt the polling came to.
  lemma RemoteStepsAreProcessJob(
    states: seq<World>, steps: seq<Step>, now: int, i: nat, j: nat, k: nat, e: Env)
    requires Runs(states, steps, now) && i <= j && j + 2 < |states|
    requires At(states[i], k, Taken) && !Local(states[i].acts[k])
    requires forall m :: i <= m < j ==> Quiet(steps[m])
    requires k < |states[j].acts| ==>
               e.attempt == states[j].acts[k].attempt && e.elapsedMs == states[j].acts[k].elapsedMs
    requires steps[j] == Record(k, Row(e), e.runStored)
    requires steps[j + 1] == RecordFile(k, Row(e), e.fileStored && e.attempt.error.None?)
    ensures e.attempt.error.None? ==> e.attempt.result.Some?
    ensures states[j + 2].log == Processed(states[i].log, states[i].acts[k].job, e)
  {
    forall m | i <= m < j ensures states[m + 1].log == states[m].log {
      QuietLeavesLog(states[m], steps[m], states[m + 1]);
    }
    LogAlong(states, i, j);
    SettledBetween(states, steps, now, i, j, k);
    Answerable(states, steps, now, j, k, Row(e), e.runStored);
    Recorded(states[j], states[j + 1], states[j + 2], k, e);
  }

  lemma Answerable(states: seq<World>, steps: seq<Step>, now: int, j: nat, k: nat, databaseId: int, stored: bool)
    requires Runs(states, steps, now) && j < |steps| && steps[j] == Record(k, databaseId, stored)
    ensures k < |states[j].acts| && states[j].acts[k].job.cmd == "backup"
    ensures states[j].acts[k].attempt.error.None? ==> states[j].acts[k].attempt.result.Some?
  {
    RecordFollows(states[j], k, databaseId, stored, states[j + 1]);
    RunKeepsInv(states, steps, now, j);
    assert ActInv(states[j], k);
  }

  // The run row and the job of one fired trigger are those of a producer's two steps.
  lemma FireIsProduceAndPush(
    w: World, w1: World, w2: World, p: int,
    s: Scheduler.Desk, x: Scheduler.Trigger, day: int, o: Scheduler.Outcome, job: Job)
    requires Scheduler.Exists(s.t, x) && w.log == s.log && w.queue == s.items
    requires var d := s.t.databases[Scheduler.DatabaseOf(s.t, x)];
             job == NewBackupJob(d.name, d.driver, d.params, d.storageTargetId, d.agentId, 0)
    requires Follows(w, CreateRun(p, Scheduler.DatabaseOf(s.t, x), job, o.row), w1)
    requires Follows(w1, Push(p, o.push), w2)
    ensures w2.log == Scheduler.Fire(s, x, day, o).log && w2.queue == Scheduler.Fire(s, x, day, o).items
    ensures w2.pending == w.pending
  {
    Produced(w, p, Scheduler.DatabaseOf(s.t, x), job, o.row, w1);
    PushedOn(w1, p, o.push, w2);
  }

  lemma Produced(w: World, p: int, databaseId: int, job: Job, write: Write, v: World)
    requires job.cmd == "backup" && Follows(w, CreateRun(p, databaseId, job, write), v)
    ensures v.log == if write.Refused? then w.log
                     else InsertRun(w.log, EnqueuedRow(databaseId, job.dbName, job.driver))
    ensures p !in w.pending && v.queue == w.queue
    ensures v.pending == w.pending[p := job.(runId := if write.Stored? then w.log.lastRun + 1 else 0)]
  {}

  lemma PushedOn(w: World, p: int, write: Write, v: World)
    requires Follows(w, Push(p, write), v)
    ensures p in w.pending && v.log == w.log && v.pending == w.pending - {p}
    ensures v.queue == if write.Refused? then w.queue else w.queue + [w.pending[p]]
  {}
}
