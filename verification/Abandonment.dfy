/** Why a run row stays "running": the steps that fail for a row, and that a row is abandoned exactly
    when one of them happened. */
module Abandonment {
  import opened Wrappers
  import opened Jobs
  import opened RunLog
  import opened Pipeline
  import opened PipelineInv
  import opened PipelineTheorems

  // The step is a failure that leaves row id behind: it was created without its producer learning
  // of it, its push failed, its producer died before the push, its pop was lost, the consumer was
  // killed with the job in process, or the outcome could not be stored.
  predicate FailsFor(w: World, step: Step, id: int) {
    match step
    case CreateRun(_, _, _, write) => write.StoredUnseen? && id == w.log.lastRun + 1
    case Push(p, write) => write.Refused? && p in w.pending && w.pending[p].runId == id
    case Abort(p) => p in w.pending && w.pending[p].runId == id
    case Pop(arrived) => !arrived && w.queue != [] && w.queue[0].runId == id
    case Record(k, _, stored) => !stored && k < |w.acts| && w.acts[k].job.runId == id
    case Kill => InProcess(w, id)
    case _ => false
  }

  predicate Orphaned(w: World, id: int) {
    id in w.holder && w.holder[id].Orphan?
  }

  // ---------- What one step does to one row's fate ----------

  // Row id is abandoned after the step exactly when it was before or the step failed for it.
  predicate FateFollows(w: World, step: Step, v: World, id: int) {
    Abandoned(v, id) <==> Abandoned(w, id) || FailsFor(w, step, id)
  }

  // Every job keeps its row and stays as forsaken as it was.
  ghost predicate SameFates(w: World, v: World) {
    && v.holder == w.holder && |v.acts| == |w.acts|
    && (forall k :: 0 <= k < |w.acts| ==>
          v.acts[k].job == w.acts[k].job && (Forsaken(v.acts[k]) <==> Forsaken(w.acts[k])))
  }

  lemma SameFatesAbandonAlike(w: World, v: World, id: int)
    requires SameFates(w, v)
    ensures Abandoned(v, id) <==> Abandoned(w, id)
  {
    if k :| 0 <= k < |w.acts| && w.acts[k].job.runId == id && Forsaken(w.acts[k]) {
      assert v.acts[k].job.runId == id && Forsaken(v.acts[k]);
    }
    if k :| 0 <= k < |v.acts| && v.acts[k].job.runId == id && Forsaken(v.acts[k]) {
      assert w.acts[k].job.runId == id && Forsaken(w.acts[k]);
    }
  }

  lemma MoveKeepsFates(w: World, v: World, j: nat)
    requires MovesOn(w, v, j) && v.holder == w.holder
    requires Forsaken(v.acts[j]) <==> Forsaken(w.acts[j])
    ensures SameFates(w, v)
  {}

  lemma SameActsAbandonAlike(w: World, v: World, id: int)
    requires v.acts == w.acts && (Orphaned(v, id) <==> Orphaned(w, id))
    ensures Abandoned(v, id) <==> Abandoned(w, id)
  {}

  lemma ProduceFate(w: World, p: int, databaseId: int, job: Job, write: Write, id: int)
    requires Inv(w)
    ensures var v := Produce(w, p, databaseId, job, write);
            Abandoned(v, id) <==> Abandoned(w, id) || (write.StoredUnseen? && id == w.log.lastRun + 1)
  {
    assert RowInv(w, w.log.lastRun + 1);
    var v := Produce(w, p, databaseId, job, write);
    assert v.acts == w.acts;
    if Orphaned(v, id) <==> Orphaned(w, id) { SameActsAbandonAlike(w, v, id); }
  }

  lemma PushFate(w: World, p: int, write: Write, id: int)
    requires Inv(w) && p in w.pending && id != 0
    ensures Abandoned(Pushing(w, p, write), id)
       <==> Abandoned(w, id) || (write.Refused? && w.pending[p].runId == id)
  {
    assert PendingInv(w, p);
    var v := Pushing(w, p, write);
    assert v.acts == w.acts;
    if Orphaned(v, id) <==> Orphaned(w, id) { SameActsAbandonAlike(w, v, id); }
  }

  lemma PopFate(w: World, arrived: bool, id: int)
    requires w.queue != []
    ensures Abandoned(Popping(w, arrived), id) <==> Abandoned(w, id) || (!arrived && w.queue[0].runId == id)
  {
    var v := Popping(w, arrived);
    var n := |w.acts|;
    assert v.holder == w.holder && v.acts == w.acts + [NewAct(w.queue[0], if arrived then Taken else Lost)];
    if k :| 0 <= k < n && w.acts[k].job.runId == id && Forsaken(w.acts[k]) {
      assert v.acts[k].job.runId == id && Forsaken(v.acts[k]);
    }
    if !arrived && w.queue[0].runId == id { assert v.acts[n].job.runId == id && Forsaken(v.acts[n]); }
    if k :| 0 <= k < |v.acts| && v.acts[k].job.runId == id && Forsaken(v.acts[k]) {
      if k < n { assert w.acts[k].job.runId == id && Forsaken(w.acts[k]); }
    }
  }

  lemma RecordFate(w: World, k: nat, databaseId: int, stored: bool, id: int)
    requires Inv(w) && At(w, k, Returned)
    ensures var v := Recording(w, k, databaseId, stored);
            Abandoned(v, id) <==> Abandoned(w, id) || (!stored && w.acts[k].job.runId == id)
  {
    assert ActInv(w, k) && RowInv(w, w.log.lastRun + 1);
    var v := Recording(w, k, databaseId, stored);
    var b := v.acts[k];
    RecordingCases(w, k, databaseId, stored);
    RecordedHolder(w, k, databaseId, stored, id);
    assert !Forsaken(w.acts[k]) && (Forsaken(b) <==> !stored) && b.job == w.acts[k].job;
    if j :| 0 <= j < |w.acts| && w.acts[j].job.runId == id && Forsaken(w.acts[j]) {
      assert v.acts[j].job.runId == id && Forsaken(v.acts[j]);
    }
    if j :| 0 <= j < |v.acts| && v.acts[j].job.runId == id && Forsaken(v.acts[j]) {
      assert j == k || (w.acts[j].job.runId == id && Forsaken(w.acts[j]));
    }
  }

  lemma RecordedHolder(w: World, k: nat, databaseId: int, stored: bool, id: int)
    requires At(w, k, Returned) && w.log.lastRun + 1 !in w.holder
    ensures Orphaned(Recording(w, k, databaseId, stored), id) <==> Orphaned(w, id)
  {}

  lemma KillFate(w: World, id: int)
    requires Inv(w)
    ensures Abandoned(KillAll(w), id) <==> Abandoned(w, id) || InProcess(w, id)
  {
    var v := KillAll(w);
    forall k: nat | k < |w.acts|
      ensures v.acts[k].job == w.acts[k].job
      ensures Forsaken(v.acts[k]) <==> Forsaken(w.acts[k]) || BeforeOutcome(w.acts[k])
    {
      assert ActInv(w, k);
    }
    if k :| 0 <= k < |w.acts| && w.acts[k].job.runId == id && (Forsaken(w.acts[k]) || BeforeOutcome(w.acts[k])) {
      assert v.acts[k].job.runId == id && Forsaken(v.acts[k]);
    }
    if k :| 0 <= k < |v.acts| && v.acts[k].job.runId == id && Forsaken(v.acts[k]) {
      assert w.acts[k].job.runId == id && (Forsaken(w.acts[k]) || BeforeOutcome(w.acts[k]));
    }
  }

  // ---------- Steps that fail for no row ----------

  lemma DispatchFates(w: World, step: Step, v: World)
    requires Follows(w, step, v) && (IsDispatch(step) || IsPosted(step))
    ensures v.holder == w.holder && MovesOn(w, v, step.k)
    ensures Forsaken(v.acts[step.k]) <==> Forsaken(w.acts[step.k])
  {
    DispatchMovesOn(w, step, v);
  }

  lemma PollingFates(w: World, step: Step, v: World)
    requires Follows(w, step, v) && IsPolling(step)
    ensures v.holder == w.holder && MovesOn(w, v, step.k)
    ensures Forsaken(v.acts[step.k]) <==> Forsaken(w.acts[step.k])
  {
    PollingMovesOn(w, step, v);
  }

  lemma LocalFates(w: World, step: Step, v: World)
    requires Follows(w, step, v) && (step.MarkStarted? || step.LocalReturn?)
    ensures v.holder == w.holder && MovesOn(w, v, step.k)
    ensures Forsaken(v.acts[step.k]) <==> Forsaken(w.acts[step.k])
  {
    LocalMovesOn(w, step, v);
  }

  lemma FileFates(w: World, k: nat, databaseId: int, stored: bool)
    requires At(w, k, Recorded) && (stored ==> w.acts[k].attempt.result.Some?)
    ensures var v := Filing(w, k, databaseId, stored);
            v.holder == w.holder && MovesOn(w, v, k) && (Forsaken(v.acts[k]) <==> Forsaken(w.acts[k]))
  {
    FileMovesOn(w, k, databaseId, stored);
    FilingCases(w, k, databaseId, stored);
    FilingKeepsHolder(w, k, databaseId, stored);
  }

  lemma FilingKeepsHolder(w: World, k: nat, databaseId: int, stored: bool)
    requires k < |w.acts| && (stored ==> w.acts[k].attempt.result.Some?)
    ensures Filing(w, k, databaseId, stored).holder == w.holder
  {}

  lemma SignalFates(w: World, step: Step, v: World)
    requires Follows(w, step, v) && IsSignal(step)
    ensures v.acts == w.acts && v.holder == w.holder
  {}

  lemma OutsideFates(w: World, step: Step, v: World)
    requires Follows(w, step, v) && IsOutside(step)
    ensures v.acts == w.acts && v.holder == w.holder
  {}

  // ---------- Every step ----------

  lemma ProducerFateFollows(w: World, step: Step, v: World, id: int)
    requires Inv(w) && Follows(w, step, v) && id != 0 && IsProducer(step)
    ensures FateFollows(w, step, v, id)
  {
    match step
    case CreateRun(p, databaseId, job, write) => ProduceFate(w, p, databaseId, job, write, id);
    case Push(p, write) => PushFate(w, p, write, id);
    case Abort(p) => PushFate(w, p, Refused, id);
    case ClearLog => SameActsAbandonAlike(w, v, id);
  }

  lemma OwnFateFollows(w: World, step: Step, v: World, id: int)
    requires Follows(w, step, v)
    requires IsDispatch(step) || IsPosted(step) || IsPolling(step) || step.MarkStarted? || step.LocalReturn?
    ensures FateFollows(w, step, v, id)
  {
    if IsPolling(step) { PollingFates(w, step, v);
    } else if IsDispatch(step) || IsPosted(step) { DispatchFates(w, step, v);
    } else { LocalFates(w, step, v); }
    MoveKeepsFates(w, v, step.k);
    SameFatesAbandonAlike(w, v, id);
  }

  lemma RecordingFateFollows(w: World, step: Step, v: World, id: int)
    requires Inv(w) && Follows(w, step, v) && IsRecording(step)
    ensures FateFollows(w, step, v, id)
  {
    match step
    case Record(k, databaseId, stored) => RecordFate(w, k, databaseId, stored, id);
    case RecordFile(k, databaseId, stored) =>
      FileFates(w, k, databaseId, stored);
      MoveKeepsFates(w, v, k);
      SameFatesAbandonAlike(w, v, id);
  }

  lemma PopFateFollows(w: World, step: Step, v: World, id: int)
    requires Inv(w) && Follows(w, step, v) && (step.Pop? || step.Kill?)
    ensures FateFollows(w, step, v, id)
  {
    if step.Pop? { PopFate(w, step.arrived, id); } else { KillFate(w, id); }
  }

  lemma StepFateFollows(w: World, step: Step, v: World, id: int)
    requires Inv(w) && Follows(w, step, v) && id != 0
    ensures FateFollows(w, step, v, id)
  {
    if IsProducer(step) { ProducerFateFollows(w, step, v, id);
    } else if IsRecording(step) { RecordingFateFollows(w, step, v, id);
    } else if step.Pop? || step.Kill? { PopFateFollows(w, step, v, id);
    } else if IsSignal(step) {
      SignalFates(w, step, v);
      SameActsAbandonAlike(w, v, id);
    } else if IsOutside(step) {
      OutsideFates(w, step, v);
      SameActsAbandonAlike(w, v, id);
    } else if step.SkipOther? { NeverSkipped(w, step.k);
    } else { OwnFateFollows(w, step, v, id); }
  }

  // ---------- Whole runs ----------

  // Before state i, a step failed for row id.
  ghost predicate Failed(states: seq<World>, steps: seq<Step>, i: nat, id: int)
    requires |states| == |steps| + 1 && i <= |steps|
  {
    exists m :: 0 <= m < i && FailsFor(states[m], steps[m], id)
  }

  lemma NextFateFollows(states: seq<World>, steps: seq<Step>, now: int, m: nat, id: int)
    requires Runs(states, steps, now) && m < |steps| && id != 0
    ensures FateFollows(states[m], steps[m], states[m + 1], id)
  {
    RunKeepsInv(states, steps, now, m);
    StepFateFollows(states[m], steps[m], states[m + 1], id);
  }

  lemma {:induction false} FailedAlong(states: seq<World>, steps: seq<Step>, i: nat, id: int)
    requires |states| == |steps| + 1 && i <= |steps| && !Abandoned(states[0], id)
    requires forall m :: 0 <= m < i ==> FateFollows(states[m], steps[m], states[m + 1], id)
    ensures Abandoned(states[i], id) <==> Failed(states, steps, i, id)
  {
    if i > 0 {
      FailedAlong(states, steps, i - 1, id);
      assert FateFollows(states[i - 1], steps[i - 1], states[i], id);
      assert Failed(states, steps, i, id)
        <==> Failed(states, steps, i - 1, id) || FailsFor(states[i - 1], steps[i - 1], id);
    }
  }

  // A row is abandoned exactly when some step before failed for it.
  lemma AbandonedMeansFailed(states: seq<World>, steps: seq<Step>, now: int, i: nat, id: int)
    requires Runs(states, steps, now) && i < |states| && id != 0
    ensures Abandoned(states[i], id) <==> Failed(states, steps, i, id)
  {
    forall m | 0 <= m < i ensures FateFollows(states[m], steps[m], states[m + 1], id) {
      NextFateFollows(states, steps, now, m, id);
    }
    FailedAlong(states, steps, i, id);
  }

  // A "running" row is exactly one of: about to be pushed by a producer that lives, queued, in
  // process, or left behind by a step that failed for it. A finished row is none of them.
  lemma RunningRowsAreConserved(states: seq<World>, steps: seq<Step>, now: int, i: nat, id: int)
    requires Runs(states, steps, now) && i < |states| && id in states[i].log.runs
    ensures var w := states[i];
            One(PrePush(w, id)) + One(InQueue(w, id)) + One(InProcess(w, id)) + One(Failed(states, steps, i, id))
            == One(w.log.runs[id].state == Running)
  {
    RunKeepsInv(states, steps, now, i);
    assert RowInv(states[i], id);
    RunningRowsHaveOnePlace(states[i], id);
    AbandonedMeansFailed(states, steps, now, i, id);
  }
}
