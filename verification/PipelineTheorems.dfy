/** What the job system promises in every state any run can reach. */
module PipelineTheorems {
  import opened Wrappers
  import opened Protocol
  import opened Jobs
  import opened RunLog
  import opened Consumer
  import opened Pipeline
  import opened PipelineInv
  import AgentStore

  // ---------- A log entry is never a lie ----------

  // The server's worker took this id exactly once, with this request.
  ghost predicate ExecutedOnce(s: AgentStore.Store, id: JobId, req: RunRequest) {
    && (exists i :: 0 <= i < |s.starts| && s.starts[i] == AgentStore.QueuedJob(id, req))
    && (forall i, j :: 0 <= i < j < |s.starts| ==> s.starts[i].id != id || s.starts[j].id != id)
  }

  // The request is for the job's database, with its driver and connection.
  predicate AsksFor(req: RunRequest, job: Job) {
    req.dbName == job.dbName && req.driver == job.driver && req.params == job.params
  }

  // The agent ran job a and stored exactly what the row reports.
  ghost predicate AgentReported(w: World, a: Act, row: RunRow) {
    && HasTicket(w, a)
    && AsksFor(a.request, a.job)
    && ExecutedOnce(AgentOf(w, a), a.ticket.value, a.request)
    && a.ticket.value in AgentOf(w, a).results
    && var st := AgentOf(w, a).results[a.ticket.value].status;
       && (row.state == Success <==> st.success)
       && row.state != Running
       && row.message == (if st.success then "" else st.message)
       && row.startedAt == st.startedAt && row.durationMs == st.durationMs
  }

  lemma ReportedOnce(w: World, a: Act, k: nat)
    requires Inv(w) && k < |w.acts| && a == w.acts[k] && Witnessed(w, a)
    ensures ExecutedOnce(AgentOf(w, a), a.ticket.value, a.request)
  {
    var s, id := AgentOf(w, a), a.ticket.value;
    assert ActInv(w, k) && AgentInv(w, a.server.value);
    assert AgentStore.JobInv(s, id);
    assert s.starts[s.slot[id]] == AgentStore.QueuedJob(id, a.request);
  }

  // The row reports the attempt this side made, with its own start and duration.
  predicate LocalReported(a: Act, row: RunRow) {
    && a.started != "" && row.startedAt == a.started && row.durationMs == a.elapsedMs
    && match a.attempt.error {
         case None => row.state == Success && row.message == "" && a.attempt.result.Some?
         case Some(message) => row.state == Error && row.message == message
       }
  }

  // A finished row of a local job repeats the outcome of its one attempt, with the start time
  // noted when it began. A finished row of a remote job repeats the result of the one execution its agent recorded,
  // or is an error without a start time because the agent was never heard from.
  lemma FinishedRowIsTrue(states: seq<World>, steps: seq<Step>, now: int, i: nat, id: int)
    requires Runs(states, steps, now) && i < |states|
    requires id in states[i].log.runs && states[i].log.runs[id].state != Running
    ensures var w := states[i];
            && id in w.holder && (w.holder[id].ByJob? || w.holder[id].ByFallback?)
            && w.holder[id].k < |w.acts| <= |w.pushed|
            && var a, row := w.acts[w.holder[id].k], w.log.runs[id];
               && a.job == w.pushed[w.holder[id].k] && a.recorded && a.row == id
               && (a.job.runId != 0 ==> a.job.runId == id)
               && row.dbName == a.job.dbName && row.driver == a.job.driver
               && (Local(a) ==> LocalReported(a, row))
               && (!Local(a) ==> AgentReported(w, a, row) || (row.state == Error && row.startedAt == ""))
  {
    RunKeepsInv(states, steps, now, i);
    var w := states[i];
    assert RowInv(w, id);
    var k := w.holder[id].k;
    assert PushInv(w, k) && ActInv(w, k);
    if !Local(w.acts[k]) && w.acts[k].attempt.result.Some? {
      ReportedOnce(w, w.acts[k], k);
    }
  }

  // A file row names what the one successful execution uploaded, where the job asked for it.
  lemma FileRowIsTrue(states: seq<World>, steps: seq<Step>, now: int, i: nat, f: int)
    requires Runs(states, steps, now) && i < |states|
    requires f in states[i].log.files
    ensures var w := states[i];
            && f in w.filer && w.filer[f] < |w.acts|
            && var a, row := w.acts[w.filer[f]], w.log.files[f];
               && row.dbName == a.job.dbName && row.storageTargetId == a.job.storageTargetId
               && (Local(a) ==>
                     && a.attempt.error.None? && a.attempt.result.Some?
                     && var r := a.attempt.result.value;
                        row.filename == r.filename && row.remoteRef == r.remoteRef && row.sizeBytes == r.sizeBytes)
               && (!Local(a) ==>
                     && HasTicket(w, a) && AsksFor(a.request, a.job)
                     && ExecutedOnce(AgentOf(w, a), a.ticket.value, a.request)
                     && a.ticket.value in AgentOf(w, a).results
                     && var st := AgentOf(w, a).results[a.ticket.value].status;
                        st.success && row.filename == st.filename && row.remoteRef == st.remoteRef
                        && row.sizeBytes == st.sizeBytes)
    ensures forall g :: g in states[i].filer && states[i].filer[g] == states[i].filer[f] ==> g == f
  {
    RunKeepsInv(states, steps, now, i);
    var w := states[i];
    assert FileInv(w, f);
    var k := w.filer[f];
    assert ActInv(w, k);
    if !Local(w.acts[k]) {
      ReportedOnce(w, w.acts[k], k);
    }
    forall g | g in w.filer && w.filer[g] == k ensures g == f { assert FileInv(w, g); }
  }

  // No execution is reported under two jobs.
  lemma OneJobPerExecution(states: seq<World>, steps: seq<Step>, now: int, i: nat, j: nat, k: nat)
    requires Runs(states, steps, now) && i < |states|
    requires j < |states[i].acts| && k < |states[i].acts|
    requires states[i].acts[j].ticket.Some? && states[i].acts[j].ticket == states[i].acts[k].ticket
    requires states[i].acts[j].server == states[i].acts[k].server
    ensures j == k
  {
    RunKeepsInv(states, steps, now, i);
    assert TicketInv(states[i], j, k) && TicketInv(states[i], k, j);
  }

  // ---------- The life of a run row ----------

  // Names never change, a finished row is frozen, a start time is never blanked.
  predicate RowAdvances(before: RunRow, after: RunRow) {
    && after.dbName == before.dbName && after.driver == before.driver && after.databaseId == before.databaseId
    && (before.state != Running ==> after == before)
    && (before.startedAt != "" ==> after.startedAt != "")
  }

  predicate RowStep(w: World, v: World, id: int) {
    && w.log.lastRun <= v.log.lastRun
    && (id in v.log.runs && id <= w.log.lastRun ==>
          id in w.log.runs && RowAdvances(w.log.runs[id], v.log.runs[id]))
  }

  lemma RecordAdvances(w: World, k: nat, databaseId: int, stored: bool, id: int)
    requires Inv(w) && At(w, k, Returned)
    ensures RowStep(w, Recording(w, k, databaseId, stored), id)
  {
    assert ActInv(w, k) && PushInv(w, k) && RowInv(w, id);
    assert RowInv(w, w.log.lastRun + 1) && RowInv(w, Target(w, k));
    if stored { RecordedRow(w, k, databaseId); }
  }

  lemma StartAdvances(w: World, k: nat, startedAt: string, stored: bool, id: int)
    requires Inv(w) && Enabled(w, MarkStarted(k, startedAt, stored))
    ensures RowStep(w, Marking(w, k, startedAt, stored), id)
  {
    assert ActInv(w, k) && PushInv(w, k) && RowInv(w, id);
  }

  lemma ProduceAdvances(w: World, p: int, databaseId: int, job: Job, write: Write, id: int)
    requires Inv(w)
    ensures RowStep(w, Produce(w, p, databaseId, job, write), id)
  {}

  // Steps that write no run row.
  predicate Rowless(step: Step) {
    !step.CreateRun? && !step.ClearLog? && !step.MarkStarted? && !step.Record?
  }

  lemma DispatchLeavesLog(w: World, step: Step, v: World)
    requires Follows(w, step, v) && (IsDispatch(step) || IsPosted(step))
    ensures v.log == w.log
  {}

  lemma PollingLeavesLog(w: World, step: Step, v: World)
    requires Follows(w, step, v) && IsPolling(step)
    ensures v.log == w.log
  {}

  lemma OutsideLeavesLog(w: World, step: Step, v: World)
    requires Follows(w, step, v) && IsOutside(step)
    ensures v.log == w.log
  {}

  lemma SignalLeavesLog(w: World, step: Step, v: World)
    requires Follows(w, step, v) && IsSignal(step)
    ensures v.log == w.log
  {}

  lemma FilingLeavesRuns(w: World, k: nat, databaseId: int, stored: bool)
    requires k < |w.acts| && (stored ==> w.acts[k].attempt.result.Some?)
    ensures var v := Filing(w, k, databaseId, stored); v.log.runs == w.log.runs && v.log.lastRun == w.log.lastRun
  {}

  lemma OthersLeaveRuns(w: World, step: Step, v: World)
    requires Follows(w, step, v)
    requires step.SkipOther? || step.LocalReturn? || step.RecordFile?
             || step.Push? || step.Abort? || step.Pop? || step.Kill?
    ensures v.log.runs == w.log.runs && v.log.lastRun == w.log.lastRun
  {
    if step.RecordFile? { FilingLeavesRuns(w, step.k, step.databaseId, step.stored); }
  }

  lemma StepAdvances(w: World, step: Step, v: World, id: int)
    requires Inv(w) && Follows(w, step, v)
    ensures RowStep(w, v, id)
  {
    if Rowless(step) {
      if IsDispatch(step) || IsPosted(step) { DispatchLeavesLog(w, step, v);
      } else if IsPolling(step) { PollingLeavesLog(w, step, v);
      } else if IsOutside(step) { OutsideLeavesLog(w, step, v);
      } else if IsSignal(step) { SignalLeavesLog(w, step, v);
      } else { OthersLeaveRuns(w, step, v); }
    } else {
      WritingAdvances(w, step, v, id);
    }
  }

  lemma WritingAdvances(w: World, step: Step, v: World, id: int)
    requires Inv(w) && Follows(w, step, v) && !Rowless(step)
    ensures RowStep(w, v, id)
  {
    match step
    case CreateRun(p, databaseId, job, write) => ProduceAdvances(w, p, databaseId, job, write, id);
    case MarkStarted(k, startedAt, stored) => StartAdvances(w, k, startedAt, stored, id);
    case Record(k, databaseId, stored) => RecordAdvances(w, k, databaseId, stored, id);
    case ClearLog =>
  }

  lemma NextAdvances(states: seq<World>, steps: seq<Step>, now: int, m: nat, id: int)
    requires Runs(states, steps, now) && m < |steps|
    ensures RowStep(states[m], states[m + 1], id)
  {
    RunKeepsInv(states, steps, now, m);
    StepAdvances(states[m], steps[m], states[m + 1], id);
  }

  lemma {:induction false} AdvancesAlong(states: seq<World>, i: nat, j: nat, id: int)
    requires i <= j < |states|
    requires forall m :: i <= m < j ==> RowStep(states[m], states[m + 1], id)
    ensures RowStep(states[i], states[j], id)
    decreases j - i
  {
    if i < j {
      AdvancesAlong(states, i, j - 1, id);
      assert RowStep(states[j - 1], states[j], id);
    }
  }

  // From any state to any later one a row only advances: it is finished at most once, and a row
  // id that was cleared never comes back, so a late finish cannot land on another run.
  lemma RowsOnlyAdvance(states: seq<World>, steps: seq<Step>, now: int, i: nat, j: nat, id: int)
    requires Runs(states, steps, now) && i <= j < |states|
    ensures RowStep(states[i], states[j], id)
  {
    forall m | i <= m < j ensures RowStep(states[m], states[m + 1], id) {
      NextAdvances(states, steps, now, m, id);
    }
    AdvancesAlong(states, i, j, id);
  }

  // ---------- Conservation ----------

  predicate PrePush(w: World, id: int) {
    exists p :: p in w.pending && w.pending[p].runId == id
  }

  predicate InQueue(w: World, id: int) {
    exists i :: 0 <= i < |w.queue| && w.queue[i].runId == id
  }

  predicate BeforeOutcome(a: Act) {
    a.phase.Taken? || a.phase.Marked? || a.phase.Posting? || a.phase.Polling? || a.phase.Returned?
  }

  predicate InProcess(w: World, id: int) {
    exists k :: 0 <= k < |w.acts| && w.acts[k].job.runId == id && BeforeOutcome(w.acts[k])
  }

  // The job is past its outcome, which is not on record.
  predicate Forsaken(a: Act) { !BeforeOutcome(a) && !a.recorded }

  // No producer, queue or consumer will ever finish the row.
  predicate Abandoned(w: World, id: int) {
    || (id in w.holder && w.holder[id].Orphan?)
    || (exists k :: 0 <= k < |w.acts| && w.acts[k].job.runId == id && Forsaken(w.acts[k]))
  }

  function One(b: bool): nat { if b then 1 else 0 }

  lemma HeldWhere(w: World, id: int)
    requires Inv(w) && id in w.log.runs
    ensures id in w.holder
    ensures PrePush(w, id) <==> w.holder[id].ByProducer?
    ensures InQueue(w, id) <==> w.holder[id].ByJob? && |w.acts| <= w.holder[id].k
    ensures InProcess(w, id) <==>
              w.holder[id].ByJob? && w.holder[id].k < |w.acts| && BeforeOutcome(w.acts[w.holder[id].k])
    ensures Abandoned(w, id) <==>
              w.holder[id].Orphan?
              || (w.holder[id].ByJob? && w.holder[id].k < |w.acts|
                  && Forsaken(w.acts[w.holder[id].k]))
  {
    assert RowInv(w, id);
    if PrePush(w, id) {
      var p :| p in w.pending && w.pending[p].runId == id;
      assert PendingInv(w, p);
    }
    if InQueue(w, id) {
      var i :| 0 <= i < |w.queue| && w.queue[i].runId == id;
      assert PushInv(w, |w.acts| + i);
    }
    forall k | 0 <= k < |w.acts| && w.acts[k].job.runId == id ensures w.holder[id] == ByJob(k) {
      assert PushInv(w, k);
    }
    if w.holder[id].ByJob? { assert PushInv(w, w.holder[id].k); }
  }

  // A row is "running" exactly while it is in one of four places, and then in only one.
  lemma RunningRowsHaveOnePlace(w: World, id: int)
    requires Inv(w) && id in w.log.runs
    ensures One(PrePush(w, id)) + One(InQueue(w, id)) + One(InProcess(w, id)) + One(Abandoned(w, id))
         == One(w.log.runs[id].state == Running)
  {
    HeldWhere(w, id);
    assert RowInv(w, id);
    if w.holder[id].ByJob? || w.holder[id].ByFallback? { assert ActInv(w, w.holder[id].k); }
  }

  // ---------- Order ----------

  function JobsOf(acts: seq<Act>): seq<Job> {
    seq(|acts|, i requires 0 <= i < |acts| => acts[i].job)
  }

  // First in, first out; no two jobs carry the same run row.
  lemma QueueIsFifo(states: seq<World>, steps: seq<Step>, now: int, i: nat)
    requires Runs(states, steps, now) && i < |states|
    ensures JobsOf(states[i].acts) + states[i].queue == states[i].pushed
    ensures forall j, k :: 0 <= j < k < |states[i].pushed| && states[i].pushed[j].runId != 0 ==>
              states[i].pushed[j].runId != states[i].pushed[k].runId
  {
    RunKeepsInv(states, steps, now, i);
    var w := states[i];
    forall k: nat | k < |w.pushed|
      ensures (JobsOf(w.acts) + w.queue)[k] == w.pushed[k]
    {
      assert PushInv(w, k);
    }
    forall j: nat, k: nat | j < k < |w.pushed| && w.pushed[j].runId != 0
      ensures w.pushed[j].runId != w.pushed[k].runId
    {
      assert PushInv(w, j) && PushInv(w, k);
    }
  }

  predicate LocalInHand(a: Act) { Local(a) && Live(a) }

  // Local jobs are begun in push order, and never two at a time.
  lemma LocalJobsAreSerial(states: seq<World>, steps: seq<Step>, now: int, i: nat)
    requires Runs(states, steps, now) && i < |states|
    ensures var w := states[i];
            && (forall j, k :: 0 <= j < k < |w.localStarts| ==> w.localStarts[j] < w.localStarts[k])
            && (forall j, k | 0 <= j < |w.acts| && 0 <= k < |w.acts| ::
                  LocalInHand(w.acts[j]) && LocalInHand(w.acts[k]) ==> j == k)
  {
    RunKeepsInv(states, steps, now, i);
    var w := states[i];
    forall j: nat, k: nat | j < |w.acts| && k < |w.acts| && LocalInHand(w.acts[j]) && LocalInHand(w.acts[k])
      ensures j == k
    {
      assert LocalInv(w, j) && LocalInv(w, k);
    }
  }

  // The consumer returns only when no job is in hand, local or dispatched.
  lemma StoppedMeansIdle(w: World, k: nat)
    requires Inv(w) && w.loop.Stopped? && k < |w.acts|
    ensures !Live(w.acts[k])
  {
    assert LocalInv(w, k);
    assert LiveRemote(w.acts) == {};
    assert k !in LiveRemote(w.acts);
  }

  lemma ReturnWaitsForDispatches(states: seq<World>, steps: seq<Step>, now: int, i: nat, k: nat)
    requires Runs(states, steps, now) && i < |states|
    requires states[i].loop.Stopped? && k < |states[i].acts|
    ensures !Live(states[i].acts[k])
  {
    RunKeepsInv(states, steps, now, i);
    StoppedMeansIdle(states[i], k);
  }

  // ---------- Nothing is ruled out ----------

  // A producer can fail or die at its push.
  lemma PushCanFail(w: World, p: int)
    requires p in w.pending
    ensures Enabled(w, Push(p, Stored)) && Enabled(w, Push(p, Refused)) && Enabled(w, Push(p, StoredUnseen))
    ensures Enabled(w, Abort(p))
  {}

  // A pop can find nothing, lose its job or bring it, even after the stop signal.
  lemma PopCanFail(w: World)
    requires w.loop.Blocked?
    ensures Enabled(w, PopNothing) && (w.queue != [] ==> Enabled(w, Pop(true)) && Enabled(w, Pop(false)))
  {}

  // The log can be cleared and the consumer stopped or killed at any time.
  lemma SignalsCome(w: World)
    ensures Enabled(w, ClearLog) && Enabled(w, Kill) && (!w.loop.Stopped? ==> Enabled(w, Cancel))
  {}

  // A dispatch can fail at its POST, gives up exactly on a stop signal or past its deadline, and
  // its outcome can be stored exactly while the context is open.
  lemma DispatchCanFail(w: World, k: nat, databaseId: int, message: string)
    ensures At(w, k, Posting) ==> Enabled(w, PostFailed(k, message, 0))
    ensures At(w, k, Polling) ==>
              (Enabled(w, PollGivenUp(k, message, 0)) <==> w.cancelled || w.acts[k].deadline < w.now)
    ensures At(w, k, Returned) ==>
              Enabled(w, Record(k, databaseId, false)) && (Enabled(w, Record(k, databaseId, true)) <==> !w.cancelled)
  {}

  // A request that was posted can still reach its agent after the consumer has stopped waiting for
  // it.
  lemma PostCanArriveLate(w: World, k: nat, id: JobId, server: int)
    requires k < |w.acts| && w.acts[k].server == Some(server) && w.acts[k].ticket.None?
    requires server in w.agents && id !in w.agents[server].issued && w.agents[server].clock <= w.now
    ensures Enabled(w, Deliver(k, id))
  {}

  // ---------- Polling ----------

  // While a consumer may still poll, its agent knows the job unless the agent was restarted.
  lemma PolledJobIsKnown(states: seq<World>, steps: seq<Step>, now: int, i: nat, k: nat)
    requires Runs(states, steps, now) && i < |states|
    requires Enabled(states[i], Poll(k))
    ensures var w := states[i];
            var s, id := AgentOf(w, w.acts[k]), w.acts[k].ticket.value;
            AgentStore.StatusOf(s, id).Some? <==> AgentStore.InLifetime(s, id)
  {
    RunKeepsInv(states, steps, now, i);
    var w := states[i];
    var a := w.acts[k];
    var s, id := AgentOf(w, a), a.ticket.value;
    assert ActInv(w, k) && AgentInv(w, a.server.value);
    assert AgentStore.JobInv(s, id);
    if AgentStore.InLifetime(s, id) { AgentStore.NotLostWithinRetention(s, id); }
  }

  // A consumer that has not been told to stop gives a job up only when more than the longest wait
  // has passed since it dispatched it.
  lemma GivenUpLate(states: seq<World>, steps: seq<Step>, now: int, i: nat, k: nat, message: string, elapsedMs: int)
    requires Runs(states, steps, now) && i < |states|
    requires Enabled(states[i], PollGivenUp(k, message, elapsedMs)) && !states[i].cancelled
    ensures states[i].acts[k].postedAt + 6 * HOUR < states[i].now
  {
    RunKeepsInv(states, steps, now, i);
    assert ActInv(states[i], k);
  }

  // ---------- Shutdown ----------

  // Job k is not recorded and nothing can record it any more.
  predicate Doomed(w: World, k: nat) {
    && k < |w.acts| && !w.acts[k].recorded
    && (w.cancelled || w.acts[k].phase.Recorded? || w.acts[k].phase.Ended? || w.acts[k].phase.Lost?)
  }

  // Job k stays the same job, stays recorded, and stays doomed.
  predicate StaysSettled(w: World, v: World, k: nat) {
    k < |w.acts| ==>
      && k < |v.acts| && v.acts[k].job == w.acts[k].job
      && (w.acts[k].recorded ==> v.acts[k].recorded)
      && (Doomed(w, k) ==> Doomed(v, k))
  }

  // A step on job j that records it, if at all, while the context is still open.
  predicate MovesOn(w: World, v: World, j: nat) {
    && j < |w.acts| == |v.acts| && v.acts == w.acts[j := v.acts[j]]
    && v.acts[j].job == w.acts[j].job && v.cancelled == w.cancelled
    && (BeforeOutcome(w.acts[j]) || v.acts[j].phase.Ended? || v.acts[j].phase == w.acts[j].phase)
    && (v.acts[j].recorded != w.acts[j].recorded ==> !w.acts[j].recorded && !w.cancelled && BeforeOutcome(w.acts[j]))
  }

  lemma MoveStaysSettled(w: World, v: World, j: nat, k: nat)
    requires MovesOn(w, v, j)
    ensures StaysSettled(w, v, k)
  {}

  lemma WithMovesOn(w: World, k: nat, b: Act)
    requires k < |w.acts| && BeforeOutcome(w.acts[k]) && b.job == w.acts[k].job && b.recorded == w.acts[k].recorded
    ensures MovesOn(w, With(w, k, b), k)
  {}

  lemma SettledMovesOn(w: World, k: nat, attempt: Attempt, elapsedMs: int)
    requires k < |w.acts| && BeforeOutcome(w.acts[k])
    ensures MovesOn(w, Settled(w, k, attempt, elapsedMs), k)
  {
    WithMovesOn(w, k, Returning(w.acts[k], attempt, elapsedMs));
  }

  lemma AskingMovesOn(w: World, k: nat)
    requires At(w, k, Polling) && HasTicket(w, w.acts[k])
    ensures MovesOn(w, Asking(w, k), k)
  {
    var a := w.acts[k];
    WithMovesOn(w, k, a.(reply := AgentStore.StatusOf(AgentOf(w, a), a.ticket.value)));
  }

  lemma AnsweredMovesOn(w: World, k: nat, elapsedMs: int)
    requires At(w, k, Polling) && w.acts[k].reply.Some?
    ensures MovesOn(w, Answered(w, k, elapsedMs), k)
  {
    var a := w.acts[k];
    if a.reply.value.status != "done" {
      WithMovesOn(w, k, a.(reply := None));
    } else {
      SettledMovesOn(w, k, AttemptOfStatus(a.job, a.reply.value), elapsedMs);
    }
  }

  lemma DispatchMovesOn(w: World, step: Step, v: World)
    requires Follows(w, step, v) && (IsDispatch(step) || IsPosted(step))
    ensures MovesOn(w, v, step.k)
  {}

  lemma PollingMovesOn(w: World, step: Step, v: World)
    requires Follows(w, step, v) && IsPolling(step)
    ensures MovesOn(w, v, step.k)
  {
    match step
    case Poll(k) => AskingMovesOn(w, k);
    case PollAnswered(k, elapsedMs) => AnsweredMovesOn(w, k, elapsedMs);
    case PollGivenUp(k, message, elapsedMs) => SettledMovesOn(w, k, Failed(message), elapsedMs);
  }

  lemma LocalMovesOn(w: World, step: Step, v: World)
    requires Follows(w, step, v) && IsLocal(step)
    ensures MovesOn(w, v, step.k)
  {}

  lemma RecordingCases(w: World, k: nat, databaseId: int, stored: bool)
    requires k < |w.acts|
    ensures var v := Recording(w, k, databaseId, stored);
            var b := if stored then RecordedIn(w.acts[k], Target(w, k)) else w.acts[k].(phase := Recorded);
            v.acts == w.acts[k := b] && v.cancelled == w.cancelled
  {}

  lemma RecordMovesOn(w: World, k: nat, databaseId: int, stored: bool)
    requires At(w, k, Returned) && (stored ==> !w.cancelled)
    ensures MovesOn(w, Recording(w, k, databaseId, stored), k)
  {
    RecordingCases(w, k, databaseId, stored);
  }

  lemma FileMovesOn(w: World, k: nat, databaseId: int, stored: bool)
    requires At(w, k, Recorded) && (stored ==> w.acts[k].attempt.result.Some?)
    ensures MovesOn(w, Filing(w, k, databaseId, stored), k)
  {
    FilingCases(w, k, databaseId, stored);
  }

  lemma FilingCases(w: World, k: nat, databaseId: int, stored: bool)
    requires At(w, k, Recorded) && (stored ==> w.acts[k].attempt.result.Some?)
    ensures var v := Filing(w, k, databaseId, stored);
            && |v.acts| == |w.acts| && v.acts == w.acts[k := v.acts[k]] && v.cancelled == w.cancelled
            && v.acts[k] == w.acts[k].(phase := Ended, file := v.acts[k].file)
  {}

  lemma RecordingMovesOn(w: World, step: Step, v: World)
    requires Follows(w, step, v) && IsRecording(step)
    ensures MovesOn(w, v, step.k)
  {
    match step
    case Record(k, databaseId, stored) => RecordMovesOn(w, k, databaseId, stored);
    case RecordFile(k, databaseId, stored) => FileMovesOn(w, k, databaseId, stored);
  }

  // Steps that touch no job that was ever popped.
  predicate SameJobs(w: World, v: World) {
    && |w.acts| <= |v.acts| && v.acts[..|w.acts|] == w.acts
    && (w.cancelled ==> v.cancelled)
  }

  lemma SameJobsStaySettled(w: World, v: World, k: nat)
    requires SameJobs(w, v)
    ensures StaysSettled(w, v, k)
  {
    if k < |w.acts| { assert v.acts[k] == v.acts[..|w.acts|][k]; }
  }

  lemma PopKeepsJobs(w: World, arrived: bool)
    requires w.queue != []
    ensures SameJobs(w, Popping(w, arrived))
  {}

  lemma ProducerKeepsJobs(w: World, step: Step, v: World)
    requires Follows(w, step, v) && IsProducer(step)
    ensures SameJobs(w, v)
  {}

  lemma OutsideKeepsJobs(w: World, step: Step, v: World)
    requires Follows(w, step, v) && IsOutside(step)
    ensures SameJobs(w, v)
  {}

  lemma SignalKeepsJobs(w: World, step: Step, v: World)
    requires Follows(w, step, v) && IsSignal(step) && !step.Boot?
    ensures SameJobs(w, v)
  {}

  lemma OthersStaySettled(w: World, step: Step, v: World, k: nat)
    requires Follows(w, step, v)
    requires IsProducer(step) || IsOutside(step) || step.Pop? || (IsSignal(step) && !step.Boot?)
    ensures StaysSettled(w, v, k)
  {
    if IsProducer(step) { ProducerKeepsJobs(w, step, v);
    } else if IsOutside(step) { OutsideKeepsJobs(w, step, v);
    } else if step.Pop? { PopKeepsJobs(w, step.arrived);
    } else { SignalKeepsJobs(w, step, v); }
    SameJobsStaySettled(w, v, k);
  }

  lemma BootStaysSettled(w: World, step: Step, v: World, k: nat)
    requires Inv(w) && Follows(w, step, v) && (step.Boot? || step.Kill?)
    ensures StaysSettled(w, v, k)
  {
    if step.Boot? && k < |w.acts| { StoppedMeansIdle(w, k); }
  }

  lemma StepStaysSettled(w: World, step: Step, v: World, k: nat)
    requires Inv(w) && Follows(w, step, v)
    ensures StaysSettled(w, v, k)
  {
    if IsDispatch(step) || IsPosted(step) {
      DispatchMovesOn(w, step, v);
      MoveStaysSettled(w, v, step.k, k);
    } else if IsPolling(step) {
      PollingMovesOn(w, step, v);
      MoveStaysSettled(w, v, step.k, k);
    } else if IsLocal(step) {
      LocalMovesOn(w, step, v);
      MoveStaysSettled(w, v, step.k, k);
    } else if IsRecording(step) {
      RecordingMovesOn(w, step, v);
      MoveStaysSettled(w, v, step.k, k);
    } else if step.Boot? || step.Kill? {
      BootStaysSettled(w, step, v, k);
    } else {
      OthersStaySettled(w, step, v, k);
    }
  }

  lemma NextStaysSettled(states: seq<World>, steps: seq<Step>, now: int, m: nat, k: nat)
    requires Runs(states, steps, now) && m < |steps|
    ensures StaysSettled(states[m], states[m + 1], k)
  {
    RunKeepsInv(states, steps, now, m);
    StepStaysSettled(states[m], steps[m], states[m + 1], k);
  }

  lemma {:induction false} SettledAlong(states: seq<World>, i: nat, j: nat, k: nat)
    requires i <= j < |states|
    requires forall m :: i <= m < j ==> StaysSettled(states[m], states[m + 1], k)
    ensures StaysSettled(states[i], states[j], k)
    decreases j - i
  {
    if i < j {
      SettledAlong(states, i, j - 1, k);
      assert StaysSettled(states[j - 1], states[j], k);
    }
  }

  lemma SettledBetween(states: seq<World>, steps: seq<Step>, now: int, i: nat, j: nat, k: nat)
    requires Runs(states, steps, now) && i <= j < |states|
    ensures StaysSettled(states[i], states[j], k)
  {
    forall m | i <= m < j ensures StaysSettled(states[m], states[m + 1], k) {
      NextStaysSettled(states, steps, now, m, k);
    }
    SettledAlong(states, i, j, k);
  }

  // Once the stop signal has arrived, a popped job has its outcome recorded, then or at any later
  // time, exactly when it was recorded before: one still in hand never gets it stored, and its row
  // stays "running" for ever, or is cleared.
  lemma ShutdownAbandonsJobsInHand(
    states: seq<World>, steps: seq<Step>, now: int, i: nat, j: nat, k: nat)
    requires Runs(states, steps, now) && i <= j < |states|
    requires states[i].cancelled && k < |states[i].acts|
    ensures k < |states[j].acts| && states[j].acts[k].job == states[i].acts[k].job
    ensures states[j].acts[k].recorded <==> states[i].acts[k].recorded
    ensures var id := states[i].acts[k].job.runId;
            id != 0 && id in states[j].log.runs ==>
              (states[j].log.runs[id].state == Running <==> !states[i].acts[k].recorded)
  {
    SettledBetween(states, steps, now, i, j, k);
    RunKeepsInv(states, steps, now, j);
    assert PushInv(states[j], k) && RowInv(states[j], states[j].acts[k].job.runId);
  }

  // One job on the list, its row created and not yet started.
  function OneQueued(now: int, job: Job, row: RunRow): World {
    Initial(now).(log := Log(map[1 := row], 1, map[], 0), queue := [job], pushed := [job], holder := map[1 := ByJob(0)])
  }

  lemma EnqueueOne(now: int, job: Job) returns (w1: World, w2: World)
    requires job.cmd == "backup"
    ensures Follows(Initial(now), CreateRun(0, 1, job, Stored), w1) && Follows(w1, Push(0, Stored), w2)
    ensures w2 == OneQueued(now, job.(runId := 1), EnqueuedRow(1, job.dbName, job.driver))
  {
    w1 := Produce(Initial(now), 0, 1, job, Stored);
    w2 := Pushing(w1, 0, Stored);
  }

  lemma TakeOne(w2: World) returns (w3: World, w4: World, w5: World)
    requires w2.loop.Waiting? && !w2.cancelled && |w2.queue| == 1 && w2.acts == []
    ensures Follows(w2, Begin, w3) && Follows(w3, Pop(true), w4) && Follows(w4, Cancel, w5)
    ensures w5.cancelled && w5.acts == [NewAct(w2.queue[0], Taken)] && w5.log == w2.log
  {
    w3 := Signalled(w2, Blocked, false);
    w4 := Popping(w3, true);
    w5 := Signalled(w4, w4.loop, true);
  }

  // The signal can find a job in hand: one whose row is created, that is pushed, and popped.
  lemma JobInHandAtShutdown(now: int, job: Job) returns (states: seq<World>, steps: seq<Step>)
    requires job.cmd == "backup"
    ensures Runs(states, steps, now) && |states| == 6
    ensures var w := states[5];
            && w.cancelled && |w.acts| == 1 && Live(w.acts[0]) && !w.acts[0].recorded
            && w.acts[0].job == job.(runId := 1) && 1 in w.log.runs && w.log.runs[1].state == Running
  {
    var w1, w2 := EnqueueOne(now, job);
    var w3, w4, w5 := TakeOne(w2);
    states := [Initial(now), w1, w2, w3, w4, w5];
    steps := [CreateRun(0, 1, job, Stored), Push(0, Stored), Begin, Pop(true), Cancel];
  }
}
