/** What every step of the job system keeps, stated one run row, job, producer, file and agent at
    a time. */
module PipelineInv {
  import opened Wrappers
  import opened Protocol
  import opened Jobs
  import opened RunLog
  import opened Consumer
  import opened Pipeline
  import AgentStore

  // ---------- Run rows ----------

  predicate Untouched(row: RunRow, job: Job) {
    row == EnqueuedRow(row.databaseId, job.dbName, job.driver)
  }

  predicate IsFinalRow(row: RunRow, a: Act) {
    row == FinalRow(a.job, row.databaseId, a.started, a.elapsedMs, a.attempt)
  }

  // The row of the job at push position k.
  predicate JobRow(w: World, k: nat, row: RunRow)
    requires k < |w.pushed|
  {
    if k < |w.acts| && w.acts[k].recorded then IsFinalRow(row, w.acts[k])
    else
      && Untouched(row.(startedAt := ""), w.pushed[k])
      && (row.startedAt != "" ==> k < |w.acts| && Local(w.acts[k]) && !w.acts[k].phase.Taken?)
  }

  predicate RowInv(w: World, id: int) {
    && (id in w.log.runs ==> id in w.holder)
    && (id in w.holder ==>
          && 1 <= id <= w.log.lastRun
          && match w.holder[id] {
               case Orphan => id in w.log.runs ==> w.log.runs[id].state == Running && w.log.runs[id].startedAt == ""
               case ByProducer(p) =>
                 p in w.pending && w.pending[p].runId == id
                 && (id in w.log.runs ==> Untouched(w.log.runs[id], w.pending[p]))
               case ByJob(k) =>
                 k < |w.pushed| && w.pushed[k].runId == id
                 && (id in w.log.runs ==> JobRow(w, k, w.log.runs[id]))
               case ByFallback(k) =>
                 k < |w.acts| && w.acts[k].job.runId == 0 && w.acts[k].recorded && w.acts[k].row == id
                 && (id in w.log.runs ==> IsFinalRow(w.log.runs[id], w.acts[k]))
             })
  }

  predicate PendingInv(w: World, p: int) {
    p in w.pending ==>
      && w.pending[p].cmd == "backup"
      && (w.pending[p].runId != 0 ==>
            w.pending[p].runId in w.holder && w.holder[w.pending[p].runId] == ByProducer(p))
  }

  // ---------- Jobs ----------

  predicate PushInv(w: World, k: nat) {
    k < |w.pushed| ==>
      && w.pushed[k].cmd == "backup"
      && (w.pushed[k].runId != 0 ==>
            w.pushed[k].runId in w.holder && w.holder[w.pushed[k].runId] == ByJob(k))
      && (if k < |w.acts| then w.acts[k].job == w.pushed[k]
          else k - |w.acts| < |w.queue| && w.queue[k - |w.acts|] == w.pushed[k])
  }

  predicate Attempted(a: Act) {
    a.phase.Returned? || a.phase.Recorded? || a.phase.Ended? || a.recorded
  }

  // The agent executed the job once, and the attempt is what it stored.
  predicate Witnessed(w: World, a: Act) {
    && HasTicket(w, a)
    && a.ticket.value in AgentOf(w, a).results
    && a.attempt == AttemptOfStatus(a.job, AgentOf(w, a).results[a.ticket.value].status)
  }

  predicate HttpOk(w: World, a: Act) {
    && (a.server.Some? ==>
          !Local(a) && a.server.value in w.agents && a.postedAt <= w.now
          && a.request == RequestFor(a.job, a.request.storage, a.request.timezone))
    && (a.ticket.Some? ==>
          HasTicket(w, a) && a.ticket.value in AgentOf(w, a).issued
          && AgentOf(w, a).issued[a.ticket.value].req == a.request
          && a.postedAt <= AgentOf(w, a).issued[a.ticket.value].at)
    && (a.phase.Taken? ==> a.server.None? && a.ticket.None?)
    && (a.phase.Posting? ==> a.server.Some?)
    && (a.phase.Polling? ==>
          a.ticket.Some? && HasTicket(w, a) && a.ticket.value in AgentOf(w, a).sent
          && a.postedAt + MAX_WAIT <= a.deadline <= a.postedAt + CLIENT_TIMEOUT + MAX_WAIT
          && (a.reply.Some? && a.reply.value.status == "done" ==>
                a.ticket.value in AgentOf(w, a).results
                && AgentOf(w, a).results[a.ticket.value].status == a.reply.value))
    && (!Local(a) && a.attempt.result.Some? ==> Witnessed(w, a))
  }

  predicate ActOk(w: World, k: nat, a: Act) {
    && a.job.cmd == "backup"
    && (if Local(a) then !a.phase.Posting? && !a.phase.Polling? else !a.phase.Marked?)
    && (a.recorded ==> a.phase.Recorded? || a.phase.Ended? || a.phase.Lost?)
    && (a.file != 0 ==> a.phase.Ended?)
    && (!Attempted(a) && !a.phase.Lost? ==> a.attempt == NO_ATTEMPT)
    && (Attempted(a) ==> (a.attempt.error.None? ==> a.attempt.result.Some?))
    && (Attempted(a) && a.attempt.error.None? ==>
          a.attempt.result.value.storageTargetId == a.job.storageTargetId)
    && (Local(a) && (a.phase.Marked? || Attempted(a)) ==> a.started != "")
    && (a.recorded ==>
          a.row in w.holder
          && w.holder[a.row] == (if a.job.runId != 0 then ByJob(k) else ByFallback(k))
          && (a.job.runId != 0 ==> a.row == a.job.runId))
    && HttpOk(w, a)
  }

  predicate ActInv(w: World, k: nat) {
    k < |w.acts| ==> ActOk(w, k, w.acts[k])
  }

  // No two dispatches were given the same id by the same agent.
  predicate TicketInv(w: World, j: nat, k: nat) {
    j < k < |w.acts| && w.acts[j].ticket.Some? && w.acts[j].ticket == w.acts[k].ticket ==>
      w.acts[j].server != w.acts[k].server
  }

  predicate FileInv(w: World, f: int) {
    && (f in w.log.files ==> f in w.filer)
    && (f in w.filer ==>
          && 1 <= f <= w.log.lastFile
          && w.filer[f] < |w.acts|
          && w.acts[w.filer[f]].file == f
          && FileOk(w.acts[w.filer[f]])
          && (f in w.log.files ==> FiledBy(w.log.files[f], w.acts[w.filer[f]])))
  }

  predicate FileOk(a: Act) {
    a.attempt.error.None? && a.attempt.result.Some?
  }

  predicate FiledBy(row: FileRow, a: Act) {
    a.attempt.result.Some? && row == FileOf(a.job, row.databaseId, a.attempt.result.value)
  }

  ghost predicate AgentInv(w: World, server: int) {
    server in w.agents ==> AgentStore.Inv(w.agents[server]) && w.agents[server].clock <= w.now
  }

  // ---------- The consumer loop ----------

  ghost function LiveRemote(acts: seq<Act>): set<int> {
    set k | 0 <= k < |acts| && Live(acts[k]) && !Local(acts[k])
  }

  // Only the job popped last can be a local one in hand, and then the loop is busy with it.
  predicate LocalInv(w: World, k: nat) {
    k < |w.acts| && Live(w.acts[k]) && Local(w.acts[k]) ==> k == |w.acts| - 1 && w.loop.Busy?
  }

  ghost predicate LoopInv(w: World) {
    && w.wg == |LiveRemote(w.acts)|
    && (w.loop.Stopped? ==> w.wg == 0)
    && (w.loop.Busy? ==>
          |w.acts| > 0 && Local(w.acts[|w.acts| - 1]) && Live(w.acts[|w.acts| - 1]))
  }

  ghost predicate StartsOf(starts: seq<nat>, acts: seq<Act>) {
    && (forall i :: 0 <= i < |starts| ==> starts[i] < |acts| && Local(acts[starts[i]]))
    && (forall i, j :: 0 <= i < j < |starts| ==> starts[i] < starts[j])
  }

  ghost predicate StartsInv(w: World) {
    StartsOf(w.localStarts, w.acts)
  }

  ghost predicate Inv(w: World) {
    LoopInv(w) && RowSide(w) && ActSide(w)
  }

  lemma InitialInv(now: int)
    ensures Inv(Initial(now))
  {}

  // ---------- Frames: what a step need not look at ----------

  // The step leaves the jobs in hand, the loop, the files and the agents alone, and keeps every
  // row with the job that recorded it.
  ghost predicate ActsUnchanged(w: World, v: World) {
    && v.acts == w.acts && v.agents == w.agents && v.now == w.now
    && v.loop == w.loop && v.wg == w.wg && v.localStarts == w.localStarts
    && v.log.files == w.log.files && v.log.lastFile == w.log.lastFile && v.filer == w.filer
    && (forall id <- w.holder :: w.holder[id].ByJob? || w.holder[id].ByFallback? ==>
          id in v.holder && v.holder[id] == w.holder[id])
  }

  ghost predicate ActSide(w: World) {
    && StartsInv(w)
    && (forall k: nat :: ActInv(w, k))
    && (forall k: nat :: LocalInv(w, k))
    && (forall j: nat, k: nat :: TicketInv(w, j, k))
    && (forall f: int :: FileInv(w, f))
    && (forall server: int :: AgentInv(w, server))
  }

  lemma ActsFrame(w: World, v: World)
    requires ActSide(w) && ActsUnchanged(w, v)
    ensures ActSide(v)
  {
    forall k: nat ensures ActInv(v, k) { assert ActInv(w, k); }
    forall k: nat ensures LocalInv(v, k) { assert LocalInv(w, k); }
    forall j: nat, k: nat ensures TicketInv(v, j, k) { assert TicketInv(w, j, k); }
    forall f: int ensures FileInv(v, f) { assert FileInv(w, f); }
    forall server: int ensures AgentInv(v, server) { assert AgentInv(w, server); }
  }

  ghost predicate RowSide(w: World) {
    && |w.acts| + |w.queue| == |w.pushed|
    && (forall id: int :: RowInv(w, id))
    && (forall p: int :: PendingInv(w, p))
    && (forall k: nat :: PushInv(w, k))
  }

  // The step touches no row, producer or queue, and no job that has recorded or will record here.
  ghost predicate RowsUnchanged(w: World, v: World) {
    && v.log.runs == w.log.runs && v.log.lastRun == w.log.lastRun
    && v.holder == w.holder && v.pending == w.pending
    && v.queue == w.queue && v.pushed == w.pushed && |v.acts| == |w.acts|
    && (forall k :: 0 <= k < |w.acts| ==> SameForRow(w.acts[k], v.acts[k]))
  }

  predicate SameForRow(a: Act, b: Act) {
    && b.job == a.job && b.recorded == a.recorded
    && (a.recorded ==> b.row == a.row && b.started == a.started && b.elapsedMs == a.elapsedMs && b.attempt == a.attempt)
    && (!a.phase.Taken? ==> !b.phase.Taken?)
  }

  lemma RowsFrame(w: World, v: World)
    requires RowSide(w) && RowsUnchanged(w, v)
    ensures RowSide(v)
  {
    forall id: int ensures RowInv(v, id) { assert RowInv(w, id); }
    forall p: int ensures PendingInv(v, p) { assert PendingInv(w, p); }
    forall k: nat ensures PushInv(v, k) { assert PushInv(w, k); }
  }

  // ---------- Producers ----------

  lemma ProduceRow(w: World, p: int, databaseId: int, job: Job, write: Write, id: int)
    requires RowInv(w, id) && p !in w.pending && w.log.lastRun + 1 !in w.holder
    ensures RowInv(Produce(w, p, databaseId, job, write), id)
  {}

  lemma ProduceJobs(w: World, p: int, databaseId: int, job: Job, write: Write, q: int, k: nat)
    requires PendingInv(w, q) && PushInv(w, k) && w.log.lastRun + 1 !in w.holder
    ensures PendingInv(Produce(w, p, databaseId, job, write), q)
    ensures PushInv(Produce(w, p, databaseId, job, write), k)
  {}

  lemma ProduceKeeps(w: World, p: int, databaseId: int, job: Job, write: Write)
    requires Inv(w) && p !in w.pending
    ensures Inv(Produce(w, p, databaseId, job, write))
  {
    var v := Produce(w, p, databaseId, job, write);
    assert RowInv(w, w.log.lastRun + 1);
    assert ActsUnchanged(w, v);
    ActsFrame(w, v);
    forall id: int ensures RowInv(v, id) { ProduceRow(w, p, databaseId, job, write, id); }
    forall q: int ensures PendingInv(v, q) { ProduceJobs(w, p, databaseId, job, write, q, |w.pushed|); }
    forall k: nat ensures PushInv(v, k) { ProduceJobs(w, p, databaseId, job, write, p, k); }
  }

  lemma PushRow(w: World, p: int, write: Write, id: int)
    requires p in w.pending && RowInv(w, id) && PendingInv(w, p)
    requires |w.acts| + |w.queue| == |w.pushed|
    ensures RowInv(Pushing(w, p, write), id)
  {}

  lemma PushJobs(w: World, p: int, write: Write, q: int, k: nat)
    requires p in w.pending && PendingInv(w, p) && PendingInv(w, q) && PushInv(w, k)
    requires |w.acts| + |w.queue| == |w.pushed|
    ensures PendingInv(Pushing(w, p, write), q) && PushInv(Pushing(w, p, write), k)
  {}

  lemma PushKeeps(w: World, p: int, write: Write)
    requires Inv(w) && p in w.pending
    ensures Inv(Pushing(w, p, write))
  {
    var v := Pushing(w, p, write);
    assert PendingInv(w, p);
    assert ActsUnchanged(w, v);
    ActsFrame(w, v);
    forall id: int ensures RowInv(v, id) { PushRow(w, p, write, id); }
    forall q: int ensures PendingInv(v, q) { PushJobs(w, p, write, q, |w.pushed|); }
    forall k: nat ensures PushInv(v, k) { PushJobs(w, p, write, p, k); }
  }

  lemma ClearKeeps(w: World)
    requires Inv(w)
    ensures Inv(Cleared(w))
  {
    var v := Cleared(w);
    ActsFrame(w, v);
    forall id: int ensures RowInv(v, id) { assert RowInv(w, id); }
    forall p: int ensures PendingInv(v, p) { assert PendingInv(w, p); }
    forall k: nat ensures PushInv(v, k) { assert PushInv(w, k); }
  }

  // ---------- Popping ----------

  lemma LiveRemoteGrows(acts: seq<Act>, a: Act)
    ensures |LiveRemote(acts + [a])| == |LiveRemote(acts)| + if Live(a) && !Local(a) then 1 else 0
  {
    var before, after := LiveRemote(acts), LiveRemote(acts + [a]);
    assert after == before + if Live(a) && !Local(a) then {|acts|} else {};
  }

  lemma LiveRemoteMoves(acts: seq<Act>, k: nat, a: Act)
    requires k < |acts| && Live(acts[k]) && a.job == acts[k].job
    ensures |LiveRemote(acts[k := a])| == |LiveRemote(acts)| - if !Live(a) && !Local(a) then 1 else 0
  {
    var before, after := LiveRemote(acts), LiveRemote(acts[k := a]);
    forall i: int ensures i in after <==> i in before && (i == k ==> Live(a)) {}
    if Live(a) || Local(a) {
      assert after == before;
    } else {
      assert k in before && after == before - {k};
    }
  }

  // The next job leaves the list and joins the jobs in hand, fresh or lost on the way.
  ghost predicate Appends(w: World, v: World, a: Act) {
    && w.queue != [] && |w.acts| + |w.queue| == |w.pushed|
    && v.acts == w.acts + [a] && v.queue == w.queue[1..] && a.job == w.queue[0]
    && (a == NewAct(a.job, Taken) || a == NewAct(a.job, Lost))
    && v.log == w.log && v.holder == w.holder && v.pending == w.pending && v.pushed == w.pushed
    && v.agents == w.agents && v.now == w.now && v.filer == w.filer
  }

  lemma AppendRow(w: World, v: World, a: Act, id: int)
    requires Appends(w, v, a) && RowInv(w, id)
    ensures RowInv(v, id)
  {}

  lemma AppendPush(w: World, v: World, a: Act, k: nat)
    requires Appends(w, v, a) && PushInv(w, k)
    ensures PushInv(v, k)
  {
    if k == |w.acts| { assert w.queue[0] == w.pushed[k]; }
  }

  lemma AppendAct(w: World, v: World, a: Act, k: nat)
    requires Appends(w, v, a) && PushInv(w, |w.acts|) && ActInv(w, k)
    ensures ActInv(v, k)
  {}

  lemma AppendFile(w: World, v: World, a: Act, f: int)
    requires Appends(w, v, a) && FileInv(w, f)
    ensures FileInv(v, f)
  {}

  lemma AppendKeeps(w: World, v: World, a: Act)
    requires Inv(w) && Appends(w, v, a)
    ensures RowSide(v)
    ensures forall k: nat :: ActInv(v, k)
    ensures forall j: nat, k: nat :: TicketInv(v, j, k)
    ensures forall f: int :: FileInv(v, f)
    ensures forall server: int :: AgentInv(v, server)
  {
    assert PushInv(w, |w.acts|);
    forall id: int ensures RowInv(v, id) { AppendRow(w, v, a, id); }
    forall p: int ensures PendingInv(v, p) { assert PendingInv(w, p); }
    forall k: nat ensures PushInv(v, k) { AppendPush(w, v, a, k); }
    forall k: nat ensures ActInv(v, k) { AppendAct(w, v, a, k); }
    forall j: nat, k: nat ensures TicketInv(v, j, k) { assert TicketInv(w, j, k); }
    forall f: int ensures FileInv(v, f) { AppendFile(w, v, a, f); }
    forall server: int ensures AgentInv(v, server) { assert AgentInv(w, server); }
  }

  lemma PopLoop(w: World, arrived: bool)
    requires LoopInv(w) && w.queue != [] && w.loop.Blocked?
    ensures LoopInv(Popping(w, arrived))
  {
    LiveRemoteGrows(w.acts, NewAct(w.queue[0], if arrived then Taken else Lost));
  }

  lemma StartsGrow(starts: seq<nat>, acts: seq<Act>, a: Act)
    requires StartsOf(starts, acts)
    ensures StartsOf(starts, acts + [a]) && (Local(a) ==> StartsOf(starts + [|acts|], acts + [a]))
  {}

  lemma PopStarts(w: World, arrived: bool)
    requires StartsInv(w) && w.queue != []
    ensures StartsInv(Popping(w, arrived))
  {
    StartsGrow(w.localStarts, w.acts, NewAct(w.queue[0], if arrived then Taken else Lost));
  }

  lemma PopLocal(w: World, arrived: bool, k: nat)
    requires LocalInv(w, k) && w.queue != [] && w.loop.Blocked?
    ensures LocalInv(Popping(w, arrived), k)
  {}

  lemma PopAppends(w: World, arrived: bool)
    requires w.queue != [] && |w.acts| + |w.queue| == |w.pushed|
    ensures Appends(w, Popping(w, arrived), NewAct(w.queue[0], if arrived then Taken else Lost))
  {}

  lemma PopKeeps(w: World, arrived: bool)
    requires Inv(w) && w.queue != [] && w.loop.Blocked?
    ensures Inv(Popping(w, arrived))
  {
    PopAppends(w, arrived);
    AppendKeeps(w, Popping(w, arrived), NewAct(w.queue[0], if arrived then Taken else Lost));
    PopLoop(w, arrived);
    PopStarts(w, arrived);
    forall k: nat ensures LocalInv(Popping(w, arrived), k) { PopLocal(w, arrived, k); }
  }

  // ---------- One job moves on ----------

  // Job k goes from a to b; nothing else of the consumer's, the agents' or the files changes.
  ghost predicate Moves(w: World, v: World, k: nat, b: Act) {
    && k < |w.acts| && Live(w.acts[k]) && v.acts == w.acts[k := b]
    && b.job == w.acts[k].job && b.file == w.acts[k].file
    && v.agents == w.agents && v.now == w.now && v.localStarts == w.localStarts
    && v.log.files == w.log.files && v.log.lastFile == w.log.lastFile && v.filer == w.filer
    && (forall id <- w.holder :: w.holder[id].ByJob? || w.holder[id].ByFallback? ==>
          id in v.holder && v.holder[id] == w.holder[id])
  }

  predicate SameTicket(a: Act, b: Act) {
    b.ticket == a.ticket && (a.ticket.Some? ==> b.server == a.server)
  }

  lemma MoveAct(w: World, v: World, k: nat, b: Act, j: nat)
    requires Moves(w, v, k, b) && ActOk(v, k, b) && ActInv(w, j)
    ensures ActInv(v, j)
  {}

  lemma MoveFile(w: World, v: World, k: nat, b: Act, f: int)
    requires Moves(w, v, k, b) && FileInv(w, f) && ActInv(w, k)
    ensures FileInv(v, f)
  {}

  lemma MoveStarts(w: World, v: World, k: nat, b: Act)
    requires Moves(w, v, k, b) && StartsInv(w)
    ensures StartsInv(v)
  {}

  lemma MoveActs(w: World, v: World, k: nat, b: Act)
    requires ActSide(w) && Moves(w, v, k, b) && ActOk(v, k, b)
    requires forall j: nat :: LocalInv(v, j)
    requires forall i: nat, j: nat :: TicketInv(v, i, j)
    ensures ActSide(v)
  {
    MoveStarts(w, v, k, b);
    assert ActInv(w, k);
    forall j: nat ensures ActInv(v, j) { MoveAct(w, v, k, b, j); }
    forall f: int ensures FileInv(v, f) { MoveFile(w, v, k, b, f); }
    forall server: int ensures AgentInv(v, server) { assert AgentInv(w, server); }
  }

  lemma MoveLoop(w: World, k: nat, b: Act)
    requires LoopInv(w) && k < |w.acts| && Live(w.acts[k]) && Live(b) && b.job == w.acts[k].job
    ensures LoopInv(With(w, k, b))
  {
    LiveRemoteMoves(w.acts, k, b);
  }

  // A step that changes only what is in hand for job k, before its outcome is recorded.
  lemma MoveKeeps(w: World, k: nat, b: Act)
    requires Inv(w) && k < |w.acts| && Moves(w, With(w, k, b), k, b) && ActOk(w, k, b)
    requires Live(b) && !w.acts[k].recorded && !b.recorded && !b.phase.Taken?
    requires SameTicket(w.acts[k], b)
    ensures Inv(With(w, k, b))
  {
    var v := With(w, k, b);
    forall i: nat, j: nat ensures TicketInv(v, i, j) { assert TicketInv(w, i, j); }
    forall j: nat ensures LocalInv(v, j) { assert LocalInv(w, j); }
    assert ActOk(v, k, b);
    MoveActs(w, v, k, b);
    RowsFrame(w, v);
    MoveLoop(w, k, b);
  }

  lemma ReturningOk(w: World, k: nat, a: Act, attempt: Attempt, elapsedMs: int)
    requires ActOk(w, k, a) && !a.recorded && Live(a)
    requires attempt.error.None? ==> attempt.result.Some?
    requires attempt.error.None? ==> attempt.result.value.storageTargetId == a.job.storageTargetId
    requires Local(a) ==> a.phase.Marked?
    requires !Local(a) && attempt.result.Some? ==> Witnessed(w, a.(attempt := attempt))
    ensures ActOk(w, k, Returning(a, attempt, elapsedMs))
  {}

  lemma ReturnKeeps(w: World, k: nat, attempt: Attempt, elapsedMs: int)
    requires Inv(w) && k < |w.acts| && Live(w.acts[k])
    requires w.acts[k].phase in {Taken, Marked, Posting, Polling}
    requires attempt.error.None? ==> attempt.result.Some?
    requires attempt.error.None? ==> attempt.result.value.storageTargetId == w.acts[k].job.storageTargetId
    requires Local(w.acts[k]) ==> w.acts[k].phase.Marked?
    requires !Local(w.acts[k]) && attempt.result.Some? ==> Witnessed(w, w.acts[k].(attempt := attempt))
    ensures Inv(With(w, k, Returning(w.acts[k], attempt, elapsedMs)))
  {
    assert ActInv(w, k);
    ReturningOk(w, k, w.acts[k], attempt, elapsedMs);
    MoveKeeps(w, k, Returning(w.acts[k], attempt, elapsedMs));
  }

  lemma PostKeeps(w: World, k: nat, server: int, storage: StorageConfig, timezone: string)
    requires Inv(w) && Enabled(w, Post(k, server, storage, timezone))
    ensures Inv(With(w, k, PostingTo(w, w.acts[k], server, storage, timezone)))
  {
    assert ActInv(w, k);
    var b := PostingTo(w, w.acts[k], server, storage, timezone);
    PostOk(w, k, w.acts[k], b);
    MoveKeeps(w, k, b);
  }

  // A job not yet posted has no agent id.
  lemma PostOk(w: World, k: nat, a: Act, b: Act)
    requires ActOk(w, k, a) && a.phase.Taken? && !Local(a)
    requires b.server.Some? && b.server.value in w.agents
    requires b == a.(phase := Posting, server := b.server, postedAt := w.now,
                     request := RequestFor(a.job, b.request.storage, b.request.timezone))
    ensures ActOk(w, k, b) && a.ticket.None?
  {}

  lemma PostAcceptedKeeps(w: World, k: nat)
    requires Inv(w) && Enabled(w, PostAccepted(k))
    ensures Inv(With(w, k, Accepted(w, w.acts[k])))
  {
    assert ActInv(w, k);
    var b := Accepted(w, w.acts[k]);
    assert ActOk(w, k, b);
    MoveKeeps(w, k, b);
  }

  lemma PollKeeps(w: World, k: nat)
    requires Inv(w) && Enabled(w, Poll(k))
    ensures Inv(Asking(w, k))
  {
    var a := w.acts[k];
    assert ActInv(w, k);
    assert AgentInv(w, a.server.value);
    var reply := AgentStore.StatusOf(AgentOf(w, a), a.ticket.value);
    if reply.Some? && reply.value.status == "done" {
      AgentStore.DoneIsTheResult(AgentOf(w, a), a.ticket.value);
    }
    assert ActOk(w, k, a.(reply := reply));
    MoveKeeps(w, k, a.(reply := reply));
  }

  lemma PollAnsweredKeeps(w: World, k: nat, elapsedMs: int)
    requires Inv(w) && Enabled(w, PollAnswered(k, elapsedMs))
    ensures Inv(Answered(w, k, elapsedMs))
  {
    var a := w.acts[k];
    assert ActInv(w, k);
    if a.reply.value.status != "done" {
      assert ActOk(w, k, a.(reply := None));
      MoveKeeps(w, k, a.(reply := None));
    } else {
      ReturnKeeps(w, k, AttemptOfStatus(a.job, a.reply.value), elapsedMs);
    }
  }

  // ---------- Started and finished rows ----------

  lemma MarkRow(w: World, k: nat, startedAt: string, stored: bool, id: int)
    requires Enabled(w, MarkStarted(k, startedAt, stored))
    requires RowInv(w, id) && PushInv(w, k) && !w.acts[k].recorded && k < |w.pushed|
    ensures RowInv(Marking(w, k, startedAt, stored), id)
  {}

  lemma MarkRows(w: World, k: nat, startedAt: string, stored: bool)
    requires Enabled(w, MarkStarted(k, startedAt, stored)) && RowSide(w) && ActInv(w, k)
    ensures RowSide(Marking(w, k, startedAt, stored))
  {
    var v := Marking(w, k, startedAt, stored);
    assert PushInv(w, k);
    forall id: int ensures RowInv(v, id) { MarkRow(w, k, startedAt, stored, id); }
    forall p: int ensures PendingInv(v, p) { assert PendingInv(w, p); }
    forall j: nat ensures PushInv(v, j) { assert PushInv(w, j); }
  }

  lemma MarkActs(w: World, k: nat, startedAt: string, stored: bool)
    requires Enabled(w, MarkStarted(k, startedAt, stored)) && ActSide(w)
    ensures ActSide(Marking(w, k, startedAt, stored))
  {
    var v := Marking(w, k, startedAt, stored);
    assert ActInv(w, k);
    forall j: nat ensures LocalInv(v, j) { assert LocalInv(w, j); }
    forall i: nat, j: nat ensures TicketInv(v, i, j) { assert TicketInv(w, i, j); }
    assert ActOk(v, k, v.acts[k]);
    MoveActs(w, v, k, v.acts[k]);
  }

  lemma MarkKeeps(w: World, k: nat, startedAt: string, stored: bool)
    requires Inv(w) && Enabled(w, MarkStarted(k, startedAt, stored))
    ensures Inv(Marking(w, k, startedAt, stored))
  {
    assert ActInv(w, k);
    MarkRows(w, k, startedAt, stored);
    MarkActs(w, k, startedAt, stored);
    MoveLoop(w, k, w.acts[k].(phase := Marked, started := startedAt));
  }

  // Where the outcome of job k goes: its own row, or a new one for a job that has none.
  function Target(w: World, k: nat): int
    requires k < |w.acts|
  {
    if w.acts[k].job.runId != 0 then w.acts[k].job.runId else w.log.lastRun + 1
  }

  ghost predicate Records(w: World, v: World, k: nat) {
    && At(w, k, Returned) && k < |w.pushed| && w.log.lastRun + 1 !in w.holder
    && w.acts[k].job == w.pushed[k] && !w.acts[k].recorded
    && v.acts == w.acts[k := RecordedIn(w.acts[k], Target(w, k))]
    && v.pushed == w.pushed && v.pending == w.pending && v.queue == w.queue
    && v.agents == w.agents && v.now == w.now && v.localStarts == w.localStarts
    && v.loop == w.loop && v.wg == w.wg
    && v.log.files == w.log.files && v.log.lastFile == w.log.lastFile && v.filer == w.filer
    && v.holder == (if w.acts[k].job.runId != 0 then w.holder else w.holder[w.log.lastRun + 1 := ByFallback(k)])
    && w.log.lastRun <= v.log.lastRun && (Target(w, k) > w.log.lastRun ==> v.log.lastRun == Target(w, k))
  }

  lemma RecordingRecords(w: World, k: nat, databaseId: int)
    requires At(w, k, Returned) && k < |w.pushed| && w.log.lastRun + 1 !in w.holder
    requires w.acts[k].job == w.pushed[k] && !w.acts[k].recorded
    requires Target(w, k) in w.holder ==> Target(w, k) <= w.log.lastRun
    requires w.acts[k].job.runId != 0 ==> w.acts[k].job.runId in w.holder
    ensures Records(w, Recording(w, k, databaseId, true), k)
  {}

  lemma RecordedRow(w: World, k: nat, databaseId: int)
    requires At(w, k, Returned) && ActInv(w, k) && PushInv(w, k) && k < |w.pushed|
    requires RowInv(w, Target(w, k)) && w.log.lastRun + 1 !in w.holder
    ensures var v := Recording(w, k, databaseId, true);
            && (Target(w, k) in v.log.runs ==> IsFinalRow(v.log.runs[Target(w, k)], v.acts[k]))
            && (forall id: int :: id != Target(w, k) ==>
                  (id in v.log.runs <==> id in w.log.runs)
                  && (id in w.log.runs ==> v.log.runs[id] == w.log.runs[id]))
  {
    var row := if Target(w, k) in w.log.runs then w.log.runs[Target(w, k)] else EnqueuedRow(0, "", "");
    assert Target(w, k) in w.log.runs ==> JobRow(w, k, row);
  }

  lemma RecordRowInv(w: World, v: World, k: nat, id: int)
    requires Records(w, v, k) && RowInv(w, id) && PushInv(w, k)
    requires if id == Target(w, k) then id in v.log.runs ==> IsFinalRow(v.log.runs[id], v.acts[k])
             else (id in v.log.runs <==> id in w.log.runs)
                  && (id in w.log.runs ==> v.log.runs[id] == w.log.runs[id])
    ensures RowInv(v, id)
  {}

  lemma RecordJobs(w: World, v: World, k: nat, p: int, j: nat)
    requires Records(w, v, k) && PendingInv(w, p) && PushInv(w, j)
    ensures PendingInv(v, p) && PushInv(v, j)
  {}

  lemma RecordAct(w: World, v: World, k: nat)
    requires Records(w, v, k) && ActInv(w, k) && PushInv(w, k)
    ensures Moves(w, v, k, v.acts[k]) && ActOk(v, k, v.acts[k])
  {}

  lemma RecordLoop(w: World, v: World, k: nat)
    requires Records(w, v, k) && LoopInv(w)
    ensures LoopInv(v)
  {
    LiveRemoteMoves(w.acts, k, v.acts[k]);
  }

  lemma RecordRows(w: World, k: nat, databaseId: int)
    requires RowSide(w) && At(w, k, Returned) && ActInv(w, k)
    ensures RowSide(Recording(w, k, databaseId, true))
    ensures Records(w, Recording(w, k, databaseId, true), k)
  {
    var v := Recording(w, k, databaseId, true);
    assert PushInv(w, k);
    assert RowInv(w, w.log.lastRun + 1) && RowInv(w, Target(w, k));
    RecordedRow(w, k, databaseId);
    RecordingRecords(w, k, databaseId);
    forall id: int ensures RowInv(v, id) { RecordRowInv(w, v, k, id); }
    forall p: int ensures PendingInv(v, p) { RecordJobs(w, v, k, p, |w.pushed|); }
    forall j: nat ensures PushInv(v, j) { RecordJobs(w, v, k, 0, j); }
  }

  lemma RecordActs(w: World, v: World, k: nat)
    requires ActSide(w) && Records(w, v, k) && PushInv(w, k)
    ensures ActSide(v)
  {
    assert ActInv(w, k);
    RecordAct(w, v, k);
    forall j: nat ensures LocalInv(v, j) { assert LocalInv(w, j); }
    forall i: nat, j: nat ensures TicketInv(v, i, j) { assert TicketInv(w, i, j); }
    MoveActs(w, v, k, v.acts[k]);
  }

  lemma RecordStoredKeeps(w: World, k: nat, databaseId: int)
    requires Inv(w) && At(w, k, Returned)
    ensures Inv(Recording(w, k, databaseId, true))
  {
    assert ActInv(w, k) && PushInv(w, k);
    RecordRows(w, k, databaseId);
    RecordActs(w, Recording(w, k, databaseId, true), k);
    RecordLoop(w, Recording(w, k, databaseId, true), k);
  }

  lemma RecordKeeps(w: World, k: nat, databaseId: int, stored: bool)
    requires Inv(w) && At(w, k, Returned)
    ensures Inv(Recording(w, k, databaseId, stored))
  {
    if stored {
      RecordStoredKeeps(w, k, databaseId);
    } else {
      var b := w.acts[k].(phase := Recorded);
      assert ActInv(w, k);
      assert ActOk(w, k, b);
      MoveKeeps(w, k, b);
    }
  }

  // ---------- The end of a job ----------

  lemma ReleaseLoop(w: World, k: nat, b: Act)
    requires LoopInv(w) && k < |w.acts| && Live(w.acts[k]) && !Live(b) && b.job == w.acts[k].job
    requires LocalInv(w, k)
    ensures LoopInv(Released(With(w, k, b), w.acts[k]))
    ensures !Local(b) ==> w.wg > 0
  {
    LiveRemoteMoves(w.acts, k, b);
    if !Local(b) { assert k in LiveRemote(w.acts); }
  }

  lemma ReleaseLocal(w: World, k: nat, b: Act, j: nat)
    requires k < |w.acts| && Live(w.acts[k]) && !Live(b) && b.job == w.acts[k].job
    requires LocalInv(w, k) && LocalInv(w, j)
    ensures LocalInv(Released(With(w, k, b), w.acts[k]), j)
  {}

  // Job k ends, leaving one file row or none.
  ghost predicate Files(w: World, v: World, k: nat, b: Act) {
    && At(w, k, Recorded) && b == w.acts[k].(phase := Ended, file := b.file)
    && v.acts == w.acts[k := b]
    && v.log.runs == w.log.runs && v.log.lastRun == w.log.lastRun
    && v.holder == w.holder && v.pending == w.pending && v.queue == w.queue && v.pushed == w.pushed
    && v.agents == w.agents && v.now == w.now && v.localStarts == w.localStarts
    && (if b.file == 0 then
          w.acts[k].file == 0 && v.filer == w.filer && v.log.files == w.log.files && v.log.lastFile == w.log.lastFile
        else
          && b.file == w.log.lastFile + 1 == v.log.lastFile && FileOk(b)
          && v.filer == w.filer[b.file := k]
          && b.file in v.log.files && FiledBy(v.log.files[b.file], b)
          && v.log.files == w.log.files[b.file := v.log.files[b.file]])
  }

  lemma FiledInFiles(w: World, k: nat, row: FileRow)
    requires At(w, k, Recorded) && FileOk(w.acts[k]) && FiledBy(row, w.acts[k])
    ensures var v := FiledIn(w, k, row); Files(w, v, k, v.acts[k])
  {}

  lemma QuietFiles(w: World, k: nat)
    requires At(w, k, Recorded) && ActInv(w, k)
    ensures var v := With(w, k, w.acts[k].(phase := Ended)); Files(w, v, k, v.acts[k])
  {}

  lemma ReleasedFiles(w: World, v: World, k: nat, b: Act)
    requires Files(w, v, k, b)
    ensures Files(w, Released(v, w.acts[k]), k, b)
  {}

  lemma FilingFiles(w: World, k: nat, databaseId: int, stored: bool)
    requires Enabled(w, RecordFile(k, databaseId, stored)) && ActInv(w, k)
    ensures var v := Filing(w, k, databaseId, stored); Files(w, v, k, v.acts[k])
  {
    var a := w.acts[k];
    if stored {
      var row := FileOf(a.job, databaseId, a.attempt.result.value);
      FiledInFiles(w, k, row);
      ReleasedFiles(w, FiledIn(w, k, row), k, FiledIn(w, k, row).acts[k]);
    } else {
      QuietFiles(w, k);
      ReleasedFiles(w, With(w, k, a.(phase := Ended)), k, a.(phase := Ended));
    }
  }

  // Letting go of the job changes the loop and its wait group as the release alone does.
  lemma FilingReleases(w: World, k: nat, databaseId: int, stored: bool)
    requires Enabled(w, RecordFile(k, databaseId, stored))
    ensures var v := Filing(w, k, databaseId, stored);
            var u := Released(With(w, k, v.acts[k]), w.acts[k]);
            v.loop == u.loop && v.wg == u.wg && v.acts == u.acts
  {}

  lemma FilesAct(w: World, v: World, k: nat, b: Act, j: nat)
    requires Files(w, v, k, b) && ActInv(w, k) && ActInv(w, j)
    ensures ActInv(v, j)
  {}

  lemma FilesFile(w: World, v: World, k: nat, b: Act, f: int)
    requires Files(w, v, k, b) && ActInv(w, k) && FileInv(w, f)
    ensures FileInv(v, f)
  {}

  lemma FilesRows(w: World, v: World, k: nat, b: Act)
    requires Files(w, v, k, b) && RowSide(w)
    ensures RowSide(v)
  {
    RowsFrame(w, v);
  }

  lemma FilesRest(w: World, v: World, k: nat, b: Act)
    requires Files(w, v, k, b) && ActSide(w)
    requires forall j: nat :: LocalInv(v, j)
    ensures ActSide(v)
  {
    assert ActInv(w, k);
    forall j: nat ensures ActInv(v, j) { FilesAct(w, v, k, b, j); }
    forall i: nat, j: nat ensures TicketInv(v, i, j) { assert TicketInv(w, i, j); }
    forall f: int ensures FileInv(v, f) { FilesFile(w, v, k, b, f); }
    forall server: int ensures AgentInv(v, server) { assert AgentInv(w, server); }
  }

  lemma FilingLoop(w: World, k: nat, databaseId: int, stored: bool)
    requires LoopInv(w) && Enabled(w, RecordFile(k, databaseId, stored)) && LocalInv(w, k)
    ensures LoopInv(Filing(w, k, databaseId, stored))
  {
    FilingReleases(w, k, databaseId, stored);
    ReleaseLoop(w, k, Filing(w, k, databaseId, stored).acts[k]);
  }

  lemma FilingLocal(w: World, k: nat, databaseId: int, stored: bool, j: nat)
    requires Enabled(w, RecordFile(k, databaseId, stored)) && LocalInv(w, k) && LocalInv(w, j)
    ensures LocalInv(Filing(w, k, databaseId, stored), j)
  {
    FilingReleases(w, k, databaseId, stored);
    ReleaseLocal(w, k, Filing(w, k, databaseId, stored).acts[k], j);
  }

  lemma FilingKeeps(w: World, k: nat, databaseId: int, stored: bool)
    requires Inv(w) && Enabled(w, RecordFile(k, databaseId, stored))
    ensures Inv(Filing(w, k, databaseId, stored))
  {
    var v := Filing(w, k, databaseId, stored);
    assert LocalInv(w, k) && ActInv(w, k);
    FilingFiles(w, k, databaseId, stored);
    FilingLoop(w, k, databaseId, stored);
    FilesRows(w, v, k, v.acts[k]);
    forall j: nat ensures LocalInv(v, j) { assert LocalInv(w, j); FilingLocal(w, k, databaseId, stored, j); }
    FilesRest(w, v, k, v.acts[k]);
  }

  lemma KillActs(w: World, k: nat, f: int)
    requires ActInv(w, k) && FileInv(w, f)
    ensures ActInv(KillAll(w), k) && FileInv(KillAll(w), f)
  {}

  lemma KillActSide(w: World)
    requires ActSide(w)
    ensures ActSide(KillAll(w))
  {
    var v := KillAll(w);
    forall k: nat ensures ActInv(v, k) { assert FileInv(w, 0); KillActs(w, k, 0); }
    forall f: int ensures FileInv(v, f) { assert ActInv(w, 0); KillActs(w, 0, f); }
    forall k: nat ensures LocalInv(v, k) { assert LocalInv(w, k); }
    forall i: nat, j: nat ensures TicketInv(v, i, j) { assert TicketInv(w, i, j); }
    forall server: int ensures AgentInv(v, server) { assert AgentInv(w, server); }
  }

  lemma KillKeeps(w: World)
    requires Inv(w)
    ensures Inv(KillAll(w))
  {
    assert LiveRemote(KillAll(w).acts) == {};
    RowsFrame(w, KillAll(w));
    KillActSide(w);
  }

  // ---------- Agents ----------

  // One agent moves on, keeping everything it has on record.
  ghost predicate AgentMoves(w: World, v: World, server: int) {
    && server in v.agents && v == w.(agents := w.agents[server := v.agents[server]])
    && AgentInv(v, server)
    && (server in w.agents ==>
          forall id: JobId :: AgentStore.Grows(w.agents[server], v.agents[server], id))
  }

  lemma AgentAct(w: World, v: World, server: int, k: nat)
    requires AgentMoves(w, v, server) && ActInv(w, k)
    ensures ActInv(v, k)
  {
    if k < |w.acts| && w.acts[k].ticket.Some? && server in w.agents {
      assert AgentStore.Grows(w.agents[server], v.agents[server], w.acts[k].ticket.value);
    }
  }

  lemma AgentKeeps(w: World, v: World, server: int)
    requires Inv(w) && AgentMoves(w, v, server)
    ensures Inv(v)
  {
    RowsFrame(w, v);
    forall k: nat ensures ActInv(v, k) { AgentAct(w, v, server, k); }
    forall k: nat ensures LocalInv(v, k) { assert LocalInv(w, k); }
    forall i: nat, j: nat ensures TicketInv(v, i, j) { assert TicketInv(w, i, j); }
    forall f: int ensures FileInv(v, f) { assert FileInv(w, f); }
    forall s: int ensures AgentInv(v, s) { assert AgentInv(w, s); }
  }

  lemma AgentStepKeeps(w: World, server: int, step: AgentStore.Step)
    requires Inv(w) && server in w.agents
    requires AgentStore.Enabled(w.agents[server], step) && StepTime(step, w.now) == w.now
    ensures Inv(AgentAfter(w, server, step))
  {
    var s := w.agents[server];
    var v := AgentAfter(w, server, step);
    assert AgentInv(w, server);
    AgentStore.StepKeepsInv(s, step);
    forall id: JobId ensures AgentStore.Grows(s, v.agents[server], id) { AgentStore.StepGrows(s, step, id); }
    assert v.agents[server].clock <= w.now;
    AgentKeeps(w, v, server);
  }

  lemma AddAgentKeeps(w: World, server: int)
    requires Inv(w) && server !in w.agents
    ensures Inv(Joined(w, server))
  {
    AgentStore.FreshInv(w.now);
    AgentKeeps(w, Joined(w, server), server);
  }

  // The id a POST is given was never issued there before, so no other job holds it.
  lemma DeliverTicket(w: World, k: nat, id: JobId, i: nat, j: nat)
    requires Enabled(w, Deliver(k, id)) && TicketInv(w, i, j) && ActInv(w, i) && ActInv(w, j)
    ensures TicketInv(Delivering(w, k, id), i, j)
  {}

  lemma DeliverOk(w: World, k: nat, id: JobId)
    requires Enabled(w, Deliver(k, id)) && ActInv(w, k)
    ensures var v := Delivering(w, k, id); ActOk(v, k, v.acts[k])
    ensures !w.acts[k].phase.Taken?
  {}

  lemma DeliverKeeps(w: World, k: nat, id: JobId)
    requires Inv(w) && Enabled(w, Deliver(k, id))
    ensures Inv(Delivering(w, k, id))
  {
    var a := w.acts[k];
    var register := AgentStore.Register(id, a.request, w.now);
    var u := AgentAfter(w, a.server.value, register);
    AgentStepKeeps(w, a.server.value, register);
    var v := Delivering(w, k, id);
    assert v == With(u, k, a.(ticket := Some(id)));
    assert ActInv(w, k);
    DeliverOk(w, k, id);
    forall i: nat, j: nat ensures TicketInv(v, i, j) {
      assert TicketInv(w, i, j) && ActInv(w, i) && ActInv(w, j);
      DeliverTicket(w, k, id, i, j);
    }
    TicketKeeps(u, k, v.acts[k]);
  }

  // Like a move, for a job that may have ended.
  lemma TicketKeeps(u: World, k: nat, b: Act)
    requires Inv(u) && k < |u.acts| && b == u.acts[k].(ticket := b.ticket)
    requires ActOk(With(u, k, b), k, b) && !u.acts[k].phase.Taken?
    requires forall i: nat, j: nat :: TicketInv(With(u, k, b), i, j)
    ensures Inv(With(u, k, b))
  {
    var v := With(u, k, b);
    assert LiveRemote(v.acts) == LiveRemote(u.acts);
    RowsFrame(u, v);
    TicketActs(u, k, b);
  }

  lemma TicketActs(u: World, k: nat, b: Act)
    requires ActSide(u) && k < |u.acts| && b == u.acts[k].(ticket := b.ticket)
    requires ActOk(With(u, k, b), k, b)
    requires forall i: nat, j: nat :: TicketInv(With(u, k, b), i, j)
    ensures ActSide(With(u, k, b))
  {
    var v := With(u, k, b);
    forall j: nat ensures ActInv(v, j) { assert ActInv(u, j); }
    forall j: nat ensures LocalInv(v, j) { assert LocalInv(u, j); }
    forall f: int ensures FileInv(v, f) { assert FileInv(u, f); }
    forall s: int ensures AgentInv(v, s) { assert AgentInv(u, s); }
  }

  // ---------- Signals and time ----------

  lemma TickKeeps(w: World, d: nat)
    requires Inv(w)
    ensures Inv(Later(w, d))
  {
    var v := Later(w, d);
    RowsFrame(w, v);
    forall k: nat ensures ActInv(v, k) { assert ActInv(w, k); }
    forall k: nat ensures LocalInv(v, k) { assert LocalInv(w, k); }
    forall i: nat, j: nat ensures TicketInv(v, i, j) { assert TicketInv(w, i, j); }
    forall f: int ensures FileInv(v, f) { assert FileInv(w, f); }
    forall s: int ensures AgentInv(v, s) { assert AgentInv(w, s); }
  }

  lemma SignalKeeps(w: World, loop: Loop, cancelled: bool)
    requires Inv(w) && (w.loop.Busy? <==> loop.Busy?) && (loop.Stopped? ==> w.wg == 0)
    ensures Inv(Signalled(w, loop, cancelled))
  {
    var v := Signalled(w, loop, cancelled);
    RowsFrame(w, v);
    forall k: nat ensures ActInv(v, k) { assert ActInv(w, k); }
    forall k: nat ensures LocalInv(v, k) { assert LocalInv(w, k); }
    forall i: nat, j: nat ensures TicketInv(v, i, j) { assert TicketInv(w, i, j); }
    forall f: int ensures FileInv(v, f) { assert FileInv(w, f); }
    forall s: int ensures AgentInv(v, s) { assert AgentInv(w, s); }
  }

  // Every job on the list is a backup, so the consumer's other branch is never taken.
  lemma NeverSkipped(w: World, k: nat)
    requires Inv(w)
    ensures !Enabled(w, SkipOther(k))
  {
    assert ActInv(w, k);
  }

  // ---------- Every step ----------

  predicate IsProducer(step: Step) {
    step.CreateRun? || step.Push? || step.Abort? || step.ClearLog?
  }

  predicate IsDispatch(step: Step) {
    step.LookupFailed? || step.Post? || step.PostFailed?
  }

  predicate IsPosted(step: Step) {
    step.Deliver? || step.PostAccepted?
  }

  predicate IsPolling(step: Step) {
    step.Poll? || step.PollAnswered? || step.PollGivenUp?
  }

  predicate IsLocal(step: Step) {
    step.SkipOther? || step.MarkStarted? || step.LocalReturn?
  }

  predicate IsRecording(step: Step) {
    step.Record? || step.RecordFile?
  }

  predicate IsSignal(step: Step) {
    step.Begin? || step.PopNothing? || step.Cancel? || step.LeaveLoop? || step.Return? || step.Boot?
  }

  // Steps outside the consumer's process.
  predicate IsOutside(step: Step) {
    step.AddAgent? || step.AgentStep? || step.Tick?
  }

  lemma ProducerKeepsInv(w: World, step: Step, v: World)
    requires Inv(w) && Follows(w, step, v) && IsProducer(step)
    ensures Inv(v)
  {
    match step
    case CreateRun(p, databaseId, job, write) => ProduceKeeps(w, p, databaseId, job, write);
    case Push(p, write) => PushKeeps(w, p, write);
    case Abort(p) => PushKeeps(w, p, Refused);
    case ClearLog => ClearKeeps(w);
  }

  lemma DispatchKeepsInv(w: World, step: Step, v: World)
    requires Inv(w) && Follows(w, step, v) && IsDispatch(step)
    ensures Inv(v)
  {
    match step
    case LookupFailed(k, message, elapsedMs) => ReturnKeeps(w, k, Failed(message), elapsedMs);
    case Post(k, server, storage, timezone) => PostKeeps(w, k, server, storage, timezone);
    case PostFailed(k, message, elapsedMs) =>
      assert ActInv(w, k);
      ReturnKeeps(w, k, Failed(message), elapsedMs);
  }

  lemma PostedKeepsInv(w: World, step: Step, v: World)
    requires Inv(w) && Follows(w, step, v) && IsPosted(step)
    ensures Inv(v)
  {
    match step
    case Deliver(k, id) => DeliverKeeps(w, k, id);
    case PostAccepted(k) => PostAcceptedKeeps(w, k);
  }

  lemma PollingKeepsInv(w: World, step: Step, v: World)
    requires Inv(w) && Follows(w, step, v) && IsPolling(step)
    ensures Inv(v)
  {
    match step
    case Poll(k) => PollKeeps(w, k);
    case PollAnswered(k, elapsedMs) => PollAnsweredKeeps(w, k, elapsedMs);
    case PollGivenUp(k, message, elapsedMs) =>
      assert ActInv(w, k);
      ReturnKeeps(w, k, Failed(message), elapsedMs);
  }

  lemma LocalKeepsInv(w: World, step: Step, v: World)
    requires Inv(w) && Follows(w, step, v) && IsLocal(step)
    ensures Inv(v)
  {
    match step
    case SkipOther(k) => NeverSkipped(w, k);
    case MarkStarted(k, startedAt, stored) => MarkKeeps(w, k, startedAt, stored);
    case LocalReturn(k, attempt, elapsedMs) =>
      assert ActInv(w, k);
      ReturnKeeps(w, k, attempt, elapsedMs);
  }

  lemma RecordingKeepsInv(w: World, step: Step, v: World)
    requires Inv(w) && Follows(w, step, v) && IsRecording(step)
    ensures Inv(v)
  {
    match step
    case Record(k, databaseId, stored) => RecordKeeps(w, k, databaseId, stored);
    case RecordFile(k, databaseId, stored) => FilingKeeps(w, k, databaseId, stored);
  }

  lemma SignalKeepsInv(w: World, step: Step, v: World)
    requires Inv(w) && Follows(w, step, v) && IsSignal(step)
    ensures Inv(v)
  {
    match step
    case Begin => SignalKeeps(w, Blocked, w.cancelled);
    case PopNothing => SignalKeeps(w, Waiting, w.cancelled);
    case Cancel => SignalKeeps(w, w.loop, true);
    case LeaveLoop => SignalKeeps(w, Exiting, w.cancelled);
    case Return => SignalKeeps(w, Stopped, w.cancelled);
    case Boot => SignalKeeps(w, Waiting, false);
  }

  lemma OutsideKeepsInv(w: World, step: Step, v: World)
    requires Inv(w) && Follows(w, step, v) && IsOutside(step)
    ensures Inv(v)
  {
    match step
    case AddAgent(server) => AddAgentKeeps(w, server);
    case Tick(d) => TickKeeps(w, d);
    case AgentStep(server, s) => AgentStepKeeps(w, server, s);
  }

  lemma StepKeepsInv(w: World, step: Step, v: World)
    requires Inv(w) && Follows(w, step, v)
    ensures Inv(v)
  {
    if IsProducer(step) { ProducerKeepsInv(w, step, v);
    } else if IsDispatch(step) { DispatchKeepsInv(w, step, v);
    } else if IsPosted(step) { PostedKeepsInv(w, step, v);
    } else if IsPolling(step) { PollingKeepsInv(w, step, v);
    } else if IsLocal(step) { LocalKeepsInv(w, step, v);
    } else if IsRecording(step) { RecordingKeepsInv(w, step, v);
    } else if IsSignal(step) { SignalKeepsInv(w, step, v);
    } else if IsOutside(step) { OutsideKeepsInv(w, step, v);
    } else if step.Pop? { PopKeeps(w, step.arrived);
    } else { KillKeeps(w); }
  }

  lemma {:induction false} RunKeepsInv(states: seq<World>, steps: seq<Step>, now: int, i: nat)
    requires Runs(states, steps, now) && i < |states|
    ensures Inv(states[i])
  {
    if i == 0 {
      InitialInv(now);
    } else {
      RunKeepsInv(states, steps, now, i - 1);
      StepKeepsInv(states[i - 1], steps[i - 1], states[i]);
    }
  }
}
