/** The whole job system as one step system: producers, the Redis list, the consumer loop and its
    background dispatches, and any number of agents. A step is one SQL statement, one Redis
    operation, one agent lock region or channel operation, or the arrival of one HTTP message;
    every failure the code handles is a step of its own. */
module Pipeline {
  import opened Wrappers
  import opened Protocol
  import opened Jobs
  import opened RunLog
  import opened Consumer
  import AgentStore

  // Where one popped job stands. Lost covers a killed consumer and a pop whose answer never arrived.
  datatype Phase = Taken | Marked | Posting | Polling | Returned | Recorded | Ended | Lost

  datatype Act = Act(
    job: Job, phase: Phase,
    started: string, elapsedMs: int, attempt: Attempt, // what processJob holds
    server: Option<int>, request: RunRequest,          // the POST, once issued
    postedAt: int, deadline: int,
    ticket: Option<JobId>,                             // the id the POST was given by the agent
    reply: Option<RunStatus>,                          // a status answer on its way back
    recorded: bool, row: int, file: int)               // whether the outcome was stored, and where

  const NO_REQUEST := RunRequest("", "", "", StorageConfig("", "", ""), "")

  function NewAct(job: Job, phase: Phase): Act {
    Act(job, phase, "", 0, NO_ATTEMPT, None, NO_REQUEST, 0, 0, None, None, false, 0, 0)
  }

  // The consumer's loop: about to look at its context, inside a pop, with a local job, or leaving.
  datatype Loop = Waiting | Blocked | Busy | Exiting | Stopped

  // Who is answerable for a run row: the producer about to push its job, the job at a position
  // of the push history, the job that had to create it at the end, or nobody any more.
  datatype Holder = ByProducer(p: int) | ByJob(k: nat) | ByFallback(k: nat) | Orphan

  datatype World = World(
    now: int,
    log: Log,
    queue: seq<Job>,
    pending: map<int, Job>,          // producers between creating a row and pushing its job
    cancelled: bool, loop: Loop, wg: nat,
    agents: map<int, AgentStore.Store>,
    pushed: seq<Job>,                // every job the list ever received
    acts: seq<Act>,                  // every job ever popped, in order
    localStarts: seq<nat>,           // positions of the local jobs, as they were begun
    holder: map<int, Holder>,
    filer: map<int, nat>)            // which popped job wrote a file row

  function Initial(now: int): World {
    World(now, Log(map[], 0, map[], 0), [], map[], false, Waiting, 0, map[], [], [], [], map[], map[])
  }

  datatype Step =
    | CreateRun(p: int, databaseId: int, job: Job, write: Write)
    | Push(p: int, write: Write)
    | Abort(p: int)
    | ClearLog
    | Begin
    | Pop(arrived: bool)
    | PopNothing
    | SkipOther(k: nat)
    | MarkStarted(k: nat, startedAt: string, stored: bool)
    | LocalReturn(k: nat, attempt: Attempt, elapsedMs: int)
    | LookupFailed(k: nat, message: string, elapsedMs: int)
    | Post(k: nat, server: int, storage: StorageConfig, timezone: string)
    | Deliver(k: nat, id: JobId)
    | PostAccepted(k: nat)
    | PostFailed(k: nat, message: string, elapsedMs: int)
    | Poll(k: nat)
    | PollAnswered(k: nat, elapsedMs: int)
    | PollGivenUp(k: nat, message: string, elapsedMs: int)
    | Record(k: nat, databaseId: int, stored: bool)
    | RecordFile(k: nat, databaseId: int, stored: bool)
    | Cancel
    | LeaveLoop
    | Return
    | Boot
    | Kill
    | AddAgent(server: int)
    | AgentStep(server: int, step: AgentStore.Step)
    | Tick(d: int)

  predicate Local(a: Act) { a.job.agentId == 0 }

  predicate Live(a: Act) { !a.phase.Ended? && !a.phase.Lost? }

  predicate At(w: World, k: nat, phase: Phase) {
    k < |w.acts| && w.acts[k].phase == phase
  }

  predicate HasTicket(w: World, a: Act) {
    a.server.Some? && a.server.value in w.agents && a.ticket.Some?
  }

  function AgentOf(w: World, a: Act): AgentStore.Store
    requires HasTicket(w, a)
  {
    w.agents[a.server.value]
  }

  function StepTime(step: AgentStore.Step, now: int): int {
    match step
    case Register(_, _, t) => t
    case Complete(_, t) => t
    case Restart(t) => t
    case _ => now
  }

  predicate Enabled(w: World, step: Step) {
    match step
    case CreateRun(p, _, _, _) => p !in w.pending
    case Push(p, _) => p in w.pending
    case Abort(p) => p in w.pending
    case ClearLog => true
    case Begin => w.loop.Waiting? && !w.cancelled
    case Pop(_) => w.loop.Blocked? && w.queue != []
    case PopNothing => w.loop.Blocked?
    case SkipOther(k) => At(w, k, Taken) && w.acts[k].job.cmd != "backup"
    case MarkStarted(k, startedAt, stored) =>
      At(w, k, Taken) && Local(w.acts[k]) && w.acts[k].job.cmd == "backup"
      && startedAt != "" && (stored ==> !w.cancelled)
    case LocalReturn(k, attempt, _) =>
      At(w, k, Marked) && (attempt.error.None? <==> attempt.result.Some?)
      && (attempt.result.Some? ==> attempt.result.value.storageTargetId == w.acts[k].job.storageTargetId)
    case LookupFailed(k, _, _) => At(w, k, Taken) && !Local(w.acts[k]) && w.acts[k].job.cmd == "backup"
    case Post(k, server, _, _) =>
      At(w, k, Taken) && !Local(w.acts[k]) && w.acts[k].job.cmd == "backup" && server in w.agents
    case Deliver(k, id) =>
      k < |w.acts| && w.acts[k].server.Some? && w.acts[k].ticket.None?
      && w.acts[k].server.value in w.agents
      && AgentStore.Enabled(w.agents[w.acts[k].server.value],
                            AgentStore.Register(id, w.acts[k].request, w.now))
    case PostAccepted(k) =>
      At(w, k, Posting) && HasTicket(w, w.acts[k])
      && w.acts[k].ticket.value in AgentOf(w, w.acts[k]).sent
      && w.now <= w.acts[k].postedAt + CLIENT_TIMEOUT
    case PostFailed(k, _, _) => At(w, k, Posting)
    case Poll(k) =>
      At(w, k, Polling) && HasTicket(w, w.acts[k]) && w.now <= w.acts[k].deadline + CLIENT_TIMEOUT
    case PollAnswered(k, _) => At(w, k, Polling) && w.acts[k].reply.Some?
    case PollGivenUp(k, _, _) => At(w, k, Polling) && (w.cancelled || w.acts[k].deadline < w.now)
    case Record(k, _, stored) => At(w, k, Returned) && (stored ==> !w.cancelled)
    case RecordFile(k, _, stored) =>
      At(w, k, Recorded)
      && (stored ==> !w.cancelled && w.acts[k].attempt.error.None? && w.acts[k].attempt.result.Some?)
    case Cancel => !w.loop.Stopped?
    case LeaveLoop => w.loop.Waiting? && w.cancelled
    case Return => w.loop.Exiting? && w.wg == 0
    case Boot => w.loop.Stopped?
    case Kill => true
    case AddAgent(server) => server !in w.agents
    case AgentStep(server, step) =>
      server in w.agents && AgentStore.Enabled(w.agents[server], step) && StepTime(step, w.now) == w.now
    case Tick(d) => 0 <= d
  }

  function With(w: World, k: nat, a: Act): World
    requires k < |w.acts|
  {
    w.(acts := w.acts[k := a])
  }

  function Returning(a: Act, attempt: Attempt, elapsedMs: int): Act {
    a.(phase := Returned, attempt := attempt, elapsedMs := elapsedMs)
  }

  function Produce(w: World, p: int, databaseId: int, job: Job, write: Write): World {
    var row := EnqueuedRow(databaseId, job.dbName, job.driver);
    var id := w.log.lastRun + 1;
    match write
    case Stored =>
      w.(log := InsertRun(w.log, row), holder := w.holder[id := ByProducer(p)],
         pending := w.pending[p := job.(cmd := "backup", runId := id)])
    case Refused =>
      w.(pending := w.pending[p := job.(cmd := "backup", runId := 0)])
    case StoredUnseen =>
      w.(log := InsertRun(w.log, row), holder := w.holder[id := Orphan],
         pending := w.pending[p := job.(cmd := "backup", runId := 0)])
  }

  function Pushing(w: World, p: int, write: Write): World
    requires p in w.pending
  {
    var job := w.pending[p];
    var rest := w.(pending := w.pending - {p});
    if write.Refused? then
      rest.(holder := if job.runId == 0 then w.holder else w.holder[job.runId := Orphan])
    else
      rest.(queue := w.queue + [job], pushed := w.pushed + [job],
            holder := if job.runId == 0 then w.holder else w.holder[job.runId := ByJob(|w.pushed|)])
  }

  function Popping(w: World, arrived: bool): World
    requires w.queue != []
  {
    var job := w.queue[0];
    var k := |w.acts|;
    var v := w.(queue := w.queue[1..]);
    if !arrived then v.(acts := w.acts + [NewAct(job, Lost)], loop := Waiting)
    else if job.agentId != 0 then v.(acts := w.acts + [NewAct(job, Taken)], wg := w.wg + 1, loop := Waiting)
    else v.(acts := w.acts + [NewAct(job, Taken)], loop := Busy, localStarts := w.localStarts + [k])
  }

  // The goroutine or the loop lets go of the job.
  function Released(w: World, a: Act): World {
    w.(loop := if Local(a) && w.loop.Busy? then Waiting else w.loop,
       wg := if !Local(a) && w.wg > 0 then w.wg - 1 else w.wg)
  }

  function RecordedIn(a: Act, row: int): Act {
    a.(phase := Recorded, recorded := true, row := row)
  }

  function Outcome(w: World, a: Act, databaseId: int): Log {
    RecordRun(w.log, a.job, databaseId, a.started, a.elapsedMs, a.attempt)
  }

  function Recording(w: World, k: nat, databaseId: int, stored: bool): World
    requires k < |w.acts|
  {
    var a := w.acts[k];
    if !stored then With(w, k, a.(phase := Recorded))
    else if a.job.runId != 0 then
      With(w.(log := Outcome(w, a, databaseId)), k, RecordedIn(a, a.job.runId))
    else
      With(w.(log := Outcome(w, a, databaseId), holder := w.holder[w.log.lastRun + 1 := ByFallback(k)]),
           k, RecordedIn(a, w.log.lastRun + 1))
  }

  function FiledIn(w: World, k: nat, row: FileRow): World
    requires k < |w.acts|
  {
    var f := w.log.lastFile + 1;
    With(w.(log := InsertFile(w.log, row), filer := w.filer[f := k]), k, w.acts[k].(phase := Ended, file := f))
  }

  function Filing(w: World, k: nat, databaseId: int, stored: bool): World
    requires k < |w.acts| && (stored ==> w.acts[k].attempt.result.Some?)
  {
    var a := w.acts[k];
    if stored then Released(FiledIn(w, k, FileOf(a.job, databaseId, a.attempt.result.value)), a)
    else Released(With(w, k, a.(phase := Ended)), a)
  }

  function Killed(a: Act): Act {
    if Live(a) then a.(phase := Lost) else a
  }

  function RequestFor(job: Job, storage: StorageConfig, timezone: string): RunRequest {
    RunRequest(job.dbName, job.driver, job.params, storage, timezone)
  }

  function Marking(w: World, k: nat, startedAt: string, stored: bool): World
    requires k < |w.acts|
  {
    var a := w.acts[k];
    With(w.(log := if stored && a.job.runId != 0 then SetStarted(w.log, a.job.runId, startedAt) else w.log),
         k, a.(phase := Marked, started := startedAt))
  }

  function Settled(w: World, k: nat, attempt: Attempt, elapsedMs: int): World
    requires k < |w.acts|
  {
    With(w, k, Returning(w.acts[k], attempt, elapsedMs))
  }

  function Skipping(w: World, k: nat): World
    requires k < |w.acts|
  {
    Released(With(w, k, w.acts[k].(phase := Ended)), w.acts[k])
  }

  function PostingTo(w: World, a: Act, server: int, storage: StorageConfig, timezone: string): Act {
    a.(phase := Posting, server := Some(server), postedAt := w.now, request := RequestFor(a.job, storage, timezone))
  }

  function Accepted(w: World, a: Act): Act {
    a.(phase := Polling, deadline := w.now + MAX_WAIT, reply := None)
  }

  function Delivering(w: World, k: nat, id: JobId): World
    requires Enabled(w, Deliver(k, id))
  {
    var a := w.acts[k];
    With(AgentAfter(w, a.server.value, AgentStore.Register(id, a.request, w.now)), k, a.(ticket := Some(id)))
  }

  function AgentAfter(w: World, server: int, step: AgentStore.Step): World
    requires server in w.agents && AgentStore.Enabled(w.agents[server], step)
  {
    w.(agents := w.agents[server := AgentStore.Apply(w.agents[server], step)])
  }

  function Asking(w: World, k: nat): World
    requires k < |w.acts| && HasTicket(w, w.acts[k])
  {
    var a := w.acts[k];
    With(w, k, a.(reply := AgentStore.StatusOf(AgentOf(w, a), a.ticket.value)))
  }

  function Answered(w: World, k: nat, elapsedMs: int): World
    requires k < |w.acts| && w.acts[k].reply.Some?
  {
    var a := w.acts[k];
    if a.reply.value.status != "done" then With(w, k, a.(reply := None))
    else Settled(w, k, AttemptOfStatus(a.job, a.reply.value), elapsedMs)
  }

  function Signalled(w: World, loop: Loop, cancelled: bool): World {
    w.(loop := loop, cancelled := cancelled)
  }

  function KillAll(w: World): World {
    w.(acts := seq(|w.acts|, i requires 0 <= i < |w.acts| => Killed(w.acts[i])),
       wg := 0, loop := Waiting, cancelled := false)
  }

  function Cleared(w: World): World { w.(log := ClearRuns(w.log)) }

  function Joined(w: World, server: int): World {
    w.(agents := w.agents[server := AgentStore.Fresh(w.now)])
  }

  function Later(w: World, d: int): World { w.(now := w.now + d) }

  function Apply(w: World, step: Step): World
    requires Enabled(w, step)
  {
    match step
    case CreateRun(p, databaseId, job, write) => Produce(w, p, databaseId, job, write)
    case Push(p, write) => Pushing(w, p, write)
    case Abort(p) => Pushing(w, p, Refused)
    case ClearLog => Cleared(w)
    case Begin => Signalled(w, Blocked, w.cancelled)
    case Pop(arrived) => Popping(w, arrived)
    case PopNothing => Signalled(w, Waiting, w.cancelled)
    case SkipOther(k) => Skipping(w, k)
    case MarkStarted(k, startedAt, stored) => Marking(w, k, startedAt, stored)
    case LocalReturn(k, attempt, elapsedMs) => Settled(w, k, attempt, elapsedMs)
    case LookupFailed(k, message, elapsedMs) => Settled(w, k, Failed(message), elapsedMs)
    case Post(k, server, storage, timezone) => With(w, k, PostingTo(w, w.acts[k], server, storage, timezone))
    case Deliver(k, id) => Delivering(w, k, id)
    case PostAccepted(k) => With(w, k, Accepted(w, w.acts[k]))
    case PostFailed(k, message, elapsedMs) => Settled(w, k, Failed(message), elapsedMs)
    case Poll(k) => Asking(w, k)
    case PollAnswered(k, elapsedMs) => Answered(w, k, elapsedMs)
    case PollGivenUp(k, message, elapsedMs) => Settled(w, k, Failed(message), elapsedMs)
    case Record(k, databaseId, stored) => Recording(w, k, databaseId, stored)
    case RecordFile(k, databaseId, stored) => Filing(w, k, databaseId, stored)
    case Cancel => Signalled(w, w.loop, true)
    case LeaveLoop => Signalled(w, Exiting, w.cancelled)
    case Return => Signalled(w, Stopped, w.cancelled)
    case Boot => Signalled(w, Waiting, false)
    case Kill => KillAll(w)
    case AddAgent(server) => Joined(w, server)
    case AgentStep(server, step) => AgentAfter(w, server, step)
    case Tick(d) => Later(w, d)
  }

  ghost predicate Follows(w: World, step: Step, v: World) {
    Enabled(w, step) && v == Apply(w, step)
  }

  ghost predicate IsRun(states: seq<World>, steps: seq<Step>) {
    && |states| == |steps| + 1
    && (forall i :: 0 <= i < |steps| ==> Follows(states[i], steps[i], states[i + 1]))
  }

  // A run from the beginning.
  ghost predicate Runs(states: seq<World>, steps: seq<Step>, now: int) {
    IsRun(states, steps) && states[0] == Initial(now)
  }
}
