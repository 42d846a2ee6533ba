/** The agent's job store as a step system: one step per lock region, channel operation or
    restart. The first six fields are what the process holds; the others record what happened
    on this server since it was set up. */
module AgentStore {
  import opened Wrappers
  import opened Protocol

  const QUEUE_CAPACITY: nat := 256

  datatype QueuedJob = QueuedJob(id: JobId, req: RunRequest)

  datatype Entry = Entry(done: bool, completedAt: int, status: RunStatus)

  datatype Issue = Issue(req: RunRequest, at: int)

  datatype Store = Store(
    jobs: map<JobId, Entry>,
    queue: seq<QueuedJob>,
    registering: map<JobId, RunRequest>, // handlers between their lock region and the channel send
    rejecting: set<JobId>,               // handlers whose send found the channel full
    running: Option<QueuedJob>,          // what the only worker is executing
    clock: int,
    issued: map<JobId, Issue>,           // every id ever handed out, with its request
    sent: set<JobId>,                    // ids whose channel send ever succeeded
    accepted: seq<QueuedJob>,            // the sends since the process last started, in order
    starts: seq<QueuedJob>,              // every job the worker ever took, in order
    boot: nat,                           // |starts| when the process last started
    slot: map<JobId, nat>,               // where an id stands in `starts` followed by `queue`
    results: map<JobId, Entry>)          // what each completed execution stored

  function Fresh(clock: int): Store {
    Store(map[], [], map[], {}, None, clock, map[], {}, [], [], 0, map[], map[])
  }

  datatype Step =
    | Register(id: JobId, req: RunRequest, now: int)
    | Send(id: JobId)
    | DropRejected(id: JobId)
    | Take
    | Complete(status: RunStatus, now: int)
    | Restart(now: int)

  predicate Expired(e: Entry, now: int) {
    e.done && e.completedAt < now - RETENTION
  }

  function Swept(jobs: map<JobId, Entry>, now: int): map<JobId, Entry> {
    map id | id in jobs && !Expired(jobs[id], now) :: jobs[id]
  }

  // Job ids are 96 random bits; the model takes them to be fresh on their server.
  predicate Enabled(s: Store, step: Step) {
    match step
    case Register(id, _, now) => id !in s.issued && s.clock <= now
    case Send(id) => id in s.registering
    case DropRejected(id) => id in s.rejecting
    case Take => s.running.None? && s.queue != []
    case Complete(status, now) => s.running.Some? && status.status == "done" && s.clock <= now
    case Restart(now) => s.clock <= now
  }

  function Apply(s: Store, step: Step): Store
    requires Enabled(s, step)
  {
    match step
    case Register(id, req, now) =>
      s.(jobs := Swept(s.jobs[id := Entry(false, 0, NO_STATUS)], now),
         registering := s.registering[id := req],
         issued := s.issued[id := Issue(req, now)],
         clock := now)
    case Send(id) =>
      var rest := s.registering - {id};
      var job := QueuedJob(id, s.registering[id]);
      if |s.queue| < QUEUE_CAPACITY then
        s.(registering := rest, queue := s.queue + [job],
           sent := s.sent + {id}, accepted := s.accepted + [job],
           slot := s.slot[id := |s.starts| + |s.queue|])
      else
        s.(registering := rest, rejecting := s.rejecting + {id})
    case DropRejected(id) =>
      s.(jobs := s.jobs - {id}, rejecting := s.rejecting - {id})
    case Take =>
      s.(running := Some(s.queue[0]), queue := s.queue[1..], starts := s.starts + [s.queue[0]])
    case Complete(status, now) =>
      var id := s.running.value.id;
      var entry := Entry(true, now, status);
      s.(jobs := if id in s.jobs then s.jobs[id := entry] else s.jobs,
         running := None, results := s.results[id := entry], clock := now)
    case Restart(now) =>
      s.(jobs := map[], queue := [], registering := map[], rejecting := {}, running := None,
         clock := now, accepted := [], boot := |s.starts|,
         slot := map id | id in s.slot && s.slot[id] < |s.starts| :: s.slot[id])
  }

  function StatusOf(s: Store, id: JobId): Option<RunStatus> {
    if id !in s.jobs then None
    else if s.jobs[id].done then Some(s.jobs[id].status)
    else Some(s.jobs[id].status.(status := "pending"))
  }

  // Any fresh request is registered, any registered one goes on to its send, the worker takes what
  // is queued when it is free, and the process can die at any time.
  lemma StepsArePossible(s: Store, id: JobId, req: RunRequest, status: RunStatus)
    ensures id !in s.issued ==> Enabled(s, Register(id, req, s.clock))
    ensures id in s.registering ==> Enabled(s, Send(id))
    ensures id in s.rejecting ==> Enabled(s, DropRejected(id))
    ensures s.queue != [] && s.running.None? ==> Enabled(s, Take)
    ensures s.running.Some? && status.status == "done" ==> Enabled(s, Complete(status, s.clock))
    ensures Enabled(s, Restart(s.clock))
  {}

  // ---------- What every interleaving keeps ----------

  predicate Unfinished(s: Store, id: JobId) {
    id in s.jobs && !s.jobs[id].done
  }

  predicate Queued(s: Store, id: JobId) {
    id in s.slot && |s.starts| <= s.slot[id]
  }

  predicate Started(s: Store, id: JobId) {
    id in s.slot && s.slot[id] < |s.starts|
  }

  // Sent to the channel since the process last started.
  predicate InLifetime(s: Store, id: JobId) {
    id in s.slot && s.boot <= s.slot[id]
  }

  predicate IsRunning(s: Store, id: JobId) {
    s.running.Some? && s.running.value.id == id
  }

  // Its entry holds the stored result until the sweep takes it, a retention period later.
  predicate Completed(s: Store, id: JobId) {
    && id in s.results
    && (id in s.jobs ==> s.jobs[id] == s.results[id])
    && (id !in s.jobs ==> s.results[id].completedAt < s.clock - RETENTION)
  }

  predicate SlotHolds(s: Store, id: JobId)
    requires id in s.slot
  {
    && s.slot[id] < |s.starts| + |s.queue|
    && var job := if s.slot[id] < |s.starts| then s.starts[s.slot[id]]
                  else s.queue[s.slot[id] - |s.starts|];
       job.id == id && id in s.sent && id in s.issued && s.issued[id].req == job.req
  }

  // What is known of one id, wherever it stands.
  predicate JobInv(s: Store, id: JobId) {
    && (id in s.issued ==> s.issued[id].at <= s.clock)
    && (id in s.slot ==> SlotHolds(s, id))
    && (id in s.sent ==> id in s.issued && id !in s.registering && id !in s.rejecting)
    && (id in s.registering ==>
          id in s.issued && s.issued[id].req == s.registering[id]
          && Unfinished(s, id) && id !in s.rejecting)
    && (id in s.rejecting ==> id in s.issued && Unfinished(s, id))
    && (id in s.results ==>
          Started(s, id) && !IsRunning(s, id)
          && s.results[id].done && s.results[id].status.status == "done"
          && s.issued[id].at <= s.results[id].completedAt <= s.clock)
    && (InLifetime(s, id) ==>
          if Queued(s, id) || IsRunning(s, id) then Unfinished(s, id) else Completed(s, id))
    && (id in s.jobs ==> id in s.registering || id in s.rejecting || InLifetime(s, id))
  }

  ghost predicate LineInv(s: Store) {
    && s.boot <= |s.starts|
    && |s.queue| <= QUEUE_CAPACITY
    && (forall i :: 0 <= i < |s.starts| ==> s.starts[i].id in s.slot && s.slot[s.starts[i].id] == i)
    && (forall i :: 0 <= i < |s.queue| ==>
          s.queue[i].id in s.slot && s.slot[s.queue[i].id] == |s.starts| + i)
    && (s.running.Some? ==>
          s.boot < |s.starts| && s.starts[|s.starts| - 1] == s.running.value)
  }

  ghost predicate Inv(s: Store) {
    LineInv(s) && forall id: JobId :: JobInv(s, id)
  }

  lemma FreshInv(clock: int)
    ensures Inv(Fresh(clock))
  {}

  lemma StepKeepsLine(s: Store, step: Step)
    requires Inv(s) && Enabled(s, step)
    ensures LineInv(Apply(s, step))
  {
    if step.Send? { assert JobInv(s, step.id); }
  }

  lemma RegisterKeepsJob(s: Store, nid: JobId, req: RunRequest, now: int, id: JobId)
    requires LineInv(s) && JobInv(s, id) && Enabled(s, Register(nid, req, now))
    ensures JobInv(Apply(s, Register(nid, req, now)), id)
  {}

  lemma SendKeepsJob(s: Store, nid: JobId, id: JobId)
    requires LineInv(s) && JobInv(s, id) && Enabled(s, Send(nid))
    ensures JobInv(Apply(s, Send(nid)), id)
  {}

  lemma DropKeepsJob(s: Store, nid: JobId, id: JobId)
    requires LineInv(s) && JobInv(s, id) && Enabled(s, DropRejected(nid))
    ensures JobInv(Apply(s, DropRejected(nid)), id)
  {}

  lemma TakeKeepsJob(s: Store, id: JobId)
    requires LineInv(s) && JobInv(s, id) && Enabled(s, Take)
    ensures JobInv(Apply(s, Take), id)
  {}

  lemma CompleteKeepsJob(s: Store, status: RunStatus, now: int, id: JobId)
    requires LineInv(s) && JobInv(s, id) && Enabled(s, Complete(status, now))
    ensures JobInv(Apply(s, Complete(status, now)), id)
  {}

  lemma RestartKeepsJob(s: Store, now: int, id: JobId)
    requires LineInv(s) && JobInv(s, id) && Enabled(s, Restart(now))
    ensures JobInv(Apply(s, Restart(now)), id)
  {}

  lemma StepKeepsInv(s: Store, step: Step)
    requires Inv(s) && Enabled(s, step)
    ensures Inv(Apply(s, step))
  {
    StepKeepsLine(s, step);
    forall id: JobId ensures JobInv(Apply(s, step), id) {
      match step
      case Register(nid, req, now) => RegisterKeepsJob(s, nid, req, now, id);
      case Send(nid) => SendKeepsJob(s, nid, id);
      case DropRejected(nid) => DropKeepsJob(s, nid, id);
      case Take => TakeKeepsJob(s, id);
      case Complete(status, now) => CompleteKeepsJob(s, status, now, id);
      case Restart(now) => RestartKeepsJob(s, now, id);
    }
  }

  // What was issued, sent or stored stays on record as it was.
  predicate Grows(s: Store, t: Store, id: JobId) {
    && (id in s.issued ==> id in t.issued && t.issued[id] == s.issued[id])
    && (id in s.sent ==> id in t.sent)
    && (id in s.results ==> id in t.results && t.results[id] == s.results[id])
  }

  lemma StepGrows(s: Store, step: Step, id: JobId)
    requires Inv(s) && Enabled(s, step)
    ensures Grows(s, Apply(s, step), id)
  {
    if step.Complete? { assert JobInv(s, s.running.value.id); }
  }

  // ---------- Whole runs ----------

  ghost predicate Follows(s: Store, step: Step, t: Store) {
    Enabled(s, step) && t == Apply(s, step)
  }

  // A run of a server from its first day.
  ghost predicate Runs(states: seq<Store>, steps: seq<Step>, clock: int) {
    && |states| == |steps| + 1 && states[0] == Fresh(clock)
    && (forall i :: 0 <= i < |steps| ==> Follows(states[i], steps[i], states[i + 1]))
  }

  lemma FollowsKeepsInv(s: Store, step: Step, t: Store)
    requires Inv(s) && Follows(s, step, t)
    ensures Inv(t)
  {
    StepKeepsInv(s, step);
  }

  lemma {:induction false} RunKeepsInv(states: seq<Store>, steps: seq<Step>, clock: int, i: nat)
    requires Runs(states, steps, clock) && i < |states|
    ensures Inv(states[i])
  {
    if i == 0 {
      FreshInv(clock);
    } else {
      RunKeepsInv(states, steps, clock, i - 1);
      FollowsKeepsInv(states[i - 1], steps[i - 1], states[i]);
    }
  }

  function Occurrences(queue: seq<QueuedJob>, id: JobId): nat {
    if queue == [] then 0
    else (if queue[0].id == id then 1 else 0) + Occurrences(queue[1..], id)
  }

  lemma {:induction false} OccurrencesOfSlots(s: Store, id: JobId, from: nat)
    requires LineInv(s) && JobInv(s, id) && from <= |s.queue|
    ensures Occurrences(s.queue[from..], id)
         == if id in s.slot && |s.starts| + from <= s.slot[id] then 1 else 0
    decreases |s.queue| - from
  {
    if from < |s.queue| {
      assert s.queue[from..][1..] == s.queue[from + 1..];
      OccurrencesOfSlots(s, id, from + 1);
    }
  }

  // How many handlers, channel slots and workers hold an id.
  function Holders(s: Store, id: JobId): nat {
    (if id in s.registering then 1 else 0) + (if id in s.rejecting then 1 else 0)
    + Occurrences(s.queue, id) + (if IsRunning(s, id) then 1 else 0)
  }

  // Every unfinished entry is in exactly one place, and nothing else is in any.
  lemma UnfinishedIsHeldOnce(s: Store, id: JobId)
    requires Inv(s)
    ensures Holders(s, id) == if Unfinished(s, id) then 1 else 0
    ensures |s.queue| <= 256
  {
    assert JobInv(s, id);
    OccurrencesOfSlots(s, id, 0);
    assert s.queue[0..] == s.queue;
    if IsRunning(s, id) { assert s.slot[id] == |s.starts| - 1; }
  }

  // An id given out and then refused: its handler found the channel full and has answered.
  predicate Refused(s: Store, id: JobId) {
    id in s.issued && id !in s.registering && id !in s.rejecting && id !in s.sent
  }

  predicate StaysRefused(s: Store, t: Store, id: JobId) {
    Refused(s, id) ==> Refused(t, id)
  }

  lemma StepKeepsRefusal(s: Store, step: Step, t: Store, id: JobId)
    requires Follows(s, step, t)
    ensures StaysRefused(s, t, id)
  {}

  lemma {:induction false} RefusalAlong(states: seq<Store>, i: nat, j: nat, id: JobId)
    requires i <= j < |states|
    requires forall m :: i <= m < j ==> StaysRefused(states[m], states[m + 1], id)
    ensures StaysRefused(states[i], states[j], id)
  {
    if i < j {
      RefusalAlong(states, i, j - 1, id);
      assert StaysRefused(states[j - 1], states[j], id);
    }
  }

  // A refused job leaves no entry and never runs, whatever follows.
  lemma RefusedNeverRuns(states: seq<Store>, steps: seq<Step>, clock: int, i: nat, j: nat, id: JobId)
    requires Runs(states, steps, clock) && i <= j < |states|
    requires Refused(states[i], id)
    ensures id !in states[j].jobs
    ensures forall k :: 0 <= k < |states[j].starts| ==> states[j].starts[k].id != id
  {
    forall m | i <= m < j ensures StaysRefused(states[m], states[m + 1], id) {
      StepKeepsRefusal(states[m], steps[m], states[m + 1], id);
    }
    RefusalAlong(states, i, j, id);
    RunKeepsInv(states, steps, clock, j);
    assert JobInv(states[j], id);
  }

  // No id is executed twice, not even across restarts.
  lemma StartsAreDistinct(states: seq<Store>, steps: seq<Step>, clock: int, i: nat, j: nat, k: nat)
    requires Runs(states, steps, clock) && i < |states|
    requires j < k < |states[i].starts|
    ensures states[i].starts[j].id != states[i].starts[k].id
  {
    RunKeepsInv(states, steps, clock, i);
  }

  // First in, first out: the jobs started since the last restart, followed by the channel's
  // contents, are the jobs sent since then, in that order.
  ghost predicate Fifo(s: Store) {
    s.boot <= |s.starts| && s.starts[s.boot..] + s.queue == s.accepted
  }

  lemma {:induction false} StartsFollowSends(states: seq<Store>, steps: seq<Step>, clock: int, i: nat)
    requires Runs(states, steps, clock) && i < |states|
    ensures Fifo(states[i])
  {
    if i > 0 {
      StartsFollowSends(states, steps, clock, i - 1);
      StepKeepsFifo(states[i - 1], steps[i - 1], states[i]);
    }
  }

  lemma StepKeepsFifo(s: Store, step: Step, t: Store)
    requires Fifo(s) && Follows(s, step, t)
    ensures Fifo(t)
  {
    if step.Take? {
      assert t.starts[t.boot..] + t.queue == s.starts[s.boot..] + ([s.queue[0]] + s.queue[1..]);
    } else if step.Send? && |s.queue| < QUEUE_CAPACITY {
      assert t.starts[t.boot..] + t.queue == s.accepted + [QueuedJob(step.id, s.registering[step.id])];
    }
  }

  // A status of "done" is the stored result of the id's only execution.
  lemma DoneIsTheResult(s: Store, id: JobId)
    requires Inv(s) && StatusOf(s, id).Some? && StatusOf(s, id).value.status == "done"
    ensures id in s.results && s.results[id].status == StatusOf(s, id).value
    ensures id in s.slot && s.slot[id] < |s.starts| && s.starts[s.slot[id]].id == id
    ensures id in s.issued && s.starts[s.slot[id]].req == s.issued[id].req
    ensures forall k :: 0 <= k < |s.starts| && s.starts[k].id == id ==> k == s.slot[id]
  {
    assert JobInv(s, id);
  }

  // The entry is there as it was, or was swept after its retention period.
  predicate KeptOrSwept(s: Store, id: JobId, entry: Entry) {
    && entry.done && id in s.results && s.results[id] == entry
    && (if id in s.jobs then s.jobs[id] == entry else entry.completedAt < s.clock - RETENTION)
  }

  predicate StaysKept(s: Store, t: Store, id: JobId, entry: Entry) {
    KeptOrSwept(s, id, entry) ==> KeptOrSwept(t, id, entry)
  }

  lemma StepKeepsDone(s: Store, step: Step, t: Store, id: JobId, entry: Entry)
    requires Inv(s) && Follows(s, step, t) && !step.Restart?
    ensures StaysKept(s, t, id, entry)
  {
    assert JobInv(s, id);
  }

  lemma {:induction false} KeptAlong(states: seq<Store>, i: nat, j: nat, id: JobId, entry: Entry)
    requires i <= j < |states|
    requires forall m :: i <= m < j ==> StaysKept(states[m], states[m + 1], id, entry)
    ensures StaysKept(states[i], states[j], id, entry)
  {
    if i < j {
      KeptAlong(states, i, j - 1, id, entry);
      assert StaysKept(states[j - 1], states[j], id, entry);
    }
  }

  lemma NextKeepsDone(
    states: seq<Store>, steps: seq<Step>, clock: int, m: nat, id: JobId, entry: Entry)
    requires Runs(states, steps, clock) && m < |steps| && !steps[m].Restart?
    ensures StaysKept(states[m], states[m + 1], id, entry)
  {
    RunKeepsInv(states, steps, clock, m);
    StepKeepsDone(states[m], steps[m], states[m + 1], id, entry);
  }

  // Until the agent restarts, a finished entry stays exactly as it is, and is gone only once its
  // retention period has passed.
  lemma DoneStaysUntilSwept(
    states: seq<Store>, steps: seq<Step>, clock: int, i: nat, j: nat, id: JobId)
    requires Runs(states, steps, clock) && i <= j < |states|
    requires id in states[i].jobs && states[i].jobs[id].done
    requires forall m :: i <= m < j ==> !steps[m].Restart?
    ensures if id in states[j].jobs then states[j].jobs[id] == states[i].jobs[id]
            else states[i].jobs[id].completedAt < states[j].clock - RETENTION
  {
    var entry := states[i].jobs[id];
    RunKeepsInv(states, steps, clock, i);
    assert JobInv(states[i], id);
    forall m | i <= m < j ensures StaysKept(states[m], states[m + 1], id, entry) {
      NextKeepsDone(states, steps, clock, m, id, entry);
    }
    KeptAlong(states, i, j, id, entry);
  }

  // What the sweep of a POST leaves: exactly the entries that are unfinished, or were finished no
  // longer ago than the retention period, and the new one.
  lemma SweepIsExact(s: Store, step: Step, id: JobId)
    requires step.Register? && Enabled(s, step)
    ensures var t := Apply(s, step);
            && (id in t.jobs <==>
                  || id == step.id
                  || (id in s.jobs && !(s.jobs[id].done && s.jobs[id].completedAt < step.now - 24 * HOUR)))
            && (id in t.jobs && id != step.id ==> t.jobs[id] == s.jobs[id])
            && (id == step.id ==> !t.jobs[id].done)
  {}

  // Nothing sent in this lifetime is forgotten within a retention period of its arrival.
  lemma NotLostWithinRetention(s: Store, id: JobId)
    requires Inv(s) && InLifetime(s, id) && id in s.issued && s.clock <= s.issued[id].at + RETENTION
    ensures StatusOf(s, id).Some?
  {
    assert JobInv(s, id);
  }
}
