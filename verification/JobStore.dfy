/** The agent process's mutable store. Each method is one lock region or one channel operation
    and performs exactly one step of AgentStore; `model` is that step system's state. */
module JobStores {
  import opened Wrappers
  import opened Protocol
  import opened AgentStore

  // What one dump and upload came to.
  datatype BackupResult = BackupResult(filename: string, remoteRef: string, sizeBytes: int)

  // The status run() stores for an execution.
  function StatusOfRun(outcome: Result<BackupResult>, startedAt: string, durationMs: int): (r: RunStatus)
    ensures r.status == "done" && (r.success <==> outcome.Ok?)
    ensures r.startedAt == startedAt && r.durationMs == durationMs
  {
    match outcome
    case Err(message) => RunStatus("done", false, message, "", "", 0, startedAt, durationMs)
    case Ok(b) => RunStatus("done", true, "", b.filename, b.remoteRef, b.sizeBytes, startedAt, durationMs)
  }

  // One turn of the worker: how the execution ends, and when its result is stored.
  datatype Turn = Turn(outcome: Result<BackupResult>, startedAt: string, durationMs: int, now: int) {
    function Stored(): Entry { Entry(true, now, StatusOfRun(outcome, startedAt, durationMs)) }
  }

  // The entry a run leaves behind: its result or its error, with its own start and duration.
  predicate Reports(e: Entry, turn: Turn) {
    && e.done && e.completedAt == turn.now
    && e.status.status == "done" && e.status.startedAt == turn.startedAt && e.status.durationMs == turn.durationMs
    && match turn.outcome {
         case Ok(b) =>
           e.status.success && e.status.message == "" && e.status.filename == b.filename
           && e.status.remoteRef == b.remoteRef && e.status.sizeBytes == b.sizeBytes
         case Err(m) => !e.status.success && e.status.message == m
       }
  }

  lemma StoredReports(turn: Turn)
    ensures Reports(turn.Stored(), turn)
  {}

  class JobStore {
    var jobs: map<JobId, Entry>
    var queue: seq<QueuedJob>
    ghost var model: Store

    ghost predicate Valid()
      reads this
    {
      model.jobs == jobs && model.queue == queue && Inv(model)
    }

    constructor (ghost now: int)
      ensures Valid() && model == Fresh(now)
    {
      jobs, queue, model := map[], [], Fresh(now);
      FreshInv(now);
    }

    // Drops finished entries older than the retention period; the caller holds the lock.
    method SweepLocked(now: int)
      modifies this`jobs
      ensures jobs == Swept(old(jobs), now)
      ensures forall id :: id in jobs <==>
                id in old(jobs) && !(old(jobs)[id].done && old(jobs)[id].completedAt < now - 24 * HOUR)
      ensures forall id :: id in jobs ==> jobs[id] == old(jobs)[id]
    {
      var cutoff := now - RETENTION;
      var pending := jobs.Keys;
      while pending != {}
        invariant pending <= old(jobs).Keys
        invariant jobs == map id | id in old(jobs) && (id in pending || !Expired(old(jobs)[id], now)) :: old(jobs)[id]
        decreases pending
      {
        var id :| id in pending;
        pending := pending - {id};
        if jobs[id].done && jobs[id].completedAt < cutoff {
          jobs := jobs - {id};
        }
      }
    }

    // First lock region of handleRun.
    method RegisterLocked(id: JobId, req: RunRequest, now: int)
      requires Valid() && Enabled(model, Register(id, req, now))
      modifies this
      ensures Valid() && model == Apply(old(model), Register(id, req, now))
    {
      jobs := jobs[id := Entry(false, 0, NO_STATUS)];
      SweepLocked(now);
      StepKeepsInv(model, Register(id, req, now));
      model := Apply(model, Register(id, req, now));
    }

    // The non-blocking send.
    method TrySend(id: JobId, req: RunRequest) returns (sent: bool)
      requires Valid() && id in model.registering && model.registering[id] == req
      modifies this
      ensures Valid() && model == Apply(old(model), Send(id))
      ensures sent <==> |old(queue)| < 256
    {
      sent := |queue| < QUEUE_CAPACITY;
      if sent {
        queue := queue + [QueuedJob(id, req)];
      }
      StepKeepsInv(model, Send(id));
      model := Apply(model, Send(id));
    }

    // Second lock region of handleRun, only after a full channel.
    method DropLocked(id: JobId)
      requires Valid() && id in model.rejecting
      modifies this
      ensures Valid() && model == Apply(old(model), DropRejected(id))
    {
      jobs := jobs - {id};
      StepKeepsInv(model, DropRejected(id));
      model := Apply(model, DropRejected(id));
    }

    // POST /run when no other goroutine runs in between; None is the 503 answer.
    method HandleRun(id: JobId, req: RunRequest, now: int) returns (accepted: Option<JobId>)
      requires Valid() && Enabled(model, Register(id, req, now))
      modifies this
      ensures Valid()
      ensures accepted == if |old(queue)| < 256 then Some(id) else None
      ensures accepted.Some? ==>
                jobs == Swept(old(jobs)[id := Entry(false, 0, NO_STATUS)], now)
                && queue == old(queue) + [QueuedJob(id, req)]
      ensures accepted.None? ==> jobs == Swept(old(jobs), now) && queue == old(queue) && Refused(model, id)
      ensures forall j :: j in jobs && jobs[j].done ==> now - 24 * HOUR <= jobs[j].completedAt
      ensures forall j :: j in jobs && j != id ==> j in old(jobs) && jobs[j] == old(jobs)[j]
    {
      assert JobInv(model, id);
      RegisterLocked(id, req, now);
      var sent := TrySend(id, req);
      if sent {
        return Some(id);
      }
      DropLocked(id);
      return None;
    }

    // GET /run/{id}; None is the 404 answer.
    method HandleStatus(id: JobId) returns (status: Option<RunStatus>)
      requires Valid()
      ensures status == StatusOf(model, id)
      ensures status.None? <==> id !in jobs
      ensures id in jobs ==> status.value == if jobs[id].done then jobs[id].status
                                             else jobs[id].status.(status := "pending")
      ensures status.Some? && status.value.status == "done" ==>
                id in model.results && model.results[id].status == status.value
    {
      if id !in jobs {
        return None;
      }
      var found := jobs[id].status;
      if !jobs[id].done {
        found := found.(status := "pending");
      }
      status := Some(found);
      if found.status == "done" { DoneIsTheResult(model, id); }
    }

    // The worker receives from the channel.
    method Receive() returns (job: QueuedJob)
      requires Valid() && Enabled(model, Take)
      modifies this
      ensures Valid() && model == Apply(old(model), Take) && job == old(queue)[0]
    {
      job := queue[0];
      queue := queue[1..];
      StepKeepsInv(model, Take);
      model := Apply(model, Take);
    }

    // Lock region at the end of run.
    method FinishLocked(id: JobId, status: RunStatus, now: int)
      requires Valid() && IsRunning(model, id) && Enabled(model, Complete(status, now))
      modifies this
      ensures Valid() && model == Apply(old(model), Complete(status, now))
      ensures id in old(jobs) && jobs == old(jobs)[id := Entry(true, now, status)]
    {
      assert JobInv(model, id);
      if id in jobs {
        jobs := jobs[id := Entry(true, now, status)];
      }
      StepKeepsInv(model, Complete(status, now));
      model := Apply(model, Complete(status, now));
    }

    // One turn of the worker: receive, execute, store.
    method WorkOne(turn: Turn)
      requires Valid() && model.running.None? && queue != [] && model.clock <= turn.now
      modifies this
      ensures Valid() && model.running.None? && model.clock == turn.now
      ensures queue == old(queue)[1..] && model.starts == old(model).starts + [old(queue)[0]]
      ensures old(queue)[0].id in old(jobs) && jobs == old(jobs)[old(queue)[0].id := turn.Stored()]
      ensures Reports(jobs[old(queue)[0].id], turn)
    {
      var job := Receive();
      FinishLocked(job.id, StatusOfRun(turn.outcome, turn.startedAt, turn.durationMs), turn.now);
    }

    // The worker, for as many turns as are given or until the channel is empty.
    method Work(turns: seq<Turn>) returns (n: nat)
      requires Valid() && model.running.None?
      requires forall i :: 0 <= i < |turns| ==> model.clock <= turns[i].now
      requires forall i, j :: 0 <= i < j < |turns| ==> turns[i].now <= turns[j].now
      modifies this
      ensures Valid() && model.running.None?
      ensures n == if |turns| < |old(queue)| then |turns| else |old(queue)|
      ensures queue == old(queue)[n..] && model.starts == old(model).starts + old(queue)[..n]
      ensures forall i :: 0 <= i < n ==>
                old(queue)[i].id in jobs && jobs[old(queue)[i].id] == turns[i].Stored()
      ensures forall i :: 0 <= i < n ==> Reports(jobs[old(queue)[i].id], turns[i])
    {
      ghost var before := queue;
      assert forall i, j :: 0 <= i < j < |before| ==> before[i].id != before[j].id;
      n := 0;
      while n < |turns| && queue != []
        invariant n <= |turns| && n <= |before|
        invariant Valid() && model.running.None?
        invariant n < |turns| ==> model.clock <= turns[n].now
        invariant queue == before[n..] && model.starts == old(model).starts + before[..n]
        invariant forall i :: 0 <= i < n ==>
                    before[i].id in jobs && jobs[before[i].id] == turns[i].Stored()
      {
        WorkOne(turns[n]);
        n := n + 1;
      }
      forall i | 0 <= i < n ensures Reports(jobs[before[i].id], turns[i]) {
        StoredReports(turns[i]);
      }
    }
  }
}
