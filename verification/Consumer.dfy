/** One job as the consumer processes it: the attempt, its timing, and the rows it leaves. */
module Consumer {
  import opened Wrappers
  import opened Protocol
  import opened Jobs
  import opened RunLog

  datatype UploadResult = UploadResult(
    filename: string, remoteRef: string, sizeBytes: int, storageTargetId: int,
    startedAt: string, durationMs: int)

  // What backupAndUpload returns: a result, an error, or both (an agent's reported failure).
  datatype Attempt = Attempt(result: Option<UploadResult>, error: Option<string>)

  const NO_ATTEMPT := Attempt(None, None)

  function Failed(message: string): Attempt { Attempt(None, Some(message)) }

  // What a polled "done" status becomes.
  function AttemptOfStatus(job: Job, st: RunStatus): Attempt {
    if !st.success then
      Attempt(Some(UploadResult("", "", 0, 0, st.startedAt, st.durationMs)), Some(st.message))
    else
      Attempt(Some(UploadResult(st.filename, st.remoteRef, st.sizeBytes, job.storageTargetId,
                                st.startedAt, st.durationMs)), None)
  }

  function StateOf(a: Attempt): RunState { if a.error.None? then Success else Error }

  function MessageOf(a: Attempt): string { if a.error.None? then "" else a.error.value }

  // Start text and duration to log: this side's own for a local job, the agent's for a remote
  // one, and no start at all when the agent was never heard from.
  function Timing(job: Job, started: string, elapsedMs: int, a: Attempt): (string, int) {
    if job.agentId == 0 then (started, elapsedMs)
    else if a.result.Some? then (a.result.value.startedAt, a.result.value.durationMs)
    else ("", elapsedMs)
  }

  function FinalRow(job: Job, databaseId: int, started: string, elapsedMs: int, a: Attempt): RunRow {
    var (startedAt, durationMs) := Timing(job, started, elapsedMs, a);
    RunRow(databaseId, job.dbName, job.driver, StateOf(a), MessageOf(a), durationMs, startedAt)
  }

  function RecordRun(g: Log, job: Job, databaseId: int, started: string, elapsedMs: int, a: Attempt): Log {
    var (startedAt, durationMs) := Timing(job, started, elapsedMs, a);
    if job.runId != 0 then FinishRun(g, job.runId, StateOf(a), MessageOf(a), durationMs, startedAt)
    else InsertRun(g, FinalRow(job, databaseId, started, elapsedMs, a))
  }

  function FileOf(job: Job, databaseId: int, r: UploadResult): FileRow {
    FileRow(databaseId, job.dbName, r.storageTargetId, r.filename, r.remoteRef, r.sizeBytes)
  }

  // Everything outside the program that one job meets.
  datatype Env = Env(
    started: string, startStored: bool, attempt: Attempt, elapsedMs: int,
    databaseId: Option<int>, runStored: bool, fileStored: bool)

  function Row(e: Env): int { if e.databaseId.Some? then e.databaseId.value else 0 }

  function Processed(g: Log, job: Job, e: Env): Log
    requires e.attempt.error.None? ==> e.attempt.result.Some?
  {
    if job.cmd != "backup" then g
    else
      var g1 := if job.runId != 0 && job.agentId == 0 && e.startStored
                then SetStarted(g, job.runId, e.started) else g;
      var g2 := if e.runStored then RecordRun(g1, job, Row(e), e.started, e.elapsedMs, e.attempt) else g1;
      if e.attempt.error.None? && e.fileStored
      then InsertFile(g2, FileOf(job, Row(e), e.attempt.result.value)) else g2
  }

  // The row is under the database the job resolved to, and under none only when there is none.
  predicate BelongsTo(databaseId: int, e: Env) {
    match e.databaseId
    case Some(id) => databaseId == id
    case None => databaseId == 0
  }

  // The outcome: a success without a message, or the error.
  predicate SaysOutcome(row: RunRow, e: Env) {
    match e.attempt.error
    case None => row.state == Success && row.message == ""
    case Some(message) => row.state == Error && row.message == message
  }

  // The start time that is known: this side's own for a local job; for a remote one the agent's, or
  // none when it never answered.
  function KnownStart(job: Job, e: Env): string {
    if job.agentId == 0 then e.started
    else if e.attempt.result.Some? then e.attempt.result.value.startedAt
    else ""
  }

  predicate SaysDuration(row: RunRow, job: Job, e: Env) {
    row.durationMs == if job.agentId != 0 && e.attempt.result.Some? then e.attempt.result.value.durationMs
                      else e.elapsedMs
  }

  predicate Tells(row: RunRow, job: Job, e: Env) {
    && row.dbName == job.dbName && row.driver == job.driver
    && SaysOutcome(row, e) && SaysDuration(row, job, e) && row.startedAt == KnownStart(job, e)
  }

  // A finished row keeps its names and database, and its start when none is known.
  predicate Finishes(before: RunRow, after: RunRow, job: Job, e: Env) {
    && after.databaseId == before.databaseId && after.dbName == before.dbName && after.driver == before.driver
    && SaysOutcome(after, e) && SaysDuration(after, job, e)
    && (KnownStart(job, e) != "" ==> after.startedAt == KnownStart(job, e))
    && (KnownStart(job, e) == "" && job.agentId != 0 ==> after.startedAt == before.startedAt)
  }

  // The file that was uploaded, where it is, and whose it is.
  predicate Holds(row: FileRow, job: Job, e: Env) {
    && e.attempt.result.Some?
    && var r := e.attempt.result.value;
       row.dbName == job.dbName && row.storageTargetId == r.storageTargetId && row.filename == r.filename
       && row.remoteRef == r.remoteRef && row.sizeBytes == r.sizeBytes
  }

  // What one job leaves in the log: its own row finished, or a new one when it has none, and a file
  // row for a success; nothing more, and of these only what could be stored.
  ghost predicate ProcessedAs(g: Log, g': Log, job: Job, e: Env) {
    && (job.cmd != "backup" ==> g' == g)
    && (job.cmd == "backup" && job.runId == 0 ==>
          if e.runStored then
            && g'.lastRun == g.lastRun + 1 && g'.lastRun in g'.runs
            && g'.runs == g.runs[g'.lastRun := g'.runs[g'.lastRun]]
            && Tells(g'.runs[g'.lastRun], job, e) && BelongsTo(g'.runs[g'.lastRun].databaseId, e)
          else g'.runs == g.runs && g'.lastRun == g.lastRun)
    && (job.cmd == "backup" && job.runId != 0 ==>
          && g'.lastRun == g.lastRun && g'.runs.Keys == g.runs.Keys
          && (job.runId in g.runs ==>
                && g'.runs == g.runs[job.runId := g'.runs[job.runId]]
                && (if e.runStored then Finishes(g.runs[job.runId], g'.runs[job.runId], job, e)
                    else g'.runs[job.runId] == g.runs[job.runId].(
                           startedAt := if job.agentId == 0 && e.startStored then e.started
                                        else g.runs[job.runId].startedAt))))
    && (if job.cmd == "backup" && e.attempt.error.None? && e.fileStored then
          && g'.lastFile == g.lastFile + 1 && g'.lastFile in g'.files
          && g'.files == g.files[g'.lastFile := g'.files[g'.lastFile]]
          && Holds(g'.files[g'.lastFile], job, e) && BelongsTo(g'.files[g'.lastFile].databaseId, e)
        else g'.files == g.files && g'.lastFile == g.lastFile)
  }

  lemma ProcessedMeans(g: Log, job: Job, e: Env)
    requires e.attempt.error.None? ==> e.attempt.result.Some?
    ensures ProcessedAs(g, Processed(g, job, e), job, e)
  {}

  method ProcessJob(t: RunTables, job: Job, e: Env)
    requires e.attempt.error.None? ==> e.attempt.result.Some?
    modifies t
    ensures t.Contents() == Processed(old(t.Contents()), job, e)
    ensures ProcessedAs(old(t.Contents()), t.Contents(), job, e)
  {
    ProcessedMeans(t.Contents(), job, e);
    if job.cmd != "backup" {
      return;
    }
    if job.runId != 0 && job.agentId == 0 {
      t.UpdateBackupRunStarted(job.runId, e.started, e.startStored);
    }
    var duration := e.elapsedMs;
    var startedAt := e.started;
    if job.agentId != 0 {
      startedAt := "";
      if e.attempt.result.Some? {
        duration := e.attempt.result.value.durationMs;
        startedAt := e.attempt.result.value.startedAt;
      }
    }
    var state, message := Success, "";
    if e.attempt.error.Some? {
      state, message := Error, e.attempt.error.value;
    }
    if job.runId != 0 {
      t.FinishBackupRun(job.runId, state, message, duration, startedAt, e.runStored);
    } else {
      var row := RunRow(Row(e), job.dbName, job.driver, state, message, duration, startedAt);
      var _ := t.CreateBackupRun(row, e.runStored);
    }
    if e.attempt.error.None? {
      t.CreateBackupFile(FileOf(job, Row(e), e.attempt.result.value), e.fileStored);
    }
  }

  // A job's statements leave every row but its own untouched, and never touch another's.
  lemma ProcessedTouchesOneRow(g: Log, job: Job, e: Env, id: int)
    requires e.attempt.error.None? ==> e.attempt.result.Some?
    requires id in g.runs && id != job.runId && id <= g.lastRun
    ensures id in Processed(g, job, e).runs && Processed(g, job, e).runs[id] == g.runs[id]
  {}

  // An answered attempt carries what the agent said: its times in any case, the file it uploaded and
  // no error on success, and its error message otherwise.
  predicate TellsAnswer(a: Attempt, job: Job, st: RunStatus) {
    && a.result.Some? && a.result.value.startedAt == st.startedAt && a.result.value.durationMs == st.durationMs
    && (if st.success then
          && a.error.None? && a.result.value.filename == st.filename && a.result.value.remoteRef == st.remoteRef
          && a.result.value.sizeBytes == st.sizeBytes && a.result.value.storageTargetId == job.storageTargetId
        else a.error == Some(st.message))
  }

  // One pass of the polling loop: how long the pause and the status call took, whether the
  // shutdown signal had arrived, and the answer, if one came.
  datatype Turn = Turn(pause: int, call: int, cancelled: bool, answer: Option<RunStatus>)

  predicate IsDone(answer: Option<RunStatus>) {
    answer.Some? && answer.value.status == "done"
  }

  const MAX_CALLS: nat := 4320

  // The loop ends with the first "done" answer, a shutdown, or the deadline, and each bound
  // follows from the pause: at most MAX_CALLS status calls and, when pauses and calls take no
  // longer than their own timers, one pause and one call past the deadline.
  method PollUntilDone(job: Job, start: int, turn: nat -> Turn) returns (a: Attempt, calls: nat, now: int)
    requires forall i: nat :: 5 * SECOND <= turn(i).pause && 0 <= turn(i).call
    ensures calls <= MAX_CALLS
    ensures forall i: nat :: i + 1 < calls ==> !IsDone(turn(i).answer)
    ensures a.result.Some? ==>
              calls > 0 && IsDone(turn(calls - 1).answer)
              && a == AttemptOfStatus(job, turn(calls - 1).answer.value)
              && TellsAnswer(a, job, turn(calls - 1).answer.value)
              && start + 5 * SECOND * calls <= now
    ensures a.result.None? ==>
              a.error.Some? && (calls > 0 ==> !IsDone(turn(calls - 1).answer))
              && (turn(calls).cancelled || start + 6 * HOUR < now)
    ensures (forall i: nat :: turn(i).pause == POLL_INTERVAL && turn(i).call <= CLIENT_TIMEOUT) ==>
              now <= start + 6 * HOUR + 35 * SECOND
  {
    var deadline := start + MAX_WAIT;
    now, calls := start, 0;
    while true
      invariant start + POLL_INTERVAL * calls <= now && calls <= MAX_CALLS
      invariant forall i: nat :: i < calls ==> !IsDone(turn(i).answer)
      invariant (forall i: nat :: turn(i).pause == POLL_INTERVAL && turn(i).call <= CLIENT_TIMEOUT) ==>
                  now <= deadline + CLIENT_TIMEOUT
      decreases deadline - now
    {
      var t := turn(calls);
      now := now + t.pause;
      if t.cancelled {
        return Failed("context canceled"), calls, now;
      }
      if now > deadline {
        return Failed("timed out"), calls, now;
      }
      now := now + t.call;
      calls := calls + 1;
      if t.answer.None? || t.answer.value.status != "done" {
        continue;
      }
      return AttemptOfStatus(job, t.answer.value), calls, now;
    }
  }
}
