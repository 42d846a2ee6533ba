/** The backup_runs and backup_files tables: what each statement does to them. */
module RunLog {
  // How a write that can fail ends: done, not done, or done although the caller saw an error.
  datatype Write = Stored | Refused | StoredUnseen

  datatype RunState = Running | Success | Error

  datatype RunRow = RunRow(
    databaseId: int, dbName: string, driver: string,
    state: RunState, message: string, durationMs: int, startedAt: string)

  datatype FileRow = FileRow(
    databaseId: int, dbName: string, storageTargetId: int,
    filename: string, remoteRef: string, sizeBytes: int)

  // lastRun and lastFile are the AUTOINCREMENT counters, which deletions do not lower.
  datatype Log = Log(runs: map<int, RunRow>, lastRun: nat, files: map<int, FileRow>, lastFile: nat)

  function EnqueuedRow(databaseId: int, dbName: string, driver: string): RunRow {
    RunRow(databaseId, dbName, driver, Running, "", 0, "")
  }

  function InsertRun(g: Log, row: RunRow): Log {
    g.(runs := g.runs[g.lastRun + 1 := row], lastRun := g.lastRun + 1)
  }

  function SetStarted(g: Log, id: int, startedAt: string): Log {
    if id in g.runs then g.(runs := g.runs[id := g.runs[id].(startedAt := startedAt)]) else g
  }

  // An empty startedAt leaves the stored one alone.
  function Finished(row: RunRow, state: RunState, message: string, durationMs: int, startedAt: string): RunRow {
    row.(state := state, message := message, durationMs := durationMs,
         startedAt := if startedAt == "" then row.startedAt else startedAt)
  }

  function FinishRun(g: Log, id: int, state: RunState, message: string, durationMs: int, startedAt: string): Log {
    if id in g.runs then g.(runs := g.runs[id := Finished(g.runs[id], state, message, durationMs, startedAt)])
    else g
  }

  function ClearRuns(g: Log): Log {
    g.(runs := map[])
  }

  function InsertFile(g: Log, row: FileRow): Log {
    g.(files := g.files[g.lastFile + 1 := row], lastFile := g.lastFile + 1)
  }

  /** The mutable tables, one method per statement; `stored` says whether the statement took. */
  class RunTables {
    var runs: map<int, RunRow>
    var lastRun: nat
    var files: map<int, FileRow>
    var lastFile: nat

    function Contents(): Log
      reads this
    {
      Log(runs, lastRun, files, lastFile)
    }

    constructor ()
      ensures Contents() == Log(map[], 0, map[], 0)
    {
      runs, lastRun, files, lastFile := map[], 0, map[], 0;
    }

    // Returns 0 when the statement failed, as the callers' zero value does.
    method CreateBackupRun(row: RunRow, stored: bool) returns (id: int)
      modifies this
      ensures Contents() == if stored then InsertRun(old(Contents()), row) else old(Contents())
      ensures id == if stored then old(lastRun) + 1 else 0
      ensures runs == (if stored then old(runs)[id := row] else old(runs)) && (stored ==> lastRun == id)
    {
      id := 0;
      if stored {
        lastRun := lastRun + 1;
        runs := runs[lastRun := row];
        id := lastRun;
      }
    }

    method UpdateBackupRunStarted(id: int, startedAt: string, stored: bool)
      modifies this
      ensures Contents() == if stored then SetStarted(old(Contents()), id, startedAt) else old(Contents())
      ensures stored && id in old(runs) ==> runs == old(runs)[id := old(runs)[id].(startedAt := startedAt)]
      ensures !stored || id !in old(runs) ==> runs == old(runs)
    {
      if stored && id in runs {
        runs := runs[id := runs[id].(startedAt := startedAt)];
      }
    }

    method FinishBackupRun(
      id: int, state: RunState, message: string, durationMs: int, startedAt: string, stored: bool)
      modifies this
      ensures Contents() == if stored then FinishRun(old(Contents()), id, state, message, durationMs, startedAt)
                            else old(Contents())
      ensures !stored || id !in old(runs) ==> runs == old(runs)
      ensures stored && id in old(runs) ==>
                && runs.Keys == old(runs).Keys
                && (forall r <- runs :: r != id ==> runs[r] == old(runs)[r])
                && runs[id] == old(runs)[id].(
                     state := state, message := message, durationMs := durationMs,
                     startedAt := if startedAt == "" then old(runs)[id].startedAt else startedAt)
    {
      if !stored || id !in runs {
        return;
      }
      var row := runs[id].(state := state, message := message, durationMs := durationMs);
      if startedAt != "" {
        row := row.(startedAt := startedAt);
      }
      runs := runs[id := row];
    }

    method DeleteAllBackupRuns()
      modifies this
      ensures runs == map[] && Contents() == old(Contents()).(runs := map[])
    {
      runs := map[];
    }

    method CreateBackupFile(row: FileRow, stored: bool)
      modifies this
      ensures Contents() == if stored then InsertFile(old(Contents()), row) else old(Contents())
      ensures stored ==> lastFile == old(lastFile) + 1 && files == old(files)[lastFile := row]
    {
      if stored {
        lastFile := lastFile + 1;
        files := files[lastFile := row];
      }
    }
  }
}
