/** The messages between the consumer and a remote agent, and the clock both sides read. */
module Protocol {
  // Durations are nanoseconds, the resolution of the program's own clock.
  const SECOND: int := 1_000_000_000
  const MINUTE: int := 60 * SECOND
  const HOUR: int := 60 * MINUTE
  const DAY: int := 24 * HOUR

  // Client timeout of one HTTP call to an agent.
  const CLIENT_TIMEOUT: int := 30 * SECOND
  // Pause before every status call, and how long a consumer waits for one job.
  const POLL_INTERVAL: int := 5 * SECOND
  const MAX_WAIT: int := 6 * HOUR
  // An agent forgets a finished job this long after its completion.
  const RETENTION: int := 24 * HOUR

  type JobId = string

  datatype StorageConfig = StorageConfig(kind: string, name: string, config: string)

  datatype RunRequest = RunRequest(
    dbName: string, driver: string, params: string, storage: StorageConfig, timezone: string)

  // What GET /run/{id} answers; everything but `status` is meaningful only when it is "done".
  datatype RunStatus = RunStatus(
    status: string, success: bool, message: string,
    filename: string, remoteRef: string, sizeBytes: int,
    startedAt: string, durationMs: int)

  const NO_STATUS := RunStatus("", false, "", "", "", 0, "", 0)
}
