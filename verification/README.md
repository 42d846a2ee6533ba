# BackupDB: a Dafny model of its job system

BackupDB is a small distributed job system. A scheduler (and the admin UI and a CLI) creates a
`running` row in the run log and pushes a job onto a Redis list; one consumer pops jobs, runs the
local ones in line and hands the others to remote agents, which it polls; each agent queues what
it is given in a bounded channel that a single worker drains. A SQLite registry holds the
databases, schedules, shared times, notify channels and the run log. This project models those
parts and proves what they promise.

| file | models |
|---|---|
| `AgentStore.dfy`, `JobStore.dfy` | the agent's job store: as a step system (one step per lock region, channel operation or restart) with its inductive invariant, and as the class whose methods are those steps |
| `Pipeline.dfy`, `PipelineInv.dfy`, `PipelineTheorems.dfy` | producers, list, consumer, background dispatches and any number of agents as one step system: one step per SQL statement, Redis operation, agent lock region or HTTP message, with every failure, kill and restart of a producer, the consumer or an agent a step; its invariant; what holds in every reachable state |
| `Abandonment.dfy`, `Retries.dfy`, `RemoteRun.dfy` | which failing steps leave a row "running" for ever; what a push that is carried out twice does; one remote backup from its run row to its file row |
| `RunLog.dfy`, `Jobs.dfy`, `Consumer.dfy` | the run log's statements, the queue's jobs and their packed parameters, `processJob` and the polling loop |
| `Refinement.dfy` | the pipeline's steps against the scheduler's loop body and `processJob`, for local and for remote jobs |
| `RegistryTables.dfy`, `RegistryCalls.dfy`, `Registry.dfy`, `Replacing.dfy` | the registry's tables with keys, cascades and counters; what each call changes and leaves alone; the class over them, its due queries and the scheduler's pass; the statements that replace a set of memberships, interleaved |
| `Scheduler.dfy`, `Interleaving.dfy` | one uninterrupted scheduler pass; the scheduler one statement at a time with concurrent edits, failures and crashes |
| `LocalClock.dfy`, `Coverage.dfy` | local dates and minutes; exactly-once firing over unbounded tick sequences |
| `Migration.dfy`, `OpenFile.dfy` | the migration chain of `Open` over files of any age, and `Open` as a class whose copying and dropping statements go row by row |
| `LogSearch.dfy`, `Query.dfy`, `Pagination.dfy` | LIKE and its escaping (section 8.5 of ISO/IEC 9075-2), the log filter, the count and list scans, and paging over 64-bit integers (`Machine.dfy`) |
| `FileNames.dfy`, `HumanSize.dfy` | backup file names and readable sizes |

Histories that the program does not keep (every id ever issued, every job ever pushed, who is
answerable for a row) are ordinary fields of the step systems' states.

## What the proofs found

Where a promise is false of the code, the condition under which it holds is proved as an
if-and-only-if, and a concrete or reachable case in which it fails is proved beside it.

- The comment over `runConsumer` (cmd/backupdb/consumer.go:22-24) says that the job in flight at
  SIGTERM is finished. Its outcome is then written with the cancelled context, so it is never
  stored: a popped job is recorded after the signal exactly when it was recorded before it, and a
  row whose job was not says "running" until the log is cleared (`ShutdownAbandonsJobsInHand`;
  `JobInHandAtShutdown` is a run that gets there).
- The comment on the schedules table (internal/registry/schema.go:62) says that the run date
  prevents double-firing. A trigger whose job reached the list is due again in the same minute
  exactly when no trigger under its key was marked (`DueAgainUnlessMarked`), and then gets a second
  job for the same date (`SecondJobUnlessMarked`; `TwoJobsForOneDate` is a run that does). For a
  schedule of its own that is its own mark alone; a member of a shared time whose push failed is
  skipped for the day once a sibling was marked (`SkippedMember`). In every run the jobs for a date exceed the pushes
  without a stored mark by at most one (`AtMostOncePlusMisses`).
- The admin form accepts a one-digit hour such as `9:05`. Due times are compared as text with a
  two-digit clock reading, so an accepted time can fire exactly when it has five characters
  (`AcceptedTimeCanMatch`), and any other never does (`ShortTimeNeverFires`).
- A connection field holding `|` shifts the fields after it; packing round-trips exactly when no
  field holds one (`ParamsRoundTrip`, `SeparatorShiftsFields`).
- README.md:107 says there is no automatic migration, but `Open` migrates every older shape. The
  rebuild of `databases` lowers its AUTOINCREMENT counter to the largest surviving id, so ids of
  deleted databases are handed out again exactly when the file still had UNIQUE(name) and its newest
  rows had been deleted (`ReusedIds`; `IdTwoReturns` is a file where one is).
- Pages tile the log exactly for the page sizes `Tiling` describes: a configured size below 1, or
  one that overflows, breaks it (`PagesTileTheLog`; `BrokenPageSizes` has two that do).
- A run row is finished at most once, except that the Redis client may send a push again after a lost
  answer: over all runs, rows only advance exactly when no push is carried out twice
  (`FinishedOnceWithoutRetries`; in `SuccessTurnsToError` a row that said "success" ends as "error").
- Replacing a membership set is a delete and single inserts outside any transaction. When nothing
  fails, the caller that deleted last gets exactly its own set exactly when every later insert is its
  own (`LastCallerGetsItsSet`); two callers can both succeed and leave the union (`TwoCallersMix`).
- The date and the time in a file name are two readings of the clock. The name is that of the time
  it shows exactly when the calendar writes the days of both readings alike (`NameIsOfItsTime`);
  across midnight it equals that of a backup made a day earlier (`MidnightClash`).

## Model

| member | source | states |
|---|---|---|
| AgentStore.UnfinishedIsHeldOnce | cmd/backupdb/agent.go:204-229 | an unfinished entry is in exactly one place (being registered, being refused, queued, running), nothing else is in any, and at most 256 are queued |
| AgentStore.RunKeepsInv | cmd/backupdb/agent.go:159-298 | every state of every interleaving of handlers, worker, sweeps and restarts satisfies the store's invariant |
| AgentStore.RefusedNeverRuns | cmd/backupdb/agent.go:217-225 | once refused for a full channel, an id has no entry and is never started, in any later state |
| AgentStore.StartsAreDistinct | cmd/backupdb/agent.go:190-202 | no id is executed twice, restarts included |
| AgentStore.StartsFollowSends | cmd/backupdb/agent.go:193-202 | in every run, starts followed by the channel's contents are the accepted sends since the last restart, in order |
| AgentStore.DoneIsTheResult | cmd/backupdb/agent.go:231-250 | a "done" answer is the stored result of the one execution of that id, which ran the request it was issued for |
| AgentStore.DoneStaysUntilSwept | cmd/backupdb/agent.go:281-298 | over any stretch of a run without a restart, a finished entry stays exactly as it is or is gone, and gone only more than 24h after its completion |
| AgentStore.NotLostWithinRetention | cmd/backupdb/agent.go:291-298 | an id sent in this lifetime of the agent is known for at least 24h after its arrival |
| AgentStore.SweepIsExact | cmd/backupdb/agent.go:211-214 | a POST leaves exactly the new entry and those that are unfinished or were finished at most 24h ago, as they were |
| AgentStore.StepsArePossible | cmd/backupdb/agent.go:193-229 | a fresh request is registered, a registered one goes on to its send, a free worker takes what is queued, and the process can die, at any time |
| JobStores.JobStore.SweepLocked | cmd/backupdb/agent.go:291-298 | the deleting loop leaves exactly the entries that are unfinished or not yet older than the retention period |
| JobStores.JobStore.HandleRun | cmd/backupdb/agent.go:204-229 | accepts exactly when fewer than 256 jobs are queued, and appends the job and its entry; a refusal leaves neither; afterwards no entry finished more than 24h ago is left, and no other has changed |
| JobStores.JobStore.HandleStatus | cmd/backupdb/agent.go:231-250 | answers not-found, pending or the stored result; a "done" answer is the recorded result |
| JobStores.JobStore.FinishLocked | cmd/backupdb/agent.go:281-287 | the running id's entry exists and becomes the finished one; no other entry changes |
| JobStores.JobStore.Work | cmd/backupdb/agent.go:193-202 | after n turns the first n queued jobs have been started in order and the rest still wait; each entry reports its own turn's file name, remote ref and size or its error, with its start and duration |
| JobStores.JobStore.WorkOne | cmd/backupdb/agent.go:252-288 | one job is taken, run, and its entry reports that run's result or error |
| PipelineInv.StepKeepsInv | cmd/backupdb/consumer.go:66-197 | every step of producers, list, consumer, dispatches and agents keeps the system invariant |
| PipelineInv.RunKeepsInv | cmd/backupdb/consumer.go:34-97 | every reachable state satisfies the system invariant |
| PipelineTheorems.FinishedRowIsTrue | cmd/backupdb/consumer.go:117-148 | a finished row belongs to one popped job, the one that carries its id or that created it; for a local job it repeats the attempt's outcome with its own start and duration; for a remote job it repeats state, message, start and duration of the single execution its agent ran for a request with that job's database, driver and connection, or is an error with no start time |
| PipelineTheorems.FileRowIsTrue | cmd/backupdb/consumer.go:202-218 | a file row carries the name, remote ref and size of a successful attempt (for a remote job, what its agent stored for its single execution), at the job's destination, and no job has two file rows |
| PipelineTheorems.OneJobPerExecution | cmd/backupdb/consumer.go:344-357 | no agent execution is reported under two jobs |
| PipelineTheorems.RowsOnlyAdvance | internal/registry/registry.go:1158-1181 | between any two states of a run a row keeps its names, is finished at most once and frozen then, never loses a start time, and a cleared id never returns |
| Abandonment.RunningRowsAreConserved | cmd/backupdb/scheduler.go:80-96 | a "running" row is exactly one of: about to be pushed by a producer that lives, queued, in process, or left behind by an earlier step that failed for it; a finished row is none |
| Abandonment.AbandonedMeansFailed | cmd/backupdb/consumer.go:71-92 | over any run, a row is out of everybody's hands unfinished exactly when a step failed for it: created unseen, push refused, producer dead before its push, pop lost, consumer killed with it in process, or outcome not stored |
| Retries.FinishedOnceWithoutRetries | internal/queue/queue.go:62-68 | over all runs, run rows only advance (are finished at most once and then frozen) exactly when no push is carried out twice |
| Retries.SuccessTurnsToError | internal/queue/queue.go:62-68 | a run with one repeated push in which a row goes from "success" to "error" |
| PipelineTheorems.QueueIsFifo | internal/queue/queue.go:62-86 | jobs popped, then jobs queued, are the jobs pushed, in order; no two jobs share a run row |
| PipelineTheorems.LocalJobsAreSerial | cmd/backupdb/consumer.go:71-93 | local jobs are begun in push order and never two are in hand |
| PipelineTheorems.ReturnWaitsForDispatches | cmd/backupdb/consumer.go:66-67 | when the consumer has returned no popped job is in hand, local or dispatched |
| PipelineTheorems.PolledJobIsKnown | cmd/backupdb/consumer.go:359-376 | a poll within the deadline finds the accepted id exactly when the agent has not restarted since |
| PipelineTheorems.GivenUpLate | cmd/backupdb/consumer.go:359-368 | without a stop signal a dispatched job is given up only more than six hours after its POST |
| PipelineTheorems.PushCanFail | cmd/backupdb/scheduler.go:88-91 | a push can succeed, fail, take effect unseen, or never be made because its producer died |
| PipelineTheorems.DispatchCanFail | cmd/backupdb/consumer.go:353-368 | a POST can fail; a poll gives up exactly on a stop signal or past its deadline; an outcome can be stored exactly while the context is open |
| PipelineTheorems.PostCanArriveLate | cmd/backupdb/agent.go:204-229 | a request whose sender has stopped waiting can still be registered by its agent |
| RemoteRun.RemoteBackup | cmd/backupdb/consumer.go:325-395 | a run of fifteen steps in which a remote job's agent is asked for exactly that job's database and runs it once, and the run row and the file row say exactly what it reported |
| PipelineTheorems.ShutdownAbandonsJobsInHand | cmd/backupdb/consumer.go:22-24 | from the stop signal on, a popped job is recorded exactly when it was recorded already, and its row says "running" (or is cleared) exactly when it was not |
| PipelineTheorems.JobInHandAtShutdown | cmd/backupdb/consumer.go:71-93 | a run from the start in which the signal finds a job in hand, its row "running" |
| Refinement.LocalStepsAreProcessJob | cmd/backupdb/consumer.go:99-161 | a local job's four steps, uninterrupted, change the log exactly as processJob does |
| Refinement.RemoteStepsAreProcessJob | cmd/backupdb/consumer.go:117-151 | a remote job, from its pop through dispatch and polling (while jobs are pushed and popped, agents work and other dispatches go on) to its rows, changes the log exactly as processJob does for the attempt the polling came to |
| Refinement.FireIsProduceAndPush | cmd/backupdb/scheduler.go:80-92 | a producer's two steps, uninterrupted, are the row and the push of one fired trigger |
| Consumer.ProcessJob | cmd/backupdb/consumer.go:99-218 | for every combination of failed statements and outcomes: the job's own row is finished, or a new one made, with state, message, duration and start as the attempt had them; a success leaves a file row with the uploaded file's name, ref, size and destination; both new rows are under the database the job resolved to, and 0 only when there is none; nothing else changes |
| Consumer.ProcessedTouchesOneRow | internal/registry/registry.go:1170-1181 | processing a job leaves every other run's row as it was |
| Consumer.PollUntilDone | cmd/backupdb/consumer.go:359-394 | returns the first "done" answer, or stops for a shutdown or the deadline; at most 4320 status calls, and at most 6h + 35s when pauses and calls keep to their timers |
| Jobs.ParamsRoundTrip | internal/dump/common.go:45-60 | parsing a packed connection string gives its five fields back exactly when none holds the separator |
| Jobs.ParsesInOrder | internal/dump/common.go:45-60 | the fields of a packed text are host, port, user, password and auth database in that order, and missing ones are empty |
| Jobs.SeparatorShiftsFields | internal/queue/queue.go:41-44 | a separator inside the password cuts it and displaces the field after it |
| Jobs.JoinSplit | internal/dump/common.go:46 | joining the pieces of a text with the separator gives the text back |
| Jobs.SplitJoin | internal/dump/common.go:46 | pieces free of the separator are exactly what their join splits into |
| Jobs.Client.Push | internal/queue/queue.go:62-68 | appends at the tail, or nothing, and reports success only for an answered append |
| Jobs.Client.Pop | internal/queue/queue.go:72-86 | takes the head when the server carries the pop out; hands it over only if the answer arrives and decodes, else an error and the job is lost; an answered pop of an empty list is neither |
| RunLog.RunTables.FinishBackupRun | internal/registry/registry.go:1170-1181 | finishes that row only, and an empty start time keeps the stored one |
| RunLog.RunTables.DeleteAllBackupRuns | internal/registry/registry.go:1251-1254 | empties the log, and leaves the id counter and the file rows as they were |
| RegistryTables.IntegrityHolds | internal/registry/schema.go:18-119 | after any sequence of registry calls, failed ones included: no dangling reference, unique triples, ids within their counters |
| RegistryTables.OpKeepsIntegrity | internal/registry/registry.go:438-471 | each call keeps that integrity |
| RegistryCalls.IntegrityMeans | internal/registry/schema.go:18-119 | every reference points to a row, every id is within its counter, and no two databases agree in name, agent and driver |
| RegistryCalls.CreateDatabaseMeans | internal/registry/registry.go:438-448 | fails exactly when a database has that name, agent and driver; else adds exactly that row |
| RegistryCalls.UpdateDatabaseMeans | internal/registry/registry.go:450-458 | fails exactly when another database has them; else exactly that row becomes the given one |
| RegistryCalls.SetEnabledMeans | internal/registry/registry.go:460-466 | that database gets the flag it was given and changes in nothing else |
| RegistryCalls.DeleteDatabaseMeans | internal/registry/registry.go:468-471 | that database goes with exactly its schedules, memberships and links |
| RegistryCalls.ScheduleCallsMean | internal/registry/registry.go:565-579 | creating adds one enabled schedule without a run date for a known database; deleting takes exactly that one |
| RegistryCalls.TimeCallsMean | internal/registry/registry.go:744-758 | the same for the times of a shared schedule |
| RegistryCalls.MarksMean | internal/registry/registry.go:612-615 | a mark writes the date into that row only |
| RegistryCalls.CreateGroupMeans | internal/registry/registry.go:786-800 | adds an enabled shared schedule, whose members are the ids before the first bad one |
| RegistryCalls.UpdateGroupMeans | internal/registry/registry.go:803-808 | renames that shared schedule only, and replaces its members likewise |
| RegistryCalls.SetGroupEnabledMeans | internal/registry/registry.go:825-828 | sets that shared schedule's flag and nothing else |
| RegistryCalls.DeleteGroupMeans | internal/registry/registry.go:830-833 | that shared schedule goes with exactly its times and memberships |
| RegistryCalls.ChannelCallsMean | internal/registry/registry.go:1069-1093 | creating adds exactly that channel; deleting takes it with exactly its links |
| RegistryCalls.SetChannelsMeans | internal/registry/registry.go:1098-1111 | the database's links are the ids before the first bad one, and no other database's change |
| RegistryTables.ReplaceIsExact | internal/registry/registry.go:810-823 | replacing a set leaves exactly the ids before the first repeated or unknown one, all of them when there is none, and no other key's pairs change |
| Replacing.LastDeleteDecides | internal/registry/registry.go:810-823 | however the statements of any number of callers mix, and refused or not, a key is left with the known ids inserted since the last delete, and no other key changes |
| Replacing.LastCallerGetsItsSet | internal/registry/registry.go:810-823 | when no statement is refused, the caller that deleted last gets exactly its set exactly when every later insert is its own |
| Replacing.TwoCallersMix | internal/registry/registry.go:1098-1111 | two callers that both succeed and leave the union of their ids, which neither asked for |
| Replacing.AloneIsReplaceAll | internal/registry/registry.go:810-823 | a caller with nobody in between does what the undivided replacement does |
| RegistryTables.JobFindsItsDatabase | internal/registry/registry.go:426-436 | whatever calls follow, a job resolves to its original row and no other exactly while that row exists with the same triple |
| RegistryTables.OnlyMarksWriteDates | internal/registry/registry.go:612-615 | apart from the two marks no call changes a schedule or shared time that stays, and a new one has an unused id and no run date |
| RegistryStore.Registry.Create | internal/registry/registry.go:438-448 | fails exactly when the triple is taken, else adds the row under a new id |
| RegistryStore.Registry.Update | internal/registry/registry.go:450-458 | fails exactly when another row has the triple, else replaces the row if it exists |
| RegistryStore.Registry.Delete | internal/registry/registry.go:468-471 | removes the row and, by cascade, its schedules, memberships and links |
| RegistryStore.Registry.GetByNameAgentDriver | internal/registry/registry.go:426-436 | finds a row with that triple exactly when there is one |
| RegistryStore.Registry.SetSharedScheduleDatabases | internal/registry/registry.go:810-823 | the loop's memberships are exactly the ids before the first bad one; success exactly when there is none; other schedules untouched |
| RegistryStore.Registry.SetDatabaseNotifyChannels | internal/registry/registry.go:1098-1111 | the same for a database's channels |
| RegistryStore.Registry.ListDue | internal/registry/registry.go:583-610 | exactly the enabled schedules, of enabled databases, at that time and not yet run that day; or exactly the (time, member) pairs of enabled shared schedules likewise; each once |
| RegistryStore.EnqueueDue | cmd/backupdb/scheduler.go:80-96 | creates a run row and pushes a job for the database the trigger belongs to, with that database's name, driver, connection, destination and agent, and the row's id if it is known |
| RegistryStore.CheckAndEnqueue | cmd/backupdb/scheduler.go:60-96 | one tick lists and fires all due schedules, then all shared times due after that: the list gets, in that order, one job for each push that landed, each for its trigger's own database; a listing that fails fires nothing and does not stop the other |
| Scheduler.DueAgainUnlessMarked | cmd/backupdb/scheduler.go:89-95 | whatever became of its push and mark, a listed trigger is due again in the same minute exactly when nothing under its key was marked in the pass; for a schedule of its own, exactly when its own mark was not stored |
| Scheduler.FireEnqueues | cmd/backupdb/scheduler.go:80-92 | a fired trigger makes one run row under its schedule's or member's database and one job with that database's name, driver, destination, agent and connection (readable back exactly when no field holds a bar) |
| Scheduler.FireAllAdds | cmd/backupdb/scheduler.go:67-69 | a pass adds, in order, one job for each row whose push landed, each for its trigger's database |
| Scheduler.DueMeans | internal/registry/registry.go:587-592 | a trigger is due exactly when schedule and database exist and are enabled, the time is now, and the run date is not today |
| Scheduler.MarkMeans | internal/registry/registry.go:869-872 | a mark changes the run date of the trigger's own row and of no other |
| Scheduler.SecondJobUnlessMarked | internal/registry/schema.go:62 | a trigger whose job landed has two jobs for the date after the next complete look exactly when nothing under its key was marked, else one |
| Scheduler.SkippedMember | internal/registry/registry.go:838-867 | a pass in which one member's push fails and its sibling's does not, after which the first has no job and is not due again that day |
| Interleaving.StepKeepsInv | cmd/backupdb/scheduler.go:80-96 | every single statement, concurrent edit or crash keeps the scheduler's invariant |
| Interleaving.AtMostOncePlusMisses | cmd/backupdb/scheduler.go:80-96 | over any run with non-decreasing local dates, a trigger has for one date at most one job more than its pushes without a stored mark |
| Interleaving.TwoJobsForOneDate | cmd/backupdb/scheduler.go:89-95 | a run in which one schedule gets two jobs for one date |
| Interleaving.JobsAreOnTheList | cmd/backupdb/scheduler.go:87-92 | the counted jobs are exactly those appended to the list, in order, each for the database its query listed and with the row it created |
| Interleaving.EveryMarkHasAJob | cmd/backupdb/scheduler.go:89-95 | for any trigger, whenever it was created, a run date other than the one it had at the start is the date of a job pushed under its key |
| Interleaving.UninterruptedIsFire | cmd/backupdb/scheduler.go:80-96 | one item's statements with nothing in between are one fired trigger of the uninterrupted pass |
| Coverage.ExactlyOncePerDay | cmd/backupdb/scheduler.go:44-78 | with tick gaps of at most a minute and no failure, every schedule and every (shared time, member) pair gets exactly one job for a date when the minute that the digits of its time denote meets the run on that date, else none |
| Coverage.MinuteIsSeen | cmd/backupdb/scheduler.go:46-57 | some tick falls in a minute exactly when the run from first to last tick meets it |
| Interleaving.ShortTimeNeverFires | internal/registry/registry.go:587-595 | over any run, with failures, edits and crashes, a trigger whose accepted time is not five characters long has no job |
| LocalClock.AcceptedTimeCanMatch | internal/admin/server.go:455-457 | an accepted time equals some clock reading exactly when it has five characters |
| LocalClock.ShortHourNeverMatches | internal/admin/server.go:683-685 | "9:05" is accepted and equals no clock reading |
| LocalClock.FormatIsInjective | internal/registry/registry.go:584 | two minutes of the day are never written alike |
| LocalClock.FormatDigits | internal/registry/registry.go:584 | the clock's text is two digits of the hour, a colon and two digits of the minute |
| LocalClock.ReadingDenotes | internal/registry/registry.go:839 | a text is the clock's reading at a minute exactly when its digits denote that minute |
| LocalClock.AcceptsMeans | internal/admin/server.go:455-457 | the form accepts the clock's readings, those of the first ten hours also without their zero, and nothing else |
| LocalClock.WithinIsSameMinute | internal/registry/registry.go:584-585 | an instant is in a local day and minute exactly when it lies in that minute's sixty seconds |
| Migration.OpenPreserves | internal/registry/registry.go:43-92 | every legacy file opens without error (so the unique index can always be built) into a current file that has all its rows, ids, schedules, memberships and links, with integrity |
| Migration.NameScopeKeeps | internal/registry/registry.go:220-284 | the rebuild of databases, with foreign keys off, cascades nowhere |
| Migration.RebuildNeedsKeysOff | internal/registry/registry.go:229-232 | the rebuild keeps every schedule, membership and link exactly when foreign keys are off or there is none; enforced, all of them go |
| Migration.RestartConverges | internal/registry/registry.go:64-91 | opening again after a crash at any stage, whatever order the tables are then scanned in, ends where an uninterrupted open would have, and a current file is left unchanged |
| Migration.RebuildLowersTheCounter | internal/registry/registry.go:250-278 | the id counter of databases after opening, and exactly when it is lower than before |
| Migration.ReusedIds | internal/registry/registry.go:250-278 | the first id handed out after opening is one already used exactly when the file still had UNIQUE(name) and its newest rows were deleted |
| Migration.IdTwoReturns | internal/registry/registry.go:250-278 | a file in which the id of a deleted database goes to a new one |
| Migration.SharedTimesKeepDueJobs | internal/registry/registry.go:122-150 | for every minute, date and database, the due query on the migrated tables returns the database as often as the one on the old shape |
| Migration.TimesAfterOpen | internal/registry/registry.go:133-143 | one time row per old row, with its time and last run date |
| OpenFile.InsertSelect | internal/registry/registry.go:138-143 | the copying loop adds one time row per old row, each under the next id |
| OpenFile.Connection.CopyRows | internal/registry/registry.go:259-264 | copying row by row gives the same rows under the same ids, and a counter at the largest of them |
| OpenFile.Connection.DropTable | internal/registry/registry.go:265-267 | deleting row by row empties the table and, when foreign keys are enforced, takes exactly the rows that refer to it along |
| OpenFile.Connection.MigrateDatabasesNameUniqueScope | internal/registry/registry.go:220-284 | the rebuild from those loops changes nothing but the old constraint and the id counter, and fails exactly when a reference dangles |
| OpenFile.Connection.Run | internal/registry/registry.go:64-91 | the statements in order succeed exactly when the chain does, and leave its file |
| OpenFile.OpenInOrder | internal/registry/registry.go:64-91 | the chain written out agrees with its stage-by-stage definition |
| LogSearch.SearchMeansContains | internal/registry/registry.go:1196-1210 | the pattern matches exactly the names containing the search text (ASCII case folded), whatever wildcards or escapes it holds |
| LogSearch.FoldMeans | internal/registry/registry.go:1196-1199 | two characters are equal to a search exactly when they are the same, or the capital and small form of one of A to Z |
| LogSearch.UnderscoresCount | internal/registry/registry.go:1204-1206 | an unescaped underscore stands for exactly one character, and a percent sign for any number |
| LogSearch.EscapeRoundTrip | internal/registry/registry.go:1207-1210 | an escaped text has no dangling escape and unescapes to the original |
| LogSearch.FilterMeans | internal/registry/registry.go:1188-1202 | the WHERE clause selects exactly the rows with the asked state whose name contains the text |
| Pagination.NewPagination | internal/admin/pagination.go:27-56 | a page below 1 becomes 1, one above the last becomes the last, a valid one is kept, and the links are consistent |
| Pagination.CountsPages | internal/admin/pagination.go:31-34 | without overflow the page count is the least positive number of pages that holds all rows |
| Pagination.NewestFirstIsExact | internal/registry/registry.go:1215-1236 | the list is strictly newest first and holds exactly the selected rows |
| Pagination.PagesTileTheLog | internal/admin/server.go:1411-1420 | pages 1 to the last, concatenated, are the filtered log exactly for the page sizes that tile |
| Pagination.BrokenPageSizes | internal/admin/pagination.go:27-30 | with page size 0 a log of one row shows nothing, and with -1 a log of two rows shows at least four |
| Pagination.HasNextMeansMore | internal/admin/pagination.go:47-52 | a next page exists exactly when rows remain after the one shown, and no page of a non-empty log is empty |
| Query.List | internal/registry/registry.go:1215-1236 | a scan from the newest row down that skips and stops as offset and limit say gives that slice of the kept rows, newest first |
| Query.Count | internal/registry/registry.go:1242-1247 | the counting scan counts exactly the rows the list query keeps |
| Pagination.HandleLogs | internal/admin/server.go:1375-1420 | count, clamp and list use one filter: the rows shown are those of the clamped page, and a next page is offered exactly when rows remain |
| FileNames.JoinRoundTrip | cmd/backupdb/consumer.go:255-257 | name, date, time and extension can all be read back from a file name |
| FileNames.FileNameReads | cmd/backupdb/consumer.go:250-257 | from a backup's name can be read: the database's name, sql for mysql and postgres or archive for mongo, year of the century, month, day, hour and minute, in their places |
| FileNames.ExtensionMeans | internal/dump/common.go:19-28 | which drivers have which extension, and that no other has one |
| FileNames.UnjoinIsExact | cmd/backupdb/consumer.go:255-257 | what reads as a backup's name is the name those parts make |
| FileNames.SameNameMeans | cmd/backupdb/agent.go:333-335 | two names agree exactly when database name, extension, minute and date (up to its century) do |
| FileNames.LocalClashes | internal/dump/common.go:19-28 | two distinct local databases share a name in one minute exactly when they are a mysql and a postgres database of one name |
| FileNames.SameNameAt | cmd/backupdb/consumer.go:255-257 | two backups of one database share a name exactly when their times were read in the same minute of a day and their dates on days written alike, whatever lies between the readings |
| FileNames.NameIsOfItsTime | cmd/backupdb/consumer.go:255-256 | a backup has the name of one whose date was read with its time exactly when the days of its two readings are written alike |
| FileNames.MidnightClash | cmd/backupdb/consumer.go:255-256 | a date read in the last minute of a day with a time read in the next names a backup as one made at the start of that day |
| HumanSize.Scale | internal/admin/server.go:1496-1507 | for every int64 the loop leaves 1024^(exp+1) <= n < 1024^(exp+2) without overflow, with exp inside the unit table; smaller values stay bytes |
| HumanSize.ScaleIsUnique | internal/admin/server.go:1501-1505 | there is only one such scale |

## Left out

- Dump subprocesses, gzip, temporary files, Drive, S3, Telegram and OAuth: a dump with its upload is one result that either succeeds or fails.
- TLS, fingerprint pinning, tokens, sessions, HTTP routing, forms and templates: a request either arrives or not; `HandleLogs` covers the paging sequence only, with the query already trimmed and without its links' query strings.
- The SQLite engine, Redis and JSON: tables are maps with the declared constraints, the list is a sequence, encoding is the identity. LIKE is modelled without SQLite's limit on pattern length and its treatment of NUL.
- `Refinement.RemoteStepsAreProcessJob` lets nothing else write the log between the pop and the row; `PipelineTheorems` covers the interleaved runs.
- The Redis client's repeated pushes are in `Retries` only; the theorems of `PipelineTheorems` are about runs without them.
- An edit of memberships is one step in `Interleaving`; `Replacing` takes its statements apart.
- Which endpoint an agent's row names: a POST may go to any agent, and everything after it is about the agent it went to.
- Job ids: 96 random bits are taken to be fresh on their server.
- Clock rates and steps: one non-decreasing clock is shared by consumer and agents. `PolledJobIsKnown` rests on it, and `ExactlyOncePerDay` on a fixed zone offset; a date is the number of a local day.
- The calendar of `FileNames.SameNameAt`, `FileNames.NameIsOfItsTime` and `FileNames.MidnightClash` is a parameter, since the time-zone database is not part of this model.
- Agent error messages are logged as the agent reported them, without the agent's label in front; times logged as text are opaque strings.
- The fallback row of a job without a run id, notifications, and the `upload` command's own file rows: only the first is modelled.
- A shutdown of the agent is a restart step: its channel, entries and handlers are gone at once.
- Two processes running `Open` on one file at the same moment, and the introspection queries that detect old shapes (they are flags of the file).
- Log rows added between the count and the list of one page request.
- `humanSize`'s decimal formatting, the floating-point quotient and the text of the result.
- Storage targets, agents' rows, config loading and the legacy text import: plain getters and setters.
