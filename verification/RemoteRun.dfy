/** One remote backup from its run row to its file row, step by step: what is asked of the agent and
    what ends up in the log. */
module RemoteRun {
  import opened Wrappers
  import opened Protocol
  import opened Jobs
  import opened RunLog
  import opened Consumer
  import opened Pipeline
  import AgentStore

  const JOB := Job("backup", "shop", "mysql", "db|3306|u|p|", 1, 7, 0)
  const QUEUED := JOB.(runId := 1)
  const STORAGE := StorageConfig("s3", "bucket", "")
  const REQUEST := RunRequest("shop", "mysql", "db|3306|u|p|", STORAGE, "UTC")
  const DONE := RunStatus("done", true, "", "shop.sql.gz", "ref", 10, "02:00:00", 42)
  const ID: JobId := "4f"

  // The server's store holds nothing yet.
  predicate Idle(w: World) { 3 in w.agents && w.agents[3] == AgentStore.Fresh(0) && w.now == 0 }

  lemma Enqueued() returns (w1: World, w2: World, w3: World)
    ensures Follows(Initial(0), AddAgent(3), w1) && Follows(w1, CreateRun(0, 5, JOB, Stored), w2)
    ensures Follows(w2, Push(0, Stored), w3)
    ensures Idle(w3) && w3.queue == [QUEUED] && w3.acts == [] && !w3.cancelled && w3.loop.Waiting? && w3.wg == 0
    ensures w3.log == STARTED
  {
    w1 := Joined(Initial(0), 3);
    w2 := Produce(w1, 0, 5, JOB, Stored);
    w3 := Pushing(w2, 0, Stored);
  }

  lemma Dispatched(w: World) returns (w1: World, w2: World, w3: World)
    requires Idle(w) && w.queue == [QUEUED] && w.acts == [] && !w.cancelled && w.loop.Waiting? && w.wg == 0
    ensures Follows(w, Begin, w1) && Follows(w1, Pop(true), w2) && Follows(w2, Post(0, 3, STORAGE, "UTC"), w3)
    ensures Idle(w3) && w3.log == w.log && w3.acts == [POSTED] && !w3.cancelled
  {
    w1 := Signalled(w, Blocked, false);
    w2 := Popping(w1, true);
    w3 := With(w2, 0, PostingTo(w2, w2.acts[0], 3, STORAGE, "UTC"));
  }

  // What the agent's store goes through.
  function Registered(): AgentStore.Store { AgentStore.Apply(AgentStore.Fresh(0), AgentStore.Register(ID, REQUEST, 0)) }

  function Sent(): AgentStore.Store
    requires AgentStore.Enabled(Registered(), AgentStore.Send(ID))
  {
    AgentStore.Apply(Registered(), AgentStore.Send(ID))
  }

  lemma StoreRuns() returns (s3: AgentStore.Store, s4: AgentStore.Store)
    ensures AgentStore.Enabled(AgentStore.Fresh(0), AgentStore.Register(ID, REQUEST, 0))
    ensures AgentStore.Enabled(Registered(), AgentStore.Send(ID))
    ensures AgentStore.Follows(Sent(), AgentStore.Take, s3)
    ensures AgentStore.Follows(s3, AgentStore.Complete(DONE, 0), s4)
    ensures s4.starts == [AgentStore.QueuedJob(ID, REQUEST)] && ID in s4.sent
    ensures ID in s4.jobs && s4.jobs[ID] == AgentStore.Entry(true, 0, DONE)
  {
    var s1 := Registered();
    assert ID in s1.jobs && s1.registering == map[ID := REQUEST] && s1.queue == [] && s1.starts == [];
    var s2 := Sent();
    assert s2.queue == [AgentStore.QueuedJob(ID, REQUEST)] && s2.running.None? && ID in s2.jobs && ID in s2.sent;
    s3 := AgentStore.Apply(s2, AgentStore.Take);
    assert s3.running == Some(AgentStore.QueuedJob(ID, REQUEST));
    s4 := AgentStore.Apply(s3, AgentStore.Complete(DONE, 0));
  }

  const POSTED := NewAct(QUEUED, Taken).(phase := Posting, server := Some(3), request := REQUEST)

  // The agent goes on by one step of its own.
  lemma AgentGoesOn(w: World, step: AgentStore.Step, s: AgentStore.Store) returns (v: World)
    requires 3 in w.agents && AgentStore.Follows(w.agents[3], step, s) && StepTime(step, w.now) == w.now
    ensures Follows(w, AgentStep(3, step), v)
    ensures v == w.(agents := w.agents[3 := s])
  {
    v := AgentAfter(w, 3, step);
  }

  lemma Delivered(w: World) returns (v: World)
    requires Idle(w) && w.acts == [POSTED]
    ensures AgentStore.Enabled(AgentStore.Fresh(0), AgentStore.Register(ID, REQUEST, 0))
    ensures Follows(w, Deliver(0, ID), v)
    ensures v == w.(agents := w.agents[3 := Registered()], acts := [POSTED.(ticket := Some(ID))])
  {
    v := Delivering(w, 0, ID);
  }

  lemma Polled(w: World) returns (w1: World, w2: World)
    requires w.acts == [POSTED.(ticket := Some(ID))] && w.now == 0
    requires 3 in w.agents && ID in w.agents[3].sent
    requires ID in w.agents[3].jobs && w.agents[3].jobs[ID] == AgentStore.Entry(true, 0, DONE)
    ensures Follows(w, PostAccepted(0), w1) && Follows(w1, Poll(0), w2)
    ensures |w2.acts| == 1 && w2 == w.(acts := [w2.acts[0]])
    ensures w2.acts[0].phase.Polling? && w2.acts[0].reply == Some(DONE) && w2.acts[0].job == QUEUED
  {
    w1 := With(w, 0, Accepted(w, w.acts[0]));
    w2 := Asking(w1, 0);
  }

  lemma Heard(w: World) returns (v: World)
    requires |w.acts| == 1 && w.acts[0].phase.Polling? && w.acts[0].reply == Some(DONE) && w.acts[0].job == QUEUED
    ensures Follows(w, PollAnswered(0, 9), v)
    ensures |v.acts| == 1 && v == w.(acts := [v.acts[0]])
    ensures v.acts[0].phase.Returned? && v.acts[0].job == QUEUED && v.acts[0].attempt == ATTEMPT
  {
    v := Answered(w, 0, 9);
  }

  const ATTEMPT := Attempt(Some(UploadResult("shop.sql.gz", "ref", 10, 1, "02:00:00", 42)), None)

  lemma Recorded(w: World) returns (w1: World, w2: World)
    requires |w.acts| == 1 && w.acts[0].phase.Returned? && w.acts[0].job == QUEUED && !w.cancelled
    requires w.acts[0].attempt == ATTEMPT && w.log == STARTED
    ensures Follows(w, Record(0, 5, true), w1) && Follows(w1, RecordFile(0, 5, true), w2)
    ensures w2.agents == w.agents && w2.log == FINISHED
  {
    w1 := Recording(w, 0, 5, true);
    w2 := Filing(w1, 0, 5, true);
  }

  const STARTED := Log(map[1 := RunRow(5, "shop", "mysql", Running, "", 0, "")], 1, map[], 0)
  const FINISHED := Log(map[1 := RunRow(5, "shop", "mysql", Success, "", 42, "02:00:00")], 1,
                        map[1 := FileRow(5, "shop", 1, "shop.sql.gz", "ref", 10)], 1)

  // ---------- The run ----------

  lemma Extended(states: seq<World>, steps: seq<Step>, step: Step, v: World)
    requires Runs(states, steps, 0) && Follows(states[|steps|], step, v)
    ensures Runs(states + [v], steps + [step], 0)
  {
    var all, done := states + [v], steps + [step];
    forall i | 0 <= i < |done| ensures Follows(all[i], done[i], all[i + 1]) {
      if i < |steps| {
        assert all[i] == states[i] && all[i + 1] == states[i + 1] && done[i] == steps[i];
      }
    }
  }

  lemma Start() returns (states: seq<World>, steps: seq<Step>)
    ensures Runs(states, steps, 0) && |steps| == 3
    ensures var w := states[3];
            && Idle(w) && w.queue == [QUEUED] && w.acts == [] && !w.cancelled && w.loop.Waiting? && w.wg == 0
            && w.log == STARTED
  {
    var w1, w2, w3 := Enqueued();
    states, steps := [Initial(0), w1, w2, w3], [AddAgent(3), CreateRun(0, 5, JOB, Stored), Push(0, Stored)];
  }

  lemma Dispatch(states: seq<World>, steps: seq<Step>) returns (states': seq<World>, steps': seq<Step>)
    requires Runs(states, steps, 0)
    requires var w := states[|steps|];
             && Idle(w) && w.queue == [QUEUED] && w.acts == [] && !w.cancelled && w.loop.Waiting? && w.wg == 0
             && w.log == STARTED
    ensures Runs(states', steps', 0) && |steps'| == |steps| + 4
    ensures AgentStore.Enabled(AgentStore.Fresh(0), AgentStore.Register(ID, REQUEST, 0))
    ensures var w := states'[|steps'|];
            && 3 in w.agents && w.agents[3] == Registered() && w.now == 0
            && w.acts == [POSTED.(ticket := Some(ID))] && !w.cancelled && w.log == STARTED
  {
    var w1, w2, w3 := Dispatched(states[|steps|]);
    var w4 := Delivered(w3);
    Extended(states, steps, Begin, w1);
    Extended(states + [w1], steps + [Begin], Pop(true), w2);
    states', steps' := states + [w1] + [w2], steps + [Begin] + [Pop(true)];
    Extended(states', steps', Post(0, 3, STORAGE, "UTC"), w3);
    states', steps' := states' + [w3], steps' + [Post(0, 3, STORAGE, "UTC")];
    Extended(states', steps', Deliver(0, ID), w4);
    states', steps' := states' + [w4], steps' + [Deliver(0, ID)];
  }

  lemma TwoMore(states: seq<World>, steps: seq<Step>, a: Step, v: World, b: Step, u: World)
    returns (states': seq<World>, steps': seq<Step>)
    requires Runs(states, steps, 0) && Follows(states[|steps|], a, v) && Follows(v, b, u)
    ensures Runs(states', steps', 0) && |steps'| == |steps| + 2 && states'[|steps'|] == u
  {
    Extended(states, steps, a, v);
    Extended(states + [v], steps + [a], b, u);
    states', steps' := states + [v] + [u], steps + [a] + [b];
  }

  // The agent takes one step of its own in the run.
  lemma AgentSteps(states: seq<World>, steps: seq<Step>, step: AgentStore.Step, s: AgentStore.Store)
    returns (states': seq<World>, steps': seq<Step>)
    requires Runs(states, steps, 0)
    requires var w := states[|steps|];
             3 in w.agents && AgentStore.Follows(w.agents[3], step, s) && StepTime(step, w.now) == w.now
    ensures Runs(states', steps', 0) && |steps'| == |steps| + 1
    ensures var w := states[|steps|]; states'[|steps'|] == w.(agents := w.agents[3 := s])
  {
    var v := AgentGoesOn(states[|steps|], step, s);
    Extended(states, steps, AgentStep(3, step), v);
    states', steps' := states + [v], steps + [AgentStep(3, step)];
  }

  lemma Execute(states: seq<World>, steps: seq<Step>) returns (states': seq<World>, steps': seq<Step>)
    requires Runs(states, steps, 0)
    requires AgentStore.Enabled(AgentStore.Fresh(0), AgentStore.Register(ID, REQUEST, 0))
    requires var w := states[|steps|]; 3 in w.agents && w.agents[3] == Registered() && w.now == 0
    ensures Runs(states', steps', 0) && |steps'| == |steps| + 3
    ensures var v, w := states[|steps|], states'[|steps'|];
            && 3 in w.agents && w == v.(agents := w.agents)
            && w.agents[3].starts == [AgentStore.QueuedJob(ID, REQUEST)] && ID in w.agents[3].sent
            && ID in w.agents[3].jobs && w.agents[3].jobs[ID] == AgentStore.Entry(true, 0, DONE)
  {
    var s3, s4 := StoreRuns();
    states', steps' := AgentSteps(states, steps, AgentStore.Send(ID), Sent());
    states', steps' := AgentSteps(states', steps', AgentStore.Take, s3);
    states', steps' := AgentSteps(states', steps', AgentStore.Complete(DONE, 0), s4);
  }

  lemma Ask(states: seq<World>, steps: seq<Step>) returns (states': seq<World>, steps': seq<Step>)
    requires Runs(states, steps, 0)
    requires var w := states[|steps|];
             && w.acts == [POSTED.(ticket := Some(ID))] && w.now == 0 && !w.cancelled && w.log == STARTED
             && 3 in w.agents && ID in w.agents[3].sent
             && ID in w.agents[3].jobs && w.agents[3].jobs[ID] == AgentStore.Entry(true, 0, DONE)
    ensures Runs(states', steps', 0) && |steps'| == |steps| + 3
    ensures var w := states'[|steps'|];
            && |w.acts| == 1 && w.acts[0].phase.Returned? && w.acts[0].job == QUEUED && !w.cancelled
            && w.acts[0].attempt == ATTEMPT && w.log == STARTED && w.agents == states[|steps|].agents
  {
    var w1, w2 := Polled(states[|steps|]);
    states', steps' := TwoMore(states, steps, PostAccepted(0), w1, Poll(0), w2);
    var w3 := Heard(w2);
    Extended(states', steps', PollAnswered(0, 9), w3);
    states', steps' := states' + [w3], steps' + [PollAnswered(0, 9)];
  }

  lemma Finish(states: seq<World>, steps: seq<Step>) returns (states': seq<World>, steps': seq<Step>)
    requires Runs(states, steps, 0)
    requires var w := states[|steps|];
             && |w.acts| == 1 && w.acts[0].phase.Returned? && w.acts[0].job == QUEUED && !w.cancelled
             && w.acts[0].attempt == ATTEMPT && w.log == STARTED
    ensures Runs(states', steps', 0) && |steps'| == |steps| + 2
    ensures states'[|steps'|].agents == states[|steps|].agents && states'[|steps'|].log == FINISHED
  {
    var w1, w2 := Recorded(states[|steps|]);
    states', steps' := TwoMore(states, steps, Record(0, 5, true), w1, RecordFile(0, 5, true), w2);
  }

  // The whole backup: the agent is asked for the job's database and runs it once, and the log says
  // what the agent reported.
  lemma RemoteBackup() returns (states: seq<World>, steps: seq<Step>)
    ensures Runs(states, steps, 0) && |states| == 16 && 3 in states[15].agents
    ensures states[15].agents[3].starts
         == [AgentStore.QueuedJob(ID, RunRequest("shop", "mysql", "db|3306|u|p|", STORAGE, "UTC"))]
    ensures states[15].log.runs == map[1 := RunRow(5, "shop", "mysql", Success, "", 42, "02:00:00")]
    ensures states[15].log.files == map[1 := FileRow(5, "shop", 1, "shop.sql.gz", "ref", 10)]
  {
    states, steps := Start();
    states, steps := Dispatch(states, steps);
    states, steps := Execute(states, steps);
    states, steps := Ask(states, steps);
    states, steps := Finish(states, steps);
  }
}
