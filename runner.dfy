/**
 * The generic runner: restores the checkpoint from the host's last heartbeat
 * payload, decides between resuming, a forced restart and a fresh start,
 * heartbeats once before setup and once after every yielded step, and
 * returns the adapter's final output.
 */
module Runner {
  import opened Wrappers
  import opened Host
  import opened Shared
  import AdapterBase
  import Sleeping
  import LangGraph

  /**
   * One heartbeat detail as handed back on a retried attempt: the checkpoint
   * object itself, or the dict the host's data converter decoded it into.
   */
  datatype Payload = CheckpointPayload(checkpoint: AgentCheckpoint) | RawPayload(fields: map<string, Json>)

  /** What the activity learns from the host: its workflow id and the last heartbeat's details. */
  datatype ActivityInfo = ActivityInfo(workflowId: string, attempt: nat, heartbeatDetails: seq<Payload>)

  const CheckpointFields: set<string> := {"thread_id", "checkpoint_id", "superstep_count", "current_node"}

  function OptionalString(j: Json): Result<Option<string>, Error> {
    match j
    case JNull => Success(None)
    case JStr(s) => Success(Some(s))
    case _ => Failure(TypeError)
  }

  function EncodeOptional(o: Option<string>): Json {
    match o
    case None => JNull
    case Some(s) => JStr(s)
  }

  /** A raw field that holds `None` or a string. */
  predicate OptionalStringField(fields: map<string, Json>, key: string) {
    key in fields ==> fields[key].JNull? || fields[key].JStr?
  }

  /**
   * A dict the dataclass accepts: only its own keys, a string `thread_id`,
   * and each present optional field of its declared type.
   */
  predicate WellTypedRaw(fields: map<string, Json>) {
    && fields.Keys <= CheckpointFields
    && "thread_id" in fields && fields["thread_id"].JStr?
    && OptionalStringField(fields, "checkpoint_id")
    && ("superstep_count" in fields ==> fields["superstep_count"].JInt?)
    && OptionalStringField(fields, "current_node")
  }

  /**
   * `AgentCheckpoint(**raw)`: `thread_id` is required, the other fields take
   * their defaults when missing, and an unknown key is refused.
   */
  function CheckpointFromRaw(fields: map<string, Json>): (r: Result<AgentCheckpoint, Error>)
    ensures r.Success? ==> fields.Keys <= CheckpointFields && "thread_id" in fields
    ensures r.Success? ==> fields["thread_id"] == JStr(r.value.threadId)
    ensures r.Success? && "checkpoint_id" !in fields ==> r.value.checkpointId == None
    ensures r.Success? && "superstep_count" !in fields ==> r.value.superstepCount == 0
    ensures r.Success? && "current_node" !in fields ==> r.value.currentNode == None
    ensures r.Success? && "checkpoint_id" in fields ==> fields["checkpoint_id"] == EncodeOptional(r.value.checkpointId)
    ensures r.Success? && "superstep_count" in fields ==> fields["superstep_count"] == JInt(r.value.superstepCount)
    ensures r.Success? && "current_node" in fields ==> fields["current_node"] == EncodeOptional(r.value.currentNode)
    ensures r.Success? <==> WellTypedRaw(fields)
    ensures r.Failure? ==> r.error == TypeError
  {
    if !(fields.Keys <= CheckpointFields) || "thread_id" !in fields || !fields["thread_id"].JStr? then
      Failure(TypeError)
    else
      var checkpointId := if "checkpoint_id" in fields then OptionalString(fields["checkpoint_id"]) else Success(None);
      var count :=
        if "superstep_count" !in fields then Success(0)
        else if fields["superstep_count"].JInt? then Success(fields["superstep_count"].i)
        else Failure(TypeError);
      var node := if "current_node" in fields then OptionalString(fields["current_node"]) else Success(None);
      if checkpointId.Failure? || count.Failure? || node.Failure? then Failure(TypeError)
      else Success(AgentCheckpoint(fields["thread_id"].s, checkpointId.value, count.value, node.value))
  }

  /** The dict the host's data converter makes of a heartbeated checkpoint. */
  function CheckpointToRaw(c: AgentCheckpoint): map<string, Json> {
    map["thread_id" := JStr(c.threadId),
        "checkpoint_id" := EncodeOptional(c.checkpointId),
        "superstep_count" := JInt(c.superstepCount),
        "current_node" := EncodeOptional(c.currentNode)]
  }

  lemma CheckpointRawRoundTrip(c: AgentCheckpoint)
    ensures CheckpointFromRaw(CheckpointToRaw(c)) == Success(c)
  {
    var m := CheckpointToRaw(c);
    assert m.Keys == CheckpointFields;
  }

  /** `_restore_checkpoint`: nothing on a fresh thread, else the first detail as a checkpoint. */
  function RestoreCheckpoint(details: seq<Payload>): (r: Result<Option<AgentCheckpoint>, Error>)
    ensures |details| == 0 <==> r == Success(None)
  {
    if |details| == 0 then Success(None)
    else match details[0]
      case CheckpointPayload(c) => Success(Some(c))
      case RawPayload(fields) =>
        match CheckpointFromRaw(fields)
        case Success(c) => Success(Some(c))
        case Failure(e) => Failure(e)
  }

  /**
   * A retried attempt recovers exactly the checkpoint of the last heartbeat,
   * whether the host hands it back as an object or as a decoded dict; any
   * further details are ignored.
   */
  lemma RestoreLastHeartbeat(c: AgentCheckpoint, rest: seq<Payload>)
    ensures RestoreCheckpoint([CheckpointPayload(c)] + rest) == Success(Some(c))
    ensures RestoreCheckpoint([RawPayload(CheckpointToRaw(c))] + rest) == Success(Some(c))
  {
    CheckpointRawRoundTrip(c);
  }

  datatype Mode = Resume | ForcedRestart | FreshStart

  /** The runner's choice: how it starts, what `setup` receives, and the working checkpoint. */
  datatype Decision = Decision(mode: Mode, setupArg: Option<AgentCheckpoint>, working: AgentCheckpoint)

  /** The resume / forced-restart / fresh-start decision. */
  function Decide(restored: Option<AgentCheckpoint>, supportsCheckpointing: bool, workflowId: string): (d: Decision)
    ensures d.mode == Resume <==> restored.Some? && supportsCheckpointing
    ensures d.mode == ForcedRestart <==> restored.Some? && !supportsCheckpointing
    ensures d.mode == Resume ==> d.setupArg == restored && d.working == restored.value
    ensures d.mode == ForcedRestart ==> d.setupArg == None
    ensures d.mode == FreshStart ==> d.setupArg == Some(d.working)
    ensures d.mode != Resume ==> d.working == FreshCheckpoint(workflowId)
    ensures d.setupArg.Some? ==> d.setupArg.value == d.working
  {
    if restored.Some? && supportsCheckpointing then Decision(Resume, restored, restored.value)
    else if restored.Some? then Decision(ForcedRestart, None, FreshCheckpoint(workflowId))
    else Decision(FreshStart, Some(FreshCheckpoint(workflowId)), FreshCheckpoint(workflowId))
  }

  /** A step's id replaces the checkpoint's only when it is present and non-empty. */
  predicate CarriesId(s: StepResult) {
    s.checkpointId.Some? && s.checkpointId.value != ""
  }

  /** The in-place update of the working checkpoint after one yielded step. */
  function ApplyStep(c: AgentCheckpoint, s: StepResult): AgentCheckpoint {
    AgentCheckpoint(c.threadId, if CarriesId(s) then s.checkpointId else c.checkpointId, s.stepNumber, Some(s.stepName))
  }

  /** The working checkpoint after the given steps, in order. */
  function Fold(c: AgentCheckpoint, steps: seq<StepResult>): AgentCheckpoint
    decreases |steps|
  {
    if |steps| == 0 then c else ApplyStep(Fold(c, steps[..|steps| - 1]), steps[|steps| - 1])
  }

  /** The per-step heartbeats: the working checkpoint after each step. */
  function Snapshots(c: AgentCheckpoint, steps: seq<StepResult>): (hs: seq<AgentCheckpoint>)
    ensures |hs| == |steps|
    decreases |steps|
  {
    if |steps| == 0 then [] else Snapshots(c, steps[..|steps| - 1]) + [Fold(c, steps)]
  }

  /**
   * After a run of steps the checkpoint keeps its thread, holds the last
   * step's number and name, and holds the id of the latest step that carried
   * one, or its original id when no step did.
   */
  lemma {:induction false} FoldFields(c: AgentCheckpoint, steps: seq<StepResult>)
    ensures Fold(c, steps).threadId == c.threadId
    ensures |steps| > 0 ==> Fold(c, steps).superstepCount == steps[|steps| - 1].stepNumber
    ensures |steps| > 0 ==> Fold(c, steps).currentNode == Some(steps[|steps| - 1].stepName)
    ensures (forall i :: 0 <= i < |steps| ==> !CarriesId(steps[i])) ==> Fold(c, steps).checkpointId == c.checkpointId
    ensures forall j :: 0 <= j < |steps| && CarriesId(steps[j]) && (forall i :: j < i < |steps| ==> !CarriesId(steps[i])) ==>
      Fold(c, steps).checkpointId == steps[j].checkpointId
    decreases |steps|
  {
    if |steps| > 0 {
      var prefix := steps[..|steps| - 1];
      FoldFields(c, prefix);
      assert forall i :: 0 <= i < |prefix| ==> prefix[i] == steps[i];
      assert Fold(c, steps) == ApplyStep(Fold(c, prefix), steps[|steps| - 1]);
      if CarriesId(steps[|steps| - 1]) {} else {}
    }
  }

  lemma {:induction false} SnapshotIsPrefixFold(c: AgentCheckpoint, steps: seq<StepResult>, k: nat)
    requires k < |steps|
    ensures Snapshots(c, steps)[k] == Fold(c, steps[..k + 1])
    decreases |steps|
  {
    if k < |steps| - 1 {
      var prefix := steps[..|steps| - 1];
      SnapshotIsPrefixFold(c, prefix, k);
      assert prefix[..k + 1] == steps[..k + 1];
    } else {
      assert steps[..k + 1] == steps;
    }
  }

  /**
   * The k-th per-step heartbeat carries step k's number and name and the
   * thread of the working checkpoint.
   */
  lemma HeartbeatAt(c: AgentCheckpoint, steps: seq<StepResult>, k: nat)
    requires k < |steps|
    ensures Snapshots(c, steps)[k].superstepCount == steps[k].stepNumber
    ensures Snapshots(c, steps)[k].currentNode == Some(steps[k].stepName)
    ensures Snapshots(c, steps)[k].threadId == c.threadId
  {
    SnapshotIsPrefixFold(c, steps, k);
    FoldFields(c, steps[..k + 1]);
  }

  /**
   * `run_adapter` for one attempt. When the checkpoint cannot be restored the
   * attempt fails before any heartbeat. Otherwise the first heartbeat carries the
   * working checkpoint, `setup` receives the decided argument and one heartbeat
   * follows each yielded step. The result is the adapter's final output, or,
   * when the stream raises, its exception, propagated after the heartbeats of
   * every step completed before it.
   */
  method RunAdapter(agent: AdapterBase.Agent, input: AdapterBase.TaskInput, info: ActivityInfo)
    returns (result: Result<AdapterBase.TaskOutput, Error>, heartbeats: seq<AgentCheckpoint>)
    requires agent.Valid() && agent.Phase() == Created && agent.Accepts(input)
    modifies agent.Repr()
    ensures RestoreCheckpoint(info.heartbeatDetails).Failure? ==>
      && result == Failure(RestoreCheckpoint(info.heartbeatDetails).error)
      && heartbeats == []
      && unchanged(agent.Repr())
    ensures RestoreCheckpoint(info.heartbeatDetails).Success? ==>
      var d := Decide(RestoreCheckpoint(info.heartbeatDetails).value, agent.SupportsCheckpointing(), info.workflowId);
      && agent.Valid() && agent.Phase() == (if agent.Raises().None? then Exhausted else Raised)
      && agent.SetupWith() == d.setupArg && agent.RunInput() == input
      && (agent.GraphAgent? ==>
            agent.g.threadId == info.workflowId && agent.g.setupState == old(agent.g.store.State(info.workflowId)))
      && heartbeats == [d.working] + Snapshots(d.working, agent.Yielded())
      && result == (if agent.Raises().Some? then Failure(agent.Raises().value) else Success(agent.FinalOutput()))
  {
    var restored := RestoreCheckpoint(info.heartbeatDetails);
    if restored.Failure? {
      return Failure(restored.error), [];
    }
    var d := Decide(restored.value, agent.SupportsCheckpointing(), info.workflowId);
    heartbeats := [d.working];
    agent.Setup(info.workflowId, d.setupArg);
    agent.Start(input);
    var stepHeartbeats, raised := DriveSteps(agent, d.working);
    heartbeats := heartbeats + stepHeartbeats;
    if raised.Some? {
      return Failure(raised.value), heartbeats;
    }
    var output := agent.GetFinalOutput();
    result := Success(output);
  }

  /**
   * The `async for` over the adapter's stream: fold each step into the working
   * checkpoint and heartbeat it at once, until the stream ends or raises.
   */
  method DriveSteps(agent: AdapterBase.Agent, working: AgentCheckpoint)
    returns (heartbeats: seq<AgentCheckpoint>, raised: Option<Error>)
    requires agent.Valid() && agent.Phase() == Running && agent.Yielded() == []
    modifies agent.Repr()
    ensures agent.Valid() && agent.Raises() == old(agent.Raises()) && raised == agent.Raises()
    ensures agent.Phase() == (if raised.None? then Exhausted else Raised)
    ensures agent.SetupWith() == old(agent.SetupWith()) && agent.RunInput() == old(agent.RunInput())
    ensures agent.GraphAgent? ==> agent.g.threadId == old(agent.g.threadId) && agent.g.setupState == old(agent.g.setupState)
    ensures heartbeats == Snapshots(working, agent.Yielded())
  {
    var current := working;
    heartbeats := [];
    ghost var done: seq<StepResult> := [];
    var step := agent.Next();
    while step.Yield?
      invariant agent.Valid() && agent.SetupWith() == old(agent.SetupWith()) && agent.RunInput() == old(agent.RunInput())
      invariant agent.Raises() == old(agent.Raises())
      invariant agent.GraphAgent? ==> agent.g.threadId == old(agent.g.threadId) && agent.g.setupState == old(agent.g.setupState)
      invariant step.Yield? ==> agent.Phase() == Running && agent.Yielded() == done + [step.step]
      invariant step.End? ==> agent.Phase() == Exhausted && agent.Raises().None? && agent.Yielded() == done
      invariant step.Raise? ==> agent.Phase() == Raised && agent.Raises() == Some(step.error) && agent.Yielded() == done
      invariant current == Fold(working, done)
      invariant heartbeats == Snapshots(working, done)
      decreases agent.Remaining()
    {
      current := ApplyStep(current, step.step);
      heartbeats := heartbeats + [current];
      assert (done + [step.step])[..|done|] == done;
      done := done + [step.step];
      step := agent.Next();
    }
    raised := if step.Raise? then Some(step.error) else None;
  }

  /** Every per-step heartbeat of a sleeping run: step k, `"sleep_k"`, no checkpoint id. */
  lemma SleepingHeartbeats(workflowId: string, n: nat, k: nat)
    requires k < n
    ensures Snapshots(FreshCheckpoint(workflowId), Sleeping.SleepSteps(n))[k]
      == AgentCheckpoint(workflowId, None, k + 1, Some(Sleeping.SleepStepName(k + 1)))
  {
    var steps := Sleeping.SleepSteps(n);
    SnapshotIsPrefixFold(FreshCheckpoint(workflowId), steps, k);
    FoldFields(FreshCheckpoint(workflowId), steps[..k + 1]);
  }

  /** A finished sleeping adapter yielded every step of its input and reports them. */
  lemma SleepingFinished(adapter: Sleeping.SleepingAdapter, input: SleepingInput)
    requires adapter.Valid() && adapter.phase == Exhausted && adapter.runInput == input
    ensures var n := Sleeping.StepCount(input.numSteps);
      && adapter.yielded == Sleeping.SleepSteps(n)
      && AdapterBase.SleepingAgent(adapter).FinalOutput()
         == AdapterBase.SleepOut(SleepingOutput(n, n as real * input.sleepSeconds))
  {
  }

  /**
   * `run_sleeping_agent`: whatever checkpoint the host hands back, the run
   * starts over from a fresh checkpoint and re-executes every step from 1.
   */
  method RunSleepingAgent(input: SleepingInput, info: ActivityInfo)
    returns (result: Result<AdapterBase.TaskOutput, Error>, heartbeats: seq<AgentCheckpoint>)
    ensures RestoreCheckpoint(info.heartbeatDetails).Failure? ==> result.Failure? && heartbeats == []
    ensures RestoreCheckpoint(info.heartbeatDetails).Success? ==>
      var n := Sleeping.StepCount(input.numSteps);
      && result == Success(AdapterBase.SleepOut(SleepingOutput(n, n as real * input.sleepSeconds)))
      && |heartbeats| == n + 1
      && heartbeats[0] == FreshCheckpoint(info.workflowId)
      && forall k :: 1 <= k <= n ==>
           heartbeats[k] == AgentCheckpoint(info.workflowId, None, k, Some(Sleeping.SleepStepName(k)))
  {
    var adapter := new Sleeping.SleepingAdapter();
    var agent := AdapterBase.SleepingAgent(adapter);
    result, heartbeats := RunAdapter(agent, AdapterBase.SleepIn(input), info);
    if RestoreCheckpoint(info.heartbeatDetails).Success? {
      var n := Sleeping.StepCount(input.numSteps);
      SleepingFinished(adapter, input);
      forall k | 1 <= k <= n
        ensures heartbeats[k] == AgentCheckpoint(info.workflowId, None, k, Some(Sleeping.SleepStepName(k)))
      {
        SleepingHeartbeats(info.workflowId, n, k - 1);
      }
    }
  }

  /**
   * `run_langgraph_agent`: the run continues the restored count (0 on a fresh
   * thread), streams what the engine makes of the thread's stored state, and
   * heartbeats the restored (or fresh) checkpoint and then every superstep.
   * A stream that raises fails the attempt with that exception, after the
   * heartbeats of the supersteps it completed, so a retry resumes from them.
   */
  method RunLangGraphAgent(input: AgentInput, info: ActivityInfo, store: LangGraph.GraphStore)
    returns (result: Result<AdapterBase.TaskOutput, Error>, heartbeats: seq<AgentCheckpoint>)
    modifies store
    ensures RestoreCheckpoint(info.heartbeatDetails).Failure? ==>
      result.Failure? && heartbeats == [] && store.threads == old(store.threads)
    ensures RestoreCheckpoint(info.heartbeatDetails).Success? ==>
      GraphRunReported(RestoreCheckpoint(info.heartbeatDetails).value, input, info.workflowId,
                       old(store.State(info.workflowId)), store, result, heartbeats)
  {
    var adapter := new LangGraph.LangGraphAdapter(store);
    var agent := AdapterBase.GraphAgent(adapter);
    result, heartbeats := RunAdapter(agent, AdapterBase.AgentIn(input), info);
    if RestoreCheckpoint(info.heartbeatDetails).Success? {
      GraphRunEnded(agent, RestoreCheckpoint(info.heartbeatDetails).value, input, info.workflowId,
                    old(store.State(info.workflowId)), result, heartbeats);
    }
  }

  /**
   * A LangGraph run from the checkpoint `restored` and the thread state
   * `initial`: the heartbeats, the thread's state after the stream, and the result.
   */
  ghost predicate GraphRunReported(restored: Option<AgentCheckpoint>, input: AgentInput, workflowId: string,
                                   initial: LangGraph.Snapshot, store: LangGraph.GraphStore,
                                   result: Result<AdapterBase.TaskOutput, Error>, heartbeats: seq<AgentCheckpoint>)
    reads store
  {
    var working := if restored.Some? then restored.value else FreshCheckpoint(workflowId);
    var run := store.engine(initial, LangGraph.StreamInput(|initial.next| > 0, input.query));
    var stream := run.updates;
    && heartbeats == [working] + Snapshots(working, LangGraph.GraphSteps(working.superstepCount, stream))
    && store.State(workflowId) == (if |stream| == 0 then initial else stream[|stream| - 1].after)
    && (run.raises.Some? ==> result == Failure(run.raises.value))
    && (run.raises.None? ==> result == Success(AdapterBase.AgentOut(NewAgentOutput(
         LangGraph.FinalReport(store.State(workflowId).values), workflowId,
         working.superstepCount + |stream|))))
  }

  /** What `RunAdapter` reports for a LangGraph agent, in the engine's terms. */
  lemma GraphRunEnded(agent: AdapterBase.Agent, restored: Option<AgentCheckpoint>, input: AgentInput, workflowId: string,
                      initial: LangGraph.Snapshot, result: Result<AdapterBase.TaskOutput, Error>, heartbeats: seq<AgentCheckpoint>)
    requires agent.GraphAgent?
    requires var d := Decide(restored, agent.SupportsCheckpointing(), workflowId);
      && agent.Valid() && agent.Phase() == (if agent.Raises().None? then Exhausted else Raised)
      && agent.SetupWith() == d.setupArg && agent.RunInput() == AdapterBase.AgentIn(input)
      && (agent.GraphAgent? ==> agent.g.threadId == workflowId && agent.g.setupState == initial)
      && heartbeats == [d.working] + Snapshots(d.working, agent.Yielded())
      && result == (if agent.Raises().Some? then Failure(agent.Raises().value) else Success(agent.FinalOutput()))
    ensures GraphRunReported(restored, input, workflowId, initial, agent.g.store, result, heartbeats)
  {
    var a := agent.g;
    var d := Decide(restored, true, workflowId);
    assert a.base == d.working.superstepCount;
    assert a.stream[..|a.yielded|] == a.stream;
  }

  /**
   * The superstep counts a LangGraph run heartbeats strictly increase from the
   * working checkpoint's count, so the count the host holds never goes back.
   */
  lemma GraphHeartbeatsIncrease(working: AgentCheckpoint, stream: seq<LangGraph.Update>)
    ensures var hs := [working] + Snapshots(working, LangGraph.GraphSteps(working.superstepCount, stream));
      && |hs| == |stream| + 1
      && (forall k :: 0 <= k < |hs| ==> hs[k].superstepCount == working.superstepCount + k)
      && (forall i, j :: 0 <= i < j < |hs| ==> hs[i].superstepCount < hs[j].superstepCount)
  {
    var steps := LangGraph.GraphSteps(working.superstepCount, stream);
    var snaps := Snapshots(working, steps);
    var hs := [working] + snaps;
    forall k | 0 <= k < |hs|
      ensures hs[k].superstepCount == working.superstepCount + k
    {
      if k > 0 {
        HeartbeatAt(working, steps, k - 1);
        assert hs[k] == snaps[k - 1];
      }
    }
  }

}
