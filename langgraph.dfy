/**
 * The LangGraph adapter: an agent with checkpoint support. The graph engine
 * and its checkpoint store are an oracle: a `GraphStore` holds the state the
 * engine has persisted for each thread, and its `engine` function says which
 * updates a stream produces from a stored state and a stream input.
 */
module LangGraph {
  import opened Wrappers
  import opened Shared
  import Host

  /**
   * What `aget_state` reports for a thread: the nodes still to run, the id of
   * the latest persisted checkpoint, and the state's string channels.
   */
  datatype Snapshot = Snapshot(next: seq<string>, checkpointId: Option<string>, values: map<string, string>)

  /** The state of a thread the store has never seen. */
  const EmptySnapshot := Snapshot([], None, map[])

  /** One streamed update: a dict keyed by node name (keys in order), or anything else. */
  datatype Event = NodeUpdates(nodes: seq<string>) | OtherEvent

  /** An update, and the state the engine persisted once it was produced. */
  datatype Update = Update(event: Event, after: Snapshot)

  /**
   * What one `astream` call delivers: its updates in order and, when a node
   * fails (a provider error from an LLM call, say), the exception the stream
   * raises after the last of them.
   */
  datatype StreamRun = StreamRun(updates: seq<Update>, raises: Option<Host.Error>)

  /** The input dict of a fresh graph run. */
  datatype GraphState = GraphState(query: string, messages: seq<string>, searchResults: string,
                                   analysis: string, finalReport: string)

  /** The stream input: `None` continues the thread's pending work, otherwise a fresh state. */
  function StreamInput(resuming: bool, query: string): Option<GraphState> {
    if resuming then None else Some(GraphState(query, [], "", "", ""))
  }

  /** The node an update came from: its first key, else `"unknown"`. */
  function NodeName(e: Event): (name: string)
    ensures e.NodeUpdates? && |e.nodes| > 0 ==> name == e.nodes[0]
    ensures e.OtherEvent? || e.nodes == [] ==> name == "unknown"
  {
    if e.NodeUpdates? && |e.nodes| > 0 then e.nodes[0] else "unknown"
  }

  /** The final report: the `final_report` channel when the state has values, else `""`. */
  function FinalReport(values: map<string, string>): (report: string)
    ensures "final_report" in values ==> report == values["final_report"]
    ensures "final_report" !in values ==> report == ""
  {
    if |values| > 0 then (if "final_report" in values then values["final_report"] else "") else ""
  }

  /** The step the adapter yields for the k-th update of a stream that started at count `base`. */
  function GraphStep(base: int, k: nat, u: Update): StepResult {
    StepResult(base + k + 1, NodeName(u.event), u.after.checkpointId)
  }

  /** The steps yielded for a whole stream of updates. */
  function GraphSteps(base: int, updates: seq<Update>): (steps: seq<StepResult>)
    ensures |steps| == |updates|
  {
    seq(|updates|, k requires 0 <= k < |updates| => GraphStep(base, k, updates[k]))
  }

  /**
   * Step numbers continue from the count restored at setup and strictly
   * increase; every step carries the checkpoint id the engine persisted for it.
   */
  lemma {:induction false} GraphStepsContinue(base: int, updates: seq<Update>, i: nat, j: nat)
    requires i < j < |updates|
    ensures GraphSteps(base, updates)[i].stepNumber < GraphSteps(base, updates)[j].stepNumber
    ensures GraphSteps(base, updates)[0].stepNumber == base + 1
    ensures GraphSteps(base, updates)[j].checkpointId == updates[j].after.checkpointId
  {
  }

  /** One more update adds its step at the end. */
  lemma GraphStepsSnoc(base: int, updates: seq<Update>, u: Update)
    ensures GraphSteps(base, updates + [u]) == GraphSteps(base, updates) + [GraphStep(base, |updates|, u)]
  {
    var xs := updates + [u];
    assert forall k :: 0 <= k < |updates| ==> xs[k] == updates[k];
  }

  class GraphStore {
    var threads: map<string, Snapshot>
    /** The engine: what a stream delivers from a stored state and an input. */
    const engine: (Snapshot, Option<GraphState>) -> StreamRun

    constructor (threads: map<string, Snapshot>, engine: (Snapshot, Option<GraphState>) -> StreamRun)
      ensures this.threads == threads && this.engine == engine
    {
      this.threads := threads;
      this.engine := engine;
    }

    /** `aget_state` for a thread. */
    function State(threadId: string): Snapshot
      reads this
    {
      if threadId in threads then threads[threadId] else EmptySnapshot
    }

    /** The engine persisting a thread's new state after a superstep. */
    method Persist(threadId: string, s: Snapshot)
      modifies this
      ensures threads == old(threads)[threadId := s]
      ensures State(threadId) == s
    {
      threads := threads[threadId := s];
    }
  }

  class LangGraphAdapter {
    const store: GraphStore
    var threadId: string
    var superstepCount: int
    var resuming: bool
    /** The updates the open stream still has to deliver. */
    var pending: seq<Update>
    /** The exception the open stream raises once its updates are delivered. */
    var failure: Option<Host.Error>
    ghost var phase: Phase
    ghost var yielded: seq<StepResult>
    ghost var setupWith: Option<AgentCheckpoint>
    /** The thread's stored state when `setup` queried it. */
    ghost var setupState: Snapshot
    ghost var streamInput: Option<GraphState>
    /** The input `run` was called with. */
    ghost var runInput: AgentInput
    /** Every update the stream delivers in this attempt. */
    ghost var stream: seq<Update>
    /** The counter when the stream was opened. */
    ghost var base: int

    ghost predicate Valid()
      reads this, store
    {
      && (phase == Created ==> superstepCount == 0 && yielded == [])
      && (phase == Ready ==> yielded == [] && store.State(threadId) == setupState)
      && (phase != Created ==>
            && resuming == (|setupState.next| > 0)
            && base == (if setupWith.Some? then setupWith.value.superstepCount else 0))
      && (phase == Ready ==> superstepCount == base)
      && (phase == Running || phase == Exhausted || phase == Raised ==>
            && streamInput == StreamInput(resuming, runInput.query)
            && store.engine(setupState, streamInput) == StreamRun(stream, failure)
            && |yielded| <= |stream|
            && pending == stream[|yielded|..]
            && superstepCount == base + |yielded|
            && yielded == GraphSteps(base, stream[..|yielded|])
            && store.State(threadId) == (if |yielded| == 0 then setupState else stream[|yielded| - 1].after))
      && (phase == Exhausted ==> |yielded| == |stream| && failure.None?)
      && (phase == Raised ==> |yielded| == |stream| && failure.Some?)
    }

    ghost function Remaining(): nat
      reads this
    {
      if phase == Running then |pending| + 1 else 0
    }

    constructor (store: GraphStore)
      ensures Valid() && phase == Created && this.store == store
      ensures threadId == "" && superstepCount == 0 && !resuming
    {
      this.store := store;
      threadId, superstepCount, resuming, pending, failure := "", 0, false, [], None;
      phase, yielded, setupWith := Created, [], None;
      setupState, streamInput, stream, base := EmptySnapshot, None, [], 0;
      runInput := NewAgentInput("");
    }

    /** The graph agent resumes from its checkpointer's thread state. */
    function SupportsCheckpointing(): (r: bool)
      ensures r == true
    {
      true
    }

    /**
     * Adopts the thread, restores the counter from the checkpoint when one is
     * given, and decides to resume exactly when the stored state has pending nodes.
     */
    method Setup(threadId: string, checkpoint: Option<AgentCheckpoint>)
      requires Valid() && phase == Created
      modifies this
      ensures Valid() && phase == Ready && setupWith == checkpoint
      ensures this.threadId == threadId
      ensures superstepCount == if checkpoint.Some? then checkpoint.value.superstepCount else old(superstepCount)
      ensures setupState == store.State(threadId)
      ensures resuming <==> |store.State(threadId).next| > 0
    {
      this.threadId := threadId;
      if checkpoint.Some? {
        superstepCount := checkpoint.value.superstepCount;
      }
      var state := store.State(threadId);
      resuming := |state.next| > 0;
      phase, setupWith, setupState, base := Ready, checkpoint, state, superstepCount;
    }

    /** Opens `astream` with `None` when resuming, else with a fresh state for the query. */
    method Start(input: AgentInput)
      requires Valid() && phase == Ready
      modifies this
      ensures Valid() && phase == Running
      ensures unchanged(this`threadId, this`superstepCount, this`resuming, this`setupWith, this`setupState)
      ensures streamInput == StreamInput(resuming, input.query) && runInput == input
      ensures store.engine(setupState, streamInput) == StreamRun(stream, failure) && base == superstepCount
      ensures yielded == []
    {
      var streamIn := StreamInput(resuming, input.query);
      var run := store.engine(store.State(threadId), streamIn);
      pending, failure := run.updates, run.raises;
      phase, streamInput, stream, runInput := Running, streamIn, pending, input;
    }

    /**
     * Takes the next update: counts one superstep, names the node, and
     * reports the checkpoint id the engine has just persisted. After the last
     * update the stream ends, or raises the engine's exception.
     */
    method Next() returns (r: Pull)
      requires Valid() && phase == Running
      modifies this, store
      ensures Valid()
      ensures unchanged(this`threadId, this`setupWith, this`setupState, this`streamInput, this`stream, this`base, this`runInput)
      ensures failure == old(failure)
      ensures old(|pending|) > 0 ==>
        && r == Yield(StepResult(old(superstepCount) + 1, NodeName(old(pending[0]).event), old(pending[0]).after.checkpointId))
        && phase == Running && yielded == old(yielded) + [r.step]
        && superstepCount == old(superstepCount) + 1
        && store.threads == old(store.threads)[threadId := old(pending[0]).after]
      ensures old(|pending|) == 0 && failure.None? ==>
        r == End && phase == Exhausted && yielded == old(yielded) && store.threads == old(store.threads)
      ensures old(|pending|) == 0 && failure.Some? ==>
        r == Raise(failure.value) && phase == Raised && yielded == old(yielded) && store.threads == old(store.threads)
      ensures Remaining() < old(Remaining())
    {
      if |pending| == 0 {
        if failure.Some? {
          r := Raise(failure.value);
          phase := Raised;
        } else {
          r := End;
          phase := Exhausted;
        }
        return;
      }
      r := Advance();
    }

    /** The update half of `Next`: one superstep from the head of the pending updates. */
    method Advance() returns (r: Pull)
      requires Valid() && phase == Running && |pending| > 0
      modifies this, store
      ensures Valid()
      ensures unchanged(this`threadId, this`setupWith, this`setupState, this`streamInput, this`stream, this`base,
                        this`runInput, this`failure, this`phase)
      ensures r == Yield(StepResult(old(superstepCount) + 1, NodeName(old(pending[0]).event), old(pending[0]).after.checkpointId))
      ensures yielded == old(yielded) + [r.step] && pending == old(pending[1..])
      ensures superstepCount == old(superstepCount) + 1
      ensures store.threads == old(store.threads)[threadId := old(pending[0]).after]
    {
      var u := pending[0];
      ghost var k := |yielded|;
      pending := pending[1..];
      superstepCount := superstepCount + 1;
      store.Persist(threadId, u.after);
      var nodeName := NodeName(u.event);
      var checkpointId := store.State(threadId).checkpointId;
      r := Yield(StepResult(superstepCount, nodeName, checkpointId));
      assert stream[k] == u;
      assert r.step == GraphStep(base, k, u);
      assert stream[..k + 1] == stream[..k] + [u];
      GraphStepsSnoc(base, stream[..k], u);
      yielded := yielded + [r.step];
      assert yielded == GraphSteps(base, stream[..k + 1]);
      assert pending == stream[k + 1..];
    }

    /**
     * The report from the thread's stored state, the thread and the final
     * counter: the count restored at setup plus one per streamed update.
     */
    method GetFinalOutput() returns (o: AgentOutput)
      requires Valid() && phase == Exhausted
      ensures o.finalReport == FinalReport(store.State(threadId).values)
      ensures o.threadId == threadId
      ensures o.superstepCount == base + |stream|
      ensures !o.interrupted && o.interruptValue == None
    {
      var finalState := store.State(threadId);
      o := NewAgentOutput(FinalReport(finalState.values), threadId, superstepCount);
    }
  }
}
