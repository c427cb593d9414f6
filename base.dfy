/**
 * The adapter contract: a capability flag, `setup`, a step stream and the
 * final output, offered by two variants. Dispatch is over a tagged union
 * rather than a class hierarchy; the ghost phase enforces the lifecycle
 * (setup once, then run, and read the final output only after the stream
 * has ended without raising).
 */
module AdapterBase {
  import opened Wrappers
  import opened Shared
  import Host
  import Sleeping
  import LangGraph

  datatype TaskInput = SleepIn(sleeping: SleepingInput) | AgentIn(agent: AgentInput)

  datatype TaskOutput = SleepOut(sleeping: SleepingOutput) | AgentOut(agent: AgentOutput)

  datatype Agent = SleepingAgent(s: Sleeping.SleepingAdapter) | GraphAgent(g: LangGraph.LangGraphAdapter) {

    ghost function Repr(): set<object> {
      match this
      case SleepingAgent(s) => {s}
      case GraphAgent(g) => {g, g.store}
    }

    ghost predicate Valid()
      reads Repr()
    {
      match this
      case SleepingAgent(s) => s.Valid()
      case GraphAgent(g) => g.Valid()
    }

    ghost function Phase(): Phase
      reads Repr()
    {
      match this
      case SleepingAgent(s) => s.phase
      case GraphAgent(g) => g.phase
    }

    /** The steps the stream has yielded so far in this attempt. */
    ghost function Yielded(): seq<StepResult>
      reads Repr()
    {
      match this
      case SleepingAgent(s) => s.yielded
      case GraphAgent(g) => g.yielded
    }

    /** The checkpoint argument `setup` received. */
    ghost function SetupWith(): Option<AgentCheckpoint>
      reads Repr()
    {
      match this
      case SleepingAgent(s) => s.setupWith
      case GraphAgent(g) => g.setupWith
    }

    /** The input `run` was given. */
    ghost function RunInput(): TaskInput
      reads Repr()
    {
      match this
      case SleepingAgent(s) => SleepIn(s.runInput)
      case GraphAgent(g) => AgentIn(g.runInput)
    }

    /** The exception the stream raises once its steps are delivered; the sleeping adapter never raises. */
    ghost function Raises(): Option<Host.Error>
      reads Repr()
    {
      match this
      case SleepingAgent(s) => None
      case GraphAgent(g) => g.failure
    }

    ghost function Remaining(): nat
      reads Repr()
      requires Valid()
    {
      match this
      case SleepingAgent(s) => s.Remaining()
      case GraphAgent(g) => g.Remaining()
    }

    /** What `get_final_output` reports once the stream has ended. */
    ghost function FinalOutput(): TaskOutput
      reads Repr()
    {
      match this
      case SleepingAgent(s) =>
        var n := Sleeping.StepCount(s.numSteps);
        SleepOut(SleepingOutput(n, n as real * s.sleepSeconds))
      case GraphAgent(g) =>
        AgentOut(NewAgentOutput(LangGraph.FinalReport(g.store.State(g.threadId).values), g.threadId, g.base + |g.stream|))
    }

    /** The input type each variant runs on. */
    predicate Accepts(input: TaskInput) {
      SleepingAgent? == input.SleepIn?
    }

    /** Whether the adapter can resume from a checkpoint; reading it changes nothing. */
    function SupportsCheckpointing(): (r: bool)
      ensures r <==> GraphAgent?
    {
      match this
      case SleepingAgent(s) => s.SupportsCheckpointing()
      case GraphAgent(g) => g.SupportsCheckpointing()
    }

    method Setup(threadId: string, checkpoint: Option<AgentCheckpoint>)
      requires Valid() && Phase() == Created
      modifies Repr()
      ensures Valid() && Phase() == Ready && SetupWith() == checkpoint && Yielded() == []
      ensures GraphAgent? ==> g.threadId == threadId && g.setupState == old(g.store.State(threadId))
    {
      match this
      case SleepingAgent(s) => s.Setup(threadId, checkpoint);
      case GraphAgent(g) => g.Setup(threadId, checkpoint);
    }

    method Start(input: TaskInput)
      requires Valid() && Phase() == Ready && Accepts(input)
      modifies Repr()
      ensures Valid() && Phase() == Running && SetupWith() == old(SetupWith()) && Yielded() == []
      ensures RunInput() == input
      ensures GraphAgent? ==> g.threadId == old(g.threadId) && g.setupState == old(g.setupState)
    {
      match this
      case SleepingAgent(s) => s.Start(input.sleeping);
      case GraphAgent(g) => g.Start(input.agent);
    }

    /** One more step of the stream, its end, or the exception it raises instead of ending. */
    method Next() returns (r: Pull)
      requires Valid() && Phase() == Running
      modifies Repr()
      ensures Valid() && SetupWith() == old(SetupWith()) && RunInput() == old(RunInput())
      ensures Raises() == old(Raises())
      ensures GraphAgent? ==> g.threadId == old(g.threadId) && g.setupState == old(g.setupState)
      ensures r.Yield? ==> Phase() == Running && Yielded() == old(Yielded()) + [r.step]
      ensures r.End? ==> Phase() == Exhausted && Raises().None? && Yielded() == old(Yielded())
      ensures r.Raise? ==> Phase() == Raised && Raises() == Some(r.error) && Yielded() == old(Yielded())
      ensures Remaining() < old(Remaining())
    {
      match this
      case SleepingAgent(s) => r := s.Next();
      case GraphAgent(g) => r := g.Next();
    }

    method GetFinalOutput() returns (o: TaskOutput)
      requires Valid() && Phase() == Exhausted
      ensures o == FinalOutput()
    {
      match this
      case SleepingAgent(s) =>
        var out := s.GetFinalOutput();
        o := SleepOut(out);
      case GraphAgent(g) =>
        var out := g.GetFinalOutput();
        o := AgentOut(out);
    }
  }
}
