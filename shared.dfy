/**
 * The records of the research agent: the checkpoint sent on every heartbeat,
 * the per-step progress event, the agent's input and output, the approval
 * signal payload, and the sleeping agent's input and output.
 * Python defaults become the `New…`/`Fresh…` functions below.
 */
module Shared {
  import opened Wrappers
  import Host

  /**
   * The progress snapshot carried by each heartbeat: the thread, the graph
   * engine's own checkpoint id (absent until a step reports one), the number
   * of supersteps completed and the last node executed.
   */
  datatype AgentCheckpoint = AgentCheckpoint(
    threadId: string,
    checkpointId: Option<string>,
    superstepCount: int,
    currentNode: Option<string>)

  /** `AgentCheckpoint(thread_id=...)` with every other field at its default. */
  function FreshCheckpoint(threadId: string): AgentCheckpoint {
    AgentCheckpoint(threadId, None, 0, None)
  }

  /** One completed step of an adapter's run. */
  datatype StepResult = StepResult(stepNumber: int, stepName: string, checkpointId: Option<string>)

  /** `StepResult(step_number, step_name)` with `checkpoint_id` at its default. */
  function NewStepResult(stepNumber: int, stepName: string): StepResult {
    StepResult(stepNumber, stepName, None)
  }

  /** The `{"approved": ..., "feedback": ...}` dict handed back to the agent on resume. */
  datatype ResumeValue = ResumeValue(approved: bool, feedback: string)

  datatype AgentInput = AgentInput(query: string, needsApproval: bool, resumeValue: Option<ResumeValue>)

  function NewAgentInput(query: string): AgentInput {
    AgentInput(query, false, None)
  }

  datatype AgentOutput = AgentOutput(
    finalReport: string,
    threadId: string,
    superstepCount: int,
    interrupted: bool,
    interruptValue: Option<map<string, string>>)

  function NewAgentOutput(finalReport: string, threadId: string, superstepCount: int): AgentOutput {
    AgentOutput(finalReport, threadId, superstepCount, false, None)
  }

  /** The payload of the approval signal. */
  datatype ApprovalResponse = ApprovalResponse(approved: bool, feedback: string)

  function NewApprovalResponse(approved: bool): ApprovalResponse {
    ApprovalResponse(approved, "")
  }

  /** Seconds are abstract reals: Python's float rounding is not modelled. */
  datatype SleepingInput = SleepingInput(sleepSeconds: real, numSteps: int)

  const DefaultSleepingInput := SleepingInput(30.0, 4)

  datatype SleepingOutput = SleepingOutput(stepsCompleted: int, totalSleepTime: real)

  /**
   * The lifecycle every adapter goes through within one attempt: constructed,
   * set up, running (its step stream is being drained), then either
   * exhausted (the stream has ended; only now may the final output be read)
   * or raised (the stream ended with an exception).
   */
  datatype Phase = Created | Ready | Running | Exhausted | Raised

  /** What pulling the step stream once gives: a step, its end, or the exception it raised. */
  datatype Pull = Yield(step: StepResult) | End | Raise(error: Host.Error)

  /** The defaults and field storage the records promise. */
  lemma RecordDefaults(threadId: string, checkpointId: string, count: int, node: string, query: string,
                       report: string, approved: bool, feedback: string)
    ensures var c := FreshCheckpoint(threadId);
      c.threadId == threadId && c.checkpointId == None && c.superstepCount == 0 && c.currentNode == None
    ensures var c := AgentCheckpoint(threadId, Some(checkpointId), count, Some(node));
      c.checkpointId == Some(checkpointId) && c.superstepCount == count && c.currentNode == Some(node)
    ensures NewStepResult(count, node).checkpointId == None
    ensures StepResult(count, node, Some(checkpointId)).checkpointId == Some(checkpointId)
    ensures var i := NewAgentInput(query); i.query == query && !i.needsApproval && i.resumeValue == None
    ensures var o := NewAgentOutput(report, threadId, count); !o.interrupted && o.interruptValue == None
    ensures NewApprovalResponse(approved).feedback == ""
    ensures ApprovalResponse(approved, feedback).feedback == feedback
    ensures DefaultSleepingInput.sleepSeconds == 30.0 && DefaultSleepingInput.numSteps == 4
  {
  }
}
