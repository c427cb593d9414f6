/**
 * The sleeping adapter: an agent without checkpoint support that sleeps in
 * `num_steps` steps and yields one progress event per step. On a retried
 * attempt it always starts again from step 1.
 */
module Sleeping {
  import opened Wrappers
  import opened Shared
  import Text

  /** The name of step `step`, `"sleep_<step>"`. */
  function SleepStepName(step: nat): string {
    "sleep_" + Text.NatToString(step)
  }

  /** The number of steps `range(1, num_steps + 1)` runs. */
  function StepCount(numSteps: int): nat {
    if numSteps < 0 then 0 else numSteps
  }

  /** The first `n` steps the adapter yields: numbers 1..n, no checkpoint id. */
  function SleepSteps(n: nat): seq<StepResult> {
    seq(n, i requires 0 <= i < n => StepResult(i + 1, SleepStepName(i + 1), None))
  }

  lemma SleepStepsSnoc(n: nat)
    ensures SleepSteps(n + 1) == SleepSteps(n) + [StepResult(n + 1, SleepStepName(n + 1), None)]
  {
    assert forall i :: 0 <= i < n ==> SleepSteps(n + 1)[i] == SleepSteps(n)[i];
  }

  /** Distinct steps get distinct names, so every yielded name identifies its step. */
  lemma SleepStepNamesDistinct(n: nat, i: nat, j: nat)
    requires i < j < n
    ensures SleepSteps(n)[i].stepName != SleepSteps(n)[j].stepName
  {
    if SleepStepName(i + 1) == SleepStepName(j + 1) {
      var a, b := Text.NatToString(i + 1), Text.NatToString(j + 1);
      assert a == SleepStepName(i + 1)[6..];
      assert b == SleepStepName(j + 1)[6..];
      Text.NatToStringInjective(i + 1, j + 1);
    }
  }

  class SleepingAdapter {
    var stepsCompleted: int
    var totalSleepTime: real
    var sleepSeconds: real
    var numSteps: int
    /** The loop variable `step` of the suspended `run` generator. */
    var nextStep: int
    ghost var phase: Phase
    /** Every step yielded so far in this attempt. */
    ghost var yielded: seq<StepResult>
    /** The checkpoint argument `setup` received. */
    ghost var setupWith: Option<AgentCheckpoint>
    /** The input `run` was called with. */
    ghost var runInput: SleepingInput

    ghost predicate Progress()
      reads this
    {
      && 1 <= nextStep
      && sleepSeconds == runInput.sleepSeconds && numSteps == runInput.numSteps
      && stepsCompleted == nextStep - 1
      && totalSleepTime == (nextStep - 1) as real * sleepSeconds
      && yielded == SleepSteps(nextStep - 1)
    }

    ghost predicate Valid()
      reads this
    {
      match phase
      case Created | Ready => stepsCompleted == 0 && totalSleepTime == 0.0 && yielded == []
      case Running => Progress() && nextStep <= StepCount(numSteps) + 1
      case Exhausted => Progress() && nextStep == StepCount(numSteps) + 1
      case Raised => false
    }

    /** A measure the step stream consumes: one per remaining step, one for the end. */
    ghost function Remaining(): nat
      reads this
      requires Valid()
    {
      if phase == Running then StepCount(numSteps) + 2 - nextStep else 0
    }

    constructor ()
      ensures Valid() && phase == Created
      ensures stepsCompleted == 0 && totalSleepTime == 0.0
      ensures sleepSeconds == 30.0 && numSteps == 4
    {
      stepsCompleted, totalSleepTime := 0, 0.0;
      sleepSeconds, numSteps := 30.0, 4;
      nextStep := 1;
      phase, yielded, setupWith, runInput := Created, [], None, DefaultSleepingInput;
    }

    /** The sleeping agent always restarts from step 1. */
    function SupportsCheckpointing(): (r: bool)
      ensures r == false
    {
      false
    }

    /** Discards whatever checkpoint it is given and resets its counters. */
    method Setup(threadId: string, checkpoint: Option<AgentCheckpoint>)
      requires Valid() && phase == Created
      modifies this
      ensures Valid() && phase == Ready && setupWith == checkpoint
      ensures stepsCompleted == 0 && totalSleepTime == 0.0
      ensures sleepSeconds == old(sleepSeconds) && numSteps == old(numSteps)
    {
      stepsCompleted := 0;
      totalSleepTime := 0.0;
      phase, yielded, setupWith := Ready, [], checkpoint;
    }

    /** Enters `run(input)`: records the input's duration and step count. */
    method Start(input: SleepingInput)
      requires Valid() && phase == Ready
      modifies this
      ensures Valid() && phase == Running && setupWith == old(setupWith) && runInput == input
      ensures sleepSeconds == input.sleepSeconds && numSteps == input.numSteps
      ensures nextStep == 1 && yielded == []
    {
      sleepSeconds := input.sleepSeconds;
      numSteps := input.numSteps;
      nextStep := 1;
      phase, runInput := Running, input;
    }

    /** Resumes the generator: one more step, or the end of the stream; it never raises. */
    method Next() returns (r: Pull)
      requires Valid() && phase == Running
      modifies this
      ensures Valid() && setupWith == old(setupWith) && runInput == old(runInput)
      ensures sleepSeconds == old(sleepSeconds) && numSteps == old(numSteps)
      ensures old(nextStep) <= StepCount(numSteps) ==>
        && r == Yield(StepResult(old(nextStep), SleepStepName(old(nextStep)), None))
        && phase == Running && yielded == old(yielded) + [r.step]
        && stepsCompleted == old(nextStep)
        && totalSleepTime == old(totalSleepTime) + sleepSeconds
      ensures old(nextStep) > StepCount(numSteps) ==>
        r == End && phase == Exhausted && yielded == old(yielded)
      ensures Remaining() < old(Remaining())
    {
      if nextStep <= numSteps {
        var step := nextStep;
        stepsCompleted := step;
        assert (step - 1) as real * sleepSeconds + sleepSeconds == step as real * sleepSeconds;
        totalSleepTime := totalSleepTime + sleepSeconds;
        r := Yield(StepResult(step, SleepStepName(step), None));
        SleepStepsSnoc(step - 1);
        yielded := yielded + [r.step];
        nextStep := step + 1;
      } else {
        r := End;
        phase := Exhausted;
      }
    }

    /**
     * Reads the counters after the stream has ended: every one of the
     * `num_steps` steps (none when `num_steps <= 0`) and their total duration.
     */
    method GetFinalOutput() returns (o: SleepingOutput)
      requires Valid() && phase == Exhausted
      ensures o.stepsCompleted == StepCount(numSteps)
      ensures o.totalSleepTime == StepCount(numSteps) as real * sleepSeconds
      ensures |yielded| == o.stepsCompleted
    {
      o := SleepingOutput(stepsCompleted, totalSleepTime);
    }
  }
}
