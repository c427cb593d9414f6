/**
 * The research workflow: it runs the agent activity in a loop, and when the
 * agent reports an interrupt it waits up to 30 minutes for the approval
 * signal and then runs the activity again with the approval as resume value.
 * The host is an oracle: one `Turn` per pass of the loop says which signals
 * arrive, what the activity returns and whether a signal beats the timeout.
 */
module ResearchWorkflow {
  import opened Wrappers
  import opened Host
  import opened Shared

  const ExpiryMessage := "Research expired: approval not received within 30 minutes"

  /** The activity's retry policy: five attempts; two provider errors are final. */
  const ResearchRetryPolicy := RetryPolicy(5, {"AuthenticationError", "InvalidRequestError"})

  /**
   * One pass of the loop as the host plays it: the approval signals delivered
   * while the activity runs, what each attempt of the activity returns, and,
   * consulted only when the workflow has to wait, the signal that arrives
   * before the timeout (`None`: the timeout fires first, or ties with it).
   */
  datatype Turn = Turn(signalsDuringActivity: seq<ApprovalResponse>,
                       attempts: seq<Result<AgentOutput, Error>>,
                       signalBeforeTimeout: Option<ApprovalResponse>)

  /** The activity's result as the host delivers it to the workflow. */
  function ActivityResult(t: Turn): Execution<AgentOutput> {
    Execute(ResearchRetryPolicy, t.attempts)
  }

  /**
   * The host makes at most five attempts: five given attempts always decide
   * the activity, and an authentication or invalid-request error from the
   * provider is not retried.
   */
  lemma ActivityAttempts(t: Turn)
    ensures ActivityResult(t).Succeeded? || ActivityResult(t).GaveUp? ==> 1 <= ActivityResult(t).attempts <= 5
    ensures |t.attempts| >= 5 ==> !ActivityResult(t).StillRetrying?
    ensures |t.attempts| > 0 && t.attempts[0] == Failure(ProviderError("AuthenticationError")) ==>
              ActivityResult(t) == GaveUp(ProviderError("AuthenticationError"), 1)
  {
    ExecuteMeaning(ResearchRetryPolicy, t.attempts);
    var r := ActivityResult(t);
    if r.GaveUp? && r.attempts > 1 {
      assert RetriesAfter(ResearchRetryPolicy, r.attempts - 1, t.attempts[r.attempts - 2].error);
    }
    if |t.attempts| >= 5 {
      assert t.attempts[4].Success? || !RetriesAfter(ResearchRetryPolicy, 5, t.attempts[4].error);
    }
  }

  /**
   * How a run ends: the agent's report, the expiry string, a failed activity,
   * or, where the model's bounds stop it, an activity the host is still
   * retrying or no further turns.
   */
  datatype Outcome = Completed(report: string) | Expired | Failed(error: Error) | Retrying | OutOfTurns

  /** The string `run` returns for a finished run. */
  function ReturnValue(o: Outcome): string
    requires o.Completed? || o.Expired?
  {
    if o.Completed? then o.report else ExpiryMessage
  }

  /** The resume value built from the recorded approval. */
  function ResumeValueOf(approval: Option<ApprovalResponse>): Option<ResumeValue> {
    if approval.Some? then Some(ResumeValue(approval.value.approved, approval.value.feedback)) else None
  }

  /** The activity input of one pass: the workflow's query and flag, and the resume value. */
  function ActivityInput(input: AgentInput, approval: Option<ApprovalResponse>): (r: AgentInput)
    ensures r.query == input.query && r.needsApproval == input.needsApproval
    ensures r.resumeValue.Some? <==> approval.Some?
    ensures approval.Some? ==> r.resumeValue.value == ResumeValue(approval.value.approved, approval.value.feedback)
  {
    AgentInput(input.query, input.needsApproval, ResumeValueOf(approval))
  }

  /** The recorded approval after some signals: the last one wins. */
  function AfterSignals(approval: Option<ApprovalResponse>, signals: seq<ApprovalResponse>): Option<ApprovalResponse> {
    if |signals| == 0 then approval else Some(signals[|signals| - 1])
  }

  /** The recorded approval after an interrupted pass that did not expire. */
  function AfterWait(approval: Option<ApprovalResponse>, t: Turn): Option<ApprovalResponse> {
    var a := AfterSignals(approval, t.signalsDuringActivity);
    if a.Some? then a else t.signalBeforeTimeout
  }

  datatype Trace = Trace(outcome: Outcome, issued: seq<AgentInput>, approval: Option<ApprovalResponse>)

  function Prepend(sent: seq<AgentInput>, tr: Trace): Trace {
    Trace(tr.outcome, sent + tr.issued, tr.approval)
  }

  lemma PrependTwice(a: seq<AgentInput>, b: seq<AgentInput>, tr: Trace)
    ensures Prepend(a + b, tr) == Prepend(a, Prepend(b, tr))
  {
    assert (a + b) + tr.issued == a + (b + tr.issued);
  }

  /**
   * The run from a recorded approval over the remaining turns: the outcome,
   * the activity inputs issued, and the approval recorded at the end.
   */
  function RunSpec(input: AgentInput, approval: Option<ApprovalResponse>, turns: seq<Turn>): Trace
    decreases |turns|
  {
    if |turns| == 0 then Trace(OutOfTurns, [], approval)
    else
      var t := turns[0];
      var sent := ActivityInput(input, approval);
      var afterActivity := AfterSignals(approval, t.signalsDuringActivity);
      match ActivityResult(t)
      case StillRetrying => Trace(Retrying, [sent], afterActivity)
      case GaveUp(e, _) => Trace(Failed(e), [sent], afterActivity)
      case Succeeded(out, _) =>
        if !out.interrupted then Trace(Completed(out.finalReport), [sent], afterActivity)
        else if afterActivity.None? && t.signalBeforeTimeout.None? then Trace(Expired, [sent], None)
        else Prepend([sent], RunSpec(input, AfterWait(approval, t), turns[1..]))
  }

  /** The recorded approval after the given (interrupted, non-expiring) passes. */
  function ApprovalAfter(approval: Option<ApprovalResponse>, turns: seq<Turn>): Option<ApprovalResponse>
    decreases |turns|
  {
    if |turns| == 0 then approval else ApprovalAfter(AfterWait(approval, turns[0]), turns[1..])
  }

  /**
   * Every activity input carries the workflow's query and approval flag, at
   * most one input is issued per turn, and running out of turns means that
   * every turn issued one.
   */
  lemma {:induction false} IssuedInputs(input: AgentInput, approval: Option<ApprovalResponse>, turns: seq<Turn>)
    ensures var tr := RunSpec(input, approval, turns);
      && |tr.issued| <= |turns|
      && (|turns| > 0 ==> |tr.issued| > 0)
      && (tr.outcome == OutOfTurns ==> |tr.issued| == |turns|)
      && (tr.outcome != OutOfTurns ==> |tr.issued| > 0)
      && forall k :: 0 <= k < |tr.issued| ==>
           tr.issued[k].query == input.query && tr.issued[k].needsApproval == input.needsApproval
    decreases |turns|
  {
    if |turns| > 0 {
      IssuedInputs(input, AfterWait(approval, turns[0]), turns[1..]);
    }
  }

  /**
   * The k-th activity input carries the approval recorded after the first k
   * passes: the approval held before the run for the first input, and from
   * the second input on an approval that is always present.
   */
  lemma {:induction false} ResumeFollowsApproval(input: AgentInput, approval: Option<ApprovalResponse>, turns: seq<Turn>, k: nat)
    requires k < |RunSpec(input, approval, turns).issued|
    ensures k <= |turns|
    ensures RunSpec(input, approval, turns).issued[k].resumeValue == ResumeValueOf(ApprovalAfter(approval, turns[..k]))
    ensures k > 0 ==> ApprovalAfter(approval, turns[..k]).Some?
    decreases |turns|
  {
    IssuedInputs(input, approval, turns);
    if k > 0 {
      var next := AfterWait(approval, turns[0]);
      ResumeFollowsApproval(input, next, turns[1..], k - 1);
      assert turns[..k][1..] == turns[1..][..k - 1];
      assert k > 1 || ApprovalAfter(next, turns[1..][..k - 1]) == next;
    }
  }

  /**
   * How the run ended, read off the last turn consumed: every earlier pass
   * was an interrupt that looped back; a completed run returns the last
   * result's report; an expired one had no approval at any point and issued
   * no further activity; a failed one carries the activity's error.
   */
  lemma {:induction false} OutcomeOfLastTurn(input: AgentInput, approval: Option<ApprovalResponse>, turns: seq<Turn>)
    ensures var tr := RunSpec(input, approval, turns);
      && |tr.issued| <= |turns|
      && (!tr.outcome.OutOfTurns? ==> |tr.issued| > 0)
      && (forall k :: 0 <= k < |tr.issued| - 1 ==>
            ActivityResult(turns[k]).Succeeded? && ActivityResult(turns[k]).value.interrupted)
      && (tr.outcome.Completed? ==>
            var r := ActivityResult(turns[|tr.issued| - 1]);
            r.Succeeded? && !r.value.interrupted && tr.outcome.report == r.value.finalReport)
      && (tr.outcome.Expired? ==>
            var t := turns[|tr.issued| - 1];
            && ActivityResult(t).Succeeded? && ActivityResult(t).value.interrupted
            && t.signalsDuringActivity == [] && t.signalBeforeTimeout.None?
            && tr.approval.None?
            && forall k :: 0 <= k < |tr.issued| ==> tr.issued[k].resumeValue.None?)
      && (tr.outcome.Failed? ==> ActivityResult(turns[|tr.issued| - 1]).GaveUp?
                                 && ActivityResult(turns[|tr.issued| - 1]).error == tr.outcome.error)
      && (tr.outcome.Retrying? ==> ActivityResult(turns[|tr.issued| - 1]).StillRetrying?)
    decreases |turns|
  {
    IssuedInputs(input, approval, turns);
    if |turns| > 0 {
      var t := turns[0];
      var afterActivity := AfterSignals(approval, t.signalsDuringActivity);
      var r := ActivityResult(t);
      if r.Succeeded? && r.value.interrupted && !(afterActivity.None? && t.signalBeforeTimeout.None?) {
        var next := AfterWait(approval, t);
        OutcomeOfLastTurn(input, next, turns[1..]);
        IssuedInputs(input, next, turns[1..]);
        var rest := RunSpec(input, next, turns[1..]);
        if rest.outcome.Expired? {
          assert next.Some?;
          ResumeFollowsApproval(input, next, turns[1..], 0);
          assert false;
        }
      }
    }
  }

  /**
   * The approval is never cleared: once one is recorded, every later
   * interrupt loops straight back, so the run can no longer expire.
   */
  lemma {:induction false} ApprovalNeverCleared(input: AgentInput, approval: Option<ApprovalResponse>, turns: seq<Turn>)
    requires approval.Some?
    ensures !RunSpec(input, approval, turns).outcome.Expired?
    ensures RunSpec(input, approval, turns).approval.Some?
    decreases |turns|
  {
    if |turns| > 0 {
      ApprovalNeverCleared(input, AfterWait(approval, turns[0]), turns[1..]);
    }
  }

  class ResearchAgentWorkflow {
    var approvalResponse: Option<ApprovalResponse>

    constructor ()
      ensures approvalResponse == None
    {
      approvalResponse := None;
    }

    /** The approval signal: overwrites whatever was recorded before. */
    method ApproveResearch(approved: bool, feedback: string)
      modifies this
      ensures approvalResponse == Some(ApprovalResponse(approved, feedback))
    {
      approvalResponse := Some(ApprovalResponse(approved, feedback));
    }

    method DeliverSignals(signals: seq<ApprovalResponse>)
      modifies this
      ensures approvalResponse == AfterSignals(old(approvalResponse), signals)
    {
      for k := 0 to |signals|
        invariant approvalResponse == AfterSignals(old(approvalResponse), signals[..k])
      {
        ApproveResearch(signals[k].approved, signals[k].feedback);
        assert signals[..k + 1][k] == signals[k];
      }
      assert signals[..|signals|] == signals;
    }

    /**
     * The `while True` loop of `run`, one pass per turn: the outcome, the
     * activity inputs issued and the approval left recorded are those of
     * `RunSpec` from the approval recorded when the run began.
     */
    method Run(input: AgentInput, turns: seq<Turn>) returns (outcome: Outcome, issued: seq<AgentInput>)
      modifies this
      ensures RunSpec(input, old(approvalResponse), turns) == Trace(outcome, issued, approvalResponse)
    {
      issued := [];
      var i := 0;
      while i < |turns|
        invariant 0 <= i <= |turns|
        invariant RunSpec(input, old(approvalResponse), turns) == Prepend(issued, RunSpec(input, approvalResponse, turns[i..]))
      {
        var t := turns[i];
        ghost var before := approvalResponse;
        ghost var issuedBefore := issued;
        assert turns[i..][0] == t && turns[i..][1..] == turns[i + 1..];
        var activityInput := AgentInput(
          input.query, input.needsApproval,
          if approvalResponse.Some? then Some(ResumeValue(approvalResponse.value.approved, approvalResponse.value.feedback))
          else None);
        assert activityInput == ActivityInput(input, before);
        issued := issued + [activityInput];
        DeliverSignals(t.signalsDuringActivity);
        ghost var rest := RunSpec(input, before, turns[i..]);
        var execution := Execute(ResearchRetryPolicy, t.attempts);
        if execution.StillRetrying? {
          assert rest == Trace(Retrying, [activityInput], approvalResponse);
          PrependTwice(issuedBefore, [activityInput], Trace(Retrying, [], approvalResponse));
          return Retrying, issued;
        }
        if execution.GaveUp? {
          assert rest == Trace(Failed(execution.error), [activityInput], approvalResponse);
          PrependTwice(issuedBefore, [activityInput], Trace(Failed(execution.error), [], approvalResponse));
          return Failed(execution.error), issued;
        }
        var result := execution.value;
        if !result.interrupted {
          assert rest == Trace(Completed(result.finalReport), [activityInput], approvalResponse);
          PrependTwice(issuedBefore, [activityInput], Trace(Completed(result.finalReport), [], approvalResponse));
          return Completed(result.finalReport), issued;
        }
        if approvalResponse.None? {
          if t.signalBeforeTimeout.None? {
            assert rest == Trace(Expired, [activityInput], None);
            PrependTwice(issuedBefore, [activityInput], Trace(Expired, [], None));
            return Expired, issued;
          }
          var signal := t.signalBeforeTimeout.value;
          ApproveResearch(signal.approved, signal.feedback);
        }
        assert approvalResponse == AfterWait(before, t);
        assert rest == Prepend([activityInput], RunSpec(input, approvalResponse, turns[i + 1..]));
        PrependTwice(issuedBefore, [activityInput], RunSpec(input, approvalResponse, turns[i + 1..]));
        i := i + 1;
      }
      outcome := OutOfTurns;
    }
  }
}
