/**
 * The order workflow: payment, inventory, optional packing, a 30-second
 * wait for the approval signal, then delivery, each activity under its own
 * retry policy. The host is an oracle: `OrderEnv` says what the clock reads,
 * how many attempts the host makes under a policy without limit, where the
 * packing worker crashes, and when approval signals arrive.
 */
module OrderWorkflow {
  import opened Wrappers
  import opened Host
  import opened OrderActivities

  // ------------------------------------------------- packing across attempts

  const PackPolicy := Attempts(10)

  /** Packing as the host runs it: its verdict and every heartbeat it received. */
  datatype PackRun = PackRun(execution: Execution<string>, heartbeats: seq<PackingCheckpoint>)

  /** One packing attempt as the host sees it: how it ends and the heartbeats received. */
  datatype AttemptSeen = AttemptSeen(result: Result<string, Error>, seen: seq<PackingCheckpoint>)

  /**
   * A crash after `c` heartbeats (`Some(c)`) ends the attempt with a
   * heartbeat timeout once the worker has sent its first `c` heartbeats,
   * unless the attempt failed by itself first.
   */
  function Attempt(items: seq<string>, details: seq<PackingPayload>, crash: Option<nat>): AttemptSeen {
    var run := PackOutcome(items, details);
    match crash
    case None => AttemptSeen(run.0, run.1)
    case Some(c) =>
      if c < |run.1| then AttemptSeen(Failure(HeartbeatTimeout), run.1[..c])
      else if run.0.Success? then AttemptSeen(Failure(HeartbeatTimeout), run.1)
      else AttemptSeen(run.0, run.1)
  }

  /** The details the host hands the next attempt: the latest heartbeat so far. */
  function NextDetails(details: seq<PackingPayload>, seen: seq<PackingCheckpoint>): seq<PackingPayload> {
    if |seen| > 0 then [PackingObject(seen[|seen| - 1])] else details
  }

  function CrashAt(crashes: seq<Option<nat>>, done: nat): Option<nat> {
    if done < |crashes| then crashes[done] else None
  }

  /**
   * The host's retry loop for packing from attempt `done + 1` on, where
   * `attempt(details, n)` is what attempt `n + 1` does with the details the
   * host hands it.
   */
  function HostPacking(attempt: (seq<PackingPayload>, nat) -> AttemptSeen, details: seq<PackingPayload>, done: nat): PackRun
    requires done < PackPolicy.maximumAttempts
    decreases PackPolicy.maximumAttempts - done
  {
    var a := attempt(details, done);
    match a.result
    case Success(v) => PackRun(Succeeded(v, done + 1), a.seen)
    case Failure(e) =>
      if RetriesAfter(PackPolicy, done + 1, e) then
        var rest := HostPacking(attempt, NextDetails(details, a.seen), done + 1);
        PackRun(rest.execution, a.seen + rest.heartbeats)
      else PackRun(GaveUp(e, done + 1), a.seen)
  }

  /** The packing attempts of a list, attempt `n + 1` crashing as `crashes` says. */
  function PackAttempts(items: seq<string>, crashes: seq<Option<nat>>): (seq<PackingPayload>, nat) -> AttemptSeen {
    (details: seq<PackingPayload>, n: nat) => Attempt(items, details, CrashAt(crashes, n))
  }

  /** The details a retried attempt receives once the first `j` items were heartbeated. */
  function ResumeDetails(items: seq<string>, j: nat): seq<PackingPayload>
    requires j <= |items|
  {
    if j == 0 then [] else [PackingObject(AllItems(items)[j - 1])]
  }

  /** An attempt resumed after `j` items picks up at item `j`. */
  lemma ResumeOutcome(items: seq<string>, j: nat)
    requires j <= |items|
    ensures PackOutcome(items, ResumeDetails(items, j)) == (Success(PackedMessage(items)), AllItems(items)[j..])
  {
    if j == 0 {
      if |items| > 0 {
        ResumeSkipsPacked(items, 0);
      } else {
        assert StartIndex([]) == Success(0);
      }
    } else {
      ResumeSkipsPacked(items, j - 1);
    }
  }

  /**
   * One attempt after `j` heartbeated items delivers the next heartbeats in
   * order, succeeds only by reaching the end, and leaves the details in the
   * same form for the next attempt.
   */
  predicate ResumedAttempt(items: seq<string>, msg: string, j: nat, a: AttemptSeen)
    requires j <= |items|
  {
    && |a.seen| <= |items| - j
    && (forall k :: 0 <= k < |a.seen| ==> a.seen[k] == PackingCheckpoint(j + k, items[j + k]))
    && (a.result.Success? ==> |a.seen| == |items| - j && a.result.value == msg)
    && (a.result.Failure? ==> a.result.error == HeartbeatTimeout)
    && NextDetails(ResumeDetails(items, j), a.seen) == ResumeDetails(items, j + |a.seen|)
  }

  lemma AttemptFromResume(items: seq<string>, j: nat, crash: Option<nat>)
    requires j <= |items|
    ensures ResumedAttempt(items, PackedMessage(items), j, Attempt(items, ResumeDetails(items, j), crash))
  {
    ResumeOutcome(items, j);
    var a := Attempt(items, ResumeDetails(items, j), crash);
    if |a.seen| > 0 {
      assert a.seen[|a.seen| - 1] == AllItems(items)[j + |a.seen| - 1];
    }
  }

  /**
   * The heartbeats `run` reports continue the items from index `j` in order;
   * it succeeds, with `msg`, only at the end of the list; it took between
   * `done + 1` and ten attempts.
   */
  predicate PackProgress(items: seq<string>, msg: string, j: nat, done: nat, run: PackRun) {
    && j + |run.heartbeats| <= |items|
    && (forall k :: 0 <= k < |run.heartbeats| ==> run.heartbeats[k] == PackingCheckpoint(j + k, items[j + k]))
    && (run.execution.Succeeded? ==>
          j + |run.heartbeats| == |items| && run.execution.value == msg)
    && !run.execution.StillRetrying?
    && done + 1 <= run.execution.attempts <= PackPolicy.maximumAttempts
  }

  /** An attempt the host does not retry ends the packing run with its own verdict. */
  lemma ProgressOfLastAttempt(items: seq<string>, msg: string, j: nat, done: nat, a: AttemptSeen)
    requires j <= |items| && done < PackPolicy.maximumAttempts
    requires ResumedAttempt(items, msg, j, a)
    ensures PackProgress(items, msg, j, done,
      PackRun(if a.result.Success? then Succeeded(a.result.value, done + 1) else GaveUp(a.result.error, done + 1), a.seen))
  {
  }

  /** A retried attempt followed by further progress is progress. */
  lemma ProgressAfterRetry(items: seq<string>, msg: string, j: nat, done: nat, a: AttemptSeen, rest: PackRun)
    requires j <= |items| && ResumedAttempt(items, msg, j, a)
    requires PackProgress(items, msg, j + |a.seen|, done + 1, rest)
    ensures PackProgress(items, msg, j, done, PackRun(rest.execution, a.seen + rest.heartbeats))
  {
    var hs := a.seen + rest.heartbeats;
    assert forall k :: |a.seen| <= k < |hs| ==> hs[k] == rest.heartbeats[k - |a.seen|];
  }

  /**
   * However the workers crash, the host receives each item's heartbeat at
   * most once and in index order, continuing where the previous attempts
   * stopped; packing succeeds only once every item has been heartbeated,
   * and then reports `msg`, what a successful attempt returns; and it never
   * takes more than ten attempts. (Stated for any attempt function that
   * resumes as the packing step does.)
   */
  lemma {:induction false} HostPackingProgress(items: seq<string>, msg: string, attempt: (seq<PackingPayload>, nat) -> AttemptSeen, j: nat, done: nat)
    requires j <= |items| && done < PackPolicy.maximumAttempts
    requires forall i: nat, n: nat {:trigger ResumedAttempt(items, msg, i, attempt(ResumeDetails(items, i), n))} ::
      i <= |items| ==> ResumedAttempt(items, msg, i, attempt(ResumeDetails(items, i), n))
    ensures PackProgress(items, msg, j, done, HostPacking(attempt, ResumeDetails(items, j), done))
    decreases PackPolicy.maximumAttempts - done
  {
    var a := attempt(ResumeDetails(items, j), done);
    var run := HostPacking(attempt, ResumeDetails(items, j), done);
    assert ResumedAttempt(items, msg, j, a);
    if a.result.Failure? && RetriesAfter(PackPolicy, done + 1, a.result.error) {
      var rest := HostPacking(attempt, ResumeDetails(items, j + |a.seen|), done + 1);
      assert run == PackRun(rest.execution, a.seen + rest.heartbeats);
      HostPackingProgress(items, msg, attempt, j + |a.seen|, done + 1);
      ProgressAfterRetry(items, msg, j, done, a, rest);
    } else {
      ProgressOfLastAttempt(items, msg, j, done, a);
      assert run == PackRun(if a.result.Success? then Succeeded(a.result.value, done + 1) else GaveUp(a.result.error, done + 1), a.seen);
    }
  }

  /** The packing step's own attempts resume as required. */
  lemma PackAttemptsResume(items: seq<string>, crashes: seq<Option<nat>>)
    ensures forall i: nat, n: nat {:trigger ResumedAttempt(items, PackedMessage(items), i, PackAttempts(items, crashes)(ResumeDetails(items, i), n))} ::
      i <= |items| ==> ResumedAttempt(items, PackedMessage(items), i, PackAttempts(items, crashes)(ResumeDetails(items, i), n))
  {
    forall i: nat, n: nat | i <= |items|
      ensures ResumedAttempt(items, PackedMessage(items), i, PackAttempts(items, crashes)(ResumeDetails(items, i), n))
    {
      AttemptFromResume(items, i, CrashAt(crashes, n));
    }
  }

  /** A fresh packing activity, as the workflow starts it, makes progress as above. */
  lemma PackingAcrossAttempts(items: seq<string>, crashes: seq<Option<nat>>)
    ensures PackProgress(items, PackedMessage(items), 0, 0, HostPacking(PackAttempts(items, crashes), [], 0))
  {
    PackAttemptsResume(items, crashes);
    HostPackingProgress(items, PackedMessage(items), PackAttempts(items, crashes), 0, 0);
  }

  // --------------------------------------------------------------- workflow

  datatype Activity = Payment | Inventory | Packing | Delivery

  /** An activity the workflow scheduled, the policy it chose and the host's verdict. */
  datatype Call = Call(activity: Activity, policy: RetryPolicy, execution: Execution<string>)

  /**
   * The host's side of a run: the clock, the attempts made under a policy
   * without limit, the packing crash points (attempt by attempt), the
   * approval signals that arrive before the wait begins, and whether one
   * arrives during the 30-second wait.
   */
  datatype OrderEnv = OrderEnv(now: YearMonth, horizon: nat, packCrashes: seq<Option<nat>>,
                               approvalsBeforeWait: nat, approvalBeforeTimeout: bool)

  /** How a run ends: fulfilled, expired, or stopped at an activity that did not succeed. */
  datatype OrderOutcome = Fulfilled | OrderExpired | Stopped(at: Activity)

  /** The string `run` returns. */
  function ReturnValue(o: OrderOutcome): string
    requires !o.Stopped?
  {
    if o.Fulfilled? then "Order fulfilled" else "Order expired"
  }

  const PaymentPolicy := Attempts(1)
  const DeliveryPolicy := DefaultRetryPolicy

  function InventoryPolicy(inventoryDown: bool): RetryPolicy {
    if inventoryDown then DefaultRetryPolicy else Attempts(1)
  }

  /** The attempts the host makes under a policy: its limit, or the horizon without one. */
  function Budget(policy: RetryPolicy, horizon: nat): nat {
    if policy.maximumAttempts > 0 then policy.maximumAttempts else horizon
  }

  function PaymentCall(order: Order, env: OrderEnv): Call {
    var outcomes: seq<Result<string, Error>> := seq(Budget(PaymentPolicy, env.horizon), _ => ProcessPayment(order, env.now));
    Call(Payment, PaymentPolicy, Execute(PaymentPolicy, outcomes))
  }

  function InventoryCall(order: Order, inventoryDown: bool, env: OrderEnv): Call {
    var policy := InventoryPolicy(inventoryDown);
    Call(Inventory, policy, Execute(policy, InventoryOutcomes(order, inventoryDown, Budget(policy, env.horizon))))
  }

  function PackRun0(order: Order, env: OrderEnv): PackRun {
    HostPacking(PackAttempts(order.itemsToPack, env.packCrashes), [], 0)
  }

  function PackCall(order: Order, env: OrderEnv): Call {
    Call(Packing, PackPolicy, PackRun0(order, env).execution)
  }

  function DeliveryCall(order: Order, env: OrderEnv): Call {
    var outcomes: seq<Result<string, Error>> := seq(Budget(DeliveryPolicy, env.horizon), _ => Success(DeliverOrder(order)));
    Call(Delivery, DeliveryPolicy, Execute(DeliveryPolicy, outcomes))
  }

  /** The activities scheduled before the approval wait and the packing heartbeats received. */
  datatype Scheduled = Scheduled(calls: seq<Call>, packHeartbeats: seq<PackingCheckpoint>)

  /**
   * Payment, inventory and (for a non-empty list) packing, stopping after
   * the first activity that does not succeed.
   */
  function Activities(order: Order, inventoryDown: bool, env: OrderEnv): Scheduled {
    Stages(order, PaymentCall(order, env), InventoryCall(order, inventoryDown, env), PackRun0(order, env))
  }

  /** The same, given what the host made of payment, inventory and packing. */
  function Stages(order: Order, pay: Call, inv: Call, pack: PackRun): Scheduled {
    if !pay.execution.Succeeded? then Scheduled([pay], [])
    else if !inv.execution.Succeeded? || |order.itemsToPack| == 0 then Scheduled([pay, inv], [])
    else Scheduled([pay, inv, Call(Packing, PackPolicy, pack.execution)], pack.heartbeats)
  }

  /** The last scheduled activity, if it did not succeed. */
  function Failed(calls: seq<Call>): Option<Activity> {
    if |calls| > 0 && !calls[|calls| - 1].execution.Succeeded? then Some(calls[|calls| - 1].activity) else None
  }

  /**
   * A run: how it ended, the activities it scheduled, the packing heartbeats
   * the host received, and the `approved` flag at the end.
   */
  datatype OrderTrace = OrderTrace(outcome: OrderOutcome, calls: seq<Call>,
                                   packHeartbeats: seq<PackingCheckpoint>, approved: bool)

  function OrderSpec(order: Order, inventoryDown: bool, env: OrderEnv, approved: bool): OrderTrace {
    Conclude(Activities(order, inventoryDown, env), DeliveryCall(order, env), env, approved)
  }

  /**
   * The run after the activities `pre`: stop at a failed one, else wait for
   * approval and, once approved, schedule delivery with the host's verdict `del`.
   */
  function Conclude(pre: Scheduled, del: Call, env: OrderEnv, approved: bool): OrderTrace {
    if Failed(pre.calls).Some? then OrderTrace(Stopped(Failed(pre.calls).value), pre.calls, pre.packHeartbeats, approved)
    else
      var waiting := approved || env.approvalsBeforeWait > 0;
      if !waiting && !env.approvalBeforeTimeout then OrderTrace(OrderExpired, pre.calls, pre.packHeartbeats, false)
      else
        OrderTrace(if del.execution.Succeeded? then Fulfilled else Stopped(Delivery),
                   pre.calls + [del], pre.packHeartbeats, true)
  }

  /**
   * Delivery always succeeds, so under the default policy the host runs it
   * exactly once; only a host that gives it no attempt at all leaves it pending.
   */
  lemma DeliveredOnFirstAttempt(order: Order, env: OrderEnv)
    ensures env.horizon > 0 ==>
      DeliveryCall(order, env).execution == Succeeded("Order " + order.orderId + " delivered", 1)
    ensures env.horizon == 0 ==> DeliveryCall(order, env).execution == StillRetrying
  {
    var outcomes: seq<Result<string, Error>> := seq(Budget(DeliveryPolicy, env.horizon), _ => Success(DeliverOrder(order)));
    if env.horizon > 0 {
      assert outcomes[0] == Success(DeliverOrder(order));
    }
  }

  /** The activities in the order the workflow schedules them. */
  function Script(order: Order): seq<Activity> {
    [Payment, Inventory] + (if |order.itemsToPack| > 0 then [Packing] else []) + [Delivery]
  }

  /**
   * Before the wait, the activities follow the script and each one before
   * the last succeeded; nothing failed exactly when payment, inventory and
   * packing (for a non-empty list) all succeeded; the packing heartbeats
   * are one per item, in index order, and cover the list when nothing failed.
   */
  lemma ActivitiesFollowScript(order: Order, inventoryDown: bool, env: OrderEnv)
    ensures ScheduleFollowsScript(order, Activities(order, inventoryDown, env))
  {
    PackingAcrossAttempts(order.itemsToPack, env.packCrashes);
    StagesFollowScript(order, PaymentCall(order, env), InventoryCall(order, inventoryDown, env), PackRun0(order, env));
  }

  predicate ScheduleFollowsScript(order: Order, pre: Scheduled) {
    && 0 < |pre.calls| < |Script(order)|
    && (forall k :: 0 <= k < |pre.calls| ==> pre.calls[k].activity == Script(order)[k])
    && (forall k :: 0 <= k < |pre.calls| - 1 ==> pre.calls[k].execution.Succeeded?)
    && (Failed(pre.calls).None? <==>
          |pre.calls| == |Script(order)| - 1 && forall k :: 0 <= k < |pre.calls| ==> pre.calls[k].execution.Succeeded?)
    && |pre.packHeartbeats| <= |order.itemsToPack|
    && (forall k :: 0 <= k < |pre.packHeartbeats| ==>
          pre.packHeartbeats[k] == PackingCheckpoint(k, order.itemsToPack[k]))
    && (Failed(pre.calls).None? ==> |pre.packHeartbeats| == |order.itemsToPack|)
  }

  lemma StagesFollowScript(order: Order, pay: Call, inv: Call, pack: PackRun)
    requires pay.activity == Payment && inv.activity == Inventory
    requires PackProgress(order.itemsToPack, PackedMessage(order.itemsToPack), 0, 0, pack)
    ensures ScheduleFollowsScript(order, Stages(order, pay, inv, pack))
  {
    var script := Script(order);
    if pay.execution.Succeeded? && inv.execution.Succeeded? && |order.itemsToPack| > 0 {
      assert script == [Payment, Inventory, Packing, Delivery];
    }
  }

  /**
   * The scheduled activities follow the script: payment, inventory, packing
   * only for a non-empty list, delivery. Each one before the last succeeded,
   * so a failed activity stops the run before any later one; a stopped run
   * names the last, unsuccessful, activity; a fulfilled run ran them all.
   */
  lemma CallsFollowScript(order: Order, inventoryDown: bool, env: OrderEnv, approved: bool)
    ensures var tr := OrderSpec(order, inventoryDown, env, approved);
      && 0 < |tr.calls| <= |Script(order)|
      && (forall k :: 0 <= k < |tr.calls| ==> tr.calls[k].activity == Script(order)[k])
      && (forall k :: 0 <= k < |tr.calls| - 1 ==> tr.calls[k].execution.Succeeded?)
      && (tr.outcome.Stopped? ==>
            tr.outcome.at == tr.calls[|tr.calls| - 1].activity && !tr.calls[|tr.calls| - 1].execution.Succeeded?)
      && (tr.outcome.Fulfilled? ==>
            |tr.calls| == |Script(order)| && forall k :: 0 <= k < |tr.calls| ==> tr.calls[k].execution.Succeeded?)
  {
    ActivitiesFollowScript(order, inventoryDown, env);
    ConcludeFollowsScript(order, Activities(order, inventoryDown, env), DeliveryCall(order, env), env, approved);
  }

  lemma ConcludeFollowsScript(order: Order, pre: Scheduled, del: Call, env: OrderEnv, approved: bool)
    requires ScheduleFollowsScript(order, pre) && del.activity == Delivery
    ensures var tr := Conclude(pre, del, env, approved);
      && 0 < |tr.calls| <= |Script(order)|
      && (forall k :: 0 <= k < |tr.calls| ==> tr.calls[k].activity == Script(order)[k])
      && (forall k :: 0 <= k < |tr.calls| - 1 ==> tr.calls[k].execution.Succeeded?)
      && (tr.outcome.Stopped? ==>
            tr.outcome.at == tr.calls[|tr.calls| - 1].activity && !tr.calls[|tr.calls| - 1].execution.Succeeded?)
      && (tr.outcome.Fulfilled? ==>
            |tr.calls| == |Script(order)| && forall k :: 0 <= k < |tr.calls| ==> tr.calls[k].execution.Succeeded?)
  {
  }

  /**
   * The retry policy a call ran under: one attempt for payment; for
   * inventory no limit exactly when the service is down, one attempt
   * otherwise; ten for packing; the default, without limit, for delivery.
   * No activity is attempted more often than its policy allows.
   */
  predicate PolicyFits(c: Call, inventoryDown: bool) {
    && (c.activity == Payment ==> c.policy.maximumAttempts == 1)
    && (c.activity == Inventory ==> (c.policy.maximumAttempts == 0 <==> inventoryDown)
                                    && (!inventoryDown ==> c.policy.maximumAttempts == 1))
    && (c.activity == Packing ==> c.policy.maximumAttempts == 10)
    && (c.activity == Delivery ==> c.policy == DefaultRetryPolicy)
    && (c.policy.maximumAttempts > 0 && !c.execution.StillRetrying? ==> c.execution.attempts <= c.policy.maximumAttempts)
  }

  lemma {:induction false} EachCallFits(order: Order, inventoryDown: bool, env: OrderEnv)
    ensures PolicyFits(PaymentCall(order, env), inventoryDown)
    ensures PolicyFits(InventoryCall(order, inventoryDown, env), inventoryDown)
    ensures PolicyFits(PackCall(order, env), inventoryDown)
    ensures PolicyFits(DeliveryCall(order, env), inventoryDown)
  {
    var payments: seq<Result<string, Error>> := seq(Budget(PaymentPolicy, env.horizon), _ => ProcessPayment(order, env.now));
    ExecuteMeaning(PaymentPolicy, payments);
    var policy := InventoryPolicy(inventoryDown);
    ExecuteMeaning(policy, InventoryOutcomes(order, inventoryDown, Budget(policy, env.horizon)));
    PackingAcrossAttempts(order.itemsToPack, env.packCrashes);
  }

  /** Every activity a run schedules ran under the policy the workflow picks for it. */
  lemma PolicyChoice(order: Order, inventoryDown: bool, env: OrderEnv, approved: bool)
    ensures var tr := OrderSpec(order, inventoryDown, env, approved);
      forall k :: 0 <= k < |tr.calls| ==> PolicyFits(tr.calls[k], inventoryDown)
  {
    EachCallFits(order, inventoryDown, env);
    var pay, inv, pack := PaymentCall(order, env), InventoryCall(order, inventoryDown, env), PackRun0(order, env);
    var pre := Activities(order, inventoryDown, env);
    assert pre == Stages(order, pay, inv, pack);
    assert PackCall(order, env) == Call(Packing, PackPolicy, pack.execution);
    StagesFit(order, pay, inv, pack, inventoryDown);
    ConcludeFits(pre, DeliveryCall(order, env), env, approved, inventoryDown);
  }

  lemma StagesFit(order: Order, pay: Call, inv: Call, pack: PackRun, inventoryDown: bool)
    requires PolicyFits(pay, inventoryDown) && PolicyFits(inv, inventoryDown)
    requires PolicyFits(Call(Packing, PackPolicy, pack.execution), inventoryDown)
    ensures var pre := Stages(order, pay, inv, pack);
      forall k :: 0 <= k < |pre.calls| ==> PolicyFits(pre.calls[k], inventoryDown)
  {
  }

  lemma ConcludeFits(pre: Scheduled, del: Call, env: OrderEnv, approved: bool, inventoryDown: bool)
    requires forall k :: 0 <= k < |pre.calls| ==> PolicyFits(pre.calls[k], inventoryDown)
    requires PolicyFits(del, inventoryDown)
    ensures var tr := Conclude(pre, del, env, approved);
      forall k :: 0 <= k < |tr.calls| ==> PolicyFits(tr.calls[k], inventoryDown)
  {
    var tr := Conclude(pre, del, env, approved);
    assert forall k :: 0 <= k < |tr.calls| ==> tr.calls[k] == if k < |pre.calls| then pre.calls[k] else del;
  }

  /**
   * Without any approval by the end of the wait the run returns "Order
   * expired" and never schedules delivery; delivery is scheduled only once
   * `approved` holds, at most once, and last; a fulfilled run returns
   * "Order fulfilled".
   */
  lemma ApprovalGatesDelivery(order: Order, inventoryDown: bool, env: OrderEnv, approved: bool)
    ensures var tr := OrderSpec(order, inventoryDown, env, approved);
      && (tr.outcome == OrderExpired ==>
            && !approved && env.approvalsBeforeWait == 0 && !env.approvalBeforeTimeout && !tr.approved
            && ReturnValue(tr.outcome) == "Order expired"
            && forall k :: 0 <= k < |tr.calls| ==> tr.calls[k].activity != Delivery)
      && (forall k :: 0 <= k < |tr.calls| && tr.calls[k].activity == Delivery ==>
            k == |tr.calls| - 1 && tr.approved && (approved || env.approvalsBeforeWait > 0 || env.approvalBeforeTimeout))
      && (tr.outcome == Fulfilled ==>
            ReturnValue(tr.outcome) == "Order fulfilled" && tr.calls[|tr.calls| - 1].activity == Delivery)
  {
    ActivitiesFollowScript(order, inventoryDown, env);
    ConcludeGatesDelivery(order, Activities(order, inventoryDown, env), DeliveryCall(order, env), env, approved);
  }

  lemma ConcludeGatesDelivery(order: Order, pre: Scheduled, del: Call, env: OrderEnv, approved: bool)
    requires ScheduleFollowsScript(order, pre) && del.activity == Delivery
    ensures var tr := Conclude(pre, del, env, approved);
      && (tr.outcome == OrderExpired ==>
            && !approved && env.approvalsBeforeWait == 0 && !env.approvalBeforeTimeout && !tr.approved
            && ReturnValue(tr.outcome) == "Order expired"
            && forall k :: 0 <= k < |tr.calls| ==> tr.calls[k].activity != Delivery)
      && (forall k :: 0 <= k < |tr.calls| && tr.calls[k].activity == Delivery ==>
            k == |tr.calls| - 1 && tr.approved && (approved || env.approvalsBeforeWait > 0 || env.approvalBeforeTimeout))
      && (tr.outcome == Fulfilled ==>
            ReturnValue(tr.outcome) == "Order fulfilled" && tr.calls[|tr.calls| - 1].activity == Delivery)
  {
    var script := Script(order);
    assert forall k :: 0 <= k < |script| - 1 ==> script[k] != Delivery;
  }

  /**
   * When packing succeeds the host has received one heartbeat per item, in
   * order, whatever crashes the workers suffered.
   */
  lemma PackedOrderHeartbeats(order: Order, inventoryDown: bool, env: OrderEnv, approved: bool)
    ensures var tr := OrderSpec(order, inventoryDown, env, approved);
      && |tr.packHeartbeats| <= |order.itemsToPack|
      && (forall k :: 0 <= k < |tr.packHeartbeats| ==>
            tr.packHeartbeats[k] == PackingCheckpoint(k, order.itemsToPack[k]))
      && (tr.outcome.Fulfilled? || tr.outcome.OrderExpired? ==> |tr.packHeartbeats| == |order.itemsToPack|)
  {
    ActivitiesFollowScript(order, inventoryDown, env);
  }

  /** An expired card stops the run at payment after its single attempt. */
  lemma ExpiredCardStopsAtPayment(order: Order, inventoryDown: bool, env: OrderEnv, approved: bool, expiry: YearMonth)
    requires ParseExpiry(order.creditCardExpiry) == Success(expiry) && CardExpired(expiry, env.now)
    ensures OrderSpec(order, inventoryDown, env, approved) ==
      OrderTrace(Stopped(Payment), [Call(Payment, Attempts(1), GaveUp(ApplicationError(InvalidExpiryMessage), 1))], [], approved)
  {
  }

  /**
   * With the inventory service down, a valid card, nothing to pack and an
   * approval in time, the run is fulfilled once the host retries inventory
   * at least five times, the fifth attempt succeeding.
   */
  lemma OutageRecovers(order: Order, env: OrderEnv, approved: bool)
    requires ProcessPayment(order, env.now).Success?
    requires |order.itemsToPack| == 0 && env.horizon >= 5 && env.approvalBeforeTimeout
    ensures var tr := OrderSpec(order, true, env, approved);
      && tr.outcome == Fulfilled
      && tr.calls[1] == Call(Inventory, DefaultRetryPolicy,
           Succeeded("Inventory reserved for order " + order.orderId + " (recovered after 5 attempts)", 5))
  {
    InventoryUnderRetries(order, env.horizon);
    var outcomes: seq<Result<string, Error>> := seq(Budget(DeliveryPolicy, env.horizon), _ => Success(DeliverOrder(order)));
    assert outcomes[0] == Success(DeliverOrder(order));
  }

  class OrderWorkflow {
    var approved: bool

    constructor ()
      ensures !approved
    {
      approved := false;
    }

    /** The approval signal; sending it again changes nothing. */
    method ApproveOrder()
      modifies this
      ensures approved
    {
      approved := true;
    }

    /**
     * The activities before the approval wait, in turn, stopping at the
     * first that does not succeed: the calls follow the script, every one
     * before the last succeeded, and the run goes on to the wait only when
     * all of payment, inventory and packing succeeded. The packing
     * heartbeats are one per item in index order, the whole list once the
     * run goes on.
     */
    method ScheduleActivities(order: Order, inventoryDown: bool, env: OrderEnv)
      returns (calls: seq<Call>, packHeartbeats: seq<PackingCheckpoint>)
      ensures Scheduled(calls, packHeartbeats) == Activities(order, inventoryDown, env)
      ensures ScheduleFollowsScript(order, Scheduled(calls, packHeartbeats))
    {
      packHeartbeats := [];
      var payment := PaymentCall(order, env);
      calls := [payment];
      if payment.execution.Succeeded? {
        var inventory := InventoryCall(order, inventoryDown, env);
        calls := calls + [inventory];
        if inventory.execution.Succeeded? && |order.itemsToPack| > 0 {
          var packing := PackCall(order, env);
          calls := calls + [packing];
          packHeartbeats := PackRun0(order, env).heartbeats;
        }
      }
      assert Scheduled(calls, packHeartbeats) == Activities(order, inventoryDown, env);
      ActivitiesFollowScript(order, inventoryDown, env);
    }

    /**
     * The run: the activities in turn, stopping at the first that does not
     * succeed, then the wait for approval and delivery. The outcome, the
     * activities scheduled, the packing heartbeats and the final flag are
     * those of `OrderSpec` from the flag at the start.
     */
    method Run(order: Order, inventoryDown: bool, env: OrderEnv)
      returns (outcome: OrderOutcome, calls: seq<Call>, packHeartbeats: seq<PackingCheckpoint>)
      modifies this
      ensures OrderTrace(outcome, calls, packHeartbeats, approved) == OrderSpec(order, inventoryDown, env, old(approved))
    {
      calls, packHeartbeats := ScheduleActivities(order, inventoryDown, env);
      var failed := Failed(calls);
      if failed.Some? {
        return Stopped(failed.value), calls, packHeartbeats;
      }
      for k := 0 to env.approvalsBeforeWait
        invariant approved == (old(approved) || k > 0)
      {
        ApproveOrder();
      }
      if !approved {
        if !env.approvalBeforeTimeout {
          return OrderExpired, calls, packHeartbeats;
        }
        ApproveOrder();
      }
      var delivery := DeliveryCall(order, env);
      calls := calls + [delivery];
      outcome := if delivery.execution.Succeeded? then Fulfilled else Stopped(Delivery);
    }
  }
}
