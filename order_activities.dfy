/**
 * The order-fulfilment activities: the card-expiry check of the payment
 * step, the attempt-based outage of the inventory service, delivery, and
 * the packing loop that heartbeats after every item and resumes from the
 * last heartbeat on a retried attempt.
 */
module OrderActivities {
  import opened Wrappers
  import opened Host
  import opened Text

  /** An order; `creditCardExpiry` is written `MM/YY`. */
  datatype Order = Order(orderId: string, item: string, quantity: int,
                         creditCardExpiry: string, itemsToPack: seq<string>)

  /** The packing progress a heartbeat carries: the last packed index and its item. */
  datatype PackingCheckpoint = PackingCheckpoint(lastProcessedIdx: int, lastItemSku: string)

  /** The current year and month, which the payment step reads from the clock. */
  datatype YearMonth = YearMonth(year: int, month: int)

  // ---------------------------------------------------------------- payment

  /**
   * The expiry as (year, month): the string split at `/` into exactly two
   * integers, month first, with 2000 added to the year.
   */
  function ParseExpiry(expiry: string): (r: Result<YearMonth, Error>)
    ensures r.Failure? ==> r.error == ValueError
    ensures r.Success? ==>
      var parts := Split(expiry, '/');
      && |parts| == 2
      && ParseInt(parts[0]) == Success(r.value.month)
      && ParseInt(parts[1]) == Success(r.value.year - 2000)
  {
    var parts := Split(expiry, '/');
    if |parts| != 2 then Failure(ValueError)
    else match (ParseInt(parts[0]), ParseInt(parts[1]))
      case (Success(month), Success(year)) => Success(YearMonth(year + 2000, month))
      case _ => Failure(ValueError)
  }

  /**
   * A parsable expiry has exactly one `/`; the integer before it is the month
   * and the integer after it is the year less 2000.
   */
  lemma ParsedExpiryHasOneSlash(expiry: string)
    requires ParseExpiry(expiry).Success?
    ensures var ym := ParseExpiry(expiry).value;
      exists i :: 0 <= i < |expiry| && expiry[i] == '/' && Free(expiry[..i], '/') && Free(expiry[i + 1..], '/')
        && ParseInt(expiry[..i]) == Success(ym.month) && ParseInt(expiry[i + 1..]) == Success(ym.year - 2000)
  {
    var parts := Split(expiry, '/');
    assert Join(parts[1..], '/') == parts[1];
    var i := |parts[0]|;
    assert expiry == parts[0] + ['/'] + parts[1];
    assert expiry[..i] == parts[0] && expiry[i + 1..] == parts[1];
  }

  /**
   * Conversely, month and year strings without a `/` that `int` accepts,
   * joined by a `/`, parse to that month and the year plus 2000.
   */
  lemma ParseExpiryOfParts(month: string, year: string)
    requires Free(month, '/') && Free(year, '/')
    requires ParseInt(month).Success? && ParseInt(year).Success?
    ensures ParseExpiry(month + "/" + year) == Success(YearMonth(ParseInt(year).value + 2000, ParseInt(month).value))
  {
    SplitPair(month, year, '/');
  }

  /** A card written with two-digit month and year parses back to them. */
  lemma ParseExpiryOfCard(month: nat, year: nat)
    requires month < 100 && year < 100
    ensures ParseExpiry(Pad2(month) + "/" + Pad2(year)) == Success(YearMonth(2000 + year, month))
  {
    ParseIntOfPad2(month);
    ParseIntOfPad2(year);
    ParseExpiryOfParts(Pad2(month), Pad2(year));
  }

  /** The card has expired: its year is past, or it is this year and its month is past. */
  predicate CardExpired(expiry: YearMonth, now: YearMonth) {
    expiry.year < now.year || (expiry.year == now.year && expiry.month < now.month)
  }

  /** Months counted from year 0, a reference order on calendar months. */
  function MonthNumber(ym: YearMonth): int {
    ym.year * 12 + (ym.month - 1)
  }

  /**
   * For calendar months the expiry test is "the expiry month lies before
   * the current month"; a card expiring this month is still accepted, and
   * a card accepted now is accepted at every earlier time.
   */
  lemma CardExpiredIsEarlierMonth(expiry: YearMonth, now: YearMonth)
    requires 1 <= expiry.month <= 12 && 1 <= now.month <= 12
    ensures CardExpired(expiry, now) <==> MonthNumber(expiry) < MonthNumber(now)
    ensures !CardExpired(now, now)
  {
    if expiry.year < now.year {
      assert MonthNumber(expiry) <= expiry.year * 12 + 11 < now.year * 12 <= MonthNumber(now);
    } else if expiry.year > now.year {
      assert MonthNumber(now) <= now.year * 12 + 11 < expiry.year * 12 <= MonthNumber(expiry);
    }
  }

  lemma {:induction false} AcceptedStaysAcceptedEarlier(expiry: YearMonth, earlier: YearMonth, later: YearMonth)
    requires 1 <= expiry.month <= 12 && 1 <= earlier.month <= 12 && 1 <= later.month <= 12
    requires MonthNumber(earlier) <= MonthNumber(later)
    requires !CardExpired(expiry, later)
    ensures !CardExpired(expiry, earlier)
  {
    CardExpiredIsEarlierMonth(expiry, later);
    CardExpiredIsEarlierMonth(expiry, earlier);
  }

  const InvalidExpiryMessage := "Invalid credit card expiry"

  /** The payment step at clock reading `now`. */
  function ProcessPayment(order: Order, now: YearMonth): (r: Result<string, Error>)
    ensures r.Success? ==> r.value == "Payment processed for order " + order.orderId
  {
    match ParseExpiry(order.creditCardExpiry)
    case Failure(e) => Failure(e)
    case Success(expiry) =>
      if CardExpired(expiry, now) then Failure(ApplicationError(InvalidExpiryMessage))
      else Success("Payment processed for order " + order.orderId)
  }

  /**
   * For a card written `MM/YY` the payment is accepted exactly when the
   * card's month, in the 2000s, is not before the current month.
   */
  lemma PaymentOfCard(order: Order, month: nat, year: nat, now: YearMonth)
    requires month < 100 && year < 100
    requires order.creditCardExpiry == Pad2(month) + "/" + Pad2(year)
    ensures ProcessPayment(order, now).Success? <==> !(2000 + year < now.year || (2000 + year == now.year && month < now.month))
    ensures ProcessPayment(order, now).Failure? ==> ProcessPayment(order, now).error == ApplicationError(InvalidExpiryMessage)
  {
    ParseExpiryOfCard(month, year);
  }

  // -------------------------------------------------------------- inventory

  const InventoryAttemptsDown := 4

  /** The inventory step on attempt `attempt` (counted from 1). */
  function ReserveInventory(order: Order, inventoryDown: bool, attempt: nat): (r: Result<string, Error>)
    ensures r.Failure? <==> inventoryDown && attempt <= InventoryAttemptsDown
  {
    if inventoryDown then
      if attempt <= InventoryAttemptsDown then
        Failure(ApplicationError("Inventory service down (attempt " + NatToString(attempt) + ")"))
      else
        Success("Inventory reserved for order " + order.orderId
                + " (recovered after " + NatToString(attempt) + " attempts)")
    else
      Success("Inventory reserved for order " + order.orderId)
  }

  /** What the first `n` attempts of the inventory step return. */
  function InventoryOutcomes(order: Order, inventoryDown: bool, n: nat): (outcomes: seq<Result<string, Error>>)
    ensures |outcomes| == n
  {
    seq(n, k requires 0 <= k < n => ReserveInventory(order, inventoryDown, k + 1))
  }

  /**
   * While the service is down, retrying without limit succeeds on the fifth
   * attempt (and not before), while a single attempt gives up; when it is up,
   * the first attempt succeeds.
   */
  lemma InventoryUnderRetries(order: Order, n: nat)
    ensures n >= 5 ==> (Execute(DefaultRetryPolicy, InventoryOutcomes(order, true, n))
                        == Succeeded("Inventory reserved for order " + order.orderId + " (recovered after 5 attempts)", 5))
    ensures n < 5 ==> Execute(DefaultRetryPolicy, InventoryOutcomes(order, true, n)) == StillRetrying
    ensures n >= 1 ==> (Execute(Attempts(1), InventoryOutcomes(order, true, n))
                        == GaveUp(ApplicationError("Inventory service down (attempt 1)"), 1))
    ensures n >= 1 ==> (Execute(Attempts(1), InventoryOutcomes(order, false, n))
                        == Succeeded("Inventory reserved for order " + order.orderId, 1))
  {
    var down := InventoryOutcomes(order, true, n);
    assert NatToString(1) == "1" && NatToString(5) == "5";
    if n >= 1 {
      assert down[0] == Failure(ApplicationError("Inventory service down (attempt " + NatToString(1) + ")"));
      assert InventoryOutcomes(order, false, n)[0] == Success("Inventory reserved for order " + order.orderId);
    }
    var k := 0;
    while k < n && k < 4
      invariant 0 <= k <= n && k <= 4
      invariant Execute(DefaultRetryPolicy, down) == ExecuteFrom(DefaultRetryPolicy, down, k)
    {
      assert down[k].Failure?;
      k := k + 1;
    }
    if n >= 5 {
      assert k == 4;
      assert ExecuteFrom(DefaultRetryPolicy, down, 4) == Succeeded(down[4].value, 5);
      assert "Inventory reserved for order " + order.orderId + " (recovered after " + "5" + " attempts)"
          == "Inventory reserved for order " + order.orderId + " (recovered after 5 attempts)";
      assert down[4] == Success("Inventory reserved for order " + order.orderId
                                + " (recovered after " + NatToString(5) + " attempts)");
    }
  }

  // --------------------------------------------------------------- delivery

  /** The delivery message names the order between a fixed prefix and suffix. */
  function DeliverOrder(order: Order): (r: string)
    ensures |r| == |order.orderId| + 16
    ensures r[..6] == "Order " && r[6..|r| - 10] == order.orderId && r[|r| - 10..] == " delivered"
  {
    "Order " + order.orderId + " delivered"
  }

  // ---------------------------------------------------------------- packing

  /**
   * A heartbeat payload handed back on a retried attempt: the checkpoint
   * itself, or the dictionary the default converter decodes it into.
   */
  datatype PackingPayload = PackingObject(checkpoint: PackingCheckpoint) | PackingRaw(fields: map<string, Json>)

  /** The dictionary form of a checkpoint. */
  function PackingToRaw(cp: PackingCheckpoint): map<string, Json> {
    map["last_processed_idx" := JInt(cp.lastProcessedIdx), "last_item_sku" := JStr(cp.lastItemSku)]
  }

  /**
   * The last processed index a payload records. Building the checkpoint
   * from a dictionary needs exactly its two fields; the index is then
   * incremented, which works for an integer (or a boolean, an integer in
   * Python) and raises TypeError for anything else.
   */
  function LastProcessedIndex(p: PackingPayload): (r: Result<int, Error>)
    ensures p.PackingObject? ==> r == Success(p.checkpoint.lastProcessedIdx)
    ensures p.PackingRaw? ==>
      (r.Success? <==> p.fields.Keys == {"last_processed_idx", "last_item_sku"}
                       && (p.fields["last_processed_idx"].JInt? || p.fields["last_processed_idx"].JBool?))
    ensures p.PackingRaw? && r.Success? && p.fields["last_processed_idx"].JInt? ==> r.value == p.fields["last_processed_idx"].i
    ensures p.PackingRaw? && r.Success? && p.fields["last_processed_idx"].JBool? ==> r.value == if p.fields["last_processed_idx"].b then 1 else 0
    ensures r.Failure? ==> r.error == TypeError
  {
    match p
    case PackingObject(cp) => Success(cp.lastProcessedIdx)
    case PackingRaw(fields) =>
      if fields.Keys != {"last_processed_idx", "last_item_sku"} then Failure(TypeError)
      else match fields["last_processed_idx"]
        case JInt(i) => Success(i)
        case JBool(b) => Success(if b then 1 else 0)
        case _ => Failure(TypeError)
  }

  /** A checkpoint and its dictionary form record the same index. */
  lemma PackingRawRoundTrip(cp: PackingCheckpoint)
    ensures LastProcessedIndex(PackingRaw(PackingToRaw(cp))) == LastProcessedIndex(PackingObject(cp))
  {
    assert PackingToRaw(cp).Keys == {"last_processed_idx", "last_item_sku"};
  }

  /** Where an attempt starts: 0 without details, else one past the first detail's index. */
  function StartIndex(details: seq<PackingPayload>): (r: Result<int, Error>)
    ensures |details| == 0 ==> r == Success(0)
    ensures |details| > 0 && LastProcessedIndex(details[0]).Success? ==> r == Success(LastProcessedIndex(details[0]).value + 1)
    ensures |details| > 0 && LastProcessedIndex(details[0]).Failure? ==> r == LastProcessedIndex(details[0])
  {
    if |details| == 0 then Success(0)
    else match LastProcessedIndex(details[0])
      case Success(last) => Success(last + 1)
      case Failure(e) => Failure(e)
  }

  /** `items[idx]` with Python's negative indices counting from the end. */
  function ItemAt(items: seq<string>, idx: int): (r: Result<string, Error>)
    ensures r.Success? <==> -|items| <= idx < |items|
    ensures 0 <= idx < |items| ==> r == Success(items[idx])
    ensures -|items| <= idx < 0 ==> r == Success(items[|items| + idx])
  {
    if 0 <= idx < |items| then Success(items[idx])
    else if -|items| <= idx < 0 then Success(items[|items| + idx])
    else Failure(IndexError)
  }

  /** The heartbeats of packing `n` items from index `start` on. */
  function PackPrefix(items: seq<string>, start: int, n: nat): (hs: seq<PackingCheckpoint>)
    requires -|items| <= start && start + n <= |items|
    ensures |hs| == n
  {
    seq(n, k requires 0 <= k < n => PackingCheckpoint(start + k, ItemAt(items, start + k).value))
  }

  /** The heartbeats of packing from index `start` to the end. */
  function PackHeartbeats(items: seq<string>, start: int): seq<PackingCheckpoint>
    requires -|items| <= start
  {
    if start >= |items| then [] else PackPrefix(items, start, |items| - start)
  }

  /** The packing result: the decimal item count, which `int` reads back, between fixed words. */
  function PackedMessage(items: seq<string>): (msg: string)
    ensures |msg| > 13 && msg[..7] == "Packed " && msg[|msg| - 6..] == " items"
    ensures ParseInt(msg[7..|msg| - 6]) == Success(|items|)
  {
    ParseIntOfNatToString(|items|);
    var digits := NatToString(|items|);
    assert ("Packed " + digits + " items")[7..|digits| + 7] == digits;
    "Packed " + digits + " items"
  }

  /**
   * What one attempt of the packing step does with the given heartbeat
   * details: the result and the heartbeats it sends.
   */
  function PackOutcome(items: seq<string>, details: seq<PackingPayload>): (Result<string, Error>, seq<PackingCheckpoint>) {
    match StartIndex(details)
    case Failure(e) => (Failure(e), [])
    case Success(start) =>
      if start < -|items| then (Failure(IndexError), [])
      else (Success(PackedMessage(items)), PackHeartbeats(items, start))
  }

  /** The packing step: resume from the details, then one heartbeat per packed item. */
  method PackOrderItems(items: seq<string>, details: seq<PackingPayload>)
    returns (result: Result<string, Error>, heartbeats: seq<PackingCheckpoint>)
    ensures (result, heartbeats) == PackOutcome(items, details)
  {
    var total := |items|;
    var startIdx := 0;
    heartbeats := [];
    if |details| > 0 {
      var last := LastProcessedIndex(details[0]);
      if last.Failure? {
        return Failure(last.error), heartbeats;
      }
      startIdx := last.value + 1;
    }
    var idx := startIdx;
    while idx < total
      invariant startIdx <= idx
      invariant startIdx <= total ==> idx <= total
      invariant idx == startIdx ==> heartbeats == []
      invariant idx > startIdx ==> -total <= startIdx && idx <= total && heartbeats == PackPrefix(items, startIdx, idx - startIdx)
    {
      var sku := ItemAt(items, idx);
      if sku.Failure? {
        return Failure(sku.error), heartbeats;
      }
      heartbeats := heartbeats + [PackingCheckpoint(idx, sku.value)];
      idx := idx + 1;
    }
    result := Success(PackedMessage(items));
  }

  /**
   * Heartbeats go out in index order, one per index from `start` to the
   * end, each carrying the item at that index.
   */
  lemma PackHeartbeatsInOrder(items: seq<string>, start: int)
    requires -|items| <= start
    ensures |PackHeartbeats(items, start)| == if start >= |items| then 0 else |items| - start
    ensures forall k :: 0 <= k < |PackHeartbeats(items, start)| ==>
      PackHeartbeats(items, start)[k].lastProcessedIdx == start + k
      && PackHeartbeats(items, start)[k].lastItemSku == ItemAt(items, start + k).value
    ensures forall j, k :: 0 <= j < k < |PackHeartbeats(items, start)| ==>
      PackHeartbeats(items, start)[j].lastProcessedIdx < PackHeartbeats(items, start)[k].lastProcessedIdx
  {
  }

  /** The full pass of a fresh attempt: every item, in order. */
  function AllItems(items: seq<string>): (hs: seq<PackingCheckpoint>)
    ensures |hs| == |items|
  {
    seq(|items|, k requires 0 <= k < |items| => PackingCheckpoint(k, items[k]))
  }

  /**
   * A fresh attempt packs every item; an attempt resumed from the heartbeat
   * of index `i` packs exactly the items after it, so nothing heartbeated is
   * packed again. Both report the total number of items.
   */
  lemma {:induction false} ResumeSkipsPacked(items: seq<string>, i: nat)
    requires i < |items|
    ensures PackOutcome(items, []) == (Success(PackedMessage(items)), AllItems(items))
    ensures PackOutcome(items, [PackingObject(AllItems(items)[i])]) == (Success(PackedMessage(items)), AllItems(items)[i + 1..])
    ensures PackOutcome(items, [PackingRaw(PackingToRaw(AllItems(items)[i]))]) == PackOutcome(items, [PackingObject(AllItems(items)[i])])
  {
    PackingRawRoundTrip(AllItems(items)[i]);
    assert PackHeartbeats(items, 0) == AllItems(items);
    assert PackHeartbeats(items, i + 1) == AllItems(items)[i + 1..];
  }
}
