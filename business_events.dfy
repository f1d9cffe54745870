/** The business side of the generator: the outcome draw, the response time,
    the confirmed order lines and the rejection pair of the generation loop,
    and make_business_event, which turns a flow into its WMS business event.
    Probabilities are integer parts per million; every random draw is a parameter. */
module BusinessEvents {
  import opened PyValues
  import opened RollupDoc
  import opened FlowDoc

  // ------------------------------------------------------------------
  // Outcome draw
  // ------------------------------------------------------------------

  /** The share of each outcome in parts per million, given transport OK:
      no response 0.1%, UoM mismatch 0.05%, confirmed above request 0.05%,
      reject 0.2%, partial 0.6%, and the rest OK. */
  function OutcomePpm(o: Outcome): nat {
    match o
    case NotSent => 0
    case NoResponse => 1000
    case UomMismatch => 500
    case ConfirmedGt => 500
    case Reject => 2000
    case Partial => 6000
    case OkOutcome => 1000000 - 10000
  }

  /** The order in which the draw tests the outcomes. */
  const DrawOrder: seq<Outcome> := [NoResponse, UomMismatch, ConfirmedGt, Reject, Partial, OkOutcome]

  /** The cumulative threshold below which the first k outcomes of DrawOrder are drawn. */
  function Below(k: nat): nat
    requires k <= |DrawOrder|
  {
    if k == 0 then 0 else Below(k - 1) + OutcomePpm(DrawOrder[k - 1])
  }

  /** The outcome of a transported flow, for a draw `r` of random.random()
      in parts per million: the k-th outcome of the draw order exactly when
      the draw lies in its band [Below(k), Below(k + 1)). */
  function DecideOutcome(r: nat): (o: Outcome)
    requires r < 1000000
    ensures o != NotSent
    ensures forall k :: 0 <= k < |DrawOrder| ==> (o == DrawOrder[k] <==> Below(k) <= r < Below(k + 1))
  {
    BandEdges();
    if r < 1000 then NoResponse
    else if r < 1500 then UomMismatch
    else if r < 2000 then ConfirmedGt
    else if r < 4000 then Reject
    else if r < 10000 then Partial
    else OkOutcome
  }

  /** The position of an outcome in the draw order. */
  function DrawIndex(o: Outcome): (k: nat)
    requires o != NotSent
    ensures k < |DrawOrder| && DrawOrder[k] == o
  {
    match o
    case NoResponse => 0
    case UomMismatch => 1
    case ConfirmedGt => 2
    case Reject => 3
    case Partial => 4
    case OkOutcome => 5
  }

  /** Each outcome is drawn on a single band of draws exactly as wide as its
      share: the draws DecideOutcome maps to `o` are the OutcomePpm(o) values
      starting at Below(DrawIndex(o)), and the band lies within one million. So
      a uniform draw gives `o` with probability OutcomePpm(o) / 1000000. */
  lemma OutcomeBand(o: Outcome)
    requires o != NotSent
    ensures Below(DrawIndex(o)) + OutcomePpm(o) <= 1000000
    ensures forall r :: 0 <= r < 1000000 ==>
      (DecideOutcome(r) == o <==> Below(DrawIndex(o)) <= r < Below(DrawIndex(o)) + OutcomePpm(o))
  {
    BandEdges();
  }

  /** The cumulative thresholds of the draw: 0.1%, then + 0.05%, + 0.05%,
      + 0.2%, + 0.6%, and the rest. */
  lemma BandEdges()
    ensures Below(0) == 0 && Below(1) == 1000 && Below(2) == 1500 && Below(3) == 2000
    ensures Below(4) == 4000 && Below(5) == 10000 && Below(6) == 1000000
  {
    assert Below(1) == 1000;
    assert Below(2) == 1500;
    assert Below(3) == 2000;
    assert Below(4) == 4000;
    assert Below(5) == 10000;
  }

  // ------------------------------------------------------------------
  // Response time
  // ------------------------------------------------------------------

  /** The draws of the response time: the late test in parts per million, the
      lateness `randint(10, 240)` and the in-time value `randint(5, max(10, due - 5))`. */
  datatype ResponseDraws = ResponseDraws(late: nat, lateBy: nat, inTime: nat)

  function Max(a: int, b: int): int {
    if a >= b then a else b
  }

  predicate ValidResponseDraws(due: int, d: ResponseDraws) {
    d.late < 1000000 && 10 <= d.lateBy <= 240 && 5 <= d.inTime <= Max(10, due - 5)
  }

  /** business_resp_sec: none without a response; with probability 0.4% late by
      10 to 240 seconds; otherwise between 5 and max(10, due - 5). */
  function ResponseTime(outcome: Outcome, due: int, d: ResponseDraws): (t: Option<int>)
    requires ValidResponseDraws(due, d)
    ensures t.None? <==> outcome == NoResponse
    ensures t.Some? && d.late < 4000 ==> due + 10 <= t.value <= due + 240
    ensures t.Some? && d.late >= 4000 ==> 5 <= t.value <= Max(10, due - 5)
  {
    if outcome == NoResponse then None
    else if d.late < 4000 then Some(due + d.lateBy)
    else Some(d.inTime)
  }

  /** For the three SLA windows the generator uses, a response breaches the
      SLA exactly when the late draw fired. */
  lemma BreachIffLate(outcome: Outcome, due: int, d: ResponseDraws)
    requires due in {60, 120, 180} && ValidResponseDraws(due, d) && outcome != NoResponse
    ensures ResponseTime(outcome, due, d).value > due <==> d.late < 4000
  {
  }

  // ------------------------------------------------------------------
  // Confirmed order lines and the rejection pair
  // ------------------------------------------------------------------

  /** The draw a line's confirmed quantity takes: `randint(1, req)` for a
      partial confirmation, `randint(1, 3)` for an over-confirmation, none otherwise. */
  predicate ValidQtyDraw(outcome: Outcome, req: int, d: nat) {
    match outcome
    case Partial => 1 <= d <= req
    case ConfirmedGt => 1 <= d <= 3
    case _ => true
  }

  /** The confirmed quantity of one line of `req` requested units. */
  function ConfirmedQty(outcome: Outcome, req: int, d: nat): (q: int)
    requires ValidQtyDraw(outcome, req, d)
    ensures outcome == Partial ==> 0 <= q < req
    ensures outcome == ConfirmedGt ==> req < q <= req + 3
    ensures outcome == Reject || outcome == UomMismatch ==> q == 0
    ensures outcome in {NotSent, NoResponse, OkOutcome} ==> q == req
  {
    match outcome
    case Partial =>
      var conf := Max(0, req - d);
      if conf == req then Max(0, req - 1) else conf
    case ConfirmedGt => req + d
    case Reject => 0
    case UomMismatch => 0
    case _ => req
  }

  /** Lines are confirmed only for a flow that was transported, did not fail
      silently at ingest and got a response. */
  predicate Confirms(flow: Flow) {
    flow.transport.None? && !flow.falseSuccess && flow.outcome != NoResponse
  }

  /** The confirmed line of each requested line: same SKU and unit, the
      confirmed quantity of the flow's outcome. */
  function ConfirmedLines(outcome: Outcome, items: seq<Item>, draws: seq<nat>): (lines: seq<ConfirmedItem>)
    requires |draws| == |items|
    requires forall i :: 0 <= i < |items| ==> ValidQtyDraw(outcome, items[i].qtyRequested, draws[i])
    ensures |lines| == |items|
  {
    if items == [] then []
    else
      ConfirmedLines(outcome, items[..|items| - 1], draws[..|draws| - 1])
      + [ConfirmedItem(items[|items| - 1].sku,
                       ConfirmedQty(outcome, items[|items| - 1].qtyRequested, draws[|draws| - 1]),
                       items[|items| - 1].uom)]
  }

  lemma {:induction false} ConfirmedLinesAt(outcome: Outcome, items: seq<Item>, draws: seq<nat>, i: int)
    requires |draws| == |items|
    requires forall i :: 0 <= i < |items| ==> ValidQtyDraw(outcome, items[i].qtyRequested, draws[i])
    requires 0 <= i < |items|
    ensures ConfirmedLines(outcome, items, draws)[i] ==
      ConfirmedItem(items[i].sku, ConfirmedQty(outcome, items[i].qtyRequested, draws[i]), items[i].uom)
  {
    if i < |items| - 1 {
      ConfirmedLinesAt(outcome, items[..|items| - 1], draws[..|draws| - 1], i);
    }
  }

  /** The loop that fills confirmed_items: empty unless the flow confirms; otherwise
      one line per requested line, in order. */
  method ConfirmItems(flow: Flow, draws: seq<nat>) returns (confirmed: seq<ConfirmedItem>)
    requires |draws| == |flow.items|
    requires forall i :: 0 <= i < |flow.items| ==> ValidQtyDraw(flow.outcome, flow.items[i].qtyRequested, draws[i])
    ensures !Confirms(flow) ==> confirmed == []
    ensures Confirms(flow) ==> confirmed == ConfirmedLines(flow.outcome, flow.items, draws)
  {
    confirmed := [];
    if Confirms(flow) {
      var k := 0;
      while k < |flow.items|
        invariant 0 <= k <= |flow.items|
        invariant confirmed == ConfirmedLines(flow.outcome, flow.items[..k], draws[..k])
      {
        var it := flow.items[k];
        var conf := ConfirmedQty(flow.outcome, it.qtyRequested, draws[k]);
        confirmed := confirmed + [ConfirmedItem(it.sku, conf, it.uom)];
        assert flow.items[..k + 1][..k] == flow.items[..k];
        assert draws[..k + 1][..k] == draws[..k];
        k := k + 1;
      }
      assert flow.items[..k] == flow.items;
      assert draws[..k] == draws;
    }
  }

  function Sum(qs: seq<int>): int {
    if qs == [] then 0 else Sum(qs[..|qs| - 1]) + qs[|qs| - 1]
  }

  lemma SumSnoc(qs: seq<int>, q: int)
    ensures Sum(qs + [q]) == Sum(qs) + q
  {
    assert (qs + [q])[..|qs|] == qs;
  }

  function Requested(items: seq<Item>): seq<int> {
    seq(|items|, i requires 0 <= i < |items| => items[i].qtyRequested)
  }

  function Confirmed(lines: seq<ConfirmedItem>): seq<int> {
    seq(|lines|, i requires 0 <= i < |lines| => lines[i].qtyConfirmed)
  }

  /** The order totals: a full confirmation confirms exactly what was requested,
      a partial one strictly less, an over-confirmation strictly more (for a
      non-empty order), and a reject or UoM mismatch nothing. */
  lemma {:induction false} ConfirmedTotals(outcome: Outcome, items: seq<Item>, draws: seq<nat>)
    requires |draws| == |items|
    requires forall i :: 0 <= i < |items| ==> ValidQtyDraw(outcome, items[i].qtyRequested, draws[i])
    ensures var c := Sum(Confirmed(ConfirmedLines(outcome, items, draws))); var r := Sum(Requested(items));
      && (outcome == OkOutcome ==> c == r)
      && (outcome == Partial && items != [] ==> c < r)
      && (outcome == ConfirmedGt && items != [] ==> c > r)
      && (outcome == Reject || outcome == UomMismatch ==> c == 0)
  {
    if items != [] {
      var n := |items| - 1;
      ConfirmedTotals(outcome, items[..n], draws[..n]);
      TotalsSnoc(outcome, items, draws);
    }
  }

  /** The last line adds its confirmed and its requested quantity to the totals. */
  lemma TotalsSnoc(outcome: Outcome, items: seq<Item>, draws: seq<nat>)
    requires |draws| == |items| && items != []
    requires forall i :: 0 <= i < |items| ==> ValidQtyDraw(outcome, items[i].qtyRequested, draws[i])
    ensures var n := |items| - 1;
      && Sum(Confirmed(ConfirmedLines(outcome, items, draws))) ==
         Sum(Confirmed(ConfirmedLines(outcome, items[..n], draws[..n]))) + ConfirmedQty(outcome, items[n].qtyRequested, draws[n])
      && Sum(Requested(items)) == Sum(Requested(items[..n])) + items[n].qtyRequested
  {
    var n := |items| - 1;
    var prev := ConfirmedLines(outcome, items[..n], draws[..n]);
    var q := ConfirmedQty(outcome, items[n].qtyRequested, draws[n]);
    var line := ConfirmedItem(items[n].sku, q, items[n].uom);
    assert ConfirmedLines(outcome, items, draws) == prev + [line];
    ConfirmedSnoc(prev, line);
    RequestedSnoc(items[..n], items[n]);
    assert items[..n] + [items[n]] == items;
    SumSnoc(Confirmed(prev), q);
    SumSnoc(Requested(items[..n]), items[n].qtyRequested);
  }

  lemma ConfirmedSnoc(lines: seq<ConfirmedItem>, line: ConfirmedItem)
    ensures Confirmed(lines + [line]) == Confirmed(lines) + [line.qtyConfirmed]
  {
  }

  lemma RequestedSnoc(items: seq<Item>, item: Item)
    ensures Requested(items + [item]) == Requested(items) + [item.qtyRequested]
  {
  }

  const RejectChoices: seq<Rejection> := [
    Rejection("SKU_UNKNOWN", "Unknown SKU"),
    Rejection("BLOCKED_SHIP_TO", "Invalid ship-to / blocked customer"),
    Rejection("VALIDATION_ERROR", "Mandatory field missing in order")]

  /** The (reject_code, reject_detail) pair: one of three for a reject, the
      fixed UoM pair for a UoM mismatch, none otherwise. */
  function RejectionFor(outcome: Outcome, choice: nat): (rj: Option<Rejection>)
    requires choice < 3
    ensures rj.Some? <==> outcome == Reject || outcome == UomMismatch
    ensures outcome == Reject ==> rj.value in RejectChoices
    ensures outcome == UomMismatch ==> rj.value.code == "UOM_MISMATCH"
  {
    if outcome == Reject then Some(RejectChoices[choice])
    else if outcome == UomMismatch then Some(Rejection("UOM_MISMATCH", "UoM mismatch EA vs PCS"))
    else None
  }

  // ------------------------------------------------------------------
  // make_business_event
  // ------------------------------------------------------------------

  datatype WmsStatus = WmsNone | WmsConfirmed | WmsPartial | WmsRejected {
    function Name(): string {
      match this
      case WmsNone => "NONE"
      case WmsConfirmed => "CONFIRMED"
      case WmsPartial => "PARTIAL"
      case WmsRejected => "REJECTED"
    }
  }

  datatype BizStatus = BizOk | Degraded | BizFail {
    function Name(): string {
      match this
      case BizOk => "OK"
      case Degraded => "DEGRADED"
      case BizFail => "FAIL"
    }
  }

  /** The business event; `wmsItems` is the confirmed lines the WMS response
      carries (none for status NONE), times are seconds. */
  datatype BusinessEvent = BusinessEvent(
    correlationId: string,
    sapOrder: string,
    items: seq<Item>,
    wmsStatus: WmsStatus,
    wmsDetail: Option<string>,
    wmsItems: seq<ConfirmedItem>,
    due: int,
    actual: Option<int>,
    breach: bool,
    status: BizStatus,
    reason: string,
    sentAt: int,
    respondedAt: Option<int>)

  /** What the generation loop guarantees of a flow before the business event
      is made: a transported flow has a drawn outcome, a response time unless
      nobody responded, and a rejection pair for a reject or UoM mismatch. */
  predicate ReadyForBusiness(flow: Flow) {
    flow.transport.None? ==>
      && flow.outcome != NotSent
      && (flow.outcome != NoResponse ==> flow.respSec.Some?)
      && (flow.outcome in {Reject, UomMismatch} ==> flow.rejection.Some?)
  }

  /** The extra seconds the two unanswered cases add to the due time:
      randint(60, 600) after a silent ingest failure, randint(1, 3600) without a response. */
  predicate ValidLateExtra(flow: Flow, extra: nat) {
    if flow.transport.Some? then true
    else if flow.falseSuccess then 60 <= extra <= 600
    else if flow.outcome == NoResponse then 1 <= extra <= 3600
    else true
  }

  /** The flow got a WMS response the business event reports. */
  predicate Responded(flow: Flow) {
    flow.transport.None? && !flow.falseSuccess && flow.outcome != NoResponse
  }

  /** make_business_event. */
  function MakeBusinessEvent(flow: Flow, extra: nat): (e: BusinessEvent)
    requires ReadyForBusiness(flow) && ValidLateExtra(flow, extra)
    // the event's own identity
    ensures e.correlationId == flow.correlationId && e.sapOrder == flow.sapOrder && e.items == flow.items
    ensures e.due == flow.slaDue && e.sentAt == flow.sentAt
    // the WMS answer
    ensures e.wmsStatus == WmsNone <==> !Responded(flow)
    ensures e.wmsItems == if Responded(flow) then flow.confirmed else []
    ensures e.respondedAt.Some? <==> Responded(flow)
    ensures Responded(flow) ==> e.actual == flow.respSec && e.respondedAt == Some(flow.sentAt + flow.respSec.value)
    // the SLA verdict
    ensures e.actual.None? <==> flow.transport.Some?
    ensures e.breach <==> !Responded(flow) || flow.respSec.value > flow.slaDue
    ensures !Responded(flow) && flow.transport.None? ==> e.actual.value > flow.slaDue
    // the status
    ensures e.status == BizOk <==> Responded(flow) && flow.outcome == OkOutcome && !e.breach
    ensures e.status == Degraded <==> Responded(flow) && flow.outcome == Partial && !e.breach
    ensures e.status == BizOk ==> e.reason == "FULL_CONFIRM"
    ensures flow.transport.Some? ==> e.reason == "NOT_SENT_DUE_TECH_FAILURE"
    ensures flow.transport.None? && flow.falseSuccess ==> e.reason == "WMS_INGEST_FAILED_AFTER_HTTP_204"
  {
    var cid := flow.correlationId;
    var due := flow.slaDue;
    if flow.transport.Some? then
      BusinessEvent(cid, flow.sapOrder, flow.items, WmsNone, None, [], due, None, true,
                    BizFail, "NOT_SENT_DUE_TECH_FAILURE", flow.sentAt, None)
    else if flow.falseSuccess then
      BusinessEvent(cid, flow.sapOrder, flow.items, WmsNone, None, [], due, Some(due + extra), true,
                    BizFail, "WMS_INGEST_FAILED_AFTER_HTTP_204", flow.sentAt, None)
    else if flow.outcome == NoResponse then
      BusinessEvent(cid, flow.sapOrder, flow.items, WmsNone, None, [], due, Some(due + extra), true,
                    BizFail, "NO_WMS_RESPONSE", flow.sentAt, None)
    else
      var resp := flow.respSec.value;
      var breach := resp > due;
      var base := BusinessEvent(cid, flow.sapOrder, flow.items, WmsNone, None, flow.confirmed, due, Some(resp),
                                breach, BizFail, "", flow.sentAt, Some(flow.sentAt + resp));
      match flow.outcome
      case OkOutcome =>
        base.(wmsStatus := WmsConfirmed,
              status := if !breach then BizOk else BizFail,
              reason := if !breach then "FULL_CONFIRM" else "SLA_BREACH_LATE_RESPONSE")
      case Partial =>
        base.(wmsStatus := WmsPartial,
              status := if !breach then Degraded else BizFail,
              reason := if !breach then "QTY_MISMATCH_PARTIAL" else "SLA_BREACH_PARTIAL_LATE")
      case Reject =>
        base.(wmsStatus := WmsRejected, wmsDetail := Some(flow.rejection.value.detail),
              status := BizFail,
              reason := if !breach then flow.rejection.value.code else "SLA_BREACH_" + flow.rejection.value.code)
      case ConfirmedGt =>
        base.(wmsStatus := WmsConfirmed, status := BizFail, reason := "CONFIRMED_GT_REQUESTED")
      case UomMismatch =>
        base.(wmsStatus := WmsRejected, wmsDetail := Some("UoM mismatch EA vs PCS"),
              status := BizFail, reason := "UOM_MISMATCH")
  }

  /** A breached SLA always fails the business event, and only a full or partial
      confirmation can avoid FAIL. */
  lemma BreachMeansFail(flow: Flow, extra: nat)
    requires ReadyForBusiness(flow) && ValidLateExtra(flow, extra)
    ensures var e := MakeBusinessEvent(flow, extra);
      (e.breach ==> e.status == BizFail) &&
      (e.status != BizFail ==> flow.outcome in {OkOutcome, Partial})
  {
  }

  /** The unanswered cases and the answers that always fail: no response is a
      FAIL with NO_WMS_RESPONSE; an over-confirmation and a UoM mismatch fail
      whatever the timing. */
  lemma FailureReasons(flow: Flow, extra: nat)
    requires ReadyForBusiness(flow) && ValidLateExtra(flow, extra)
    ensures var e := MakeBusinessEvent(flow, extra);
      && (flow.transport.None? && !flow.falseSuccess && flow.outcome == NoResponse ==>
            e.status == BizFail && e.reason == "NO_WMS_RESPONSE" && e.breach && e.actual.value > flow.slaDue)
      && (Responded(flow) && flow.outcome == ConfirmedGt ==>
            e.status == BizFail && e.reason == "CONFIRMED_GT_REQUESTED" && e.wmsStatus == WmsConfirmed)
      && (Responded(flow) && flow.outcome == UomMismatch ==>
            e.status == BizFail && e.reason == "UOM_MISMATCH" && e.wmsStatus == WmsRejected)
  {
  }

  /** An answer in time is reported with the reason and WMS status of its outcome. */
  lemma OnTimeReasons(flow: Flow, extra: nat)
    requires ReadyForBusiness(flow) && ValidLateExtra(flow, extra)
    requires Responded(flow) && flow.respSec.value <= flow.slaDue
    ensures var e := MakeBusinessEvent(flow, extra);
      && (flow.outcome == OkOutcome ==> e.status == BizOk && e.reason == "FULL_CONFIRM" && e.wmsStatus == WmsConfirmed)
      && (flow.outcome == Partial ==> e.status == Degraded && e.reason == "QTY_MISMATCH_PARTIAL" && e.wmsStatus == WmsPartial)
      && (flow.outcome == Reject ==> e.status == BizFail && e.reason == flow.rejection.value.code && e.wmsStatus == WmsRejected)
  {
  }

  /** A late answer is reported with the breach reason of its outcome. */
  lemma LateReasons(flow: Flow, extra: nat)
    requires ReadyForBusiness(flow) && ValidLateExtra(flow, extra)
    requires Responded(flow) && flow.respSec.value > flow.slaDue
    ensures var e := MakeBusinessEvent(flow, extra);
      && (flow.outcome == OkOutcome ==> e.reason == "SLA_BREACH_LATE_RESPONSE")
      && (flow.outcome == Partial ==> e.reason == "SLA_BREACH_PARTIAL_LATE")
      && (flow.outcome == Reject ==> e.reason == "SLA_BREACH_" + flow.rejection.value.code)
  {
  }
}
