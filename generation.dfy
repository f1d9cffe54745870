/** The generation loop: for flow i, the identifiers, the transport failure,
    latency and silent-ingest flag, the business outcome, response time,
    confirmed lines and rejection pair, then the tech events, the business
    event and the rollup. Every random draw is a field of FlowDraws. */
module Generation {
  import opened PyValues
  import opened Decimal
  import opened StatusLattice
  import opened RollupDoc
  import opened Identifiers
  import opened FlowDoc
  import opened TechEvents
  import opened BusinessEvents
  import opened RollupDerivation

  const Plants: seq<string> := ["DC01", "DC02", "DC03"]
  const Schemas: seq<string> := ["ORDERS_v7", "ORDERS_v6", "ORDERS_v8"]
  const SlaWindows: seq<int> := [60, 120, 180]

  /** The random draws of one iteration. Probabilities are in parts per million;
      `latencyCenti` is randint(80, 450), the transport latency in hundredths of
      a second; `partialDraws` and `overDraws` are the per-line draws of a partial
      and of an over-confirmation; `ingestExtra` and `silenceExtra` are the
      seconds past due of a silent ingest failure and of a missing response. */
  datatype FlowDraws = FlowDraws(
    sentAt: int,
    day: Day,
    plant: nat,
    schema: nat,
    items: seq<Item>,
    slaWindow: nat,
    failureR: nat,
    otherChoice: nat,
    latencyCenti: nat,
    falseSuccessR: nat,
    outcomeR: nat,
    response: ResponseDraws,
    partialDraws: seq<nat>,
    overDraws: seq<nat>,
    rejectChoice: nat,
    tech: TechDraws,
    ingestExtra: nat,
    silenceExtra: nat)

  /** The ranges the generator's draws fall in: one to three lines of 1 to 12
      units, and every draw within the bounds of its random call. */
  predicate ValidFlowDraws(d: FlowDraws) {
    && ValidDay(d.day)
    && d.plant < 3 && d.schema < 3 && d.slaWindow < 3
    && 1 <= |d.items| <= 3
    && (forall k :: 0 <= k < |d.items| ==> 1 <= d.items[k].qtyRequested <= 12)
    && d.failureR < 1000000 && d.otherChoice < 6
    && 80 <= d.latencyCenti <= 450
    && d.falseSuccessR < 1000000 && d.outcomeR < 1000000
    && ValidResponseDraws(SlaWindows[d.slaWindow], d.response)
    && |d.partialDraws| == |d.items| && |d.overDraws| == |d.items|
    && (forall k :: 0 <= k < |d.items| ==> 1 <= d.partialDraws[k] <= d.items[k].qtyRequested)
    && (forall k :: 0 <= k < |d.items| ==> 1 <= d.overDraws[k] <= 3)
    && d.rejectChoice < 3
    && ValidTechDraws(d.tech)
    && 60 <= d.ingestExtra <= 600 && 1 <= d.silenceExtra <= 3600
  }

  /** The extra seconds the business event adds for an unanswered flow. */
  function LateExtra(flow: Flow, d: FlowDraws): nat {
    if flow.falseSuccess then d.ingestExtra else d.silenceExtra
  }

  /** The confirmed lines the drawn quantities give for an outcome: the
      over-confirmation draws for CONFIRMED_GT, the partial draws otherwise. */
  function DrawnLines(outcome: Outcome, d: FlowDraws): (lines: seq<ConfirmedItem>)
    requires ValidFlowDraws(d)
    ensures |lines| == |d.items|
  {
    ConfirmedLines(outcome, d.items, if outcome == ConfirmedGt then d.overDraws else d.partialDraws)
  }

  /** The flow record of iteration i, before its events are made: identifiers,
      the transport failure, latency and silent-ingest flag, the outcome, the
      response time, the confirmed lines and the rejection pair. */
  method DrawFlow(i: nat, d: FlowDraws) returns (flow: Flow)
    requires ValidFlowDraws(d)
    ensures flow.correlationId == CorrId(i, d.day) && flow.idocNumber == IdocNumber(i)
    ensures flow.sapOrder == SapOrderNumber(i) && flow.items == d.items
    ensures flow.slaDue == SlaWindows[d.slaWindow] && 0 <= flow.latency <= 4
    ensures flow.transport.None? <==> d.failureR >= 9000
    ensures flow.transport.Some? ==>
      ConsistentFailure(flow.transport.value) && flow.outcome == NotSent && !flow.falseSuccess
    ensures flow.transport.None? ==>
      flow.outcome == DecideOutcome(d.outcomeR) && flow.respSec == ResponseTime(flow.outcome, flow.slaDue, d.response)
    ensures flow.falseSuccess <==> flow.transport.None? && d.falseSuccessR < 800
    ensures flow.plant == Plants[d.plant] && flow.schema == Schemas[d.schema]
    ensures flow.sentAt == d.sentAt && flow.latency == d.latencyCenti / 100
    ensures flow.confirmed == if Confirms(flow) then DrawnLines(flow.outcome, d) else []
    ensures flow.rejection == RejectionFor(flow.outcome, d.rejectChoice)
    ensures ReadyForBusiness(flow) && ValidLateExtra(flow, LateExtra(flow, d))
  {
    flow := DrawTransport(i, d);
    flow := DrawAnswer(flow, d);
  }

  /** The first part of iteration i: identifiers, SLA window, the transport
      failure, latency and silent-ingest flag; nothing answered yet. */
  method DrawTransport(i: nat, d: FlowDraws) returns (flow: Flow)
    requires ValidFlowDraws(d)
    ensures flow.correlationId == CorrId(i, d.day) && flow.idocNumber == IdocNumber(i)
    ensures flow.sapOrder == SapOrderNumber(i) && flow.items == d.items
    ensures flow.plant == Plants[d.plant] && flow.schema == Schemas[d.schema]
    ensures flow.slaDue == SlaWindows[d.slaWindow] && flow.sentAt == d.sentAt
    ensures flow.latency == d.latencyCenti / 100 && 0 <= flow.latency <= 4
    ensures flow.transport.None? <==> d.failureR >= 9000
    ensures flow.transport.Some? ==> ConsistentFailure(flow.transport.value)
    ensures flow.falseSuccess <==> flow.transport.None? && d.falseSuccessR < 800
    ensures flow.outcome == NotSent && flow.respSec.None? && flow.confirmed == [] && flow.rejection.None?
  {
    var failure := PickFailure(d.failureR, d.otherChoice);
    var transportOk := failure.None?;
    var latency := d.latencyCenti / 100;
    var falseSuccess := transportOk && d.falseSuccessR < 800;
    flow := Flow(CorrId(i, d.day), IdocNumber(i), SapOrderNumber(i), Plants[d.plant], Schemas[d.schema],
                 d.items, SlaWindows[d.slaWindow], d.sentAt, failure, latency, falseSuccess, NotSent, None, [], None);
  }

  /** The second part of iteration i: the business outcome and response time
      of a transported flow, the confirmed lines and the rejection pair. Only
      those four fields change. */
  method DrawAnswer(flow: Flow, d: FlowDraws) returns (answered: Flow)
    requires ValidFlowDraws(d) && flow.items == d.items && flow.slaDue == SlaWindows[d.slaWindow]
    requires flow.outcome == NotSent && flow.respSec.None?
    ensures answered == flow.(outcome := answered.outcome, respSec := answered.respSec,
                              confirmed := answered.confirmed, rejection := answered.rejection)
    ensures flow.transport.Some? ==> answered.outcome == NotSent && answered.respSec.None?
    ensures flow.transport.None? ==>
      answered.outcome == DecideOutcome(d.outcomeR) &&
      answered.respSec == ResponseTime(answered.outcome, flow.slaDue, d.response)
    ensures answered.confirmed == if Confirms(answered) then DrawnLines(answered.outcome, d) else []
    ensures answered.rejection == RejectionFor(answered.outcome, d.rejectChoice)
  {
    answered := flow;
    if flow.transport.None? {
      var outcome := DecideOutcome(d.outcomeR);
      answered := answered.(outcome := outcome, respSec := ResponseTime(outcome, flow.slaDue, d.response));
    }
    var lineDraws := if answered.outcome == ConfirmedGt then d.overDraws else d.partialDraws;
    var confirmed := ConfirmItems(answered, lineDraws);
    answered := answered.(confirmed := confirmed, rejection := RejectionFor(answered.outcome, d.rejectChoice));
  }

  /** What the loop keeps of the rollup of flow i: canonical, never tech AMBER,
      and stamped with the flow's correlation id and SAP order. */
  predicate GeneratedRollup(r: Rollup, i: nat, d: FlowDraws) {
    && Canonical(r) && r.techHealth != Str("AMBER")
    && r.correlationId == Str(CorrId(i, d.day)) && r.sapOrder == Str(SapOrderNumber(i))
  }

  /** One iteration of the loop, for flow number i. */
  method GenerateFlow(i: nat, d: FlowDraws) returns (flow: Flow, events: seq<TechEvent>, biz: BusinessEvent, rollup: Rollup)
    requires ValidFlowDraws(d)
    ensures flow.correlationId == CorrId(i, d.day) && flow.sapOrder == SapOrderNumber(i)
    ensures flow.transport.Some? ==> ConsistentFailure(flow.transport.value) && !flow.falseSuccess
    ensures ReadyForBusiness(flow) && ValidLateExtra(flow, LateExtra(flow, d))
    ensures 2 <= |events| <= 9
    ensures biz == MakeBusinessEvent(flow, LateExtra(flow, d))
    ensures rollup == MakeRollup(flow, events, events[|events| - 1], biz)
    // what the rollup then says
    ensures GeneratedRollup(rollup, i, d)
    ensures rollup.techHealth == Str("RED") <==> flow.transport.Some? || flow.falseSuccess
    ensures flow.transport.Some? ==>
      && rollup.techLastCheckpoint == Str(flow.transport.value.checkpoint.Name())
      && rollup.techReason == Str(flow.transport.value.code.Name())
      && rollup.bizStatus == Str("FAIL") && rollup.bizReason == Str("NOT_SENT_DUE_TECH_FAILURE")
      && rollup.slaState == Str("BREACH") && rollup.slaActual.None?
    ensures flow.falseSuccess ==>
      && rollup.techLastCheckpoint == Str("WMS_INGESTED") && rollup.techReason == Str("WMS_INGEST_FAILED")
      && rollup.bizReason == Str("WMS_INGEST_FAILED_AFTER_HTTP_204") && rollup.slaState == Str("BREACH")
    ensures flow.transport.None? ==>
      (rollup.slaState == Str("BREACH") <==> flow.falseSuccess || flow.outcome == NoResponse || d.response.late < 4000)
    ensures rollup.bizReason == Str("NOT_SENT_DUE_TECH_FAILURE") <==> flow.transport.Some?
  {
    flow := DrawFlow(i, d);
    events := FlowTechEvents(flow, d.tech);
    biz := MakeBusinessEvent(flow, LateExtra(flow, d));
    rollup := MakeRollup(flow, events, events[|events| - 1], biz);
    TechVerdict(flow, events, biz);
    SlaVerdict(d, flow, events);
    NotSentMeansTransportFailed(flow, LateExtra(flow, d), d.rejectChoice);
  }

  /** A generated business event carries NOT_SENT_DUE_TECH_FAILURE exactly when
      the flow's transport failed: every other branch of make_business_event
      gives another reason, and the rejection codes a drawn flow can carry are
      those of RejectionFor, none of which is that text. */
  lemma NotSentMeansTransportFailed(flow: Flow, extra: nat, choice: nat)
    requires ReadyForBusiness(flow) && ValidLateExtra(flow, extra) && choice < 3
    requires flow.rejection == RejectionFor(flow.outcome, choice)
    ensures MakeBusinessEvent(flow, extra).reason == "NOT_SENT_DUE_TECH_FAILURE" <==> flow.transport.Some?
  {
    var e := MakeBusinessEvent(flow, extra);
    if Responded(flow) && flow.outcome == Reject {
      var code := flow.rejection.value.code;
      assert code in {RejectChoices[0].code, RejectChoices[1].code, RejectChoices[2].code};
      assert ("SLA_BREACH_" + code)[0] == 'S';
    }
  }

  /** The business and SLA blocks of the rollup of a drawn flow: a flow that
      was not sent fails with NOT_SENT_DUE_TECH_FAILURE, and the SLA is
      breached exactly for a silent ingest failure, a missing response or a
      late draw. */
  lemma SlaVerdict(d: FlowDraws, flow: Flow, events: seq<TechEvent>)
    requires ValidFlowDraws(d) && flow.slaDue == SlaWindows[d.slaWindow]
    requires flow.transport.None? ==> flow.respSec == ResponseTime(flow.outcome, flow.slaDue, d.response)
    requires ReadyForBusiness(flow) && ValidLateExtra(flow, LateExtra(flow, d))
    requires |events| >= 1
    ensures var rollup := MakeRollup(flow, events, events[|events| - 1], MakeBusinessEvent(flow, LateExtra(flow, d)));
      && (flow.transport.Some? ==>
            && rollup.bizStatus == Str("FAIL") && rollup.bizReason == Str("NOT_SENT_DUE_TECH_FAILURE")
            && rollup.slaState == Str("BREACH") && rollup.slaActual.None?)
      && (flow.transport.None? && flow.falseSuccess ==>
            rollup.bizReason == Str("WMS_INGEST_FAILED_AFTER_HTTP_204") && rollup.slaState == Str("BREACH"))
      && (flow.transport.None? ==>
            (rollup.slaState == Str("BREACH") <==> flow.falseSuccess || flow.outcome == NoResponse || d.response.late < 4000))
  {
    BusinessVerdict(flow, events, LateExtra(flow, d));
    if flow.transport.None? && Responded(flow) {
      BreachIffLate(flow.outcome, flow.slaDue, d.response);
    }
  }

  /** The tech block of a generated rollup: RED exactly for a transport failure
      or a silent ingest failure, reported at the failing checkpoint. */
  lemma TechVerdict(flow: Flow, events: seq<TechEvent>, biz: BusinessEvent)
    requires |events| >= 2
    requires flow.transport.Some? ==> ConsistentFailure(flow.transport.value) && !flow.falseSuccess
    requires flow.transport.Some? ==>
      var last := events[|events| - 1];
      last.status == Fail && last.checkpoint == flow.transport.value.checkpoint &&
      last.reason == flow.transport.value.code.Name()
    requires flow.transport.None? ==>
      |events| == 9 && (events[8].status == Fail <==> flow.falseSuccess) && events[8].checkpoint == WmsIngested &&
      events[8].reason == (if flow.falseSuccess then "WMS_INGEST_FAILED" else "INGESTED")
    requires flow.transport.None? ==> (IngestFailed(events) <==> flow.falseSuccess)
    ensures var rollup := MakeRollup(flow, events, events[|events| - 1], biz);
      && (rollup.techHealth == Str("RED") <==> flow.transport.Some? || flow.falseSuccess)
      && (flow.transport.Some? ==>
            && rollup.techLastCheckpoint == Str(flow.transport.value.checkpoint.Name())
            && rollup.techReason == Str(flow.transport.value.code.Name()))
      && (flow.falseSuccess ==>
            rollup.techLastCheckpoint == Str("WMS_INGESTED") && rollup.techReason == Str("WMS_INGEST_FAILED"))
  {
  }

  /** The business and SLA blocks of a generated rollup for a flow that was not
      sent or failed silently at ingest. */
  lemma BusinessVerdict(flow: Flow, events: seq<TechEvent>, extra: nat)
    requires ReadyForBusiness(flow) && ValidLateExtra(flow, extra) && |events| >= 1
    ensures var rollup := MakeRollup(flow, events, events[|events| - 1], MakeBusinessEvent(flow, extra));
      && (flow.transport.Some? ==>
            && rollup.bizStatus == Str("FAIL") && rollup.bizReason == Str("NOT_SENT_DUE_TECH_FAILURE")
            && rollup.slaState == Str("BREACH") && rollup.slaActual.None?)
      && (flow.transport.None? && flow.falseSuccess ==>
            rollup.bizReason == Str("WMS_INGEST_FAILED_AFTER_HTTP_204") && rollup.slaState == Str("BREACH"))
      && (rollup.slaState == Str("BREACH") <==> !Responded(flow) || flow.respSec.value > flow.slaDue)
  {
  }

  /** make_tech_events for a generated flow, with what its rollup reads of the
      result: the last event, and whether some event failed at WMS ingest. */
  method FlowTechEvents(flow: Flow, d: TechDraws) returns (events: seq<TechEvent>)
    requires ValidTechDraws(d)
    requires flow.transport.Some? ==> ConsistentFailure(flow.transport.value)
    ensures 2 <= |events| <= 9
    ensures flow.transport.Some? ==>
      var last := events[|events| - 1];
      last.status == Fail && last.checkpoint == flow.transport.value.checkpoint &&
      last.reason == flow.transport.value.code.Name()
    ensures flow.transport.None? ==>
      |events| == 9 && (events[8].status == Fail <==> flow.falseSuccess) && events[8].checkpoint == WmsIngested &&
      events[8].reason == (if flow.falseSuccess then "WMS_INGEST_FAILED" else "INGESTED")
    ensures flow.transport.None? ==> (IngestFailed(events) <==> flow.falseSuccess)
  {
    events := MakeTechEvents(flow, d);
    EventsFacts(flow, d, events);
    if flow.transport.None? {
      IngestFailedIffFalseSuccess(flow, d, events);
    }
  }

  /** A transported flow's events show a WMS ingest failure exactly when the
      flow is a silent ingest failure. */
  lemma IngestFailedIffFalseSuccess(flow: Flow, d: TechDraws, events: seq<TechEvent>)
    requires flow.transport.None? && |events| == 9
    requires forall k :: 0 <= k < |events| - 1 ==> events[k].status == Ok
    requires events[8].checkpoint == WmsIngested && (events[8].status == Fail <==> flow.falseSuccess)
    ensures IngestFailed(events) <==> flow.falseSuccess
  {
    if IngestFailed(events) {
      var e :| e in events && e.status == Fail && e.checkpoint == WmsIngested;
      var k :| 0 <= k < |events| && events[k] == e;
      assert k == 8;
    }
    if flow.falseSuccess {
      assert events[8] in events;
    }
  }

  /** The generation loop over flows 1 to |draws|, collecting the rollups. */
  method Generate(draws: seq<FlowDraws>) returns (rollups: seq<Rollup>)
    requires forall k :: 0 <= k < |draws| ==> ValidFlowDraws(draws[k])
    ensures |rollups| == |draws|
    ensures forall k :: 0 <= k < |rollups| ==>
      GeneratedRollup(rollups[k], k + 1, draws[k])
    ensures forall k, l :: 0 <= k < l < |rollups| ==>
      rollups[k].correlationId != rollups[l].correlationId && rollups[k].sapOrder != rollups[l].sapOrder
  {
    rollups := [];
    var k := 0;
    while k < |draws|
      invariant 0 <= k <= |draws| && |rollups| == k
      invariant forall j :: 0 <= j < k ==>
        GeneratedRollup(rollups[j], j + 1, draws[j])
    {
      var flow, events, biz, rollup := GenerateFlow(k + 1, draws[k]);
      ghost var prev := rollups;
      rollups := rollups + [rollup];
      forall j | 0 <= j < k + 1
        ensures GeneratedRollup(rollups[j], j + 1, draws[j])
      {
        if j < k {
          assert rollups[j] == prev[j];
        }
      }
      k := k + 1;
    }
    GeneratedRollupsDistinct(rollups, draws);
  }

  /** The rollups of one run never share a correlation id or an SAP order, so
      every tree path and every SAP-order group of the dashboards holds one flow. */
  lemma GeneratedRollupsDistinct(rollups: seq<Rollup>, draws: seq<FlowDraws>)
    requires |rollups| == |draws|
    requires forall k :: 0 <= k < |draws| ==> ValidFlowDraws(draws[k])
    requires forall k :: 0 <= k < |rollups| ==> GeneratedRollup(rollups[k], k + 1, draws[k])
    ensures forall k, l :: 0 <= k < l < |rollups| ==>
      rollups[k].correlationId != rollups[l].correlationId && rollups[k].sapOrder != rollups[l].sapOrder
  {
    forall a, b | 0 <= a < b < |rollups|
      ensures rollups[a].correlationId != rollups[b].correlationId && rollups[a].sapOrder != rollups[b].sapOrder
    {
      DistinctFlows(a + 1, b + 1, draws[a].day, draws[b].day);
    }
  }
}
