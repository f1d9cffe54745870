/** make_rollup: the per-flow rollup document the dashboards read, derived
    from the flow, its last tech event and its business event. */
module RollupDerivation {
  import opened PyValues
  import opened StatusLattice
  import opened RollupDoc
  import opened FlowDoc
  import opened TechEvents
  import opened BusinessEvents

  const Route: string := "SAP->PO->FW->SCXConnect->WMS"

  /** Some event of the list is a FAIL at WMS_INGESTED. */
  predicate IngestFailed(events: seq<TechEvent>) {
    exists e :: e in events && e.status == Fail && e.checkpoint == WmsIngested
  }

  /** tech.health: RED when the last event is not OK or when some event failed at
      WMS ingest, else GREEN. */
  function TechHealth(last: TechEvent, events: seq<TechEvent>): Color {
    if last.status != Ok then Red
    else if IngestFailed(events) then Red
    else Green
  }

  /** business.health: AMBER for DEGRADED, RED for FAIL, else GREEN. */
  function BusinessHealth(s: BizStatus): Color {
    var h := if s == Degraded then Amber else Green;
    if s == BizFail then Red else h
  }

  /** sla.state: BREACH on a breach; AT_RISK when the actual response is past
      80% of the due time (5 * actual > 4 * due); else OK. */
  function SlaStateOf(e: BusinessEvent): SlaState {
    if e.breach then Breach
    else if e.actual.Some? && 5 * e.actual.value > 4 * e.due then AtRisk
    else SlaOk
  }

  /** make_rollup, with `events` the flow's tech events and `last` the last of them. */
  function MakeRollup(flow: Flow, events: seq<TechEvent>, last: TechEvent, e: BusinessEvent): (r: Rollup)
    // identity and order
    ensures r.correlationId == Str(flow.correlationId) && r.sapOrder == Str(flow.sapOrder)
    ensures r.idocNumber == Str(flow.idocNumber) && r.plant == Str(flow.plant) && r.items == flow.items
    ensures r.route == Str(Route) && r.sentAt == flow.sentAt
    ensures Canonical(r)
    // tech block: never AMBER
    ensures r.techHealth == Str("RED") || r.techHealth == Str("GREEN")
    ensures r.techHealth == Str("RED") <==> last.status == Fail || IngestFailed(events)
    ensures r.techLastCheckpoint == Str(last.checkpoint.Name()) && r.techLastStatus == Str(last.status.Name())
    ensures r.techReason == Str(last.reason)
    // business block
    ensures r.bizHealth == Str("AMBER") <==> e.status == Degraded
    ensures r.bizHealth == Str("RED") <==> e.status == BizFail
    ensures r.bizStatus == Str(e.status.Name()) && r.bizReason == Str(e.reason)
    // sla block
    ensures r.slaState == Str("BREACH") <==> e.breach
    ensures r.slaState == Str("AT_RISK") <==> !e.breach && e.actual.Some? && 5 * e.actual.value > 4 * e.due
    ensures r.slaDue == Some(e.due) && r.slaActual == e.actual && r.slaBreach == e.breach
  {
    Rollup(
      Str(flow.correlationId), Str(Route), Str(flow.idocNumber), Str(flow.plant), Str(flow.sapOrder), flow.items,
      Str(TechHealth(last, events).Name()), Str(last.checkpoint.Name()), Str(last.status.Name()), Str(last.reason),
      Str(BusinessHealth(e.status).Name()), Str(e.status.Name()), Str(e.reason),
      Str(SlaStateOf(e).Name()), Some(e.due), e.actual, e.breach,
      flow.sentAt)
  }

  /** The SLA colour of a rollup agrees with its business event: RED on a
      breach, AMBER when at risk, GREEN otherwise. */
  lemma SlaColourOfRollup(flow: Flow, events: seq<TechEvent>, last: TechEvent, e: BusinessEvent)
    ensures var r := MakeRollup(flow, events, last, e);
      SlaStateToStatus(r.slaState) == (if e.breach then Red
                                       else if e.actual.Some? && 5 * e.actual.value > 4 * e.due then Amber
                                       else Green)
  {
    var r := MakeRollup(flow, events, last, e);
    SlaStateToStatusTable(SlaStateOf(e).Name(), SlaStateOf(e));
  }
}
