/** pick_failure and make_tech_events: the cumulative-threshold choice of a
    transport failure, and the fixed checkpoint state machine that fails fast
    at the injected checkpoint. Probabilities are integer parts per million;
    every random draw is a parameter. */
module TechEvents {
  import opened PyValues
  import opened Decimal
  import opened FlowDoc

  // ------------------------------------------------------------------
  // pick_failure
  // ------------------------------------------------------------------

  /** One row of the cumulative table: probability in parts per million, the
      code, and the checkpoint (None for the "other" row, resolved after the draw). */
  datatype Bucket = Bucket(ppm: nat, code: FailureCode, checkpoint: Option<Checkpoint>)

  /** The codes random.choice picks from for the "other" row. */
  const OtherCodes: seq<FailureCode> := [DnsFailure, Http500, Http401, Http413, ConnectionReset, PoQueueBacklog]

  /** The table, in order: schema 0.2%, mapping 0.15%, firewall 0.08%, TLS 0.07%,
      other 0.1%, HTTP 504 0.3%. */
  function Buckets(other: FailureCode): seq<Bucket> {
    [Bucket(2000, SchemaInvalidField, Some(SapSchemaValidation)),
     Bucket(1500, PoMappingError, Some(PoMappingOk)),
     Bucket(800, FirewallDrop, Some(FwEgressAllowed)),
     Bucket(700, TlsCertExpired, Some(PoSentHttp)),
     Bucket(1000, other, None),
     Bucket(3000, Http504, Some(ScxconnectHttpAck))]
  }

  /** The running sum `cum` after the first k rows. */
  function Cum(bs: seq<Bucket>, k: nat): nat
    requires k <= |bs|
  {
    if k == 0 then 0 else Cum(bs, k - 1) + bs[k - 1].ppm
  }

  /** The checkpoint reported for a row: its own, or for the "other" row
      PO_SENT_HTTP for the connection-level codes and SCXCONNECT_HTTP_ACK otherwise. */
  function ResolveCheckpoint(b: Bucket): Checkpoint {
    match b.checkpoint
    case Some(c) => c
    case None =>
      if b.code in {DnsFailure, ConnectionReset, PoQueueBacklog, TlsCertExpired} then PoSentHttp
      else ScxconnectHttpAck
  }

  lemma {:induction false} CumMonotone(bs: seq<Bucket>, a: nat, b: nat)
    requires a <= b <= |bs|
    ensures Cum(bs, a) <= Cum(bs, b)
    decreases b
  {
    if a < b {
      CumMonotone(bs, a, b - 1);
    }
  }

  /** Every row the draw can select, once resolved, is a row of the
      reason_transport table. */
  lemma BucketsConsistent(other: FailureCode, k: nat)
    requires other in OtherCodes && k < 6
    ensures ConsistentFailure(Failure(Buckets(other)[k].code, ResolveCheckpoint(Buckets(other)[k])))
  {
  }

  /** pick_failure, with `r` the draw of random.random() in parts per million
      and `otherChoice` the index random.choice takes in the "other" codes.
      No failure iff the draw reaches the total 9000 (0.9%); otherwise the first
      row whose cumulative threshold exceeds the draw, consistent with the table. */
  method PickFailure(r: nat, otherChoice: nat) returns (failure: Option<Failure>)
    requires r < 1000000 && otherChoice < 6
    ensures failure.None? <==> r >= 9000
    ensures failure.Some? ==> ConsistentFailure(failure.value)
    ensures var bs := Buckets(OtherCodes[otherChoice]);
      forall k :: 0 <= k < 6 && Cum(bs, k) <= r < Cum(bs, k + 1) ==>
        failure == Some(Failure(bs[k].code, ResolveCheckpoint(bs[k])))
  {
    var bs := Buckets(OtherCodes[otherChoice]);
    var cum := 0;
    var i := 0;
    while i < |bs|
      invariant 0 <= i <= |bs|
      invariant cum == Cum(bs, i)
      invariant r >= cum
    {
      var b := bs[i];
      cum := cum + b.ppm;
      if r < cum {
        var checkpoint := b.checkpoint;
        if checkpoint.None? {
          checkpoint := Some(if b.code in {DnsFailure, ConnectionReset, PoQueueBacklog, TlsCertExpired}
                             then PoSentHttp else ScxconnectHttpAck);
        }
        forall k | 0 <= k < 6 && Cum(bs, k) <= r < Cum(bs, k + 1)
          ensures k == i
        {
          if k < i {
            CumMonotone(bs, k + 1, i);
          } else if k > i {
            CumMonotone(bs, i + 1, k);
          }
        }
        BucketsConsistent(OtherCodes[otherChoice], i);
        assert checkpoint.value == ResolveCheckpoint(b);
        CumMonotone(bs, i + 1, 6);
        return Some(Failure(b.code, checkpoint.value));
      }
      i := i + 1;
    }
    return None;
  }

  // ------------------------------------------------------------------
  // make_tech_events
  // ------------------------------------------------------------------

  datatype EventStatus = Ok | Fail {
    function Name(): string {
      match this
      case Ok => "OK"
      case Fail => "FAIL"
    }
  }

  /** The `http` block of an acknowledgement event. */
  datatype Http = Http(statusCode: int, latencyMs: int)

  /** One checkpoint event; the endpoint system and host are those of the
      checkpoint (Checkpoint.System and Checkpoint.Host), `at` is in seconds. */
  datatype TechEvent = TechEvent(
    checkpoint: Checkpoint,
    status: EventStatus,
    reason: string,
    detail: Option<string>,
    http: Option<Http>,
    at: int)

  /** The random draws make_tech_events takes: the index of the schema-error
      text, the adapter queue depth, the firewall rule number and the ingest delay. */
  datatype TechDraws = TechDraws(schemaDetail: nat, queueDepth: nat, fwRule: nat, ingestDelay: nat)

  predicate ValidTechDraws(d: TechDraws) {
    d.schemaDetail < 4 && 5000 <= d.queueDepth <= 20000 && 200 <= d.fwRule <= 299 && 1 <= d.ingestDelay <= 5
  }

  const SchemaDetails: seq<string> := [
    "Element 'ShipToParty' missing",
    "Invalid value for 'RequestedDeliveryDate'",
    "Unexpected element 'BatchNumber'",
    "Length exceeded for 'CustomerPO'"]

  /** Seconds after the send time at which each checkpoint is stamped:
      1, 2, 5, 8, 12, 13, 15, 15 + latency, then the ingest delay on top. */
  function Offset(c: Checkpoint, latency: int, delay: int): int {
    match c
    case SapIdocCreated => 1
    case SapSchemaValidation => 2
    case SapPoReceived => 5
    case PoMappingOk => 8
    case PoSentHttp => 12
    case FwEgressAllowed => 13
    case ScxconnectReceived => 15
    case ScxconnectHttpAck => 15 + latency
    case WmsIngested => 15 + latency + delay
  }

  /** The checkpoint at which the event list stops with a FAIL, testing the
      flow's failure in the order the code does: schema and mapping by reason,
      send by checkpoint, firewall by reason, acknowledgement by checkpoint.
      None when the list runs to WMS_INGESTED. */
  function FailurePoint(flow: Flow): Option<Checkpoint> {
    match flow.transport
    case None => None
    case Some(f) =>
      if f.code == SchemaInvalidField then Some(SapSchemaValidation)
      else if f.code == PoMappingError then Some(PoMappingOk)
      else if f.checkpoint == PoSentHttp then Some(PoSentHttp)
      else if f.code == FirewallDrop then Some(FwEgressAllowed)
      else if f.checkpoint == ScxconnectHttpAck then Some(ScxconnectHttpAck)
      else None
  }

  /** A consistent failure stops the list exactly at its own checkpoint. */
  lemma ConsistentFailureStopsAtItsCheckpoint(flow: Flow)
    requires flow.transport.Some? && ConsistentFailure(flow.transport.value)
    ensures FailurePoint(flow) == Some(flow.transport.value.checkpoint)
  {
  }

  /** The OK event at a checkpoint; the acknowledgement carries HTTP 204. */
  function OkEvent(flow: Flow, c: Checkpoint, delay: int): TechEvent {
    TechEvent(c, Ok, c.OkReason(), None,
              if c == ScxconnectHttpAck then Some(Http(204, flow.latency * 1000)) else None,
              flow.sentAt + Offset(c, flow.latency, delay))
  }

  /** The status code of a failed acknowledgement: 504, 500, 401, else 413. */
  function AckStatus(code: FailureCode): int {
    if code == Http504 then 504 else if code == Http500 then 500 else if code == Http401 then 401 else 413
  }

  /** The detail text of a failed send. */
  function SendDetail(code: FailureCode, d: TechDraws): Option<string> {
    if code == TlsCertExpired then Some("remote cert expired")
    else if code == DnsFailure then Some("wms.api.dreamcity.local not resolved")
    else if code == ConnectionReset then Some("connection reset by peer")
    else if code == PoQueueBacklog then Some("adapter queue depth=" + Digits(d.queueDepth))
    else None
  }

  /** The FAIL event at checkpoint c for failure f. */
  function FailEvent(flow: Flow, f: Failure, c: Checkpoint, d: TechDraws): TechEvent
    requires d.schemaDetail < 4
  {
    var at := flow.sentAt + Offset(c, flow.latency, d.ingestDelay);
    match c
    case SapSchemaValidation => TechEvent(c, Fail, f.code.Name(), Some(SchemaDetails[d.schemaDetail]), None, at)
    case PoMappingOk => TechEvent(c, Fail, f.code.Name(), Some("ValueMapping not found for plant=" + flow.plant), None, at)
    case PoSentHttp => TechEvent(c, Fail, f.code.Name(), SendDetail(f.code, d), None, at)
    case FwEgressAllowed => TechEvent(c, Fail, f.code.Name(), Some("Denied by rule FW-OUT-" + Digits(d.fwRule)), None, at)
    case _ => TechEvent(c, Fail, f.code.Name(), None, Some(Http(AckStatus(f.code), flow.latency * 1000)), at)
  }

  /** The last event when no failure stops the list: WMS_INGESTED, FAIL with
      WMS_INGEST_FAILED on a false success, else OK. */
  function IngestEvent(flow: Flow, delay: int): TechEvent {
    var at := flow.sentAt + Offset(WmsIngested, flow.latency, delay);
    if flow.falseSuccess then TechEvent(WmsIngested, Fail, "WMS_INGEST_FAILED", None, None, at)
    else TechEvent(WmsIngested, Ok, "INGESTED", None, None, at)
  }

  /** Stamps never go backwards along the pipeline when the latency is not negative. */
  lemma OffsetMonotone(a: Checkpoint, b: Checkpoint, latency: int, delay: int)
    requires latency >= 0 && delay >= 1 && a.Index() <= b.Index()
    ensures Offset(a, latency, delay) <= Offset(b, latency, delay)
  {
  }

  /** make_tech_events: the OK events of the pipeline in order up to the failure
      point, ending with the FAIL event there; without a failure point all nine
      checkpoints, ending with WMS_INGESTED. */
  method MakeTechEvents(flow: Flow, d: TechDraws) returns (events: seq<TechEvent>)
    requires ValidTechDraws(d)
    ensures |events| == if FailurePoint(flow).Some? then FailurePoint(flow).value.Index() + 1 else 9
    ensures forall k :: 0 <= k < |events| - 1 ==> events[k] == OkEvent(flow, CheckpointAt(k), d.ingestDelay)
    ensures FailurePoint(flow).Some? ==>
      events[|events| - 1] == FailEvent(flow, flow.transport.value, FailurePoint(flow).value, d)
    ensures FailurePoint(flow).None? ==> events[|events| - 1] == IngestEvent(flow, d.ingestDelay)
  {
    var failed := flow.transport.Some?;
    var delay := d.ingestDelay;
    events := [OkEvent(flow, SapIdocCreated, delay)];
    if failed && flow.transport.value.code == SchemaInvalidField {
      events := events + [FailEvent(flow, flow.transport.value, SapSchemaValidation, d)];
      return;
    }
    events := events + [OkEvent(flow, SapSchemaValidation, delay)];
    events := events + [OkEvent(flow, SapPoReceived, delay)];
    if failed && flow.transport.value.code == PoMappingError {
      events := events + [FailEvent(flow, flow.transport.value, PoMappingOk, d)];
      return;
    }
    events := events + [OkEvent(flow, PoMappingOk, delay)];
    if failed && flow.transport.value.checkpoint == PoSentHttp {
      events := events + [FailEvent(flow, flow.transport.value, PoSentHttp, d)];
      return;
    }
    events := events + [OkEvent(flow, PoSentHttp, delay)];
    if failed && flow.transport.value.code == FirewallDrop {
      events := events + [FailEvent(flow, flow.transport.value, FwEgressAllowed, d)];
      return;
    }
    events := events + [OkEvent(flow, FwEgressAllowed, delay)];
    events := events + [OkEvent(flow, ScxconnectReceived, delay)];
    if failed && flow.transport.value.checkpoint == ScxconnectHttpAck {
      events := events + [FailEvent(flow, flow.transport.value, ScxconnectHttpAck, d)];
      return;
    }
    events := events + [OkEvent(flow, ScxconnectHttpAck, delay)];
    events := events + [IngestEvent(flow, delay)];
  }

  /** The consequences of the list's definition that make_tech_events promises. */
  lemma EventsFacts(flow: Flow, d: TechDraws, events: seq<TechEvent>)
    requires ValidTechDraws(d)
    requires |events| == if FailurePoint(flow).Some? then FailurePoint(flow).value.Index() + 1 else 9
    requires forall k :: 0 <= k < |events| - 1 ==> events[k] == OkEvent(flow, CheckpointAt(k), d.ingestDelay)
    requires FailurePoint(flow).Some? ==>
      events[|events| - 1] == FailEvent(flow, flow.transport.value, FailurePoint(flow).value, d)
    requires FailurePoint(flow).None? ==> events[|events| - 1] == IngestEvent(flow, d.ingestDelay)
    ensures 2 <= |events| <= 9
    ensures events[0] == TechEvent(SapIdocCreated, Ok, "CREATED", None, None, flow.sentAt + 1)
    ensures forall k :: 0 <= k < |events| ==> events[k].checkpoint == CheckpointAt(k)
    ensures forall k :: 0 <= k < |events| - 1 ==> events[k].status == Ok
    ensures flow.latency >= 0 ==> forall k, l :: 0 <= k <= l < |events| ==> events[k].at <= events[l].at
    ensures flow.transport.Some? && ConsistentFailure(flow.transport.value) ==>
      var last := events[|events| - 1];
      last.status == Fail && last.checkpoint == flow.transport.value.checkpoint &&
      last.reason == flow.transport.value.code.Name()
    ensures flow.transport.Some? && flow.transport.value.code == SchemaInvalidField ==> |events| == 2
    ensures flow.transport.None? ==>
      |events| == 9 && (events[8].status == Fail <==> flow.falseSuccess) &&
      events[8].reason == (if flow.falseSuccess then "WMS_INGEST_FAILED" else "INGESTED")
  {
    var n := |events|;
    forall k | 0 <= k < n
      ensures events[k].checkpoint == CheckpointAt(k)
      ensures events[k].at == flow.sentAt + Offset(CheckpointAt(k), flow.latency, d.ingestDelay)
    {
      if k < n - 1 {
      } else if FailurePoint(flow).Some? {
        assert CheckpointAt(k) == FailurePoint(flow).value;
      }
    }
    if flow.latency >= 0 {
      forall k, l | 0 <= k <= l < n
        ensures events[k].at <= events[l].at
      {
        OffsetMonotone(CheckpointAt(k), CheckpointAt(l), flow.latency, d.ingestDelay);
      }
    }
    if flow.transport.Some? && ConsistentFailure(flow.transport.value) {
      ConsistentFailureStopsAtItsCheckpoint(flow);
    }
  }

  /** What the events carry besides checkpoint and status. Only the
      acknowledgement has an HTTP block, with the transport latency in
      milliseconds and status 204 exactly when it is OK; a failed
      acknowledgement reports the status named by its HTTP_nnn code (413 for
      the others). An OK event has its checkpoint's reason and no detail. The
      failing event explains itself: one of the four schema texts, the plant
      without a value mapping, the firewall rule, or for a failed send a detail
      exactly for the TLS, DNS, reset and backlog codes. The ingest event has
      neither detail nor HTTP block. */
  lemma EventPayloads(flow: Flow, d: TechDraws, events: seq<TechEvent>)
    requires ValidTechDraws(d)
    requires |events| == if FailurePoint(flow).Some? then FailurePoint(flow).value.Index() + 1 else 9
    requires forall k :: 0 <= k < |events| - 1 ==> events[k] == OkEvent(flow, CheckpointAt(k), d.ingestDelay)
    requires FailurePoint(flow).Some? ==>
      events[|events| - 1] == FailEvent(flow, flow.transport.value, FailurePoint(flow).value, d)
    requires FailurePoint(flow).None? ==> events[|events| - 1] == IngestEvent(flow, d.ingestDelay)
    ensures forall k :: 0 <= k < |events| ==> (events[k].http.Some? <==> events[k].checkpoint == ScxconnectHttpAck)
    ensures forall k :: 0 <= k < |events| && events[k].http.Some? ==>
      events[k].http.value.latencyMs == flow.latency * 1000 &&
      (events[k].http.value.statusCode == 204 <==> events[k].status == Ok)
    ensures forall k :: 0 <= k < |events| && events[k].status == Ok ==>
      events[k].reason == events[k].checkpoint.OkReason() && events[k].detail.None?
    ensures FailurePoint(flow) == Some(SapSchemaValidation) ==>
      events[|events| - 1].detail.Some? && events[|events| - 1].detail.value in SchemaDetails
    ensures FailurePoint(flow) == Some(PoMappingOk) ==>
      events[|events| - 1].detail == Some("ValueMapping not found for plant=" + flow.plant)
    ensures FailurePoint(flow) == Some(PoSentHttp) ==>
      (events[|events| - 1].detail.Some? <==>
       flow.transport.value.code in {TlsCertExpired, DnsFailure, ConnectionReset, PoQueueBacklog})
    ensures FailurePoint(flow) == Some(FwEgressAllowed) ==>
      events[|events| - 1].detail == Some("Denied by rule FW-OUT-" + Digits(d.fwRule))
    ensures FailurePoint(flow) == Some(ScxconnectHttpAck) ==>
      var code, status := flow.transport.value.code, events[|events| - 1].http.value.statusCode;
      && events[|events| - 1].detail.None?
      && status in {504, 500, 401, 413}
      && (code == Http504 ==> status == 504) && (code == Http500 ==> status == 500)
      && (code == Http401 ==> status == 401) && (code == Http413 ==> status == 413)
    ensures FailurePoint(flow).None? ==> events[|events| - 1].detail.None? && events[|events| - 1].http.None?
  {
    var n := |events|;
    forall k | 0 <= k < n
      ensures events[k].checkpoint == CheckpointAt(k)
      ensures events[k].http.Some? <==> events[k].checkpoint == ScxconnectHttpAck
      ensures events[k].http.Some? ==>
        events[k].http.value.latencyMs == flow.latency * 1000 &&
        (events[k].http.value.statusCode == 204 <==> events[k].status == Ok)
      ensures events[k].status == Ok ==> events[k].reason == events[k].checkpoint.OkReason() && events[k].detail.None?
    {
      if k < n - 1 {
      } else if FailurePoint(flow).Some? {
        assert CheckpointAt(k) == FailurePoint(flow).value;
      }
    }
  }
}
