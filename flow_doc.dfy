/** The generator's vocabulary: the nine transport checkpoints, the transport
    failure codes with the checkpoint each one belongs to, the business
    outcomes, and the per-flow record the generation loop fills in. */
module FlowDoc {
  import opened PyValues
  import opened RollupDoc

  /** The transport checkpoints, in pipeline order. */
  datatype Checkpoint =
    | SapIdocCreated | SapSchemaValidation | SapPoReceived | PoMappingOk | PoSentHttp
    | FwEgressAllowed | ScxconnectReceived | ScxconnectHttpAck | WmsIngested
  {
    function Name(): string {
      match this
      case SapIdocCreated => "SAP_IDOC_CREATED"
      case SapSchemaValidation => "SAP_SCHEMA_VALIDATION"
      case SapPoReceived => "SAP_PO_RECEIVED"
      case PoMappingOk => "PO_MAPPING_OK"
      case PoSentHttp => "PO_SENT_HTTP"
      case FwEgressAllowed => "FW_EGRESS_ALLOWED"
      case ScxconnectReceived => "SCXCONNECT_RECEIVED"
      case ScxconnectHttpAck => "SCXCONNECT_HTTP_ACK"
      case WmsIngested => "WMS_INGESTED"
    }

    /** Position in the pipeline, 0 to 8. */
    function Index(): nat {
      match this
      case SapIdocCreated => 0
      case SapSchemaValidation => 1
      case SapPoReceived => 2
      case PoMappingOk => 3
      case PoSentHttp => 4
      case FwEgressAllowed => 5
      case ScxconnectReceived => 6
      case ScxconnectHttpAck => 7
      case WmsIngested => 8
    }

    /** The reason code of the OK event at this checkpoint. */
    function OkReason(): string {
      match this
      case SapIdocCreated => "CREATED"
      case SapSchemaValidation => "SCHEMA_OK"
      case SapPoReceived => "RECEIVED_BY_PO"
      case PoMappingOk => "MAPPING_OK"
      case PoSentHttp => "HTTP_SENT"
      case FwEgressAllowed => "ALLOWED"
      case ScxconnectReceived => "RECEIVED"
      case ScxconnectHttpAck => "HTTP_204"
      case WmsIngested => "INGESTED"
    }

    /** The endpoint system that reports this checkpoint. */
    function System(): string {
      match this
      case SapIdocCreated | SapSchemaValidation => "SAP"
      case SapPoReceived | PoMappingOk | PoSentHttp => "SAP/PO"
      case FwEgressAllowed => "FIREWALL"
      case ScxconnectReceived | ScxconnectHttpAck => "SCExpert/Connect"
      case WmsIngested => "SCExpert/WMS"
    }

    function Host(): string {
      match this
      case SapIdocCreated | SapSchemaValidation => "sap-prd-01"
      case SapPoReceived | PoMappingOk | PoSentHttp => "po-prd-01"
      case FwEgressAllowed => "fw-edge-01"
      case ScxconnectReceived | ScxconnectHttpAck => "scxconnect-01"
      case WmsIngested => "wms-01"
    }
  }

  /** The checkpoint at pipeline position k. */
  function CheckpointAt(k: nat): (c: Checkpoint)
    requires k < 9
    ensures c.Index() == k
  {
    [SapIdocCreated, SapSchemaValidation, SapPoReceived, PoMappingOk, PoSentHttp,
     FwEgressAllowed, ScxconnectReceived, ScxconnectHttpAck, WmsIngested][k]
  }

  /** The transport failure codes. */
  datatype FailureCode =
    | SchemaInvalidField | PoMappingError | FirewallDrop | TlsCertExpired | DnsFailure
    | Http504 | Http500 | Http401 | Http413 | ConnectionReset | PoQueueBacklog
  {
    function Name(): string {
      match this
      case SchemaInvalidField => "SCHEMA_INVALID_FIELD"
      case PoMappingError => "PO_MAPPING_ERROR"
      case FirewallDrop => "FIREWALL_DROP"
      case TlsCertExpired => "TLS_CERT_EXPIRED"
      case DnsFailure => "DNS_FAILURE"
      case Http504 => "HTTP_504"
      case Http500 => "HTTP_500"
      case Http401 => "HTTP_401"
      case Http413 => "HTTP_413"
      case ConnectionReset => "CONNECTION_RESET"
      case PoQueueBacklog => "PO_QUEUE_BACKLOG"
    }

    /** The reason_transport table: the checkpoint at which each code fails. */
    function TableCheckpoint(): Checkpoint {
      match this
      case SchemaInvalidField => SapSchemaValidation
      case PoMappingError => PoMappingOk
      case FirewallDrop => FwEgressAllowed
      case TlsCertExpired | DnsFailure | ConnectionReset | PoQueueBacklog => PoSentHttp
      case Http504 | Http500 | Http401 | Http413 => ScxconnectHttpAck
    }
  }

  /** A transport failure as pick_failure reports it: a code and a checkpoint. */
  datatype Failure = Failure(code: FailureCode, checkpoint: Checkpoint)

  /** The (code, checkpoint) pair is a row of the reason_transport table. */
  predicate ConsistentFailure(f: Failure) {
    f.checkpoint == f.code.TableCheckpoint()
  }

  /** Business outcomes; NotSent marks a flow whose transport failed. */
  datatype Outcome = NotSent | NoResponse | UomMismatch | ConfirmedGt | Reject | Partial | OkOutcome {
    function Name(): string {
      match this
      case NotSent => "NOT_SENT"
      case NoResponse => "NO_RESPONSE"
      case UomMismatch => "UOM_MISMATCH"
      case ConfirmedGt => "CONFIRMED_GT"
      case Reject => "REJECT"
      case Partial => "PARTIAL"
      case OkOutcome => "OK"
    }
  }

  /** One confirmed order line. */
  datatype ConfirmedItem = ConfirmedItem(sku: string, qtyConfirmed: int, uom: Option<string>)

  /** The (reject_code, reject_detail) pair of a rejected or UoM-mismatched flow. */
  datatype Rejection = Rejection(code: string, detail: string)

  /** The flow record of the generation loop. `transport` is None exactly when
      transport_ok; times are seconds. */
  datatype Flow = Flow(
    correlationId: string,
    idocNumber: string,
    sapOrder: string,
    plant: string,
    schema: string,
    items: seq<Item>,
    slaDue: int,
    sentAt: int,
    transport: Option<Failure>,
    latency: int,
    falseSuccess: bool,
    outcome: Outcome,
    respSec: Option<int>,
    confirmed: seq<ConfirmedItem>,
    rejection: Option<Rejection>)
}
