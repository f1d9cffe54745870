/** The persisted rollup document, one per flow, as both dashboards read it
    and as the generator writes it. Every field the readers default is a
    `Value`, so that a missing key, a JSON null and a string stay apart. */
module RollupDoc {
  import opened PyValues
  import opened StatusLattice

  /** One requested order line. */
  datatype Item = Item(sku: string, qtyRequested: int, uom: Option<string>)

  datatype Rollup = Rollup(
    correlationId: Value,
    route: Value,
    idocNumber: Value,
    plant: Value,
    sapOrder: Value,
    items: seq<Item>,
    // tech block
    techHealth: Value,
    techLastCheckpoint: Value,
    techLastStatus: Value,
    techReason: Value,
    // business block
    bizHealth: Value,
    bizStatus: Value,
    bizReason: Value,
    // sla block; `slaBreach` is the truthiness of the stored flag
    slaState: Value,
    slaDue: Option<int>,
    slaActual: Option<int>,
    slaBreach: bool,
    // send time, seconds
    sentAt: int)

  /** A stored health is one of the three colour names. */
  predicate IsColourName(v: Value) {
    v == Str("GREEN") || v == Str("AMBER") || v == Str("RED")
  }

  /** A stored SLA state is one of the three state names. */
  predicate IsSlaStateName(v: Value) {
    v == Str("OK") || v == Str("AT_RISK") || v == Str("BREACH")
  }

  /** A rollup as the generator writes it: both healths and the SLA state are
      present, upper-case names. */
  predicate Canonical(r: Rollup) {
    IsColourName(r.techHealth) && IsColourName(r.bizHealth) && IsSlaStateName(r.slaState)
  }

  /** The four display rows both dashboards emit per flow: FLOW, TECH, BUSINESS, SLA. */
  datatype NodeType = FlowNode | TechNode | BusinessNode | SlaNode

  /** The kind of the k-th of a flow's four rows. */
  function KindAt(k: nat): NodeType {
    if k == 0 then FlowNode else if k == 1 then TechNode else if k == 2 then BusinessNode else SlaNode
  }

  /** The four dashboard axes a tile id can name. */
  datatype Axis = OverallAxis | TechAxis | BusinessAxis | SlaAxis {
    function Prefix(): string {
      match this
      case OverallAxis => "overall_"
      case TechAxis => "tech_"
      case BusinessAxis => "business_"
      case SlaAxis => "sla_"
    }
  }

  datatype Tile = Tile(axis: Axis, suffix: string)

  /** The tile id `overall_<colour>`. */
  function OverallTile(c: Color): string {
    OverallAxis.Prefix() + c.Name()
  }

  /** The prefix dispatch both filter_rollups variants share: the first of
      `overall_`, `tech_`, `business_`, `sla_` the id starts with, and the text
      after the first underscore; None for any other id. */
  function ParseTile(tileId: string): Option<Tile> {
    if StartsWith(tileId, "overall_") then Some(Tile(OverallAxis, tileId[8..]))
    else if StartsWith(tileId, "tech_") then Some(Tile(TechAxis, tileId[5..]))
    else if StartsWith(tileId, "business_") then Some(Tile(BusinessAxis, tileId[9..]))
    else if StartsWith(tileId, "sla_") then Some(Tile(SlaAxis, tileId[4..]))
    else None
  }

  /** Parsing a tile id built from an axis prefix and any suffix gives back
      that axis and that suffix: the four prefixes never shadow each other. */
  lemma ParseTileRoundTrip(a: Axis, suffix: string)
    ensures ParseTile(a.Prefix() + suffix) == Some(Tile(a, suffix))
  {
    var t := a.Prefix() + suffix;
    assert t[..|a.Prefix()|] == a.Prefix();
    assert t[|a.Prefix()|..] == suffix;
    match a
    case OverallAxis =>
    case TechAxis => assert t[0] == 't';
    case BusinessAxis => assert t[0] == 'b';
    case SlaAxis => assert t[0] == 's';
  }
}
