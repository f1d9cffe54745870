/** The query layer of data_store.py: the flow aggregate, tile filters and
    counts, and the grouped display rows with their per-SAP-order back-fill.
    The rollup collection is a parameter instead of a module-level global. */
module DataStore {
  import opened PyValues
  import opened StatusLattice
  import opened RollupDoc

  /** `(tech.get("health") or "GREEN").upper()` */
  function TechStatus(r: Rollup): string {
    Upper(OrElse(r.techHealth, "GREEN"))
  }

  /** `(business.get("health") or "GREEN").upper()` */
  function BizStatus(r: Rollup): string {
    Upper(OrElse(r.bizHealth, "GREEN"))
  }

  /** `(sla.get("state") or "OK").upper()` */
  function SlaStateText(r: Rollup): string {
    Upper(OrElse(r.slaState, "OK"))
  }

  /** worst_overall: the worst of the two healths and the colour of the SLA state. */
  function WorstOverall(r: Rollup): Color {
    WorstStatus([TechStatus(r), BizStatus(r), SlaStateToStatus(Str(SlaStateText(r))).Name()])
  }

  /** The flow aggregate is RED iff some axis is RED (SLA: BREACH), else AMBER
      iff some axis is AMBER (SLA: AT_RISK), else GREEN; missing, null and empty
      axes count as GREEN / OK. */
  lemma WorstOverallCases(r: Rollup)
    ensures WorstOverall(r) == Red <==>
      TechStatus(r) == "RED" || BizStatus(r) == "RED" || SlaStateText(r) == "BREACH"
    ensures WorstOverall(r) == Amber <==>
      !(TechStatus(r) == "RED" || BizStatus(r) == "RED" || SlaStateText(r) == "BREACH") &&
      (TechStatus(r) == "AMBER" || BizStatus(r) == "AMBER" || SlaStateText(r) == "AT_RISK")
  {
    var sla := SlaStateToStatus(Str(SlaStateText(r)));
    var st := [TechStatus(r), BizStatus(r), sla.Name()];
    UpperIdempotent(OrElse(r.techHealth, "GREEN"));
    UpperIdempotent(OrElse(r.bizHealth, "GREEN"));
    UpperIdempotent(OrElse(r.slaState, "OK"));
    NameIsUpper(sla);
    assert st[0] in st && st[1] in st && st[2] in st;
    assert forall x :: x in st ==> x == st[0] || x == st[1] || x == st[2];
  }

  /** The text a tile compares with, per axis, upper-cased with defaults. */
  function AxisValue(r: Rollup, a: Axis): string {
    match a
    case OverallAxis => WorstOverall(r).Name()
    case TechAxis => TechStatus(r)
    case BusinessAxis => BizStatus(r)
    case SlaAxis => SlaStateText(r)
  }

  /** filter_rollups: for a known prefix, the rollups whose axis value equals the
      upper-cased suffix; for any other tile id, every rollup. */
  function FilterRollups(rollups: seq<Rollup>, tileId: string): (r: seq<Rollup>)
    ensures ParseTile(tileId).None? ==> r == rollups
    ensures ParseTile(tileId).Some? ==>
      (forall i :: 0 <= i < |r| ==>
         r[i] in rollups && AxisValue(r[i], ParseTile(tileId).value.axis) == Upper(ParseTile(tileId).value.suffix))
    ensures ParseTile(tileId).Some? ==>
      (forall i :: 0 <= i < |rollups| && AxisValue(rollups[i], ParseTile(tileId).value.axis) == Upper(ParseTile(tileId).value.suffix) ==>
         rollups[i] in r)
    ensures ParseTile(tileId).Some? ==>
      forall x :: multiset(r)[x] ==
        if AxisValue(x, ParseTile(tileId).value.axis) == Upper(ParseTile(tileId).value.suffix) then multiset(rollups)[x] else 0
  {
    match ParseTile(tileId)
    case None => rollups
    case Some(Tile(a, suffix)) =>
      var v := Upper(suffix);
      FilterCount(rollups, (x: Rollup) => AxisValue(x, a) == v);
      Filter(rollups, (x: Rollup) => AxisValue(x, a) == v)
  }

  /** The filtered list is a subsequence in input order: filtering a
      concatenation concatenates the filtered parts. */
  lemma FilterRollupsKeepsOrder(a: seq<Rollup>, b: seq<Rollup>, tileId: string)
    ensures FilterRollups(a + b, tileId) == FilterRollups(a, tileId) + FilterRollups(b, tileId)
  {
    match ParseTile(tileId)
    case None =>
    case Some(Tile(ax, suffix)) =>
      var v := Upper(suffix);
      FilterAppend(a, b, (x: Rollup) => AxisValue(x, ax) == v);
  }

  /** The twelve tiles of the dashboard. */
  const TileIds: seq<string> := [
    "overall_GREEN", "overall_AMBER", "overall_RED",
    "tech_GREEN", "tech_AMBER", "tech_RED",
    "business_GREEN", "business_AMBER", "business_RED",
    "sla_OK", "sla_AT_RISK", "sla_BREACH"]

  /** compute_counts: each of the twelve tile ids mapped to the size of its filter. */
  function ComputeCounts(rollups: seq<Rollup>): (counts: map<string, nat>)
    ensures counts.Keys == set t | t in TileIds
  {
    map t | t in TileIds :: |FilterRollups(rollups, t)|
  }

  /** The test `worst_overall(r) == c` as a predicate value. */
  function OverallIs(c: Color): Rollup -> bool {
    (x: Rollup) => WorstOverall(x) == c
  }

  /** Every listed tile id is a key of the counts, holding the size of its filter. */
  lemma CountsLookup(rollups: seq<Rollup>, t: string)
    requires t in TileIds
    ensures t in ComputeCounts(rollups) && ComputeCounts(rollups)[t] == |FilterRollups(rollups, t)|
  {
  }

  /** The overall tile of colour `c` selects exactly the rollups whose aggregate is `c`. */
  lemma OverallTileSelects(rollups: seq<Rollup>, c: Color)
    ensures FilterRollups(rollups, OverallTile(c)) == Filter(rollups, OverallIs(c))
  {
    ParseTileRoundTrip(OverallAxis, c.Name());
    NameIsUpper(c);
    FilterCongruent(rollups, (x: Rollup) => AxisValue(x, OverallAxis) == Upper(c.Name()),
                    OverallIs(c));
  }

  /** The overall tile of colour `c` counts exactly the rollups whose aggregate is `c`. */
  lemma OverallTileCount(rollups: seq<Rollup>, c: Color)
    ensures OverallTile(c) in ComputeCounts(rollups)
    ensures ComputeCounts(rollups)[OverallTile(c)] == |Filter(rollups, OverallIs(c))|
  {
    var t := OverallTile(c);
    assert t == TileIds[c.Rank()];
    CountsLookup(rollups, t);
    OverallTileSelects(rollups, c);
  }

  /** The three overall tiles split the collection: every rollup's aggregate is
      exactly one of GREEN, AMBER, RED. */
  lemma OverallCountsPartition(rollups: seq<Rollup>)
    ensures var counts := ComputeCounts(rollups);
      OverallTile(Green) in counts && OverallTile(Amber) in counts && OverallTile(Red) in counts &&
      counts[OverallTile(Green)] + counts[OverallTile(Amber)] + counts[OverallTile(Red)] == |rollups|
  {
    OverallTileCount(rollups, Green);
    OverallTileCount(rollups, Amber);
    OverallTileCount(rollups, Red);
    FilterPartition(rollups, OverallIs(Green), OverallIs(Amber), OverallIs(Red));
  }

  // ------------------------------------------------------------------
  // Grouped display rows
  // ------------------------------------------------------------------

  datatype GroupedRow = GroupedRow(
    sapOrder: Value,
    nodeType: NodeType,
    overall: Color,
    rowStatus: string,
    orderOverall: Color,
    plant: Value,
    idoc: Value,
    key: string,
    reason: string,
    checkpoint: string,
    slaState: string,
    correlationId: Value)

  /** One of the four rows to_grouped_rows appends for a flow, as first
      appended (order_overall still the flow's own aggregate). */
  function FlowRow(r: Rollup, kind: NodeType): GroupedRow {
    var sapOrder := GetOr(r.sapOrder, "UNKNOWN");
    var overall := WorstOverall(r);
    var slaState := SlaStateText(r);
    var plant, idoc, cid := GetOr(r.plant, ""), GetOr(r.idocNumber, ""), GetOr(r.correlationId, "");
    match kind
    case FlowNode =>
      GroupedRow(sapOrder, FlowNode, overall, overall.Name(), overall, plant, idoc,
                 "Summary", "", "", slaState, cid)
    case TechNode =>
      GroupedRow(sapOrder, TechNode, overall, TechStatus(r), overall, plant, idoc,
                 "Transport", OrElse(r.techReason, ""), OrElse(r.techLastCheckpoint, ""), slaState, cid)
    case BusinessNode =>
      GroupedRow(sapOrder, BusinessNode, overall, BizStatus(r), overall, plant, idoc,
                 "Business", OrElse(r.bizReason, ""), "", slaState, cid)
    case SlaNode =>
      GroupedRow(sapOrder, SlaNode, overall, SlaStateToStatus(Str(slaState)).Name(), overall, plant, idoc,
                 "SLA", slaState, "", slaState, cid)
  }

  /** The TECH and BUSINESS rows carry their own health and the SLA row the
      colour of the SLA state; the FLOW row's own status is the worst of those
      three, and all four rows carry the same sap_order ("UNKNOWN" when missing) and
      the same overall. */
  lemma FlowRowAggregatesChildren(r: Rollup)
    ensures FlowRow(r, TechNode).rowStatus == TechStatus(r) && FlowRow(r, BusinessNode).rowStatus == BizStatus(r)
    ensures FlowRow(r, SlaNode).rowStatus == SlaStateToStatus(r.slaState).Name()
    ensures FlowRow(r, FlowNode).rowStatus ==
      WorstStatus([FlowRow(r, TechNode).rowStatus, FlowRow(r, BusinessNode).rowStatus, FlowRow(r, SlaNode).rowStatus]).Name()
    ensures forall k :: 0 <= k < 4 ==>
      FlowRow(r, KindAt(k)).sapOrder == (if r.sapOrder.Absent? then Str("UNKNOWN") else r.sapOrder) &&
      FlowRow(r, KindAt(k)).overall == WorstOverall(r) &&
      FlowRow(r, KindAt(k)).nodeType == KindAt(k)
  {
  }

  /** The rows of the given flows as first appended: four per flow, in order. */
  function AllRows(flows: seq<Rollup>): (rows: seq<GroupedRow>)
    ensures |rows| == 4 * |flows|
  {
    if flows == [] then []
    else
      var r := flows[|flows| - 1];
      AllRows(flows[..|flows| - 1]) + [FlowRow(r, FlowNode), FlowRow(r, TechNode), FlowRow(r, BusinessNode), FlowRow(r, SlaNode)]
  }

  /** Row i of the first pass is row kind i % 4 of flow i / 4. */
  lemma {:induction false} AllRowsAt(flows: seq<Rollup>)
    ensures forall i :: 0 <= i < |AllRows(flows)| ==> AllRows(flows)[i] == FlowRow(flows[i / 4], KindAt(i % 4))
  {
    if flows != [] {
      var init := flows[..|flows| - 1];
      AllRowsAt(init);
      var rows := AllRows(flows);
      forall i | 0 <= i < |rows|
        ensures rows[i] == FlowRow(flows[i / 4], KindAt(i % 4))
      {
        if i < 4 * |init| {
          assert rows[i] == AllRows(init)[i];
        } else {
          assert i / 4 == |init| && i % 4 == i - 4 * |init|;
        }
      }
    }
  }

  /** Every row of the first pass shares sap_order and overall with the FLOW row
      of its flow, whose status is that overall. */
  lemma FlowRowHeadsGroup(flows: seq<Rollup>, i: int)
    requires 0 <= i < 4 * |flows|
    ensures var rows, f := AllRows(flows), 4 * (i / 4);
      0 <= f <= i && rows[f].sapOrder == rows[i].sapOrder && rows[f].rowStatus == rows[i].overall.Name()
  {
    var q := i / 4;
    var f := 4 * q;
    assert f / 4 == q && f % 4 == 0;
    AllRowsAtIndex(flows, f);
    AllRowsAtIndex(flows, i);
    FlowRowShared(flows[q], KindAt(i % 4));
  }

  lemma AllRowsAtIndex(flows: seq<Rollup>, i: int)
    requires 0 <= i < 4 * |flows|
    ensures AllRows(flows)[i] == FlowRow(flows[i / 4], KindAt(i % 4))
  {
    AllRowsAt(flows);
  }

  /** All rows of one flow share its sap_order and overall; the FLOW row's status is that overall. */
  lemma FlowRowShared(r: Rollup, kind: NodeType)
    ensures FlowRow(r, kind).sapOrder == FlowRow(r, FlowNode).sapOrder
    ensures FlowRow(r, kind).overall == WorstOverall(r)
    ensures FlowRow(r, FlowNode).rowStatus == WorstOverall(r).Name()
  {
  }

  /** The row statuses of the rows of one sap_order, in row order. */
  function GroupStatuses(rows: seq<GroupedRow>, so: Value): seq<string> {
    if rows == [] then []
    else GroupStatuses(rows[..|rows| - 1], so) +
         (if rows[|rows| - 1].sapOrder == so then [rows[|rows| - 1].rowStatus] else [])
  }

  /** The per-order aggregate: worst_status over the row statuses of that order
      (GREEN for an order with no rows). */
  function GroupWorst(rows: seq<GroupedRow>, so: Value): Color {
    WorstStatus(GroupStatuses(rows, so))
  }

  /** `per_order.get(so, "GREEN")` */
  function Lookup(perOrder: map<Value, Color>, so: Value): Color {
    if so in perOrder then perOrder[so] else Green
  }

  lemma {:induction false} GroupStatusesMember(rows: seq<GroupedRow>, j: int)
    requires 0 <= j < |rows|
    ensures rows[j].rowStatus in GroupStatuses(rows, rows[j].sapOrder)
  {
    if j < |rows| - 1 {
      GroupStatusesMember(rows[..|rows| - 1], j);
    }
  }

  /** The grouping reads only sap_order and row_status of each row. */
  lemma {:induction false} GroupStatusesSameKeys(a: seq<GroupedRow>, b: seq<GroupedRow>, so: Value)
    requires |a| == |b|
    requires forall j :: 0 <= j < |a| ==> a[j].sapOrder == b[j].sapOrder && a[j].rowStatus == b[j].rowStatus
    ensures GroupStatuses(a, so) == GroupStatuses(b, so)
  {
    if a != [] {
      GroupStatusesSameKeys(a[..|a| - 1], b[..|b| - 1], so);
    }
  }

  /** One step of the per-order pass: folding row i into the running aggregate
      of its order gives the aggregate over one more row; other orders keep theirs. */
  lemma GroupWorstStep(rows: seq<GroupedRow>, i: int, acc: Color, so: Value)
    requires 0 <= i < |rows|
    requires acc == GroupWorst(rows[..i], so)
    ensures rows[i].sapOrder == so ==>
      WorstStatus([acc.Name(), rows[i].rowStatus]) == GroupWorst(rows[..i + 1], so)
    ensures rows[i].sapOrder != so ==> acc == GroupWorst(rows[..i + 1], so)
  {
    assert rows[..i + 1][..i] == rows[..i];
    WorstStatusFoldStep(GroupStatuses(rows[..i], so), rows[i].rowStatus);
  }

  /** A row's own aggregate never exceeds the aggregate of its order, provided
      some row of the same order carries that aggregate as its status (the FLOW row). */
  lemma OrderOverallDominates(rows: seq<GroupedRow>, i: int, f: int)
    requires 0 <= i < |rows| && 0 <= f < |rows|
    requires rows[f].sapOrder == rows[i].sapOrder && rows[f].rowStatus == rows[i].overall.Name()
    ensures rows[i].overall.Rank() <= GroupWorst(rows, rows[i].sapOrder).Rank()
  {
    GroupStatusesMember(rows, f);
    NameIsUpper(rows[i].overall);
  }

  /** The first pass of to_grouped_rows: the FLOW, TECH, BUSINESS and SLA rows
      of every flow, in input order, before any order aggregate is known. */
  method FlowRows(flows: seq<Rollup>) returns (rows: seq<GroupedRow>)
    ensures rows == AllRows(flows)
  {
    rows := [];
    var k := 0;
    while k < |flows|
      invariant 0 <= k <= |flows|
      invariant rows == AllRows(flows[..k])
    {
      var r := flows[k];
      AllRowsSnoc(flows, k);
      rows := rows + [FlowRow(r, FlowNode), FlowRow(r, TechNode), FlowRow(r, BusinessNode), FlowRow(r, SlaNode)];
      k := k + 1;
    }
    assert flows[..|flows|] == flows;
  }

  lemma AllRowsSnoc(flows: seq<Rollup>, k: int)
    requires 0 <= k < |flows|
    ensures var r := flows[k];
      AllRows(flows[..k + 1]) ==
      AllRows(flows[..k]) + [FlowRow(r, FlowNode), FlowRow(r, TechNode), FlowRow(r, BusinessNode), FlowRow(r, SlaNode)]
  {
    assert flows[..k + 1][..k] == flows[..k];
  }

  /** The per-order pass of to_grouped_rows: one walk over the rows folding each
      row's status into the running worst of its sap_order. */
  method PerOrderWorst(rows: seq<GroupedRow>) returns (perOrder: map<Value, Color>)
    ensures forall so :: Lookup(perOrder, so) == GroupWorst(rows, so)
  {
    perOrder := map[];
    var i := 0;
    WorstIsUnique([], Green);
    while i < |rows|
      invariant 0 <= i <= |rows|
      invariant forall so :: Lookup(perOrder, so) == GroupWorst(rows[..i], so)
    {
      var so := rows[i].sapOrder;
      var acc := Lookup(perOrder, so);
      var next := perOrder[so := WorstStatus([acc.Name(), rows[i].rowStatus])];
      forall so': Value
        ensures Lookup(next, so') == GroupWorst(rows[..i + 1], so')
      {
        GroupWorstStep(rows, i, Lookup(perOrder, so'), so');
      }
      perOrder := next;
      i := i + 1;
    }
    assert rows[..|rows|] == rows;
  }

  /** The back-fill pass of to_grouped_rows: every row's order_overall becomes
      the aggregate of its sap_order; nothing else changes. */
  method BackFill(rows: seq<GroupedRow>, perOrder: map<Value, Color>) returns (filled: seq<GroupedRow>)
    ensures |filled| == |rows|
    ensures forall j :: 0 <= j < |rows| ==> filled[j] == rows[j].(orderOverall := Lookup(perOrder, rows[j].sapOrder))
  {
    filled := rows;
    var i := 0;
    while i < |filled|
      invariant 0 <= i <= |filled| == |rows|
      invariant forall j :: 0 <= j < i ==> filled[j] == rows[j].(orderOverall := Lookup(perOrder, rows[j].sapOrder))
      invariant forall j :: i <= j < |rows| ==> filled[j] == rows[j]
    {
      filled := filled[i := filled[i].(orderOverall := Lookup(perOrder, filled[i].sapOrder))];
      i := i + 1;
    }
  }

  /** to_grouped_rows: four rows per flow in input order (FLOW, TECH, BUSINESS,
      SLA), then a per-sap_order worst_status over every row's own status,
      written back into every row's order_overall. */
  method ToGroupedRows(flows: seq<Rollup>) returns (rows: seq<GroupedRow>)
    ensures |rows| == 4 * |flows|
    ensures forall i :: 0 <= i < |rows| ==>
      rows[i] == FlowRow(flows[i / 4], KindAt(i % 4)).(orderOverall := rows[i].orderOverall)
    ensures forall i :: 0 <= i < |rows| ==> rows[i].orderOverall == GroupWorst(rows, rows[i].sapOrder)
    ensures forall i :: 0 <= i < |rows| ==> rows[i].overall.Rank() <= rows[i].orderOverall.Rank()
    ensures forall i, j :: 0 <= i < |rows| && 0 <= j < |rows| && rows[i].sapOrder == rows[j].sapOrder ==>
      rows[i].orderOverall == rows[j].orderOverall
  {
    // first pass: four rows per flow
    rows := FlowRows(flows);
    AllRowsAt(flows);
    ghost var first := rows;

    // second pass: per-order worst status
    var perOrder := PerOrderWorst(rows);

    // third pass: write the order aggregate back into every row
    rows := BackFill(rows, perOrder);

    forall so: Value
      ensures GroupStatuses(rows, so) == GroupStatuses(first, so)
    {
      GroupStatusesSameKeys(rows, first, so);
    }
    BackFilledDominates(flows, first, rows);
  }

  /** Once every row carries its group's worst status, no row's own overall
      exceeds its order_overall: the FLOW row heading its flow is in the group. */
  lemma BackFilledDominates(flows: seq<Rollup>, first: seq<GroupedRow>, rows: seq<GroupedRow>)
    requires first == AllRows(flows) && |rows| == |first|
    requires forall i :: 0 <= i < |rows| ==> rows[i] == first[i].(orderOverall := rows[i].orderOverall)
    requires forall i :: 0 <= i < |rows| ==> rows[i].orderOverall == GroupWorst(rows, rows[i].sapOrder)
    ensures forall i :: 0 <= i < |rows| ==> rows[i].overall.Rank() <= rows[i].orderOverall.Rank()
  {
    forall i | 0 <= i < |rows|
      ensures rows[i].overall.Rank() <= rows[i].orderOverall.Rank()
    {
      AllRowsAt(flows);
      FlowRowHeadsGroup(flows, i);
      OrderOverallDominates(rows, i, 4 * (i / 4));
    }
  }
}
