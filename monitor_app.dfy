/** The earlier single-file dashboard (sap_monitior_app.py): its own flow
    aggregate, case-sensitive tile filters over the raw stored values, the
    eleven tile counts and the four-rows-per-flow tree keyed by correlation-id
    paths. The rollup collection is a parameter instead of a module-level global. */
module MonitorApp {
  import opened PyValues
  import opened StatusLattice
  import opened RollupDoc

  /** worst_overall of the single-file dashboard: missing fields default to
      GREEN / OK, but a stored value is compared as it is, without upper-casing
      and without treating null as GREEN. */
  function WorstOverall(r: Rollup): Color {
    var tech, biz, sla := GetOr(r.techHealth, "GREEN"), GetOr(r.bizHealth, "GREEN"), GetOr(r.slaState, "OK");
    if tech == Str("RED") || biz == Str("RED") || sla == Str("BREACH") then Red
    else if tech == Str("AMBER") || biz == Str("AMBER") || sla == Str("AT_RISK") then Amber
    else Green
  }

  /** RED, AMBER and GREEN as the function tests them: a RED health or a BREACH
      state wins, then an AMBER health or an AT_RISK state; missing or null
      fields never raise the aggregate. */
  lemma WorstOverallCases(r: Rollup)
    ensures WorstOverall(r) == Red <==>
      r.techHealth == Str("RED") || r.bizHealth == Str("RED") || r.slaState == Str("BREACH")
    ensures WorstOverall(r) == Amber <==>
      !(r.techHealth == Str("RED") || r.bizHealth == Str("RED") || r.slaState == Str("BREACH")) &&
      (r.techHealth == Str("AMBER") || r.bizHealth == Str("AMBER") || r.slaState == Str("AT_RISK"))
    ensures !r.techHealth.Str? && !r.bizHealth.Str? && !r.slaState.Str? ==> WorstOverall(r) == Green
  {
  }

  /** The raw stored value a tile compares with, per axis (no default, no case folding). */
  function AxisValue(r: Rollup, a: Axis): Value {
    match a
    case OverallAxis => Str(WorstOverall(r).Name())
    case TechAxis => r.techHealth
    case BusinessAxis => r.bizHealth
    case SlaAxis => r.slaState
  }

  /** filter_rollups: for a known prefix, the rollups whose stored axis value is
      exactly the suffix; for any other tile id, every rollup. */
  function FilterRollups(rollups: seq<Rollup>, tileId: string): (r: seq<Rollup>)
    ensures ParseTile(tileId).None? ==> r == rollups
    ensures ParseTile(tileId).Some? ==>
      (forall i :: 0 <= i < |r| ==>
         r[i] in rollups && AxisValue(r[i], ParseTile(tileId).value.axis) == Str(ParseTile(tileId).value.suffix))
    ensures ParseTile(tileId).Some? ==>
      (forall i :: 0 <= i < |rollups| && AxisValue(rollups[i], ParseTile(tileId).value.axis) == Str(ParseTile(tileId).value.suffix) ==>
         rollups[i] in r)
    ensures ParseTile(tileId).Some? ==>
      forall x :: multiset(r)[x] ==
        if AxisValue(x, ParseTile(tileId).value.axis) == Str(ParseTile(tileId).value.suffix) then multiset(rollups)[x] else 0
  {
    match ParseTile(tileId)
    case None => rollups
    case Some(Tile(a, suffix)) =>
      FilterCount(rollups, (x: Rollup) => AxisValue(x, a) == Str(suffix));
      Filter(rollups, (x: Rollup) => AxisValue(x, a) == Str(suffix))
  }

  /** A rollup whose health field is missing or null is never counted by a
      tech_ or business_ tile, whatever the suffix. */
  lemma MissingHealthNeverMatches(rollups: seq<Rollup>, suffix: string)
    ensures forall r :: r in FilterRollups(rollups, TechAxis.Prefix() + suffix) ==> r.techHealth.Str?
    ensures forall r :: r in FilterRollups(rollups, BusinessAxis.Prefix() + suffix) ==> r.bizHealth.Str?
  {
    ParseTileRoundTrip(TechAxis, suffix);
    ParseTileRoundTrip(BusinessAxis, suffix);
  }

  /** The eleven tiles of the single-file dashboard: there is no tech_AMBER. */
  const TileIds: seq<string> := [
    "overall_GREEN", "overall_AMBER", "overall_RED",
    "tech_GREEN", "tech_RED",
    "business_GREEN", "business_AMBER", "business_RED",
    "sla_OK", "sla_AT_RISK", "sla_BREACH"]

  /** compute_counts: each of the eleven tile ids mapped to the size of its filter. */
  function ComputeCounts(rollups: seq<Rollup>): (counts: map<string, nat>)
    ensures counts.Keys == set t | t in TileIds
  {
    map t | t in TileIds :: |FilterRollups(rollups, t)|
  }

  /** Every listed tile id is a key of the counts, holding the size of its filter. */
  lemma CountsLookup(rollups: seq<Rollup>, t: string)
    requires t in TileIds
    ensures t in ComputeCounts(rollups) && ComputeCounts(rollups)[t] == |FilterRollups(rollups, t)|
  {
  }

  /** The single-file dashboard has no tech_AMBER tile. */
  lemma NoTechAmberTile(rollups: seq<Rollup>)
    ensures TechAxis.Prefix() + Amber.Name() !in ComputeCounts(rollups)
  {
    var ta := TechAxis.Prefix() + Amber.Name();
    assert ta[5] == 'A';
    forall k | 0 <= k < |TileIds|
      ensures TileIds[k] != ta
    {
      if |TileIds[k]| == |ta| {
        assert k == 3 || k == 10;
        assert TileIds[k][5] != 'A';
      }
    }
  }

  /** The test `worst_overall(r) == c` as a predicate value. */
  function OverallIs(c: Color): Rollup -> bool {
    (x: Rollup) => WorstOverall(x) == c
  }

  /** The overall tile of colour `c` selects exactly the rollups whose aggregate is `c`. */
  lemma OverallTileSelects(rollups: seq<Rollup>, c: Color)
    ensures FilterRollups(rollups, OverallTile(c)) == Filter(rollups, OverallIs(c))
  {
    ParseTileRoundTrip(OverallAxis, c.Name());
    FilterCongruent(rollups, (x: Rollup) => AxisValue(x, OverallAxis) == Str(c.Name()), OverallIs(c));
  }

  /** The overall tile of colour `c` counts exactly the rollups whose aggregate is `c`. */
  lemma OverallTileCount(rollups: seq<Rollup>, c: Color)
    ensures OverallTile(c) in ComputeCounts(rollups)
    ensures ComputeCounts(rollups)[OverallTile(c)] == |Filter(rollups, OverallIs(c))|
  {
    var t := OverallTile(c);
    assert t == TileIds[c.Rank()];
    CountsLookup(rollups, t);
    OverallTileSelects(rollups, c);
  }

  /** The three overall tiles split the collection here too. */
  lemma OverallCountsPartition(rollups: seq<Rollup>)
    ensures var counts := ComputeCounts(rollups);
      OverallTile(Green) in counts && OverallTile(Amber) in counts && OverallTile(Red) in counts &&
      counts[OverallTile(Green)] + counts[OverallTile(Amber)] + counts[OverallTile(Red)] == |rollups|
  {
    OverallTileCount(rollups, Green);
    OverallTileCount(rollups, Amber);
    OverallTileCount(rollups, Red);
    FilterPartition(rollups, OverallIs(Green), OverallIs(Amber), OverallIs(Red));
  }

  // ------------------------------------------------------------------
  // Tree rows
  // ------------------------------------------------------------------

  datatype TreeRow = TreeRow(
    path: seq<Value>,
    correlationId: Value,
    overall: Color,
    nodeType: NodeType,
    plant: Value,
    idoc: Value,
    sapOrder: Value,
    route: Value,
    key: string,
    reason: string,
    checkpoint: string,
    slaState: Value)

  /** One of the four rows to_tree_rows appends for a flow. */
  function FlowTreeRow(r: Rollup, kind: NodeType): TreeRow {
    var cid := GetOr(r.correlationId, "");
    var overall := WorstOverall(r);
    var plant, idoc, order, route := GetOr(r.plant, ""), GetOr(r.idocNumber, ""), GetOr(r.sapOrder, ""), GetOr(r.route, "");
    var sla := GetOr(r.slaState, "");
    match kind
    case FlowNode =>
      TreeRow([cid], cid, overall, FlowNode, plant, idoc, order, route, "Summary", "", "", sla)
    case TechNode =>
      TreeRow([cid, Str("TECH")], cid, overall, TechNode, plant, idoc, order, route, "Transport",
              OrElse(r.techReason, ""), OrElse(r.techLastCheckpoint, ""), sla)
    case BusinessNode =>
      TreeRow([cid, Str("BUSINESS")], cid, overall, BusinessNode, plant, idoc, order, route, "Business Status",
              OrElse(r.bizReason, ""), "", sla)
    case SlaNode =>
      TreeRow([cid, Str("SLA")], cid, overall, SlaNode, plant, idoc, order, route, "SLA Timing",
              if r.slaBreach then "BREACH" else "", "", sla)
  }

  /** All four rows of a flow carry the flow's aggregate and correlation id and
      sit under the path of the flow; the SLA row's reason is BREACH exactly when
      the breach flag is set; missing or null TECH reason and checkpoint read "". */
  lemma FlowTreeRowFacts(r: Rollup, kind: NodeType)
    ensures FlowTreeRow(r, kind).overall == WorstOverall(r)
    ensures FlowTreeRow(r, kind).nodeType == kind
    ensures FlowTreeRow(r, kind).path[0] == GetOr(r.correlationId, "")
    ensures kind == TechNode ==> FlowTreeRow(r, kind).path[1] == Str("TECH")
    ensures kind == BusinessNode ==> FlowTreeRow(r, kind).path[1] == Str("BUSINESS")
    ensures kind == SlaNode ==> FlowTreeRow(r, kind).path[1] == Str("SLA")
    ensures |FlowTreeRow(r, kind).path| == (if kind == FlowNode then 1 else 2)
    ensures kind == SlaNode ==> (FlowTreeRow(r, kind).reason == "BREACH" <==> r.slaBreach)
    ensures kind == TechNode && !r.techReason.Str? ==> FlowTreeRow(r, kind).reason == ""
    ensures kind == TechNode && !r.techLastCheckpoint.Str? ==> FlowTreeRow(r, kind).checkpoint == ""
  {
  }

  /** The rows of the given flows: four per flow, in order. */
  function AllTreeRows(flows: seq<Rollup>): (rows: seq<TreeRow>)
    ensures |rows| == 4 * |flows|
  {
    if flows == [] then []
    else
      var r := flows[|flows| - 1];
      AllTreeRows(flows[..|flows| - 1]) +
        [FlowTreeRow(r, FlowNode), FlowTreeRow(r, TechNode), FlowTreeRow(r, BusinessNode), FlowTreeRow(r, SlaNode)]
  }

  /** Row i is row kind i % 4 of flow i / 4. */
  lemma {:induction false} AllTreeRowsAt(flows: seq<Rollup>)
    ensures forall i :: 0 <= i < |AllTreeRows(flows)| ==> AllTreeRows(flows)[i] == FlowTreeRow(flows[i / 4], KindAt(i % 4))
  {
    if flows != [] {
      var init := flows[..|flows| - 1];
      AllTreeRowsAt(init);
      var rows := AllTreeRows(flows);
      forall i | 0 <= i < |rows|
        ensures rows[i] == FlowTreeRow(flows[i / 4], KindAt(i % 4))
      {
        if i < 4 * |init| {
          assert rows[i] == AllTreeRows(init)[i];
        } else {
          assert i / 4 == |init| && i % 4 == i - 4 * |init|;
        }
      }
    }
  }

  lemma AllTreeRowsSnoc(flows: seq<Rollup>, k: int)
    requires 0 <= k < |flows|
    ensures var r := flows[k];
      AllTreeRows(flows[..k + 1]) ==
      AllTreeRows(flows[..k]) + [FlowTreeRow(r, FlowNode), FlowTreeRow(r, TechNode), FlowTreeRow(r, BusinessNode), FlowTreeRow(r, SlaNode)]
  {
    assert flows[..k + 1][..k] == flows[..k];
  }

  /** to_tree_rows: four rows per flow, in input order, FLOW, TECH, BUSINESS, SLA. */
  method ToTreeRows(flows: seq<Rollup>) returns (rows: seq<TreeRow>)
    ensures |rows| == 4 * |flows|
    ensures forall i :: 0 <= i < |rows| ==> rows[i] == FlowTreeRow(flows[i / 4], KindAt(i % 4))
  {
    rows := [];
    var k := 0;
    while k < |flows|
      invariant 0 <= k <= |flows|
      invariant rows == AllTreeRows(flows[..k])
    {
      var r := flows[k];
      AllTreeRowsSnoc(flows, k);
      rows := rows + [FlowTreeRow(r, FlowNode), FlowTreeRow(r, TechNode), FlowTreeRow(r, BusinessNode), FlowTreeRow(r, SlaNode)];
      k := k + 1;
    }
    assert flows[..|flows|] == flows;
    AllTreeRowsAt(flows);
  }

  /** Rows of different flows differ in the first path element when the flows'
      correlation ids differ; rows of one flow differ in their second. */
  lemma FlowPathsDistinct(flows: seq<Rollup>, i: int, j: int)
    requires forall a, b :: 0 <= a < b < |flows| ==> GetOr(flows[a].correlationId, "") != GetOr(flows[b].correlationId, "")
    requires 0 <= i < j < 4 * |flows|
    ensures FlowTreeRow(flows[i / 4], KindAt(i % 4)).path != FlowTreeRow(flows[j / 4], KindAt(j % 4)).path
  {
    FlowTreeRowFacts(flows[i / 4], KindAt(i % 4));
    FlowTreeRowFacts(flows[j / 4], KindAt(j % 4));
    if i / 4 != j / 4 {
      assert i / 4 < j / 4;
    } else {
      assert KindAt(i % 4) != KindAt(j % 4);
    }
  }

  /** Distinct correlation ids give distinct tree paths: every row of the
      tree has its own path. */
  lemma TreePathsDistinct(flows: seq<Rollup>, i: int, j: int)
    requires forall a, b :: 0 <= a < b < |flows| ==> GetOr(flows[a].correlationId, "") != GetOr(flows[b].correlationId, "")
    requires 0 <= i < j < 4 * |flows|
    ensures AllTreeRows(flows)[i].path != AllTreeRows(flows)[j].path
  {
    AllTreeRowsAt(flows);
    FlowPathsDistinct(flows, i, j);
  }
}
