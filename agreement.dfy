/** How the two dashboards relate. data_store.py upper-cases stored values and
    treats null and "" as the default; sap_monitior_app.py compares stored values
    as they are. On rollups written as upper-case names, which is what the
    generator writes, the flow aggregate, the tile filters and the eleven shared
    tile counts of the two coincide; a lower-case value makes them differ. */
module Agreement {
  import opened PyValues
  import opened StatusLattice
  import opened RollupDoc
  import DataStore
  import MonitorApp
  import Generation

  /** A field both dashboards read as its default: missing, null or "". */
  predicate Unset(v: Value) {
    v.Absent? || v.Null? || v == Str("")
  }

  /** Every health is a colour name or unset; the SLA state is a state name or unset. */
  predicate NamesOrAbsent(r: Rollup) {
    && (Unset(r.techHealth) || IsColourName(r.techHealth))
    && (Unset(r.bizHealth) || IsColourName(r.bizHealth))
    && (Unset(r.slaState) || IsSlaStateName(r.slaState))
  }

  /** The two flow aggregates agree on rollups that store names or leave the
      fields unset: data_store.py defaults a null or empty field, and the
      single-file dashboard never matches one. */
  lemma WorstOverallAgree(r: Rollup)
    requires NamesOrAbsent(r)
    ensures DataStore.WorstOverall(r) == MonitorApp.WorstOverall(r)
  {
    DataStore.WorstOverallCases(r);
    NameIsUpper(Green);
    NameIsUpper(Amber);
    NameIsUpper(Red);
    SlaNameIsUpper(SlaOk);
    SlaNameIsUpper(AtRisk);
    SlaNameIsUpper(Breach);
  }

  /** A lower-case health is RED for data_store.py and GREEN for the
      single-file dashboard. */
  lemma LowerCaseHealthDisagrees()
    ensures var r := Rollup(Absent, Absent, Absent, Absent, Absent, [],
                            Str("red"), Absent, Absent, Absent, Absent, Absent, Absent,
                            Absent, None, None, false, 0);
      DataStore.WorstOverall(r) == Red && MonitorApp.WorstOverall(r) == Green
  {
    var r := Rollup(Absent, Absent, Absent, Absent, Absent, [],
                    Str("red"), Absent, Absent, Absent, Absent, Absent, Absent,
                    Absent, None, None, false, 0);
    assert Upper("red") == "RED" by {
      assert Upper("red")[0] == 'R' && Upper("red")[1] == 'E' && Upper("red")[2] == 'D';
    }
    DataStore.WorstOverallCases(r);
  }

  /** On one canonical rollup, an axis of data_store.py matches an upper-case
      suffix exactly when the stored value of the single-file dashboard does. */
  lemma AxisAgree(r: Rollup, a: Axis, suffix: string)
    requires Canonical(r) && IsUpper(suffix)
    ensures DataStore.AxisValue(r, a) == Upper(suffix) <==> MonitorApp.AxisValue(r, a) == Str(suffix)
  {
    WorstOverallAgree(r);
    NameIsUpper(Green);
    NameIsUpper(Amber);
    NameIsUpper(Red);
    SlaNameIsUpper(SlaOk);
    SlaNameIsUpper(AtRisk);
    SlaNameIsUpper(Breach);
  }

  /** On canonical rollups the two filter_rollups select the same rollups in the
      same order for every tile id whose suffix is upper case. */
  lemma FiltersAgree(rollups: seq<Rollup>, tileId: string)
    requires forall r :: r in rollups ==> Canonical(r)
    requires ParseTile(tileId).Some? ==> IsUpper(ParseTile(tileId).value.suffix)
    ensures DataStore.FilterRollups(rollups, tileId) == MonitorApp.FilterRollups(rollups, tileId)
  {
    match ParseTile(tileId)
    case None =>
    case Some(Tile(a, suffix)) =>
      forall x | x in rollups
        ensures (DataStore.AxisValue(x, a) == Upper(suffix)) == (MonitorApp.AxisValue(x, a) == Str(suffix))
      {
        AxisAgree(x, a, suffix);
      }
      FilterCongruent(rollups, (x: Rollup) => DataStore.AxisValue(x, a) == Upper(suffix),
                      (x: Rollup) => MonitorApp.AxisValue(x, a) == Str(suffix));
  }

  /** Each of the eleven tiles of the single-file dashboard names an axis and an
      upper-case suffix. */
  lemma SharedTileShape(k: nat)
    requires k < |MonitorApp.TileIds|
    ensures ParseTile(MonitorApp.TileIds[k]).Some? && IsUpper(ParseTile(MonitorApp.TileIds[k]).value.suffix)
  {
    if k < 3 {
      var c := if k == 0 then Green else if k == 1 then Amber else Red;
      assert MonitorApp.TileIds[k] == OverallAxis.Prefix() + c.Name();
      TileShape(OverallAxis, c.Name());
      NameIsUpper(c);
    } else if k < 5 {
      var c := if k == 3 then Green else Red;
      assert MonitorApp.TileIds[k] == TechAxis.Prefix() + c.Name();
      TileShape(TechAxis, c.Name());
      NameIsUpper(c);
    } else if k < 8 {
      var c := if k == 5 then Green else if k == 6 then Amber else Red;
      assert MonitorApp.TileIds[k] == BusinessAxis.Prefix() + c.Name();
      TileShape(BusinessAxis, c.Name());
      NameIsUpper(c);
    } else {
      var st := if k == 8 then SlaOk else if k == 9 then AtRisk else Breach;
      assert MonitorApp.TileIds[k] == SlaAxis.Prefix() + st.Name();
      TileShape(SlaAxis, st.Name());
      SlaNameIsUpper(st);
    }
  }

  lemma TileShape(a: Axis, suffix: string)
    ensures ParseTile(a.Prefix() + suffix).Some? && ParseTile(a.Prefix() + suffix).value.suffix == suffix
  {
    ParseTileRoundTrip(a, suffix);
  }

  /** On canonical rollups the two dashboards show the same count on each of the
      eleven tiles they share. */
  lemma SharedCountsAgree(rollups: seq<Rollup>, t: string)
    requires forall r :: r in rollups ==> Canonical(r)
    requires t in MonitorApp.TileIds
    ensures t in DataStore.ComputeCounts(rollups) && t in MonitorApp.ComputeCounts(rollups)
    ensures DataStore.ComputeCounts(rollups)[t] == MonitorApp.ComputeCounts(rollups)[t]
  {
    assert t in DataStore.TileIds;
    DataStore.CountsLookup(rollups, t);
    MonitorApp.CountsLookup(rollups, t);
    var k :| 0 <= k < |MonitorApp.TileIds| && MonitorApp.TileIds[k] == t;
    SharedTileShape(k);
    FiltersAgree(rollups, t);
  }

  /** The tile only data_store.py has, tech_AMBER, counts nothing when no
      rollup stores an AMBER tech health. */
  lemma TechAmberCountsNothing(rollups: seq<Rollup>)
    requires forall r :: r in rollups ==> Canonical(r) && r.techHealth != Str("AMBER")
    ensures TechAxis.Prefix() + Amber.Name() in DataStore.ComputeCounts(rollups)
    ensures DataStore.ComputeCounts(rollups)[TechAxis.Prefix() + Amber.Name()] == 0
  {
    var t := TechAxis.Prefix() + Amber.Name();
    assert t == DataStore.TileIds[4];
    DataStore.CountsLookup(rollups, t);
    ParseTileRoundTrip(TechAxis, Amber.Name());
    NameIsUpper(Amber);
    NameIsUpper(Green);
    NameIsUpper(Red);
    FilterNone(rollups, (x: Rollup) => DataStore.AxisValue(x, TechAxis) == Upper(Amber.Name()));
  }

  /** On canonical rollups the eleven shared tiles all show the same counts. */
  lemma AllSharedCountsAgree(rollups: seq<Rollup>)
    requires forall r :: r in rollups ==> Canonical(r)
    ensures forall t :: t in MonitorApp.TileIds ==>
      t in DataStore.ComputeCounts(rollups) && t in MonitorApp.ComputeCounts(rollups) &&
      DataStore.ComputeCounts(rollups)[t] == MonitorApp.ComputeCounts(rollups)[t]
  {
    forall t | t in MonitorApp.TileIds
      ensures t in DataStore.ComputeCounts(rollups) && t in MonitorApp.ComputeCounts(rollups) &&
        DataStore.ComputeCounts(rollups)[t] == MonitorApp.ComputeCounts(rollups)[t]
    {
      SharedCountsAgree(rollups, t);
    }
  }

  /** Rollups with distinct stored correlation ids give a tree with distinct paths. */
  lemma DistinctIdsDistinctPaths(rollups: seq<Rollup>)
    requires forall k, l :: 0 <= k < l < |rollups| ==> rollups[k].correlationId != rollups[l].correlationId
    requires forall k :: 0 <= k < |rollups| ==> rollups[k].correlationId.Str?
    ensures forall i, j :: 0 <= i < j < 4 * |rollups| ==>
      MonitorApp.AllTreeRows(rollups)[i].path != MonitorApp.AllTreeRows(rollups)[j].path
  {
    assert forall a, b :: 0 <= a < b < |rollups| ==>
      GetOr(rollups[a].correlationId, "") != GetOr(rollups[b].correlationId, "");
    forall i, j | 0 <= i < j < 4 * |rollups|
      ensures MonitorApp.AllTreeRows(rollups)[i].path != MonitorApp.AllTreeRows(rollups)[j].path
    {
      MonitorApp.TreePathsDistinct(rollups, i, j);
    }
  }

  /** What every rollup of a generation run is: canonical, never tech AMBER,
      with a stored correlation id. */
  predicate GeneratedShape(r: Rollup) {
    Canonical(r) && r.techHealth != Str("AMBER") && r.correlationId.Str?
  }

  /** What Generation.Generate ensures of the rollups of a run gives the
      hypotheses of GeneratedRunAgrees: each rollup has the generated shape,
      and no two share a correlation id. */
  lemma GenerateMeetsRunHypotheses(draws: seq<Generation.FlowDraws>, rollups: seq<Rollup>)
    requires |rollups| == |draws|
    requires forall k :: 0 <= k < |rollups| ==> Generation.GeneratedRollup(rollups[k], k + 1, draws[k])
    requires forall k, l :: 0 <= k < l < |rollups| ==>
      rollups[k].correlationId != rollups[l].correlationId && rollups[k].sapOrder != rollups[l].sapOrder
    ensures forall k :: 0 <= k < |rollups| ==> GeneratedShape(rollups[k])
    ensures forall k, l :: 0 <= k < l < |rollups| ==> rollups[k].correlationId != rollups[l].correlationId
  {
    forall k | 0 <= k < |rollups|
      ensures GeneratedShape(rollups[k])
    {
      assert Generation.GeneratedRollup(rollups[k], k + 1, draws[k]);
    }
  }

  /** For rollups as one generation run writes them (see Generation.Generate
      and GenerateMeetsRunHypotheses: canonical, never tech AMBER, distinct
      correlation ids) the two dashboards
      agree: the same counts on the eleven shared tiles, nothing on tech_AMBER,
      and a tree whose rows all have distinct paths. */
  lemma GeneratedRunAgrees(rollups: seq<Rollup>)
    requires forall k :: 0 <= k < |rollups| ==> GeneratedShape(rollups[k])
    requires forall k, l :: 0 <= k < l < |rollups| ==> rollups[k].correlationId != rollups[l].correlationId
    ensures forall t :: t in MonitorApp.TileIds ==>
      t in DataStore.ComputeCounts(rollups) && t in MonitorApp.ComputeCounts(rollups) &&
      DataStore.ComputeCounts(rollups)[t] == MonitorApp.ComputeCounts(rollups)[t]
    ensures TechAxis.Prefix() + Amber.Name() in DataStore.ComputeCounts(rollups)
    ensures DataStore.ComputeCounts(rollups)[TechAxis.Prefix() + Amber.Name()] == 0
    ensures forall i, j :: 0 <= i < j < 4 * |rollups| ==>
      MonitorApp.AllTreeRows(rollups)[i].path != MonitorApp.AllTreeRows(rollups)[j].path
  {
    assert forall r :: r in rollups ==> GeneratedShape(r);
    AllSharedCountsAgree(rollups);
    TechAmberCountsNothing(rollups);
    DistinctIdsDistinctPaths(rollups);
  }
}
