/** The three-valued health colours GREEN < AMBER < RED, the SLA-state-to-colour
    map and the worst-of fold that every health axis and every aggregate goes
    through (the status helpers of data_store.py). */
module StatusLattice {
  import opened PyValues

  datatype Color = Green | Amber | Red {
    /** The text the dashboard stores and compares. */
    function Name(): string {
      match this
      case Green => "GREEN"
      case Amber => "AMBER"
      case Red => "RED"
    }

    /** Severity: RED is the worst. */
    function Rank(): nat {
      match this
      case Green => 0
      case Amber => 1
      case Red => 2
    }
  }

  /** The SLA states the rollup generator writes. */
  datatype SlaState = SlaOk | AtRisk | Breach {
    function Name(): string {
      match this
      case SlaOk => "OK"
      case AtRisk => "AT_RISK"
      case Breach => "BREACH"
    }
  }

  /** The worse of two colours. */
  function Join(a: Color, b: Color): Color {
    if a.Rank() >= b.Rank() then a else b
  }

  /** How worst_status reads one entry: upper-cased; RED and AMBER are
      recognised, every other text counts as GREEN. */
  function ColorOf(x: string): Color {
    var u := Upper(x);
    if u == "RED" then Red else if u == "AMBER" then Amber else Green
  }

  /** `c` is the worst entry of `statuses`: no entry is worse, and unless `c`
      is GREEN some entry has exactly that colour. */
  predicate IsWorst(statuses: seq<string>, c: Color) {
    && (forall x :: x in statuses ==> ColorOf(x).Rank() <= c.Rank())
    && (c == Green || exists x :: x in statuses && ColorOf(x) == c)
  }

  /** worst_status: RED if any entry is RED (any letter case), else AMBER if
      any is AMBER, else GREEN; an empty list gives GREEN. */
  function WorstStatus(statuses: seq<string>): (r: Color)
    ensures IsWorst(statuses, r)
  {
    var st := seq(|statuses|, i requires 0 <= i < |statuses| => Upper(statuses[i]));
    assert forall i :: 0 <= i < |statuses| ==> ColorOf(statuses[i]) == ColorOf(st[i]);
    if "RED" in st then Red else if "AMBER" in st then Amber else Green
  }

  /** sla_state_to_status: BREACH -> RED, AT_RISK -> AMBER in any letter case;
      null, "" and every other text -> GREEN. */
  function SlaStateToStatus(slaState: Value): (r: Color)
    ensures r == Red <==> slaState.Str? && Upper(slaState.s) == "BREACH"
    ensures r == Amber <==> slaState.Str? && Upper(slaState.s) == "AT_RISK"
  {
    var s := Upper(OrElse(slaState, ""));
    if s == "BREACH" then Red else if s == "AT_RISK" then Amber else Green
  }

  /** Colour names are already upper case. */
  lemma NameIsUpper(c: Color)
    ensures Upper(c.Name()) == c.Name()
    ensures ColorOf(c.Name()) == c
  {
    match c
    case Green => assert Upper("GREEN") == "GREEN";
    case Amber => assert Upper("AMBER") == "AMBER";
    case Red => assert Upper("RED") == "RED";
  }

  lemma SlaNameIsUpper(st: SlaState)
    ensures Upper(st.Name()) == st.Name()
  {
    match st
    case SlaOk => assert Upper("OK") == "OK";
    case AtRisk => assert Upper("AT_RISK") == "AT_RISK";
    case Breach => assert Upper("BREACH") == "BREACH";
  }

  /** Only one colour is the worst of a list. */
  lemma WorstIsUnique(statuses: seq<string>, c: Color)
    requires IsWorst(statuses, c)
    ensures c == WorstStatus(statuses)
  {
    var r := WorstStatus(statuses);
    if c != Green {
      var x :| x in statuses && ColorOf(x) == c;
    }
    if r != Green {
      var y :| y in statuses && ColorOf(y) == r;
    }
  }

  /** Join is a semilattice with GREEN as unit and RED absorbing. */
  lemma JoinLaws(a: Color, b: Color, c: Color)
    ensures Join(a, b) == Join(b, a)
    ensures Join(Join(a, b), c) == Join(a, Join(b, c))
    ensures Join(a, a) == a
    ensures Join(Green, a) == a && Join(Red, a) == Red
  {
  }

  /** The result depends only on which texts occur, not on their order or repetition. */
  lemma WorstStatusOrderIndependent(a: seq<string>, b: seq<string>)
    requires forall x :: x in a <==> x in b
    ensures WorstStatus(a) == WorstStatus(b)
  {
    WorstIsUnique(b, WorstStatus(a));
  }

  /** Worst of a concatenation is the join of the worsts of the parts. */
  lemma WorstStatusAppend(a: seq<string>, b: seq<string>)
    ensures WorstStatus(a + b) == Join(WorstStatus(a), WorstStatus(b))
  {
    var j := Join(WorstStatus(a), WorstStatus(b));
    forall x | x in a + b
      ensures ColorOf(x).Rank() <= j.Rank()
    {
      if x in a { } else { assert x in b; }
    }
    assert j == Green || exists x :: x in a + b && ColorOf(x) == j by {
      if j != Green {
        if j == WorstStatus(a) {
          var x :| x in a && ColorOf(x) == j;
          assert x in a + b;
        } else {
          var x :| x in b && ColorOf(x) == j;
          assert x in a + b;
        }
      }
    }
    WorstIsUnique(a + b, j);
  }

  /** Re-folding an aggregate changes nothing: worst_status of a colour name is that colour. */
  lemma WorstStatusOfName(c: Color)
    ensures WorstStatus([c.Name()]) == c
    ensures WorstStatus(["GREEN", c.Name()]) == c
  {
    NameIsUpper(c);
    NameIsUpper(Green);
    WorstIsUnique([c.Name()], c);
    assert c.Name() in ["GREEN", c.Name()];
    WorstIsUnique(["GREEN", c.Name()], c);
  }

  /** Folding one more entry into a running aggregate, as the per-order pass
      does: worst_status([worst_status(a), x]) == worst_status(a + [x]). */
  lemma WorstStatusFoldStep(a: seq<string>, x: string)
    ensures WorstStatus([WorstStatus(a).Name(), x]) == WorstStatus(a + [x])
  {
    var w := WorstStatus(a);
    WorstStatusAppend(a, [x]);
    WorstStatusAppend([w.Name()], [x]);
    WorstStatusOfName(w);
    assert [w.Name()] + [x] == [w.Name(), x];
  }

  /** The running fold `acc := worst_status([acc, x])`, started at GREEN. */
  function FoldWorst(statuses: seq<string>): Color {
    if statuses == [] then Green
    else WorstStatus([FoldWorst(statuses[..|statuses| - 1]).Name(), statuses[|statuses| - 1]])
  }

  /** The incremental fold and the one-shot worst_status agree on every list,
      so per-group aggregates may be folded one row at a time. */
  lemma {:induction false} FoldWorstIsWorstStatus(statuses: seq<string>)
    ensures FoldWorst(statuses) == WorstStatus(statuses)
  {
    if statuses != [] {
      var init, last := statuses[..|statuses| - 1], statuses[|statuses| - 1];
      FoldWorstIsWorstStatus(init);
      WorstStatusFoldStep(init, last);
      assert init + [last] == statuses;
    } else {
      WorstIsUnique([], Green);
    }
  }

  /** Idempotence of the fold: repeating the list changes nothing. */
  lemma WorstStatusIdempotent(a: seq<string>)
    ensures WorstStatus(a + a) == WorstStatus(a)
  {
    WorstStatusAppend(a, a);
  }

  /** A RED entry (in any letter case) forces RED; GREEN entries never raise the result. */
  lemma WorstStatusRedAbsorbs(a: seq<string>, i: int)
    requires 0 <= i < |a| && Upper(a[i]) == "RED"
    ensures WorstStatus(a) == Red
  {
    assert ColorOf(a[i]) == Red;
    assert a[i] in a;
  }

  /** sla_state_to_status ignores letter case and agrees with the colour table
      BREACH -> RED, AT_RISK -> AMBER, OK -> GREEN on the generator's states. */
  lemma SlaStateToStatusTable(s: string, st: SlaState)
    ensures SlaStateToStatus(Str(s)) == SlaStateToStatus(Str(Upper(s)))
    ensures SlaStateToStatus(Str(st.Name())) == (match st case Breach => Red case AtRisk => Amber case SlaOk => Green)
    ensures SlaStateToStatus(Null) == Green && SlaStateToStatus(Absent) == Green && SlaStateToStatus(Str("")) == Green
  {
    UpperIdempotent(s);
    SlaNameIsUpper(st);
    match st
    case SlaOk => assert "OK" != "BREACH" && "OK" != "AT_RISK";
    case AtRisk => assert "AT_RISK" != "BREACH";
    case Breach =>
  }
}
