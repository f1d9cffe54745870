/** The identifiers the generator stamps on flow i: correlation id, IDoc
    number and SAP order number. */
module Identifiers {
  import opened Decimal

  /** A calendar day as `strftime('%Y%m%d')` writes it. */
  datatype Day = Day(year: nat, month: nat, day: nat)

  predicate ValidDay(d: Day) {
    1 <= d.year <= 9999 && 1 <= d.month <= 12 && 1 <= d.day <= 31
  }

  function Ymd(d: Day): string {
    ZeroPad(d.year, 4) + ZeroPad(d.month, 2) + ZeroPad(d.day, 2)
  }

  /** corr_id: `DC-<yyyymmdd>-<i, six digits at least>`. */
  function CorrId(i: nat, d: Day): string {
    "DC-" + Ymd(d) + "-" + ZeroPad(i, 6)
  }

  /** idoc_number: the last 16 characters of `9000000000 + i`, zero-padded to 16. */
  function IdocNumber(i: nat): (s: string)
    ensures |s| == 16 && AllDigits(s)
  {
    var t := ZeroPad(9000000000 + i, 16);
    t[|t| - 16..]
  }

  /** sap_order: the decimal text of `4500100000 + i`. */
  function SapOrderNumber(i: nat): string {
    Digits(4500100000 + i)
  }

  lemma PadWidth(n: nat, w: nat)
    requires 1 <= w && n < Pow10(w)
    ensures |ZeroPad(n, w)| == w
  {
    DigitsLength(n, w);
  }

  /** The date part of a valid day has eight digits. */
  lemma YmdLength(d: Day)
    requires ValidDay(d)
    ensures |Ymd(d)| == 8
  {
    PadWidth(d.year, 4);
    PadWidth(d.month, 2);
    PadWidth(d.day, 2);
  }

  lemma PrefixSuffix(a: string, b: string)
    ensures (a + b)[..|a|] == a && (a + b)[|a|..] == b
  {
  }

  lemma SliceOfLeft(a: string, b: string, i: nat, j: nat)
    requires i <= j <= |a|
    ensures (a + b)[i..j] == a[i..j]
  {
  }

  /** The date text splits back into its year, month and day fields. */
  lemma YmdParts(d: Day)
    requires ValidDay(d)
    ensures |Ymd(d)| == 8
    ensures Ymd(d)[..4] == ZeroPad(d.year, 4)
    ensures Ymd(d)[4..6] == ZeroPad(d.month, 2)
    ensures Ymd(d)[6..] == ZeroPad(d.day, 2)
  {
    PadWidth(d.year, 4);
    PadWidth(d.month, 2);
    PadWidth(d.day, 2);
    var a, b, c := ZeroPad(d.year, 4), ZeroPad(d.month, 2), ZeroPad(d.day, 2);
    var ab := a + b;
    var y := ab + c;
    PrefixSuffix(ab, c);
    PrefixSuffix(a, b);
    SliceOfLeft(ab, c, 0, 4);
    SliceOfLeft(ab, c, 4, 6);
    assert ab[4..6] == ab[4..];
  }

  /** A correlation id has the `DC-` prefix, an eight-digit date and a dash
      before the sequence number, and both parts can be read back. */
  lemma CorrIdShape(i: nat, d: Day)
    requires ValidDay(d)
    ensures var c := CorrId(i, d);
      |c| >= 18 && c[..3] == "DC-" && c[3..11] == Ymd(d) && c[11] == '-' && c[12..] == ZeroPad(i, 6)
  {
    var y, z := Ymd(d), ZeroPad(i, 6);
    YmdLength(d);
    assert |z| >= 6;
    DashedShape(y, z);
  }

  lemma DashedShape(y: string, z: string)
    requires |y| == 8 && |z| >= 6
    ensures var c := "DC-" + y + "-" + z;
      |c| >= 18 && c[..3] == "DC-" && c[3..11] == y && c[11] == '-' && c[12..] == z
  {
    var p, q := "DC-" + y, "-" + z;
    var c := p + q;
    PrefixSuffix(p, q);
    PrefixSuffix("DC-", y);
    PrefixSuffix("-", z);
    assert c[3..11] == p[3..] == y;
    assert c[12..] == q[1..] == z;
  }

  /** Correlation ids of valid days are equal only for the same flow number on
      the same day: the generator's ids never collide. */
  lemma CorrIdInjective(i: nat, j: nat, d: Day, e: Day)
    requires ValidDay(d) && ValidDay(e)
    requires CorrId(i, d) == CorrId(j, e)
    ensures i == j && d == e
  {
    CorrIdShape(i, d);
    CorrIdShape(j, e);
    var c := CorrId(i, d);
    assert ZeroPad(i, 6) == ZeroPad(j, 6) by {
      assert c[12..] == ZeroPad(i, 6) && c[12..] == ZeroPad(j, 6);
    }
    ZeroPadInjective(i, j, 6);
    var y := Ymd(d);
    assert y == Ymd(e) by {
      assert c[3..11] == Ymd(d) && c[3..11] == Ymd(e);
    }
    YmdParts(d);
    YmdParts(e);
    ZeroPadInjective(d.year, e.year, 4);
    ZeroPadInjective(d.month, e.month, 2);
    ZeroPadInjective(d.day, e.day, 2);
  }

  /** While `9000000000 + i` fits in 16 digits the IDoc number is exactly its
      padded text, so IDoc numbers of different flows differ. */
  lemma IdocNumberRoundTrip(i: nat)
    requires 9000000000 + i < Pow10(16)
    ensures DecimalValue(IdocNumber(i)) == 9000000000 + i
  {
    PadWidth(9000000000 + i, 16);
    var t := ZeroPad(9000000000 + i, 16);
    assert t[|t| - 16..] == t;
    ZeroPadRoundTrip(9000000000 + i, 16);
  }

  lemma IdocNumberInjective(i: nat, j: nat)
    requires 9000000000 + i < Pow10(16) && 9000000000 + j < Pow10(16)
    requires IdocNumber(i) == IdocNumber(j)
    ensures i == j
  {
    IdocNumberRoundTrip(i);
    IdocNumberRoundTrip(j);
  }

  /** SAP order numbers read back to `4500100000 + i`: distinct flows get
      distinct orders. */
  lemma SapOrderNumberInjective(i: nat, j: nat)
    requires SapOrderNumber(i) == SapOrderNumber(j)
    ensures i == j
  {
    DigitsRoundTrip(4500100000 + i);
    DigitsRoundTrip(4500100000 + j);
  }

  /** Two different flow numbers never share a correlation id or an SAP order,
      whatever days they were sent on. */
  lemma DistinctFlows(i: nat, j: nat, d: Day, e: Day)
    requires ValidDay(d) && ValidDay(e) && i != j
    ensures CorrId(i, d) != CorrId(j, e)
    ensures SapOrderNumber(i) != SapOrderNumber(j)
  {
    if CorrId(i, d) == CorrId(j, e) {
      CorrIdInjective(i, j, d, e);
    }
    if SapOrderNumber(i) == SapOrderNumber(j) {
      SapOrderNumberInjective(i, j);
    }
  }
}
