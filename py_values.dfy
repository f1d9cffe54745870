/** Conventions of the Python dictionaries the dashboard reads: optional JSON
    fields, the two ways of defaulting a missing one, ASCII upper-casing,
    prefix tests and list comprehensions. */
module PyValues {

  datatype Option<+T> = None | Some(value: T)

  /** One field of a rollup document: key missing, JSON null, or a string. */
  datatype Value = Absent | Null | Str(s: string)

  /** `d.get(key, default)`: only a missing key takes the default; null stays null. */
  function GetOr(v: Value, default: string): Value {
    if v.Absent? then Str(default) else v
  }

  /** `d.get(key) or default`: a missing key, null and "" all take the default. */
  function OrElse(v: Value, default: string): string {
    if v.Str? && v.s != "" then v.s else default
  }

  function UpperChar(c: char): char {
    if 'a' <= c <= 'z' then (c as int - 32) as char else c
  }

  /** `s.upper()`, on ASCII letters. */
  function Upper(s: string): (r: string)
    ensures |r| == |s|
    ensures forall i :: 0 <= i < |s| ==> r[i] == UpperChar(s[i])
  {
    seq(|s|, i requires 0 <= i < |s| => UpperChar(s[i]))
  }

  /** A text that upper-casing leaves alone, such as every status name the generator writes. */
  predicate IsUpper(s: string) {
    Upper(s) == s
  }

  lemma UpperIdempotent(s: string)
    ensures Upper(Upper(s)) == Upper(s)
  {
  }

  /** `s.startswith(prefix)` */
  predicate StartsWith(s: string, prefix: string) {
    |prefix| <= |s| && s[..|prefix|] == prefix
  }

  /** `[x for x in s if p(x)]` */
  function Filter<T>(s: seq<T>, p: T -> bool): (r: seq<T>)
    ensures |r| <= |s|
    ensures forall i :: 0 <= i < |r| ==> r[i] in s && p(r[i])
    ensures forall i :: 0 <= i < |s| && p(s[i]) ==> s[i] in r
  {
    if s == [] then [] else (if p(s[0]) then [s[0]] else []) + Filter(s[1..], p)
  }

  /** The comprehension keeps every occurrence of a selected element and none of
      the others: each value occurs as often in the result as in the input when
      it is selected, and not at all otherwise. */
  lemma {:induction false} FilterCount<T>(s: seq<T>, p: T -> bool)
    ensures forall x :: multiset(Filter(s, p))[x] == if p(x) then multiset(s)[x] else 0
  {
    if s != [] {
      FilterCount(s[1..], p);
      assert s == [s[0]] + s[1..];
    }
  }

  /** The comprehension keeps order: filtering a concatenation concatenates the filtered parts. */
  lemma {:induction false} FilterAppend<T>(a: seq<T>, b: seq<T>, p: T -> bool)
    ensures Filter(a + b, p) == Filter(a, p) + Filter(b, p)
  {
    if a != [] {
      assert (a + b)[1..] == a[1..] + b;
      FilterAppend(a[1..], b, p);
    } else {
      assert a + b == b;
    }
  }

  /** Two predicates that agree on every element select the same subsequence. */
  lemma {:induction false} FilterCongruent<T>(s: seq<T>, p: T -> bool, q: T -> bool)
    requires forall x :: x in s ==> p(x) == q(x)
    ensures Filter(s, p) == Filter(s, q)
  {
    if s != [] {
      FilterCongruent(s[1..], p, q);
    }
  }

  /** A predicate that no element satisfies selects nothing. */
  lemma {:induction false} FilterNone<T>(s: seq<T>, p: T -> bool)
    requires forall x :: x in s ==> !p(x)
    ensures Filter(s, p) == []
  {
    if s != [] {
      FilterNone(s[1..], p);
    }
  }

  /** Three predicates of which exactly one holds of each element split the sequence:
      the three filtered lengths add up to the whole length. */
  lemma {:induction false} FilterPartition<T>(s: seq<T>, p: T -> bool, q: T -> bool, t: T -> bool)
    requires forall x :: x in s ==> (p(x) || q(x) || t(x))
    requires forall x :: x in s ==> !(p(x) && q(x)) && !(p(x) && t(x)) && !(q(x) && t(x))
    ensures |Filter(s, p)| + |Filter(s, q)| + |Filter(s, t)| == |s|
  {
    if s != [] {
      FilterPartition(s[1..], p, q, t);
    }
  }
}
