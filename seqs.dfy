/** `Array.prototype.filter`, the list operation the UI handlers compose. */
module Seqs {

  /** `s.filter(f)`: the elements satisfying `f`, in their original order. */
  function Filter<T>(s: seq<T>, f: T -> bool): (r: seq<T>)
    ensures |r| <= |s|
    ensures forall i :: 0 <= i < |r| ==> f(r[i]) && r[i] in s
    ensures forall x :: x in s && f(x) ==> x in r
  {
    if s == [] then []
    else (if f(s[0]) then [s[0]] else []) + Filter(s[1..], f)
  }

  /** Filtering commutes with concatenation, so relative order is kept. */
  lemma {:induction false} FilterAppend<T>(a: seq<T>, b: seq<T>, f: T -> bool)
    ensures Filter(a + b, f) == Filter(a, f) + Filter(b, f)
  {
    if a == [] {
      assert a + b == b;
    } else {
      var h := if f(a[0]) then [a[0]] else [];
      assert Filter(a + b, f) == h + Filter(a[1..] + b, f) by {
        assert (a + b)[0] == a[0];
        assert (a + b)[1..] == a[1..] + b;
      }
      FilterAppend(a[1..], b, f);
      AppendAssoc(h, Filter(a[1..], f), Filter(b, f));
      assert Filter(a, f) == h + Filter(a[1..], f);
    }
  }

  lemma {:induction false} AppendAssoc<T>(x: seq<T>, y: seq<T>, z: seq<T>)
    ensures x + (y + z) == (x + y) + z
  {
  }

  /** A filter every element passes changes nothing. */
  lemma {:induction false} FilterKeepsAll<T>(s: seq<T>, f: T -> bool)
    requires forall i :: 0 <= i < |s| ==> f(s[i])
    ensures Filter(s, f) == s
  {
    if s != [] {
      FilterKeepsAll(s[1..], f);
    }
  }

  /** A filter no element passes gives []. */
  lemma {:induction false} FilterKeepsNone<T>(s: seq<T>, f: T -> bool)
    requires forall i :: 0 <= i < |s| ==> !f(s[i])
    ensures Filter(s, f) == []
  {
    if s != [] {
      FilterKeepsNone(s[1..], f);
    }
  }

  /** Filtering by a weaker condition first does not change a filter. */
  lemma {:induction false} FilterOfFilter<T>(s: seq<T>, p: T -> bool, q: T -> bool)
    requires forall x :: q(x) ==> p(x)
    ensures Filter(Filter(s, p), q) == Filter(s, q)
  {
    if s != [] {
      FilterOfFilter(s[1..], p, q);
      var fp := Filter(s, p);
      if p(s[0]) {
        assert fp == [s[0]] + Filter(s[1..], p);
        assert fp[0] == s[0] && fp[1..] == Filter(s[1..], p);
        assert Filter(fp, q) == (if q(s[0]) then [s[0]] else []) + Filter(fp[1..], q);
      } else {
        assert fp == Filter(s[1..], p);
      }
    }
  }
}
