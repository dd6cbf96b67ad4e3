/** Values shared by every part of the model: optional fields, the outcome of a
    call to the hosted backend, and the filter/reduce folds the pages use. */
module Common {

  /** A column or field that may be null. */
  datatype Option<+T> = None | Some(value: T)

  /** The outcome of one call to the backend whose failure the caller sees:
      either it succeeds or it fails with the backend's error message. */
  datatype Call = Ok | Fail(message: string)

  /** `x || 0` on a nullable amount: a missing amount counts as 0. */
  function AmountOr0(a: Option<real>): (r: real)
    ensures a.None? ==> r == 0.0
    ensures a.Some? ==> r == a.value
  {
    match a
    case None => 0.0
    case Some(v) => v
  }

  /** `Array.prototype.filter`: keeps, in order, the elements satisfying `p`. */
  function Filter<T>(s: seq<T>, p: T -> bool): (r: seq<T>)
    ensures |r| <= |s|
    ensures forall i :: 0 <= i < |r| ==> p(r[i])
    ensures forall i :: 0 <= i < |r| ==> r[i] in s
    ensures forall i :: 0 <= i < |s| && p(s[i]) ==> s[i] in r
  {
    if s == [] then []
    else (if p(s[0]) then [s[0]] else []) + Filter(s[1..], p)
  }

  /** `reduce((sum, x) => sum + f(x), 0)`. */
  function SumBy<T>(s: seq<T>, f: T -> real): real
  {
    if s == [] then 0.0 else f(s[0]) + SumBy(s[1..], f)
  }

  lemma {:induction false} SumByAppend<T>(a: seq<T>, b: seq<T>, f: T -> real)
    ensures SumBy(a + b, f) == SumBy(a, f) + SumBy(b, f)
  {
    if a == [] {
      assert a + b == b;
    } else {
      assert (a + b)[1..] == a[1..] + b;
      SumByAppend(a[1..], b, f);
    }
  }

  /** A sum of non-negative terms is non-negative. */
  lemma {:induction false} SumByNonNegative<T>(s: seq<T>, f: T -> real)
    requires forall i :: 0 <= i < |s| ==> f(s[i]) >= 0.0
    ensures SumBy(s, f) >= 0.0
  {
    if s != [] {
      SumByNonNegative(s[1..], f);
    }
  }

  /** Dropping elements with non-negative terms can only lower the sum:
      the sum over a filtered list is at most the sum over the whole list. */
  lemma {:induction false} SumByFilterAtMost<T>(s: seq<T>, p: T -> bool, f: T -> real)
    requires forall i :: 0 <= i < |s| ==> f(s[i]) >= 0.0
    ensures SumBy(Filter(s, p), f) <= SumBy(s, f)
  {
    if s != [] {
      SumByFilterAtMost(s[1..], p, f);
      var head := if p(s[0]) then [s[0]] else [];
      SumByAppend(head, Filter(s[1..], p), f);
    }
  }

  /** Filtering with a predicate that holds everywhere keeps the list. */
  lemma {:induction false} FilterAll<T>(s: seq<T>, p: T -> bool)
    requires forall i :: 0 <= i < |s| ==> p(s[i])
    ensures Filter(s, p) == s
  {
    if s != [] {
      FilterAll(s[1..], p);
    }
  }

  lemma {:induction false} FilterAppend<T>(a: seq<T>, b: seq<T>, p: T -> bool)
    ensures Filter(a + b, p) == Filter(a, p) + Filter(b, p)
  {
    if a == [] {
      assert a + b == b;
    } else {
      assert (a + b)[1..] == a[1..] + b;
      FilterAppend(a[1..], b, p);
    }
  }
}
