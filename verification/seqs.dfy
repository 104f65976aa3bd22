/** Order-preserving selection over sequences (Python list comprehensions with `if`). */
module Seqs {

  /** The elements of `xs` that satisfy `p`, in their original order. */
  function Filter<T>(xs: seq<T>, p: T -> bool): (r: seq<T>)
    ensures |r| <= |xs|
  {
    if |xs| == 0 then []
    else (if p(xs[0]) then [xs[0]] else []) + Filter(xs[1..], p)
  }

  /** The selection holds exactly the elements of `xs` that satisfy `p`. */
  lemma {:induction false} FilterMembers<T>(xs: seq<T>, p: T -> bool)
    ensures forall i :: 0 <= i < |Filter(xs, p)| ==> Filter(xs, p)[i] in xs && p(Filter(xs, p)[i])
    ensures forall i :: 0 <= i < |xs| && p(xs[i]) ==> xs[i] in Filter(xs, p)
  {
    if |xs| > 0 {
      FilterMembers(xs[1..], p);
      var h := if p(xs[0]) then [xs[0]] else [];
      assert Filter(xs, p) == h + Filter(xs[1..], p);
      forall i | 0 <= i < |xs| && p(xs[i])
        ensures xs[i] in Filter(xs, p)
      {
        if i > 0 {
          assert xs[i] == xs[1..][i - 1];
        }
      }
    }
  }

  /** Selection distributes over concatenation, so it keeps relative order. */
  lemma {:induction false} FilterConcat<T>(xs: seq<T>, ys: seq<T>, p: T -> bool)
    ensures Filter(xs + ys, p) == Filter(xs, p) + Filter(ys, p)
  {
    if |xs| == 0 {
      assert xs + ys == ys;
    } else {
      var h := if p(xs[0]) then [xs[0]] else [];
      assert (xs + ys)[0] == xs[0];
      assert (xs + ys)[1..] == xs[1..] + ys;
      assert Filter(xs + ys, p) == h + Filter(xs[1..] + ys, p);
      FilterConcat(xs[1..], ys, p);
      assert Filter(xs, p) == h + Filter(xs[1..], p);
      assert h + (Filter(xs[1..], p) + Filter(ys, p)) == (h + Filter(xs[1..], p)) + Filter(ys, p);
    }
  }

  /** Selecting with a predicate that every element meets changes nothing. */
  lemma {:induction false} FilterAll<T>(xs: seq<T>, p: T -> bool)
    requires forall i :: 0 <= i < |xs| ==> p(xs[i])
    ensures Filter(xs, p) == xs
  {
    if |xs| > 0 {
      FilterAll(xs[1..], p);
    }
  }

  /** Selecting with a predicate that no element meets gives the empty sequence. */
  lemma {:induction false} FilterNone<T>(xs: seq<T>, p: T -> bool)
    requires forall i :: 0 <= i < |xs| ==> !p(xs[i])
    ensures Filter(xs, p) == []
  {
    if |xs| > 0 {
      FilterNone(xs[1..], p);
    }
  }

  /** `[x]` when `x` is selected, `[]` otherwise. */
  function Keep<T>(x: T, p: T -> bool): seq<T> {
    if p(x) then [x] else []
  }

  /** Selection from a sequence with a first element. */
  lemma FilterCons<T>(x: T, ys: seq<T>, p: T -> bool)
    ensures Filter([x] + ys, p) == Keep(x, p) + Filter(ys, p)
  {
    assert ([x] + ys)[1..] == ys;
  }

  /** Selection from five elements, one element at a time. */
  lemma FilterFive<T>(a: T, b: T, c: T, d: T, e: T, p: T -> bool)
    ensures Filter([a, b, c, d, e], p) == Keep(a, p) + (Keep(b, p) + (Keep(c, p) + (Keep(d, p) + Keep(e, p))))
  {
    var s4: seq<T> := [e];
    var s3 := [d] + s4;
    var s2 := [c] + s3;
    var s1 := [b] + s2;
    var s0 := [a] + s1;
    FilterSingle(e, p);
    FilterCons(d, s4, p);
    FilterCons(c, s3, p);
    FilterCons(b, s2, p);
    FilterCons(a, s1, p);
    assert s0 == [a, b, c, d, e];
  }

  lemma FilterSingle<T>(x: T, p: T -> bool)
    ensures Filter([x], p) == Keep(x, p)
  {
  }

  /** No element occurs twice. */
  predicate Distinct<T(==)>(xs: seq<T>) {
    forall i, j :: 0 <= i < j < |xs| ==> xs[i] != xs[j]
  }

  /** Selecting from a sequence without repetitions gives one without repetitions. */
  lemma {:induction false} FilterDistinct<T>(xs: seq<T>, p: T -> bool)
    requires Distinct(xs)
    ensures Distinct(Filter(xs, p))
  {
    if |xs| > 0 {
      var rest := Filter(xs[1..], p);
      FilterDistinct(xs[1..], p);
      FilterMembers(xs[1..], p);
      assert xs[0] !in xs[1..] by {
        forall k | 0 <= k < |xs| - 1
          ensures xs[1..][k] != xs[0]
        {
          assert xs[1..][k] == xs[k + 1];
        }
      }
      var r := Keep(xs[0], p) + rest;
      assert Filter(xs, p) == r;
      forall i, j | 0 <= i < j < |r|
        ensures r[i] != r[j]
      {
        if |Keep(xs[0], p)| == 1 {
          assert r[j] == rest[j - 1];
          if i > 0 {
            assert r[i] == rest[i - 1];
          } else {
            assert rest[j - 1] in xs[1..];
          }
        } else {
          assert r[i] == rest[i] && r[j] == rest[j];
        }
      }
    }
  }
}
