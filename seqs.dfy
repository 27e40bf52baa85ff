/**
  Rust's `Iterator::filter_map` over a finite sequence, and the matching
  `filter` that keeps the inputs `filter_map` turns into outputs.
 */
module Sequences {
  import opened Options

  /** The `Some` results of `f` over `xs`, in order. */
  function FilterMap<A, B>(f: A -> Option<B>, xs: seq<A>): (ys: seq<B>)
    ensures |ys| <= |xs|
  {
    if xs == [] then []
    else
      var first := match f(xs[0]) case Some(y) => [y] case None => [];
      first + FilterMap(f, xs[1..])
  }

  /** The elements of `xs` that `f` maps to `Some`, in order. */
  function Kept<A, B>(f: A -> Option<B>, xs: seq<A>): (kept: seq<A>)
    ensures |kept| <= |xs|
    ensures forall x :: x in kept ==> x in xs && f(x).Some?
    ensures forall x :: x in xs && f(x).Some? ==> x in kept
  {
    if xs == [] then []
    else (if f(xs[0]).Some? then [xs[0]] else []) + Kept(f, xs[1..])
  }

  /** `FilterMap` works element by element: over two blocks it gives the
      results for the first followed by those for the second. */
  lemma {:induction false} FilterMapAppend<A, B>(f: A -> Option<B>, a: seq<A>, b: seq<A>)
    ensures FilterMap(f, a + b) == FilterMap(f, a) + FilterMap(f, b)
  {
    if a == [] {
      assert a + b == b;
    } else {
      assert (a + b)[1..] == a[1..] + b;
      FilterMapAppend(f, a[1..], b);
    }
  }

  /** So does `Kept`. */
  lemma {:induction false} KeptAppend<A, B>(f: A -> Option<B>, a: seq<A>, b: seq<A>)
    ensures Kept(f, a + b) == Kept(f, a) + Kept(f, b)
  {
    if a == [] {
      assert a + b == b;
    } else {
      assert (a + b)[1..] == a[1..] + b;
      KeptAppend(f, a[1..], b);
    }
  }

  /** The one-element case: a single result when `f` gives one, none otherwise. */
  lemma FilterMapSingle<A, B>(f: A -> Option<B>, x: A)
    ensures FilterMap(f, [x]) == if f(x).Some? then [f(x).value] else []
  {
    assert [x][1..] == [];
  }

  /** The one-element case of `Kept`: the element when `f` gives a result for it,
      nothing otherwise. With `KeptAppend` this fixes `Kept` on every input. */
  lemma KeptSingle<A, B>(f: A -> Option<B>, x: A)
    ensures Kept(f, [x]) == if f(x).Some? then [x] else []
  {
    assert [x][1..] == [];
  }

  /** `FilterMap` is `Kept` followed by `f`: the j-th result is what `f` gives
      for the j-th kept input, and there is exactly one result per kept input. */
  lemma {:induction false} FilterMapIsMapOfKept<A, B>(f: A -> Option<B>, xs: seq<A>)
    ensures |FilterMap(f, xs)| == |Kept(f, xs)|
    ensures forall j :: 0 <= j < |Kept(f, xs)| ==> f(Kept(f, xs)[j]) == Some(FilterMap(f, xs)[j])
  {
    if xs != [] {
      FilterMapIsMapOfKept(f, xs[1..]);
    }
  }

  /** `FilterMap` over five elements of which the first and last give nothing. */
  lemma FilterMapMiddleThree<A, B>(f: A -> Option<B>, x0: A, x1: A, x2: A, x3: A, x4: A, y1: B, y2: B, y3: B)
    requires f(x0).None? && f(x4).None?
    requires f(x1) == Some(y1) && f(x2) == Some(y2) && f(x3) == Some(y3)
    ensures FilterMap(f, [x0, x1, x2, x3, x4]) == [y1, y2, y3]
  {
    var xs := [x0, x1, x2, x3, x4];
    assert xs == [x0] + [x1] + [x2] + [x3] + [x4];
    FilterMapAppend(f, [x0] + [x1] + [x2] + [x3], [x4]);
    FilterMapAppend(f, [x0] + [x1] + [x2], [x3]);
    FilterMapAppend(f, [x0] + [x1], [x2]);
    FilterMapAppend(f, [x0], [x1]);
    FilterMapSingle(f, x0);
    FilterMapSingle(f, x1);
    FilterMapSingle(f, x2);
    FilterMapSingle(f, x3);
    FilterMapSingle(f, x4);
  }
}
