/** Building one sequence from the pieces that each element of another gives: the shape
    shared by a decoder that turns each line into zero or one record and a line splitter
    that drops blank lines. */
module Seqs {

  /** The pieces `f` gives for the elements of `xs`, concatenated in order. */
  function Collect<T, U>(f: T -> seq<U>, xs: seq<T>): seq<U>
  {
    if xs == [] then [] else Collect(f, xs[..|xs| - 1]) + f(xs[|xs| - 1])
  }

  /** Collecting over two blocks gives the first block's pieces followed by the second's. */
  lemma {:induction false} CollectAppend<T, U>(f: T -> seq<U>, xs: seq<T>, ys: seq<T>)
    ensures Collect(f, xs + ys) == Collect(f, xs) + Collect(f, ys)
    decreases |ys|
  {
    if ys == [] {
      assert xs + ys == xs;
    } else {
      CollectAppend(f, xs, ys[..|ys| - 1]);
      assert (xs + ys)[..|xs + ys| - 1] == xs + ys[..|ys| - 1];
    }
  }

  /** Collecting one more element adds that element's pieces at the end. */
  lemma CollectSnoc<T, U>(f: T -> seq<U>, xs: seq<T>, i: nat)
    requires i < |xs|
    ensures Collect(f, xs[..i + 1]) == Collect(f, xs[..i]) + f(xs[i])
  {
    assert xs[..i + 1][..i] == xs[..i];
  }

  /** One element gives its pieces. */
  lemma CollectOne<T, U>(f: T -> seq<U>, a: T)
    ensures Collect(f, [a]) == f(a)
  {
    assert [a][..0] == [];
  }

  /** Two elements give their pieces in order. */
  lemma CollectPair<T, U>(f: T -> seq<U>, a: T, b: T)
    ensures Collect(f, [a, b]) == f(a) + f(b)
  {
    assert [a, b][..1] == [a];
    assert [a][..0] == [];
    assert Collect(f, [a]) == f(a);
  }

  /** When each element gives at most one piece, there are no more pieces than elements. */
  lemma {:induction false} CollectBound<T, U>(f: T -> seq<U>, xs: seq<T>)
    requires forall k :: 0 <= k < |xs| ==> |f(xs[k])| <= 1
    ensures |Collect(f, xs)| <= |xs|
    decreases |xs|
  {
    if xs != [] {
      var init := xs[..|xs| - 1];
      assert forall k :: 0 <= k < |init| ==> init[k] == xs[k];
      CollectBound(f, init);
    }
  }

  /** A property every piece has holds of everything collected. */
  lemma {:induction false} CollectAll<T, U>(f: T -> seq<U>, p: U -> bool, xs: seq<T>)
    requires forall k, j :: 0 <= k < |xs| && 0 <= j < |f(xs[k])| ==> p(f(xs[k])[j])
    ensures forall j :: 0 <= j < |Collect(f, xs)| ==> p(Collect(f, xs)[j])
    decreases |xs|
  {
    if xs != [] {
      var init, last := xs[..|xs| - 1], xs[|xs| - 1];
      assert forall k :: 0 <= k < |init| ==> init[k] == xs[k];
      CollectAll(f, p, init);
      var c, l := Collect(f, init), f(last);
      assert Collect(f, xs) == c + l;
      forall j | 0 <= j < |c + l|
        ensures p((c + l)[j])
      {
        if j >= |c| {
          assert (c + l)[j] == l[j - |c|];
        }
      }
    }
  }

  /** When each element gives exactly one piece, the result has one entry per element, in
      order. */
  lemma {:induction false} CollectSingletons<T, U>(f: T -> seq<U>, xs: seq<T>)
    requires forall k :: 0 <= k < |xs| ==> |f(xs[k])| == 1
    ensures |Collect(f, xs)| == |xs|
    ensures forall k :: 0 <= k < |xs| ==> Collect(f, xs)[k] == f(xs[k])[0]
    decreases |xs|
  {
    if xs != [] {
      var init := xs[..|xs| - 1];
      assert forall k :: 0 <= k < |init| ==> init[k] == xs[k];
      CollectSingletons(f, init);
    }
  }

  /** When each element gives one piece to `f` or to `g` but never both, the two results
      together have as many entries as there are elements. */
  lemma {:induction false} CollectPartition<T, U, V>(f: T -> seq<U>, g: T -> seq<V>, xs: seq<T>)
    requires forall k :: 0 <= k < |xs| ==> |f(xs[k])| + |g(xs[k])| == 1
    ensures |Collect(f, xs)| + |Collect(g, xs)| == |xs|
    decreases |xs|
  {
    if xs != [] {
      var init := xs[..|xs| - 1];
      assert forall k :: 0 <= k < |init| ==> init[k] == xs[k];
      CollectPartition(f, g, init);
    }
  }

  /** Something is collected exactly when some element gives it as a piece. */
  lemma {:induction false} CollectMembers<T, U>(f: T -> seq<U>, xs: seq<T>, x: U)
    ensures x in Collect(f, xs) <==> exists i :: 0 <= i < |xs| && x in f(xs[i])
    decreases |xs|
  {
    if xs != [] {
      var init, last := xs[..|xs| - 1], xs[|xs| - 1];
      CollectMembers(f, init, x);
      assert Collect(f, xs) == Collect(f, init) + f(last);
      if exists i :: 0 <= i < |init| && x in f(init[i]) {
        var i :| 0 <= i < |init| && x in f(init[i]);
        assert xs[i] == init[i];
      }
      if exists i :: 0 <= i < |xs| && x in f(xs[i]) {
        var i :| 0 <= i < |xs| && x in f(xs[i]);
        if i < |init| {
          assert init[i] == xs[i];
        }
      }
    }
  }
}
