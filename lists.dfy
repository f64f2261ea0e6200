/**
 * The shape shared by the indicators' collecting loops: walk a list in
 * order and append what each element contributes.
 */
module Lists {

  /** The concatenation of `f(x)` over the elements `x` of `xs`, in order. */
  function FlatMap<A, B>(xs: seq<A>, f: A -> seq<B>): seq<B> {
    if xs == [] then [] else FlatMap(xs[..|xs| - 1], f) + f(xs[|xs| - 1])
  }

  /** One loop step: the prefix up to `i + 1` adds what element `i` contributes. */
  lemma FlatMapStep<A, B>(xs: seq<A>, f: A -> seq<B>, i: nat)
    requires i < |xs|
    ensures FlatMap(xs[..i + 1], f) == FlatMap(xs[..i], f) + f(xs[i])
  {
    assert xs[..i + 1][..i] == xs[..i];
  }

  lemma {:induction false} FlatMapConcat<A, B>(xs: seq<A>, ys: seq<A>, f: A -> seq<B>)
    ensures FlatMap(xs + ys, f) == FlatMap(xs, f) + FlatMap(ys, f)
    decreases |ys|
  {
    if ys == [] {
      assert xs + ys == xs;
    } else {
      var front := ys[..|ys| - 1];
      FlatMapConcat(xs, front, f);
      assert (xs + ys)[..|xs + ys| - 1] == xs + front;
      assert (xs + ys)[|xs + ys| - 1] == ys[|ys| - 1];
    }
  }

  /** Something comes out exactly when some element contributes it. */
  lemma {:induction false} FlatMapMembers<A, B>(xs: seq<A>, f: A -> seq<B>, y: B)
    ensures y in FlatMap(xs, f) <==> exists i :: 0 <= i < |xs| && y in f(xs[i])
  {
    if xs != [] {
      var n := |xs| - 1;
      var front := xs[..n];
      FlatMapMembers(front, f, y);
      if exists i :: 0 <= i < |xs| && y in f(xs[i]) {
        var i :| 0 <= i < |xs| && y in f(xs[i]);
        if i < n { assert front[i] == xs[i]; }
      }
      if y in FlatMap(front, f) {
        var i :| 0 <= i < n && y in f(front[i]);
        assert xs[i] == front[i];
      }
    }
  }

  /** When every element contributes at most one item there are at most as many items as elements. */
  lemma {:induction false} FlatMapAtMostOneEach<A, B>(xs: seq<A>, f: A -> seq<B>)
    requires forall x :: x in xs ==> |f(x)| <= 1
    ensures |FlatMap(xs, f)| <= |xs|
  {
    if xs != [] {
      var front := xs[..|xs| - 1];
      assert forall x :: x in front ==> x in xs;
      FlatMapAtMostOneEach(front, f);
      assert xs[|xs| - 1] in xs;
    }
  }

  /** `Select(f)`: `f` applied to each element, in order. */
  function Map<A, B>(xs: seq<A>, f: A -> B): (r: seq<B>)
    ensures |r| == |xs|
    ensures forall i :: 0 <= i < |xs| ==> r[i] == f(xs[i])
  {
    seq(|xs|, i requires 0 <= i < |xs| => f(xs[i]))
  }

  lemma MapMembers<A, B>(xs: seq<A>, f: A -> B, y: B)
    ensures y in Map(xs, f) <==> exists x :: x in xs && f(x) == y
  {
    if y in Map(xs, f) {
      var i :| 0 <= i < |xs| && Map(xs, f)[i] == y;
      assert xs[i] in xs;
    }
    if exists x :: x in xs && f(x) == y {
      var x :| x in xs && f(x) == y;
      var i :| 0 <= i < |xs| && xs[i] == x;
      assert Map(xs, f)[i] == y;
    }
  }
}
