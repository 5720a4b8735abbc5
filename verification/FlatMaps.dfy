/** Collecting what each element of a sequence contributes, as the validators' loops do. */
module FlatMaps {

  function FlatMap<A, B>(xs: seq<A>, f: A -> seq<B>): seq<B> {
    if xs == [] then [] else FlatMap(xs[..|xs| - 1], f) + f(xs[|xs| - 1])
  }

  lemma FlatMapNext<A, B>(xs: seq<A>, f: A -> seq<B>, i: nat)
    requires i < |xs|
    ensures FlatMap(xs[..i + 1], f) == FlatMap(xs[..i], f) + f(xs[i])
  {
    assert xs[..i + 1][..i] == xs[..i];
  }

  /** A member of the result is contributed by some element, and every contribution is there. */
  lemma {:induction false} FlatMapMember<A, B>(xs: seq<A>, f: A -> seq<B>, y: B)
    ensures y in FlatMap(xs, f) <==> exists x :: x in xs && y in f(x)
  {
    if xs != [] {
      var n := |xs| - 1;
      FlatMapMember(xs[..n], f, y);
      assert forall x :: x in xs <==> x in xs[..n] || x == xs[n];
    }
  }

  /** Nothing is collected exactly when no element contributes. */
  lemma {:induction false} FlatMapEmpty<A, B>(xs: seq<A>, f: A -> seq<B>)
    ensures FlatMap(xs, f) == [] <==> forall x :: x in xs ==> f(x) == []
  {
    if xs != [] {
      var n := |xs| - 1;
      FlatMapEmpty(xs[..n], f);
      assert forall x :: x in xs <==> x in xs[..n] || x == xs[n];
    }
  }
}
