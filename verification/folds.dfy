/** Running a list of actions from a state. */
module Folds {

  function Fold<S, A>(f: (S, A) -> S, s: S, xs: seq<A>): S {
    if xs == [] then s else f(Fold(f, s, xs[..|xs| - 1]), xs[|xs| - 1])
  }

  lemma FoldSnoc<S, A>(f: (S, A) -> S, s: S, xs: seq<A>, x: A)
    ensures Fold(f, s, xs + [x]) == f(Fold(f, s, xs), x)
  {
    assert (xs + [x])[..|xs + [x]| - 1] == xs;
  }

  lemma {:induction false} FoldConcat<S, A>(f: (S, A) -> S, s: S, a: seq<A>, b: seq<A>)
    ensures Fold(f, s, a + b) == Fold(f, Fold(f, s, a), b)
  {
    if b == [] {
      assert a + b == a;
    } else {
      FoldConcat(f, s, a, b[..|b| - 1]);
      assert (a + b)[..|a + b| - 1] == a + b[..|b| - 1];
    }
  }

  lemma {:induction false} Climb(p: nat -> bool, k: nat)
    requires p(0) && forall i :: 0 <= i < k && p(i) ==> p(i + 1)
    ensures p(k)
  {
    if k > 0 {
      Climb(p, k - 1);
    }
  }

  /** The lists `f` gives, one after the other. */
  function Flattened<A, B>(f: A -> seq<B>, xs: seq<A>): seq<B> {
    if xs == [] then [] else Flattened(f, xs[..|xs| - 1]) + f(xs[|xs| - 1])
  }

  lemma FlattenedOne<A, B>(f: A -> seq<B>, x: A)
    ensures Flattened(f, [x]) == f(x)
  {
    assert [x][..0] == [];
  }

  lemma {:induction false} FlattenedConcat<A, B>(f: A -> seq<B>, a: seq<A>, b: seq<A>)
    ensures Flattened(f, a + b) == Flattened(f, a) + Flattened(f, b)
  {
    if b == [] {
      assert a + b == a;
    } else {
      FlattenedConcat(f, a, b[..|b| - 1]);
      assert (a + b)[..|a + b| - 1] == a + b[..|b| - 1];
    }
  }
}
