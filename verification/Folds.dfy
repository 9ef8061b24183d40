/** Folding a step function over sequences and over pieces of sequences. */
module Folds {

  function Fold<S, T>(f: (S, T) -> S, s: S, xs: seq<T>): S {
    if xs == [] then s else f(Fold(f, s, xs[..|xs| - 1]), xs[|xs| - 1])
  }

  lemma {:induction false} FoldJoins<S, T>(f: (S, T) -> S, s: S, a: seq<T>, b: seq<T>)
    ensures Fold(f, s, a + b) == Fold(f, Fold(f, s, a), b)
  {
    if b == [] {
      assert a + b == a;
    } else {
      FoldJoins(f, s, a, b[..|b| - 1]);
      assert (a + b)[..|a + b| - 1] == a + b[..|b| - 1];
    }
  }

  function FoldPieces<S, T>(f: (S, T) -> S, s: S, pieces: nat -> seq<T>, n: nat): S {
    Fold(f, if n == 0 then s else FoldPieces(f, s, pieces, n - 1), pieces(n))
  }

  function Joined<T>(pieces: nat -> seq<T>, n: nat): seq<T> {
    (if n == 0 then [] else Joined(pieces, n - 1)) + pieces(n)
  }

  lemma {:induction false} PiecesJoin<S, T>(f: (S, T) -> S, s: S, pieces: nat -> seq<T>, n: nat)
    ensures FoldPieces(f, s, pieces, n) == Fold(f, s, Joined(pieces, n))
  {
    if n > 0 {
      PiecesJoin(f, s, pieces, n - 1);
      FoldJoins(f, s, Joined(pieces, n - 1), pieces(n));
    } else {
      assert [] + pieces(0) == pieces(0);
    }
  }
}
