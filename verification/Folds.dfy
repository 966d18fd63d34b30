// Iteration and left folds, and the facts about them that need only a
// property of the function folded.
module Folds {

  function Iterate<S>(f: S -> S, s: S, n: nat): S
    decreases n, s
  {
    if n == 0 then s else Iterate(f, f(s), n - 1)
  }

  lemma IterateStep<S>(f: S -> S, s: S, t: S, n: nat)
    requires n > 0 && f(s) == t
    ensures Iterate(f, s, n) == Iterate(f, t, n - 1)
  {
  }

  lemma IterateTwice<S>(f: S -> S, s: S, n: nat)
    requires n >= 2
    ensures Iterate(f, s, n) == Iterate(f, f(f(s)), n - 2)
  {
    IterateStep(f, s, f(s), n);
  }

  lemma IterateEight<S>(f: S -> S, s: S)
    ensures Iterate(f, s, 8) == f(f(f(f(f(f(f(f(s))))))))
  {
    IterateTwice(f, s, 8);
    IterateTwice(f, f(f(s)), 6);
    IterateTwice(f, f(f(f(f(s)))), 4);
    IterateTwice(f, f(f(f(f(f(f(s)))))), 2);
  }

  function Fold<S, A>(f: (S, A) -> S, s: S, xs: seq<A>): S
    decreases |xs|
  {
    if xs == [] then s else Fold(f, f(s, xs[0]), xs[1..])
  }

  function Zip<A>(plus: (A, A) -> A, xs: seq<A>, ys: seq<A>): (zs: seq<A>)
    requires |xs| == |ys|
    ensures |zs| == |xs| && forall i :: 0 <= i < |zs| ==> zs[i] == plus(xs[i], ys[i])
  {
    seq(|xs|, i requires 0 <= i < |xs| => plus(xs[i], ys[i]))
  }

  lemma {:induction false} IterateLinear<S(!new)>(plus: (S, S) -> S, f: S -> S, a: S, b: S, n: nat)
    requires forall x, y {:trigger f(plus(x, y))} :: f(plus(x, y)) == plus(f(x), f(y))
    ensures Iterate(f, plus(a, b), n) == plus(Iterate(f, a, n), Iterate(f, b, n))
    decreases n
  {
    if n > 0 {
      IterateLinear(plus, f, f(a), f(b), n - 1);
    }
  }

  lemma {:induction false} FoldLinear<S(!new), A(!new)>(
    plusS: (S, S) -> S, plusA: (A, A) -> A, f: (S, A) -> S, a: S, b: S, xs: seq<A>, ys: seq<A>)
    requires |xs| == |ys|
    requires forall s, t, x, y {:trigger f(plusS(s, t), plusA(x, y))} ::
               f(plusS(s, t), plusA(x, y)) == plusS(f(s, x), f(t, y))
    ensures Fold(f, plusS(a, b), Zip(plusA, xs, ys)) == plusS(Fold(f, a, xs), Fold(f, b, ys))
    decreases |xs|
  {
    if xs != [] {
      FoldLinear(plusS, plusA, f, f(a, xs[0]), f(b, ys[0]), xs[1..], ys[1..]);
      assert Zip(plusA, xs, ys)[1..] == Zip(plusA, xs[1..], ys[1..]);
      assert Zip(plusA, xs, ys)[0] == plusA(xs[0], ys[0]);
    }
  }

  lemma {:induction false} FoldAppend<S, A>(f: (S, A) -> S, s: S, xs: seq<A>, ys: seq<A>)
    ensures Fold(f, s, xs + ys) == Fold(f, Fold(f, s, xs), ys)
    decreases |xs|
  {
    if xs == [] {
      assert xs + ys == ys;
    } else {
      FoldAppend(f, f(s, xs[0]), xs[1..], ys);
      assert (xs + ys)[1..] == xs[1..] + ys;
    }
  }

  lemma {:induction false} IterateZero<S(!new)>(f: S -> S, zero: S, s: S, n: nat)
    requires forall x :: f(x) == zero <==> x == zero
    ensures Iterate(f, s, n) == zero <==> s == zero
    decreases n
  {
    if n > 0 {
      IterateZero(f, zero, f(s), n - 1);
    }
  }

  lemma {:induction false} FoldZero<S(!new), A>(f: (S, A) -> S, zeroS: S, zeroA: A, s: S, xs: seq<A>)
    requires forall i :: 0 <= i < |xs| ==> xs[i] == zeroA
    requires forall x :: f(x, zeroA) == zeroS <==> x == zeroS
    ensures Fold(f, s, xs) == zeroS <==> s == zeroS
    decreases |xs|
  {
    if xs != [] {
      FoldZero(f, zeroS, zeroA, f(s, xs[0]), xs[1..]);
    }
  }

  lemma FoldThree<S, A>(f: (S, A) -> S, s: S, xs: seq<A>)
    requires |xs| == 3
    ensures Fold(f, s, xs) == f(f(f(s, xs[0]), xs[1]), xs[2])
  {
    assert Fold(f, s, xs) == Fold(f, f(s, xs[0]), xs[1..]);
    assert Fold(f, f(s, xs[0]), xs[1..]) == Fold(f, f(f(s, xs[0]), xs[1]), xs[1..][1..]);
  }
}
