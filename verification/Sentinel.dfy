/** The running minimum in which 0 stands for "nothing yet". The channel builder keeps its
    deadline this way, and the consensus poller its three group minima. */
module SentinelMin {

  /** One step: take the offer when nothing is held or the offer is lower. */
  function Lower(held: nat, offer: nat): nat {
    if held == 0 || offer < held then offer else held
  }

  /** The value held after every offer of `xs`, starting from `held`. */
  function Fold(held: nat, xs: seq<nat>): nat
    decreases xs
  {
    if xs == [] then held else Fold(Lower(held, xs[0]), xs[1..])
  }

  /** `m` is the least element of `xs`. */
  ghost predicate IsLeast(m: nat, xs: seq<nat>) {
    m in xs && forall x | x in xs :: m <= x
  }

  /** What follows the last 0 of `xs`. */
  function SinceLastZero(xs: seq<nat>): (ys: seq<nat>)
    ensures 0 !in ys && forall y | y in ys :: y in xs
  {
    if xs == [] || xs[|xs| - 1] == 0 then []
    else SinceLastZero(xs[..|xs| - 1]) + [xs[|xs| - 1]]
  }

  lemma {:induction false} FoldSnoc(held: nat, xs: seq<nat>, x: nat)
    ensures Fold(held, xs + [x]) == Lower(Fold(held, xs), x)
    decreases xs
  {
    if xs == [] {
      assert [x][1..] == [];
    } else {
      assert (xs + [x])[1..] == xs[1..] + [x];
      FoldSnoc(Lower(held, xs[0]), xs[1..], x);
    }
  }

  /** The exact value for every list of offers: a 0 offer forgets everything before it, and
      after the last 0 the least offer is held. */
  lemma {:induction false} FoldExact(xs: seq<nat>)
    ensures Fold(0, xs) == 0 <==> SinceLastZero(xs) == []
    ensures SinceLastZero(xs) != [] ==> IsLeast(Fold(0, xs), SinceLastZero(xs))
  {
    if xs != [] {
      var init, x := xs[..|xs| - 1], xs[|xs| - 1];
      assert xs == init + [x];
      FoldSnoc(0, init, x);
      FoldExact(init);
      if x != 0 {
        LeastSnoc(Fold(0, init), SinceLastZero(init), x);
      }
    }
  }

  lemma LeastSnoc(held: nat, xs: seq<nat>, x: nat)
    requires x != 0 && (held == 0 <==> xs == []) && (xs != [] ==> IsLeast(held, xs))
    ensures IsLeast(Lower(held, x), xs + [x])
  {
  }

  lemma {:induction false} SinceLastZeroIsAll(xs: seq<nat>)
    requires 0 !in xs
    ensures SinceLastZero(xs) == xs
  {
    if xs != [] {
      SinceLastZeroIsAll(xs[..|xs| - 1]);
      assert xs == xs[..|xs| - 1] + [xs[|xs| - 1]];
    }
  }

  /** Without a 0 among the offers the fold is the true minimum. */
  lemma FoldIsLeast(xs: seq<nat>)
    requires xs != [] && 0 !in xs
    ensures IsLeast(Fold(0, xs), xs)
  {
    SinceLastZeroIsAll(xs);
    FoldExact(xs);
  }

  lemma FoldLast(xs: seq<nat>)
    requires xs != []
    ensures Fold(0, xs) == 0 <==> xs[|xs| - 1] == 0
    ensures Fold(0, xs) in xs
  {
    FoldExact(xs);
    assert xs[|xs| - 1] in xs;
  }

  /** Two folds side by side come out in order when their offers are in order and the zeros of
      the two come together. */
  lemma {:induction false} ZerosTogether(xs: seq<nat>, ys: seq<nat>)
    requires |xs| == |ys| && forall i | 0 <= i < |xs| :: xs[i] <= ys[i] && (xs[i] == 0 ==> ys[i] == 0)
    ensures Fold(0, xs) <= Fold(0, ys) && (Fold(0, xs) == 0 <==> Fold(0, ys) == 0)
  {
    if xs != [] {
      var n := |xs| - 1;
      ZerosTogether(xs[..n], ys[..n]);
      assert xs == xs[..n] + [xs[n]] && ys == ys[..n] + [ys[n]];
      FoldSnoc(0, xs[..n], xs[n]);
      FoldSnoc(0, ys[..n], ys[n]);
    }
  }

  /** The same when no positive offer of the second is below an offer of the first. */
  lemma NoneBelow(xs: seq<nat>, ys: seq<nat>)
    requires |xs| == |ys| && forall i | 0 <= i < |xs| :: xs[i] <= ys[i]
    requires forall i, j | 0 <= i < |xs| && 0 <= j < |ys| :: ys[j] == 0 || xs[i] <= ys[j]
    ensures Fold(0, xs) <= Fold(0, ys)
  {
    if xs != [] {
      FoldLast(xs);
      FoldLast(ys);
    }
  }
}
