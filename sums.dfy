/** Sums of a natural-valued measure over a sequence, with the two facts the counting proofs rely on. */
module Sums {

  /** The sum of `f` over the elements of `xs`, from the front. */
  function Sum<T>(xs: seq<T>, f: T -> nat): nat
  {
    if xs == [] then 0 else f(xs[0]) + Sum(xs[1..], f)
  }

  /** Summing over a concatenation is summing over each part. */
  lemma {:induction false} SumConcat<T>(xs: seq<T>, ys: seq<T>, f: T -> nat)
    ensures Sum(xs + ys, f) == Sum(xs, f) + Sum(ys, f)
  {
    if xs == [] {
      assert xs + ys == ys;
    } else {
      assert (xs + ys)[1..] == xs[1..] + ys;
      SumConcat(xs[1..], ys, f);
    }
  }

  /** The sum does not depend on the order of the elements. */
  lemma {:induction false} SumPermutation<T>(xs: seq<T>, ys: seq<T>, f: T -> nat)
    requires multiset(xs) == multiset(ys)
    ensures Sum(xs, f) == Sum(ys, f)
    decreases |xs|
  {
    if xs == [] {
      assert |ys| == |multiset(ys)| == 0;
    } else {
      var x := xs[0];
      assert x in multiset(ys);
      var i :| 0 <= i < |ys| && ys[i] == x;
      var rest := ys[..i] + ys[i + 1..];
      assert ys == ys[..i] + [x] + ys[i + 1..];
      assert xs == [x] + xs[1..];
      assert multiset(xs) == multiset{x} + multiset(xs[1..]);
      assert multiset(ys) == multiset{x} + multiset(rest) by {
        assert multiset(ys) == multiset(ys[..i]) + multiset([x]) + multiset(ys[i + 1..]);
        assert multiset(rest) == multiset(ys[..i]) + multiset(ys[i + 1..]);
      }
      assert multiset(xs[1..]) == multiset(rest) by {
        forall e ensures multiset(xs[1..])[e] == multiset(rest)[e] {
          assert (multiset{x} + multiset(xs[1..]))[e] == (multiset{x} + multiset(rest))[e];
        }
      }
      SumPermutation(xs[1..], rest, f);
      SumConcat(ys[..i] + [x], ys[i + 1..], f);
      SumConcat(ys[..i], [x], f);
      SumConcat(ys[..i], ys[i + 1..], f);
      assert Sum([x], f) == f(x) by { assert [x][1..] == []; }
    }
  }
}
