// Binomial coefficients and finite sums, shared by the permutation statistics and the
// quorum bound.
module Combinatorics {
  import opened Common

  // "n choose k"; zero outside Pascal's triangle.
  function Choose(n: int, k: int): nat
    decreases if n < 0 then 0 else n
  {
    if n < 0 || k < 0 || k > n then 0
    else if n == 0 then 1
    else Choose(n - 1, k - 1) + Choose(n - 1, k)
  }

  lemma Pascal(n: int, k: int)
    requires n >= 1
    ensures Choose(n, k) == Choose(n - 1, k - 1) + Choose(n - 1, k)
  {
  }

  lemma {:induction false} ChooseEdges(n: nat)
    ensures Choose(n, 0) == 1 && Choose(n, n) == 1
  {
    if n > 0 { ChooseEdges(n - 1); }
  }

  // (k + 1) * C(n, k + 1) == (n - k) * C(n, k).
  lemma {:induction false} Absorption(n: nat, k: nat)
    requires k <= n
    ensures (k + 1) * Choose(n, k + 1) == (n - k) * Choose(n, k)
  {
    if k == 0 {
      ChooseEdges(n);
      ChooseOne(n);
    } else if k < n {
      Absorption(n - 1, k);
      Absorption(n - 1, k - 1);
      AbsorptionStep(n, k, Choose(n - 1, k - 1), Choose(n - 1, k), Choose(n - 1, k + 1));
    }
  }

  lemma {:induction false} ChooseOne(n: nat)
    ensures Choose(n, 1) == n
  {
    if n > 0 {
      ChooseOne(n - 1);
      ChooseEdges(n - 1);
    }
  }

  lemma AbsorptionStep(n: int, k: int, a: int, b: int, c: int)
    requires (k + 1) * c == (n - 1 - k) * b && k * b == (n - k) * a
    ensures (k + 1) * (b + c) == (n - k) * (a + b)
  {
    calc {
      (k + 1) * (b + c);
      (k + 1) * b + (k + 1) * c;
      (k + 1) * b + (n - 1 - k) * b;
      k * b + (n - k) * b;
      (n - k) * a + (n - k) * b;
      (n - k) * (a + b);
    }
  }

  // Sums are additive, entry by entry.
  lemma {:induction false} SumPlus(xs: seq<real>, ys: seq<real>, zs: seq<real>)
    requires |xs| == |ys| == |zs|
    requires forall i :: 0 <= i < |zs| ==> zs[i] == xs[i] + ys[i]
    ensures Sum(zs) == Sum(xs) + Sum(ys)
  {
    if zs != [] {
      var n := |zs| - 1;
      SumPlus(xs[..n], ys[..n], zs[..n]);
    }
  }

  lemma {:induction false} SumConstant(xs: seq<real>, v: real)
    requires forall i :: 0 <= i < |xs| ==> xs[i] == v
    ensures Sum(xs) == |xs| as real * v
  {
    if xs != [] {
      var n := |xs| - 1;
      SumConstant(xs[..n], v);
      calc {
        Sum(xs);
        n as real * v + v;
        |xs| as real * v;
      }
    }
  }
}
