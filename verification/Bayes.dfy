// engine/correlation.py, BayesianOnlineDetector: online change-point detection with a
// Normal-Inverse-Gamma prior, constant hazard and pruning.
module Bayes {
  import opened Common

  // ---------------------------------------------------------------- the conjugate posterior

  datatype NigParams = NigParams(mu: real, kappa: real, alpha: real, beta: real)

  type Nig = n: NigParams | n.kappa > 0.0 && n.alpha > 0.0 && n.beta > 0.0
    witness NigParams(0.0, 1.0, 2.0, 0.01)

  function Observe(n: Nig, x: real): Nig {
    ObserveKeepsBeta(n, x);
    NigParams((n.kappa * n.mu + x) / (n.kappa + 1.0),
              n.kappa + 1.0,
              n.alpha + 0.5,
              n.beta + n.kappa * ((x - n.mu) * (x - n.mu)) / (2.0 * (n.kappa + 1.0)))
  }

  lemma ObserveKeepsBeta(n: Nig, x: real)
    ensures n.beta + n.kappa * ((x - n.mu) * (x - n.mu)) / (2.0 * (n.kappa + 1.0)) > 0.0
  {
    var d := x - n.mu;
    assert d * d >= 0.0;
    MonotoneProduct(n.kappa, 0.0, d * d);
    NonNegativeQuotient(n.kappa * (d * d), 2.0 * (n.kappa + 1.0));
  }

  lemma NonNegativeQuotient(x: real, y: real)
    requires x >= 0.0 && y > 0.0
    ensures x / y >= 0.0
  {
  }

  function Posterior(prior: Nig, xs: seq<real>): Nig {
    if xs == [] then prior else Observe(Posterior(prior, xs[..|xs| - 1]), xs[|xs| - 1])
  }

  // The textbook posterior, from the count, the sum and the sum of squares alone.
  function ClosedForm(prior: Nig, n: nat, s1: real, s2: real): NigParams {
    var kappa := prior.kappa + n as real;
    var mu := (prior.kappa * prior.mu + s1) / kappa;
    NigParams(mu, kappa, prior.alpha + n as real / 2.0,
              prior.beta + (s2 + prior.kappa * (prior.mu * prior.mu) - kappa * (mu * mu)) / 2.0)
  }

  lemma {:induction false} PosteriorIsClosedForm(prior: Nig, xs: seq<real>)
    ensures Posterior(prior, xs) == ClosedForm(prior, |xs|, Sum(xs), Sum(Squares(xs)))
  {
    hide *;
    if xs == [] {
      EmptyForm(prior);
      Unfold(prior, xs);
    } else {
      Unfold(prior, xs);
      var n := |xs| - 1;
      PosteriorIsClosedForm(prior, xs[..n]);
      FormStep(prior, n, Sum(xs[..n]), Sum(Squares(xs[..n])), xs[n], Posterior(prior, xs[..n]));
    }
  }

  lemma Unfold(prior: Nig, xs: seq<real>)
    ensures xs == [] ==> Posterior(prior, xs) == prior && Sum(xs) == 0.0 && Sum(Squares(xs)) == 0.0
    ensures xs != [] ==>
              var n := |xs| - 1;
              && Posterior(prior, xs) == Observe(Posterior(prior, xs[..n]), xs[n])
              && Sum(xs) == Sum(xs[..n]) + xs[n]
              && Sum(Squares(xs)) == Sum(Squares(xs[..n])) + Square(xs[n])
  {
    hide Square, Observe;
    if xs != [] {
      assert Squares(xs)[..|xs| - 1] == Squares(xs[..|xs| - 1]);
    }
  }

  lemma EmptyForm(prior: Nig)
    ensures ClosedForm(prior, 0, 0.0, 0.0) == prior
  {
    DivideUnique(prior.kappa * prior.mu, prior.kappa, prior.mu);
  }

  lemma FormStep(prior: Nig, n: nat, s1: real, s2: real, x: real, p: Nig)
    requires p == ClosedForm(prior, n, s1, s2)
    ensures Observe(p, x) == ClosedForm(prior, n + 1, s1 + x, s2 + Square(x))
  {
    var k, m := p.kappa, p.mu;
    var m' := Observe(p, x).mu;
    Scaled(prior, n, s1);
    Completing(k, m, x, m');
    BetaStep(prior.beta, prior.kappa * (prior.mu * prior.mu), s2, k * (m * m), x * x, (k + 1.0) * (m' * m'),
             k * ((x - m) * (x - m)) / (2.0 * (k + 1.0)));
  }

  // The mean times its weight is the weighted sum.
  lemma Scaled(prior: Nig, n: nat, s1: real)
    ensures var p := ClosedForm(prior, n, s1, 0.0); p.kappa * p.mu == prior.kappa * prior.mu + s1
  {
    DivideBack(prior.kappa * prior.mu + s1, prior.kappa + n as real);
  }

  lemma BetaStep(b: real, c: real, s2: real, old2: real, x2: real, new2: real, d: real)
    requires d == (old2 + x2 - new2) / 2.0
    ensures b + (s2 + c - old2) / 2.0 + d == b + (s2 + x2 + c - new2) / 2.0
  {
  }

  // kappa m^2 + x^2 - (kappa + 1) m'^2 == kappa (x - m)^2 / (kappa + 1).
  lemma Completing(k: real, m: real, x: real, m': real)
    requires k > 0.0 && m' == (k * m + x) / (k + 1.0)
    ensures k * ((x - m) * (x - m)) / (2.0 * (k + 1.0))
         == (k * (m * m) + x * x - (k + 1.0) * (m' * m')) / 2.0
  {
    var k1 := k + 1.0;
    DivideBack(k * m + x, k1);
    var left, right := k * ((x - m) * (x - m)), k * (m * m) + x * x - k1 * (m' * m');
    calc {
      right * k1;
      (k * (m * m) + x * x) * k1 - (m' * k1) * (m' * k1);
      (k * (m * m) + x * x) * k1 - (k * m + x) * (k * m + x);
      left;
    }
    DivideUnique(left, 2.0 * k1, right / 2.0);
  }

  // ---------------------------------------------------------------- order does not matter

  lemma CutOut(s: seq<real>, j: nat)
    requires j < |s|
    ensures s == s[..j] + [s[j]] + s[j + 1..]
    ensures multiset(s[..j] + s[j + 1..]) == multiset(s) - multiset{s[j]}
  {
    assert s == s[..j] + [s[j]] + s[j + 1..];
  }

  // The last element of xs, found and taken out of a permutation of xs.
  lemma TakeOut(xs: seq<real>, ys: seq<real>) returns (front: seq<real>, back: seq<real>)
    requires multiset(xs) == multiset(ys) && xs != []
    ensures ys == front + [xs[|xs| - 1]] + back
    ensures multiset(xs[..|xs| - 1]) == multiset(front + back)
  {
    var n := |xs| - 1;
    assert xs[n] in multiset(xs);
    var j :| 0 <= j < |ys| && ys[j] == xs[n];
    front, back := ys[..j], ys[j + 1..];
    CutOut(xs, n);
    CutOut(ys, j);
    assert xs[..n] + xs[n + 1..] == xs[..n];
  }

  lemma {:induction false} SumOfPermutation(xs: seq<real>, ys: seq<real>)
    requires multiset(xs) == multiset(ys)
    ensures Sum(xs) == Sum(ys)
  {
    if xs == [] {
      assert |multiset(ys)| == |ys|;
    } else {
      var front, back := TakeOut(xs, ys);
      var x := xs[|xs| - 1];
      SumOfPermutation(xs[..|xs| - 1], front + back);
      SumAppend(front + [x], back);
      SumAppend(front, [x]);
      SumAppend(front, back);
      assert [x][..0] == [];
    }
  }

  lemma {:induction false} SquaresOfPermutation(xs: seq<real>, ys: seq<real>)
    requires multiset(xs) == multiset(ys)
    ensures multiset(Squares(xs)) == multiset(Squares(ys))
  {
    hide Square;
    if xs == [] {
      assert |multiset(ys)| == |ys|;
    } else {
      var front, back := TakeOut(xs, ys);
      var x := xs[|xs| - 1];
      SquaresOfPermutation(xs[..|xs| - 1], front + back);
      SquaresOfAppend(xs[..|xs| - 1], [x]);
      assert xs == xs[..|xs| - 1] + [x];
      SquaresOfAppend(front + [x], back);
      SquaresOfAppend(front, [x]);
      SquaresOfAppend(front, back);
    }
  }

  lemma SquaresOfAppend(xs: seq<real>, ys: seq<real>)
    ensures Squares(xs + ys) == Squares(xs) + Squares(ys)
  {
    hide Square;
  }

  lemma PosteriorIgnoresOrder(prior: Nig, xs: seq<real>, ys: seq<real>)
    requires multiset(xs) == multiset(ys)
    ensures Posterior(prior, xs) == Posterior(prior, ys)
  {
    assert |xs| == |multiset(xs)| == |ys|;
    SumOfPermutation(xs, ys);
    SquaresOfPermutation(xs, ys);
    SumOfPermutation(Squares(xs), Squares(ys));
    PosteriorIsClosedForm(prior, xs);
    PosteriorIsClosedForm(prior, ys);
  }
}
