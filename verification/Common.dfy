// Small vocabulary shared by the models: options, extrema and finite sums of reals.
module Common {

  datatype Option<+T> = None | Some(value: T)

  function Max(a: int, b: int): int { if a >= b then a else b }

  function Min(a: int, b: int): int { if a <= b then a else b }

  function RMax(a: real, b: real): real { if a >= b then a else b }

  function RMin(a: real, b: real): real { if a <= b then a else b }

  function RAbs(a: real): real { if a >= 0.0 then a else -a }

  function Square(x: real): real { x * x }

  function SetOf<T>(s: seq<T>): set<T> { set x | x in s }

  lemma SizeOfRest<T>(a: set<T>, b: set<T>)
    requires b <= a
    ensures |a - b| == |a| - |b|
  {
    assert a == (a - b) + b;
  }

  lemma SubsetSize<T>(a: set<T>, b: set<T>)
    requires a <= b
    ensures |a| <= |b|
  {
    SizeOfRest(b, a);
  }

  function Sum(xs: seq<real>): real {
    if xs == [] then 0.0 else Sum(xs[..|xs| - 1]) + xs[|xs| - 1]
  }

  lemma {:induction false} SumAppend(xs: seq<real>, ys: seq<real>)
    ensures Sum(xs + ys) == Sum(xs) + Sum(ys)
  {
    if ys == [] {
      assert xs + ys == xs;
    } else {
      assert (xs + ys)[..|xs + ys| - 1] == xs + ys[..|ys| - 1];
      SumAppend(xs, ys[..|ys| - 1]);
    }
  }

  lemma {:induction false} SumNonNegative(xs: seq<real>)
    requires forall i :: 0 <= i < |xs| ==> xs[i] >= 0.0
    ensures Sum(xs) >= 0.0
    ensures forall i :: 0 <= i < |xs| ==> xs[i] <= Sum(xs)
  {
    if xs != [] {
      SumNonNegative(xs[..|xs| - 1]);
      forall i | 0 <= i < |xs|
        ensures xs[i] <= Sum(xs)
      {
        if i < |xs| - 1 { assert xs[i] == xs[..|xs| - 1][i]; }
      }
    }
  }

  function Squares(xs: seq<real>): seq<real> {
    seq(|xs|, i requires 0 <= i < |xs| => Square(xs[i]))
  }

  // Facts about products of reals, stated one at a time for the solver.
  lemma Distribute(a: real, x: real, y: real)
    ensures a * (x + y) == a * x + a * y
  {
  }

  lemma Associate(a: real, x: real, y: real)
    ensures a * (x * y) == (a * x) * y
  {
  }

  lemma DivideBack(x: real, y: real)
    requires y != 0.0
    ensures x / y * y == x
  {
  }

  lemma DivideUnique(x: real, y: real, q: real)
    requires y != 0.0 && x == q * y
    ensures x / y == q
  {
  }

  lemma MonotoneProduct(a: real, x: real, y: real)
    requires a >= 0.0 && x <= y
    ensures a * x <= a * y && x * a <= y * a
  {
  }

  lemma StrictProduct(a: real, x: real, y: real)
    requires a > 0.0 && x < y
    ensures a * x < a * y && x * a < y * a
  {
  }

  lemma Quotients(x: real, n: real)
    requires n > 0.0
    ensures x / n == 1.0 / n * x && 1.0 / n > 0.0
  {
  }

  lemma AffineStep(a: real, b: real, s: real, x: real, n: real)
    ensures (a * s + b * n) + (a * x + b) == a * (s + x) + b * (n + 1.0)
  {
  }

  function Scale(a: real, b: real, x: real): real { a * x + b }

  // A sum of terms a * x[i] + b.
  lemma {:induction false} SumAffine(xs: seq<real>, ys: seq<real>, a: real, b: real)
    requires |xs| == |ys|
    requires forall i :: 0 <= i < |xs| ==> ys[i] == Scale(a, b, xs[i])
    ensures Sum(ys) == a * Sum(xs) + b * |xs| as real
  {
    if xs != [] {
      var n := |xs| - 1;
      assert Sum(ys[..n]) == a * Sum(xs[..n]) + b * n as real by {
        hide Scale;
        SumAffine(xs[..n], ys[..n], a, b);
      }
      var s, x := Sum(xs[..n]), xs[n];
      assert ys[n] == Scale(a, b, x);
      calc {
        Sum(ys);
        (a * s + b * n as real) + (a * x + b);
        { AffineStep(a, b, s, x, n as real); }
        a * (s + x) + b * (n as real + 1.0);
        a * Sum(xs) + b * |xs| as real;
      }
    }
  }

  function Times(a: real, x: real): real { a * x }

  lemma SumTimes(xs: seq<real>, ys: seq<real>, a: real)
    requires |xs| == |ys|
    requires forall i :: 0 <= i < |xs| ==> ys[i] == Times(a, xs[i])
    ensures Sum(ys) == Times(a, Sum(xs))
  {
    SumAffine(xs, ys, a, 0.0);
  }

  lemma TimesMonotone(a: real, x: real, y: real)
    requires a >= 0.0 && x <= y
    ensures Times(a, x) <= Times(a, y)
  {
  }
}
