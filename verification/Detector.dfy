// engine/detector.py: the two-sided Page-CUSUM detector, one stream per
// (model_tuple, suite_version, metric_name).
module Detector {
  import opened Common

  datatype Key = Key(model: string, suite: string, metric: string)

  datatype Direction = Positive | Negative

  // The numeric part of a DriftAlert; the labels are the stream's Key.
  datatype Fired = Fired(direction: Direction, score: real, threshold: real, windowCount: nat)

  // h, k and the baseline size, with the square root the language supplies.
  datatype Config = Config(h: real, k: real, samples: int, root: real -> real)

  ghost predicate IsSquareRoot(root: real -> real) {
    forall v: real :: v >= 0.0 ==> root(v) >= 0.0 && root(v) * root(v) == v
  }

  datatype Baseline = Warming | Ready(mu: real, sigma: real)

  datatype Stream = Stream(n: nat, buf: seq<real>, baseline: Baseline, sPos: real, sNeg: real)

  const Fresh := Stream(0, [], Warming, 0.0, 0.0)

  const SIGMA_CLAMP := 0.000000001

  // ---------------------------------------------------------------- one step

  function Mean(xs: seq<real>): real
    requires xs != []
  {
    Sum(xs) / |xs| as real
  }

  function SquaredDeviations(xs: seq<real>, mu: real): seq<real> {
    seq(|xs|, i requires 0 <= i < |xs| => Square(xs[i] - mu))
  }

  function Variance(xs: seq<real>): real
    requires xs != []
  {
    if |xs| > 1 then Sum(SquaredDeviations(xs, Mean(xs))) / (|xs| - 1) as real else 0.0
  }

  function Clamp(sigma: real): real {
    if sigma < SIGMA_CLAMP then 1.0 else sigma
  }

  function Estimate(buf: seq<real>, root: real -> real): Baseline
    requires buf != []
  {
    Ready(Mean(buf), Clamp(root(Variance(buf))))
  }

  function Z(b: Baseline, x: real): real
    requires b.Ready? && b.sigma != 0.0
  {
    (x - b.mu) / b.sigma
  }

  // Sigma is a clamped root, so it can be divided by.
  predicate Sane(s: Stream) {
    s.baseline.Ready? ==> s.baseline.sigma >= SIGMA_CLAMP
  }

  function Fire(c: Config, s: Stream): Option<Fired> {
    if s.sPos > c.h then Some(Fired(Positive, s.sPos, c.h, s.n))
    else if s.sNeg > c.h then Some(Fired(Negative, s.sNeg, c.h, s.n))
    else None
  }

  function Advance(c: Config, s: Stream, x: real): (t: Stream)
    requires Sane(s)
    ensures Sane(t)
  {
    if s.baseline.Warming? then
      var buf := s.buf + [x];
      s.(n := s.n + 1, buf := buf,
         baseline := if |buf| >= c.samples then Estimate(buf, c.root) else Warming)
    else
      var z := Z(s.baseline, x);
      s.(n := s.n + 1,
         sPos := RMax(0.0, s.sPos + z - c.k),
         sNeg := RMax(0.0, s.sNeg - z - c.k))
  }

  // Nothing fires on an observation that only feeds the baseline.
  function AlertOf(c: Config, s: Stream, x: real): Option<Fired>
    requires Sane(s)
  {
    if s.baseline.Warming? then None else Fire(c, Advance(c, s, x))
  }

  // ---------------------------------------------------------------- whole runs

  function Run(c: Config, s: Stream, xs: seq<real>): (t: Stream)
    requires Sane(s)
    ensures Sane(t)
  {
    if xs == [] then s else Advance(c, Run(c, s, xs[..|xs| - 1]), xs[|xs| - 1])
  }

  // The alert raised by the last observation of xs.
  function LastAlert(c: Config, s: Stream, xs: seq<real>): Option<Fired>
    requires Sane(s) && xs != []
  {
    AlertOf(c, Run(c, s, xs[..|xs| - 1]), xs[|xs| - 1])
  }

  lemma {:induction false} RunAppend(c: Config, s: Stream, xs: seq<real>, ys: seq<real>)
    requires Sane(s)
    ensures Run(c, s, xs + ys) == Run(c, Run(c, s, xs), ys)
  {
    if ys == [] {
      assert xs + ys == xs;
    } else {
      assert (xs + ys)[..|xs + ys| - 1] == xs + ys[..|ys| - 1];
      RunAppend(c, s, xs, ys[..|ys| - 1]);
    }
  }

  // The number of observations that never alert.
  function BaselineSize(c: Config): nat { Max(1, c.samples) }

  lemma {:induction false} WhileWarming(c: Config, xs: seq<real>)
    requires |xs| < BaselineSize(c)
    ensures Run(c, Fresh, xs) == Stream(|xs|, xs, Warming, 0.0, 0.0)
  {
    if xs != [] {
      WhileWarming(c, xs[..|xs| - 1]);
      assert xs[..|xs| - 1] + [xs[|xs| - 1]] == xs;
    }
  }

  // The baseline is frozen by exactly the first BaselineSize observations, silently.
  lemma BaselineFrozen(c: Config, base: seq<real>)
    requires |base| == BaselineSize(c)
    ensures Run(c, Fresh, base) == Stream(|base|, base, Estimate(base, c.root), 0.0, 0.0)
    ensures LastAlert(c, Fresh, base) == None
  {
    var n := |base| - 1;
    WhileWarming(c, base[..n]);
    assert base[..n] + [base[n]] == base;
    LastWarming(c, base[..n], base[n]);
    hide Advance, Estimate, AlertOf;
  }

  lemma LastWarming(c: Config, front: seq<real>, x: real)
    requires |front| + 1 == BaselineSize(c)
    ensures var s := Stream(|front|, front, Warming, 0.0, 0.0);
      && Advance(c, s, x) == Stream(|front| + 1, front + [x], Estimate(front + [x], c.root), 0.0, 0.0)
      && AlertOf(c, s, x) == None
  {
    hide Estimate;
  }

  // ---------------------------------------------------------------- closed form

  // The z-scores of xs against a baseline as one side sees them, less the slack.
  function Excess(b: Baseline, k: real, side: Direction, xs: seq<real>): seq<real>
    requires b.Ready? && b.sigma != 0.0
  {
    seq(|xs|, i requires 0 <= i < |xs| =>
      (match side case Positive => Z(b, xs[i]) case Negative => -Z(b, xs[i])) - k)
  }

  function Lindley(es: seq<real>): (s: real)
    ensures s >= 0.0
  {
    if es == [] then 0.0 else RMax(0.0, Lindley(es[..|es| - 1]) + es[|es| - 1])
  }

  // The recursion is the largest suffix total, the empty suffix included.
  lemma {:induction false} LindleyIsMaxSuffix(es: seq<real>)
    ensures forall i :: 0 <= i <= |es| ==> Sum(es[i..]) <= Lindley(es)
    ensures exists i :: 0 <= i <= |es| && Sum(es[i..]) == Lindley(es)
  {
    if es == [] {
      assert es[0..] == [];
    } else {
      var n := |es| - 1;
      var front, last := es[..n], es[n];
      LindleyIsMaxSuffix(front);
      forall i | 0 <= i <= n
        ensures Sum(es[i..]) == Sum(front[i..]) + last
      {
        assert es[i..] == front[i..] + [last];
        SumAppend(front[i..], [last]);
        assert Sum([last]) == Sum([]) + last;
      }
      assert es[n + 1..] == [];
      var j :| 0 <= j <= n && Sum(front[j..]) == Lindley(front);
      assert Sum(es[j..]) == Lindley(front) + last;
      if Lindley(es) == 0.0 {
        assert Sum(es[n + 1..]) == Lindley(es);
      } else {
        assert Sum(es[j..]) == Lindley(es);
      }
      forall i | 0 <= i <= |es|
        ensures Sum(es[i..]) <= Lindley(es)
      {
        if i <= n { assert Sum(front[i..]) <= Lindley(front); }
      }
    }
  }

  lemma {:induction false} RunIsLindley(c: Config, s: Stream, xs: seq<real>)
    requires Sane(s) && s.baseline.Ready? && s.sPos == 0.0 && s.sNeg == 0.0
    ensures var t := Run(c, s, xs);
            && t.n == s.n + |xs| && t.buf == s.buf && t.baseline == s.baseline
            && t.sPos == Lindley(Excess(s.baseline, c.k, Positive, xs))
            && t.sNeg == Lindley(Excess(s.baseline, c.k, Negative, xs))
  {
    if xs != [] {
      var front := xs[..|xs| - 1];
      RunIsLindley(c, s, front);
      assert Excess(s.baseline, c.k, Positive, xs)[..|xs| - 1] == Excess(s.baseline, c.k, Positive, front);
      assert Excess(s.baseline, c.k, Negative, xs)[..|xs| - 1] == Excess(s.baseline, c.k, Negative, front);
    }
  }

  ghost predicate SuffixOver(es: seq<real>, h: real) {
    exists i :: 0 <= i <= |es| && Sum(es[i..]) > h
  }

  lemma OverIffSuffix(es: seq<real>, h: real)
    ensures Lindley(es) > h <==> SuffixOver(es, h)
  {
    LindleyIsMaxSuffix(es);
  }

  // After a frozen baseline, an observation alerts exactly when some suffix of the z-scores
  // (less the slack), on one side or the other, totals more than h; and the alert says
  // "positive" exactly when the upward side has such a suffix.
  lemma AlertIffSuffixOver(c: Config, base: seq<real>, xs: seq<real>)
    requires |base| == BaselineSize(c) && xs != []
    ensures var b := Estimate(base, c.root);
            var up := SuffixOver(Excess(b, c.k, Positive, xs), c.h);
            var down := SuffixOver(Excess(b, c.k, Negative, xs), c.h);
            var a := LastAlert(c, Fresh, base + xs);
            && (a.Some? <==> up || down)
            && (a.Some? ==> (a.value.direction.Positive? <==> up))
            && (a.Some? ==> a.value.windowCount == |base| + |xs|)
  {
    hide Lindley, Excess, SuffixOver;
    var b := Estimate(base, c.root);
    BaselineFrozen(c, base);
    var s := Run(c, Fresh, base);
    var front := xs[..|xs| - 1];
    assert (base + xs)[..|base + xs| - 1] == base + front;
    RunAppend(c, Fresh, base, front);
    RunIsLindley(c, s, front);
    RunIsLindley(c, s, xs);
    OverIffSuffix(Excess(b, c.k, Positive, xs), c.h);
    OverIffSuffix(Excess(b, c.k, Negative, xs), c.h);
  }

  lemma {:induction false} CountIsLength(c: Config, xs: seq<real>)
    ensures Run(c, Fresh, xs).n == |xs|
  {
    if xs != [] {
      CountIsLength(c, xs[..|xs| - 1]);
      hide Estimate;
    }
  }

  // A stream whose z-scores stay within the slack never alerts.
  lemma {:induction false} QuietNeverAlerts(c: Config, s: Stream, xs: seq<real>)
    requires c.h >= 0.0 && Sane(s) && s.baseline.Ready? && s.sPos == 0.0 && s.sNeg == 0.0
    requires forall i :: 0 <= i < |xs| ==> RAbs(Z(s.baseline, xs[i])) <= c.k
    ensures Run(c, s, xs) == s.(n := s.n + |xs|)
    ensures xs != [] ==> LastAlert(c, s, xs) == None
  {
    if xs != [] {
      QuietNeverAlerts(c, s, xs[..|xs| - 1]);
    }
  }

  // How many observations shifted by delta standard deviations are enough.
  function Delay(c: Config, delta: real): (m: nat)
    requires c.h >= 0.0 && delta > c.k
    ensures m >= 1
  {
    var q := c.h / (delta - c.k);
    assert q >= 0.0;
    q.Floor + 1
  }

  // n increments of d.
  function Ramp(n: nat, d: real): real { if n == 0 then 0.0 else Ramp(n - 1, d) + d }

  lemma {:induction false} RampIsProduct(n: nat, d: real)
    ensures Ramp(n, d) == n as real * d
  {
    if n > 0 {
      calc {
        Ramp(n, d);
        Ramp(n - 1, d) + d;
        { RampIsProduct(n - 1, d); }
        (n - 1) as real * d + d;
        n as real * d;
      }
    }
  }

  lemma DelayEnough(c: Config, delta: real)
    requires c.h >= 0.0 && delta > c.k
    ensures Ramp(Delay(c, delta), delta - c.k) > c.h
  {
    var d := delta - c.k;
    var q := c.h / d;
    calc {
      Ramp(Delay(c, delta), d);
    == { RampIsProduct(Delay(c, delta), d); }
      Delay(c, delta) as real * d;
    >  { StrictProduct(d, q, Delay(c, delta) as real); }
      q * d;
    == { DivideBack(c.h, d); }
      c.h;
    }
  }

  function Side(s: Stream, d: Direction): real { if d.Positive? then s.sPos else s.sNeg }

  // Every observation lies at least delta standard deviations from the baseline, on side d.
  predicate Shifted(b: Baseline, d: Direction, delta: real, xs: seq<real>)
    requires b.Ready? && b.sigma != 0.0
  {
    forall i :: 0 <= i < |xs| ==> (if d.Positive? then Z(b, xs[i]) else -Z(b, xs[i])) >= delta
  }

  lemma {:induction false} ShiftAccumulates(c: Config, s: Stream, d: Direction, delta: real, xs: seq<real>)
    requires Sane(s) && s.baseline.Ready? && delta > c.k && Shifted(s.baseline, d, delta, xs)
    ensures Side(Run(c, s, xs), d) >= Side(s, d) + Ramp(|xs|, delta - c.k)
  {
    if xs != [] {
      var front := xs[..|xs| - 1];
      RunKeepsBaseline(c, s, front);
      ShiftAccumulates(c, s, d, delta, front);
      hide Z;
    }
  }

  lemma ShiftCrosses(c: Config, s: Stream, d: Direction, delta: real, xs: seq<real>)
    requires Sane(s) && s.baseline.Ready? && Side(s, d) >= 0.0 && c.h >= 0.0 && delta > c.k
    requires |xs| == Delay(c, delta) && Shifted(s.baseline, d, delta, xs)
    ensures Side(Run(c, s, xs), d) > c.h
  {
    hide Z, Run, Delay;
    DelayEnough(c, delta);
    ShiftAccumulates(c, s, d, delta, xs);
  }

  lemma {:induction false} RunKeepsBaseline(c: Config, s: Stream, xs: seq<real>)
    requires Sane(s) && s.baseline.Ready?
    ensures Run(c, s, xs).baseline == s.baseline
  {
    if xs != [] {
      RunKeepsBaseline(c, s, xs[..|xs| - 1]);
    }
  }

  // A sustained shift of more than the slack, up or down, is reported no later than the Delay-th
  // shifted observation, from whatever state the shift finds the stream in.
  lemma ShiftDetectedInTime(c: Config, s: Stream, d: Direction, delta: real, xs: seq<real>)
    requires Sane(s) && s.baseline.Ready? && Side(s, d) >= 0.0 && c.h >= 0.0 && delta > c.k
    requires |xs| == Delay(c, delta) && Shifted(s.baseline, d, delta, xs)
    ensures LastAlert(c, s, xs).Some?
    ensures d.Positive? ==> LastAlert(c, s, xs).value.direction == Positive
  {
    hide Delay, Z, Shifted;
    ShiftCrosses(c, s, d, delta, xs);
    RunKeepsBaseline(c, s, xs[..|xs| - 1]);
  }

  // ---------------------------------------------------------------- first alert

  // The largest accumulator value reached while xs is consumed.
  function Peak(c: Config, s: Stream, xs: seq<real>): real
    requires Sane(s)
  {
    var t := Run(c, s, xs);
    var here := RMax(t.sPos, t.sNeg);
    if xs == [] then here else RMax(Peak(c, s, xs[..|xs| - 1]), here)
  }

  lemma {:induction false} SidesShareThePeak(c: Config, xs: seq<real>)
    requires c.k >= 0.0
    ensures var t := Run(c, Fresh, xs);
            t.sPos >= 0.0 && t.sNeg >= 0.0 && t.sPos + t.sNeg <= Peak(c, Fresh, xs)
  {
    if xs != [] {
      SidesShareThePeak(c, xs[..|xs| - 1]);
    }
  }

  predicate NoneBefore(c: Config, s: Stream, xs: seq<real>)
    requires Sane(s)
  {
    forall i :: 0 < i <= |xs| ==> LastAlert(c, s, xs[..i]) == None
  }

  lemma {:induction false} QuietPeak(c: Config, xs: seq<real>)
    requires c.h >= 0.0 && NoneBefore(c, Fresh, xs)
    ensures Peak(c, Fresh, xs) <= c.h
  {
    if xs != [] {
      var front := xs[..|xs| - 1];
      forall i | 0 < i <= |front|
        ensures LastAlert(c, Fresh, front[..i]) == None
      {
        assert front[..i] == xs[..i];
      }
      QuietPeak(c, front);
      assert xs[..|xs|] == xs;
      var t := Run(c, Fresh, front);
      assert t.sPos <= c.h && t.sNeg <= c.h by {
        assert Peak(c, Fresh, front) >= RMax(t.sPos, t.sNeg);
      }
    }
  }

  // Up to and including the first alert, at most one side is over the threshold.
  lemma FirstAlertIsOneSided(c: Config, xs: seq<real>)
    requires c.h >= 0.0 && c.k >= 0.0 && xs != [] && NoneBefore(c, Fresh, xs[..|xs| - 1])
    ensures var t := Run(c, Fresh, xs); !(t.sPos > c.h && t.sNeg > c.h)
  {
    var front := xs[..|xs| - 1];
    QuietPeak(c, front);
    SidesShareThePeak(c, front);
  }

  // ---------------------------------------------------------------- affine rescaling

  function Affine(xs: seq<real>, a: real, b: real): seq<real> {
    seq(|xs|, i requires 0 <= i < |xs| => Scale(a, b, xs[i]))
  }

  lemma MeanAffine(xs: seq<real>, a: real, b: real)
    requires xs != []
    ensures Mean(Affine(xs, a, b)) == Scale(a, b, Mean(xs))
  {
    var n := |xs| as real;
    calc {
      Sum(Affine(xs, a, b));
      { hide Scale, Sum; SumAffine(xs, Affine(xs, a, b), a, b); }
      a * Sum(xs) + b * n;
      { DivideBack(Sum(xs), n); }
      a * (Mean(xs) * n) + b * n;
      { ScaleProduct(a, b, Mean(xs), n); }
      Scale(a, b, Mean(xs)) * n;
    }
    hide Scale, Sum, Affine;
    DivideUnique(Sum(Affine(xs, a, b)), n, Scale(a, b, Mean(xs)));
  }

  lemma ScaleProduct(a: real, b: real, x: real, n: real)
    ensures a * (x * n) + b * n == Scale(a, b, x) * n
  {
  }

  lemma SquareScales(a: real, b: real, x: real, mu: real)
    ensures var d := Scale(a, b, x) - Scale(a, b, mu);
            Square(d) == Scale(a * a, 0.0, Square(x - mu))
  {
    var d := Scale(a, b, x) - Scale(a, b, mu);
    assert d == a * (x - mu);
    assert d * d == (a * a) * ((x - mu) * (x - mu));
  }

  lemma SquaresAffine(xs: seq<real>, a: real, b: real, mu: real)
    ensures Sum(SquaredDeviations(Affine(xs, a, b), Scale(a, b, mu))) == a * a * Sum(SquaredDeviations(xs, mu))
  {
    hide Scale, Sum, Square;
    var ys := Affine(xs, a, b);
    var sx, sy := SquaredDeviations(xs, mu), SquaredDeviations(ys, Scale(a, b, mu));
    forall i | 0 <= i < |xs|
      ensures sy[i] == Scale(a * a, 0.0, sx[i])
    {
      SquareScales(a, b, xs[i], mu);
    }
    SumAffine(sx, sy, a * a, 0.0);
  }

  lemma SquaresNonNegative(xs: seq<real>, mu: real)
    ensures Sum(SquaredDeviations(xs, mu)) >= 0.0
  {
    var sx := SquaredDeviations(xs, mu);
    forall i | 0 <= i < |xs|
      ensures sx[i] >= 0.0
    {
      var d := xs[i] - mu;
      assert d * d >= 0.0;
    }
    SumNonNegative(sx);
  }

  lemma ScaledQuotient(a: real, x: real, y: real)
    requires y != 0.0
    ensures (a * x) / y == a * (x / y)
  {
  }

  lemma QuotientSign(x: real, y: real)
    requires x >= 0.0 && y > 0.0
    ensures x / y >= 0.0
  {
  }

  lemma VarianceAffine(xs: seq<real>, a: real, b: real)
    requires xs != []
    ensures Variance(Affine(xs, a, b)) == a * a * Variance(xs)
    ensures Variance(xs) >= 0.0
  {
    hide SquaredDeviations, Mean, Sum, Scale, Square;
    if |xs| > 1 {
      var ys, mu, m := Affine(xs, a, b), Mean(xs), (|xs| - 1) as real;
      calc {
        Variance(ys);
        Sum(SquaredDeviations(ys, Mean(ys))) / m;
        { MeanAffine(xs, a, b); }
        Sum(SquaredDeviations(ys, Scale(a, b, mu))) / m;
        { SquaresAffine(xs, a, b, mu); }
        (a * a * Sum(SquaredDeviations(xs, mu))) / m;
        { ScaledQuotient(a * a, Sum(SquaredDeviations(xs, mu)), m); }
        a * a * (Sum(SquaredDeviations(xs, mu)) / m);
        a * a * Variance(xs);
      }
      SquaresNonNegative(xs, mu);
      QuotientSign(Sum(SquaredDeviations(xs, mu)), m);
    }
  }

  lemma RootUnique(p: real, q: real)
    requires p >= 0.0 && q >= 0.0 && p * p == q * q
    ensures p == q
  {
    if p != q {
      SquareLess(RMin(p, q), RMax(p, q));
    }
  }

  lemma SquareLess(p: real, q: real)
    requires 0.0 <= p < q
    ensures p * p < q * q
  {
    calc {
      p * p;
    <= { MonotoneProduct(p, p, q); }
      p * q;
    <  { StrictProduct(q, p, q); }
      q * q;
    }
  }

  lemma SquareOfProduct(m: real, r: real)
    ensures (m * r) * (m * r) == (m * m) * (r * r)
  {
    Associate(m * r, m, r);
    Associate(m, m, r);
  }

  lemma RootScales(root: real -> real, a: real, v: real, w: real)
    requires IsSquareRoot(root) && v >= 0.0 && w == a * a * v
    ensures root(w) == RAbs(a) * root(v)
  {
    var m, r := RAbs(a), root(v);
    assert a * a == m * m;
    assert m * m >= 0.0;
    MonotoneProduct(v, 0.0, m * m);
    SquareOfProduct(m, r);
    MonotoneProduct(m, 0.0, r);
    RootUnique(root(w), m * r);
  }

  // Rescaling a baseline is faithful when the scale has absolute value one, or the clamp is
  // idle both before and after.
  predicate ClampIdle(c: Config, base: seq<real>, a: real)
    requires base != []
  {
    var r := c.root(Variance(base));
    RAbs(a) == 1.0 || (r >= SIGMA_CLAMP && RAbs(a) * r >= SIGMA_CLAMP)
  }

  lemma ClampScales(m: real, r: real)
    requires m > 0.0 && r >= 0.0
    ensures Clamp(m * r) == m * Clamp(r) <==> m == 1.0 || (r >= SIGMA_CLAMP && m * r >= SIGMA_CLAMP)
  {
    if r < SIGMA_CLAMP && m * r >= SIGMA_CLAMP {
      StrictProduct(m, r, 1.0);
    }
  }

  lemma EstimateAffine(c: Config, base: seq<real>, a: real, b: real)
    requires base != [] && IsSquareRoot(c.root) && a != 0.0 && ClampIdle(c, base, a)
    ensures var e := Estimate(base, c.root);
            Estimate(Affine(base, a, b), c.root) == Ready(Scale(a, b, e.mu), RAbs(a) * e.sigma)
  {
    hide Variance, Mean, Scale, Clamp, ClampIdle, IsSquareRoot;
    RootVarianceAffine(c, base, a, b);
    IdleClampScales(c, base, a);
    MeanAffine(base, a, b);
  }

  lemma RootVarianceAffine(c: Config, base: seq<real>, a: real, b: real)
    requires base != [] && IsSquareRoot(c.root)
    ensures c.root(Variance(Affine(base, a, b))) == RAbs(a) * c.root(Variance(base))
  {
    VarianceAffine(base, a, b);
    RootScales(c.root, a, Variance(base), Variance(Affine(base, a, b)));
  }

  lemma IdleClampScales(c: Config, base: seq<real>, a: real)
    requires base != [] && IsSquareRoot(c.root) && a != 0.0
    ensures Clamp(RAbs(a) * c.root(Variance(base))) == RAbs(a) * Clamp(c.root(Variance(base)))
       <==> ClampIdle(c, base, a)
  {
    VarianceAffine(base, 0.0, 0.0);
    hide Variance;
    ClampScales(RAbs(a), c.root(Variance(base)));
  }

  lemma SigmaPositive(base: seq<real>, root: real -> real)
    requires base != []
    ensures Estimate(base, root).Ready? && Estimate(base, root).sigma > 0.0
  {
  }

  lemma ProductSigns(a: real, z: real, s: real)
    ensures a * (z * s) == (if a > 0.0 then z else -z) * (RAbs(a) * s)
  {
  }

  lemma ZScales(a: real, b: real, x: real, mu: real, sigma: real)
    requires a != 0.0 && sigma > 0.0
    ensures RAbs(a) * sigma > 0.0
    ensures (Scale(a, b, x) - Scale(a, b, mu)) / (RAbs(a) * sigma)
         == if a > 0.0 then (x - mu) / sigma else -((x - mu) / sigma)
  {
    var z := (x - mu) / sigma;
    var w := if a > 0.0 then z else -z;
    calc {
      Scale(a, b, x) - Scale(a, b, mu);
      a * (x - mu);
      { DivideBack(x - mu, sigma); }
      a * (z * sigma);
      { ProductSigns(a, z, sigma); }
      w * (RAbs(a) * sigma);
    }
    StrictProduct(RAbs(a), 0.0, sigma);
    hide Scale;
    DivideUnique(Scale(a, b, x) - Scale(a, b, mu), RAbs(a) * sigma, w);
  }

  lemma ZAffine(c: Config, base: seq<real>, a: real, b: real, x: real)
    requires base != [] && IsSquareRoot(c.root) && a != 0.0 && ClampIdle(c, base, a)
    ensures var e, e' := Estimate(base, c.root), Estimate(Affine(base, a, b), c.root);
            Z(e', Scale(a, b, x)) == if a > 0.0 then Z(e, x) else -Z(e, x)
  {
    hide Estimate, Affine, Scale, ClampIdle, RAbs, IsSquareRoot, Mean, Variance;
    SigmaPositive(base, c.root);
    var e := Estimate(base, c.root);
    EstimateAffine(c, base, a, b);
    ZScales(a, b, x, e.mu, e.sigma);
  }

  // The accumulators of a rescaled stream: the same for a positive scale, exchanged for a
  // negative one.
  lemma AffineAccumulators(c: Config, base: seq<real>, xs: seq<real>, a: real, b: real)
    requires |base| == BaselineSize(c) && IsSquareRoot(c.root) && a != 0.0 && ClampIdle(c, base, a)
    ensures var s := Run(c, Fresh, base + xs);
            var t := Run(c, Fresh, Affine(base + xs, a, b));
            && t.n == s.n
            && (a > 0.0 ==> t.sPos == s.sPos && t.sNeg == s.sNeg)
            && (a < 0.0 ==> t.sPos == s.sNeg && t.sNeg == s.sPos)
  {
    var base', xs' := Affine(base, a, b), Affine(xs, a, b);
    assert Affine(base + xs, a, b) == base' + xs' by { hide Scale; }
    hide Affine, Excess, Estimate, Lindley, Run, ClampIdle;
    BaselineFrozen(c, base);
    BaselineFrozen(c, base');
    RunAppend(c, Fresh, base, xs);
    RunAppend(c, Fresh, base', xs');
    RunIsLindley(c, Run(c, Fresh, base), xs);
    RunIsLindley(c, Run(c, Fresh, base'), xs');
    ExcessAffine(c, base, xs, a, b);
  }

  lemma ExcessAffine(c: Config, base: seq<real>, xs: seq<real>, a: real, b: real)
    requires base != [] && IsSquareRoot(c.root) && a != 0.0 && ClampIdle(c, base, a)
    ensures var e, e', ys := Estimate(base, c.root), Estimate(Affine(base, a, b), c.root), Affine(xs, a, b);
            && Excess(e', c.k, Positive, ys) == Excess(e, c.k, if a > 0.0 then Positive else Negative, xs)
            && Excess(e', c.k, Negative, ys) == Excess(e, c.k, if a > 0.0 then Negative else Positive, xs)
  {
    var e, e', ys := Estimate(base, c.root), Estimate(Affine(base, a, b), c.root), Affine(xs, a, b);
    hide Z, Estimate, ClampIdle, Scale;
    forall i | 0 <= i < |xs|
      ensures Z(e', ys[i]) == if a > 0.0 then Z(e, xs[i]) else -Z(e, xs[i])
    {
      ZAffine(c, base, a, b, xs[i]);
    }
  }

  // ---------------------------------------------------------------- what rescaling does to alerts

  ghost predicate SameAlerts(c: Config, base: seq<real>, a: real, b: real)
    requires a > 0.0
  {
    forall xs: seq<real> :: xs != [] ==>
      LastAlert(c, Fresh, Affine(base + xs, a, b)) == LastAlert(c, Fresh, base + xs)
  }

  lemma AlertFromState(c: Config, base: seq<real>, xs: seq<real>)
    requires |base| == BaselineSize(c) && xs != []
    ensures LastAlert(c, Fresh, base + xs) == Fire(c, Run(c, Fresh, base + xs))
  {
    BaselineFrozen(c, base);
    var front := xs[..|xs| - 1];
    assert (base + xs)[..|base + xs| - 1] == base + front;
    RunAppend(c, Fresh, base, front);
    RunKeepsBaseline(c, Run(c, Fresh, base), front);
  }

  lemma RescaledAlert(c: Config, base: seq<real>, xs: seq<real>, a: real, b: real)
    requires |base| == BaselineSize(c) && IsSquareRoot(c.root) && a > 0.0 && ClampIdle(c, base, a)
    requires xs != []
    ensures LastAlert(c, Fresh, Affine(base + xs, a, b)) == LastAlert(c, Fresh, base + xs)
  {
    AffineAccumulators(c, base, xs, a, b);
    hide Run, LastAlert, Affine, Estimate, ClampIdle, IsSquareRoot;
    AffineJoin(base, xs, a, b);
    AlertFromState(c, base, xs);
    AlertFromState(c, Affine(base, a, b), Affine(xs, a, b));
  }

  lemma AffineJoin(xs: seq<real>, ys: seq<real>, a: real, b: real)
    ensures |Affine(xs, a, b)| == |xs| && |Affine(ys, a, b)| == |ys|
    ensures Affine(xs + ys, a, b) == Affine(xs, a, b) + Affine(ys, a, b)
  {
    hide Scale;
  }

  // One observation after the baseline.
  lemma FirstScore(c: Config, base: seq<real>, x: real)
    requires |base| == BaselineSize(c)
    ensures var e := Estimate(base, c.root);
      var z := Z(e, x);
      LastAlert(c, Fresh, base + [x])
      == Fire(c, Stream(|base| + 1, base, e, RMax(0.0, z - c.k), RMax(0.0, -z - c.k)))
  {
    BaselineFrozen(c, base);
    assert (base + [x])[..|base|] == base;
    hide Z, Estimate;
  }

  // When the clamp acts on one of the two baselines only, one observation tells them apart: it
  // fires on the one stream, and on the other not at all or with another score.
  lemma ClampShows(c: Config, base: seq<real>, a: real, b: real) returns (x: real)
    requires |base| == BaselineSize(c) && IsSquareRoot(c.root) && a > 0.0 && !ClampIdle(c, base, a)
    ensures LastAlert(c, Fresh, Affine(base + [x], a, b)) != LastAlert(c, Fresh, base + [x])
  {
    var e, e' := Estimate(base, c.root), Estimate(Affine(base, a, b), c.root);
    AffineSnoc(base, 0.0, a, b);
    hide Estimate, Affine, Scale, ClampIdle, IsSquareRoot, Run, LastAlert, Z;
    SigmaPositive(base, c.root);
    SigmaPositive(Affine(base, a, b), c.root);
    ClampSeparates(c, base, a, b);
    var t := RMax(0.0, RMax(c.k, c.h + c.k)) + 1.0;
    x := ScoresApart(a, b, e, e', t);
    ScoresDiffer(c, base, x, a, b, t);
  }

  lemma ScoresDiffer(c: Config, base: seq<real>, x: real, a: real, b: real, t: real)
    requires |base| == BaselineSize(c) && t > c.k && t > c.h + c.k
    requires Z(Estimate(base, c.root), x) == t
    requires Z(Estimate(Affine(base, a, b), c.root), Scale(a, b, x)) != t
    ensures LastAlert(c, Fresh, Affine(base + [x], a, b)) != LastAlert(c, Fresh, base + [x])
  {
    hide Z, Estimate, Run, LastAlert, Affine, Scale;
    AffineSnoc(base, x, a, b);
    FirstScore(c, base, x);
    FirstScore(c, Affine(base, a, b), Scale(a, b, x));
  }

  // What lies t deviations out before rescaling does not after, unless sigma scaled along.
  lemma ScoresApart(a: real, b: real, e: Baseline, e': Baseline, t: real) returns (x: real)
    requires e.Ready? && e'.Ready? && e.sigma > 0.0 && e'.sigma > 0.0 && t > 0.0
    requires e'.mu == Scale(a, b, e.mu) && e'.sigma != a * e.sigma
    ensures Z(e, x) == t && Z(e', Scale(a, b, x)) != t
  {
    var p, q := e.sigma, e'.sigma;
    x := e.mu + t * p;
    DivideUnique(t * p, p, t);
    ScaledStep(a, b, e.mu, t * p, t, p);
    var d := t * (a * p);
    if d / q == t {
      DivideBack(d, q);
      SameFactor(t, a * p, q);
    }
  }

  lemma SameFactor(t: real, x: real, y: real)
    requires t > 0.0 && t * x == t * y
    ensures x == y
  {
    if x < y { StrictProduct(t, x, y); }
    if y < x { StrictProduct(t, y, x); }
  }

  lemma ClampSeparates(c: Config, base: seq<real>, a: real, b: real)
    requires base != [] && IsSquareRoot(c.root) && a > 0.0 && !ClampIdle(c, base, a)
    ensures var e, e' := Estimate(base, c.root), Estimate(Affine(base, a, b), c.root);
            e'.mu == Scale(a, b, e.mu) && e'.sigma != a * e.sigma
  {
    hide Variance, Mean, Scale, Clamp, ClampIdle, IsSquareRoot;
    MeanAffine(base, a, b);
    RootVarianceAffine(c, base, a, b);
    IdleClampScales(c, base, a);
  }

  lemma AffineSnoc(base: seq<real>, x: real, a: real, b: real)
    ensures |Affine(base, a, b)| == |base|
    ensures Affine(base + [x], a, b) == Affine(base, a, b) + [Scale(a, b, x)]
  {
    hide Scale;
  }

  lemma ScaledStep(a: real, b: real, mu: real, d: real, t: real, p: real)
    requires d == t * p
    ensures Scale(a, b, mu + d) - Scale(a, b, mu) == t * (a * p) == d * a
  {
  }

  // Positive rescaling of a stream's data leaves every alert as it was (direction, score,
  // threshold and count) exactly when the scale is one or the sigma clamp acts on neither baseline.
  lemma RescalingExact(c: Config, base: seq<real>, a: real, b: real)
    requires |base| == BaselineSize(c) && IsSquareRoot(c.root) && a > 0.0
    ensures SameAlerts(c, base, a, b) <==> ClampIdle(c, base, a)
  {
    if ClampIdle(c, base, a) {
      forall xs: seq<real> | xs != []
        ensures LastAlert(c, Fresh, Affine(base + xs, a, b)) == LastAlert(c, Fresh, base + xs)
      {
        RescaledAlert(c, base, xs, a, b);
      }
    } else {
      var x := ClampShows(c, base, a, b);
      assert [x] != [];
    }
  }

  function Flip(a: Option<Fired>): Option<Fired> {
    match a
    case None => None
    case Some(f) => Some(f.(direction := if f.direction.Positive? then Negative else Positive))
  }

  // Negating the data exchanges the directions of an alert exactly when the two sides are not
  // both over the threshold; when both are, both streams report "positive".
  lemma NegationExact(c: Config, base: seq<real>, xs: seq<real>, b: real)
    requires |base| == BaselineSize(c) && IsSquareRoot(c.root) && xs != []
    ensures var s := Run(c, Fresh, base + xs);
            LastAlert(c, Fresh, Affine(base + xs, -1.0, b)) == Flip(LastAlert(c, Fresh, base + xs))
            <==> !(s.sPos > c.h && s.sNeg > c.h)
  {
    AffineAccumulators(c, base, xs, -1.0, b);
    AlertFromState(c, base, xs);
    AlertFromState(c, Affine(base, -1.0, b), Affine(xs, -1.0, b));
    assert Affine(base + xs, -1.0, b) == Affine(base, -1.0, b) + Affine(xs, -1.0, b) by { hide Scale; }
  }

  // So a stream's first alert is always exchanged.
  lemma NegationFlipsFirstAlert(c: Config, base: seq<real>, xs: seq<real>, b: real)
    requires |base| == BaselineSize(c) && IsSquareRoot(c.root) && xs != []
    requires c.h >= 0.0 && c.k >= 0.0
    requires NoneBefore(c, Fresh, (base + xs)[..|base + xs| - 1])
    ensures LastAlert(c, Fresh, Affine(base + xs, -1.0, b)) == Flip(LastAlert(c, Fresh, base + xs))
  {
    FirstAlertIsOneSided(c, base + xs);
    NegationExact(c, base, xs, b);
  }

  // A later one need not be: with the shipped h and k, 20 then -12 puts both sides over.
  lemma LaterAlertsNeedNotFlip(root: real -> real)
    requires IsSquareRoot(root)
    ensures var c := Config(5.0, 0.5, 1, root);
            var up := LastAlert(c, Fresh, [0.0, 20.0, -12.0]);
            var down := LastAlert(c, Fresh, [0.0, -20.0, 12.0]);
            up.Some? && down.Some? && up.value.direction == down.value.direction == Positive
  {
    var c := Config(5.0, 0.5, 1, root);
    var b := Ready(0.0, 1.0);
    ZeroBaseline(root);
    forall x: real
      ensures Z(b, x) == x
    {
    }
    forall x: real, y: real
      ensures Run(c, Fresh, [0.0, x, y])
           == Advance(c, Advance(c, Stream(1, [0.0], b, 0.0, 0.0), x), y)
      ensures LastAlert(c, Fresh, [0.0, x, y])
           == AlertOf(c, Advance(c, Stream(1, [0.0], b, 0.0, 0.0), x), y)
    {
      assert [0.0, x, y][..2] == [0.0, x] && [0.0, x][..1] == [0.0] && [0.0][..0] == [];
      assert [] + [0.0] == [0.0];
      assert Run(c, Fresh, [0.0]) == Stream(1, [0.0], b, 0.0, 0.0);
    }
  }

  lemma ZeroBaseline(root: real -> real)
    requires IsSquareRoot(root)
    ensures Estimate([0.0], root) == Ready(0.0, 1.0)
  {
    assert [0.0][..0] == [];
    var r := root(0.0);
    if r > 0.0 { StrictProduct(r, 0.0, r); }
  }

  // ---------------------------------------------------------------- in the data's own units

  // n times the sum of squares less the square of the sum; and n times n - 1.
  function SpreadOf(n: real, s: real, q: real): real { n * q - s * s }

  function Spread(xs: seq<real>): real { SpreadOf(|xs| as real, Sum(xs), Sum(Squares(xs))) }

  function OrderedPairs(n: real): real { n * (n - 1.0) }

  // mu is the mean, and sigma the square root of the unbiased variance, or one where that root is
  // below 1e-9.
  ghost predicate IsBaselineOf(b: Baseline, base: seq<real>) {
    b.Ready? && Times(|base| as real, b.mu) == Sum(base) && IsSigmaOf(b.sigma, base)
  }

  ghost predicate IsSigmaOf(sigma: real, base: seq<real>) {
    var pairs := OrderedPairs(|base| as real);
    if |base| == 1 || Spread(base) < Times(pairs, 0.000000000000000001) then sigma == 1.0
    else sigma > 0.0 && Times(pairs, Square(sigma)) == Spread(base)
  }

  // The frozen baseline, from the sums of the first observations alone.
  lemma BaselineFromSums(c: Config, base: seq<real>)
    requires |base| == Max(1, c.samples) && IsSquareRoot(c.root)
    ensures IsBaselineOf(Run(c, Fresh, base).baseline, base)
  {
    BaselineFrozen(c, base);
    hide Run, Estimate, IsSquareRoot, IsBaselineOf;
    EstimateFits(base, c.root);
  }

  lemma EstimateFits(base: seq<real>, root: real -> real)
    requires base != [] && IsSquareRoot(root)
    ensures IsBaselineOf(Estimate(base, root), base)
  {
    MeanTimesCount(base);
    hide Sum, IsSquareRoot, Mean, Variance, IsSigmaOf, Clamp, Times;
    EstimatedSigma(base, root);
  }

  lemma EstimatedSigma(base: seq<real>, root: real -> real)
    requires base != [] && IsSquareRoot(root)
    ensures IsSigmaOf(Clamp(root(Variance(base))), base)
  {
    hide OrderedPairs, Spread, Times, Square;
    if |base| == 1 {
      RootOfZero(root);
    } else {
      VarianceAffine(base, 0.0, 0.0);
      VarianceFromSums(base);
      hide Variance, IsSquareRoot, Clamp;
      SigmaFromVariance(root, Variance(base), |base| as real, Spread(base));
    }
  }

  lemma MeanTimesCount(xs: seq<real>)
    requires xs != []
    ensures Times(|xs| as real, Mean(xs)) == Sum(xs)
  {
    DivideBack(Sum(xs), |xs| as real);
  }

  lemma RootOfZero(root: real -> real)
    requires IsSquareRoot(root)
    ensures root(0.0) == 0.0
  {
    assert root(0.0) * root(0.0) == 0.0;
    RootUnique(root(0.0), 0.0);
  }

  // Clamping at 1e-9 goes by the variance as it goes by its root.
  lemma SigmaFromVariance(root: real -> real, v: real, n: real, spread: real)
    requires IsSquareRoot(root) && v >= 0.0 && n > 1.0 && Times(OrderedPairs(n), v) == spread
    ensures var sigma := Clamp(root(v));
      if spread < Times(OrderedPairs(n), 0.000000000000000001) then sigma == 1.0
      else sigma > 0.0 && Times(OrderedPairs(n), Square(sigma)) == spread
  {
    var r, e := root(v), 0.000000001;
    assert e * e == 0.000000000000000001;
    StrictProduct(n, 0.0, n - 1.0);
    if r < e {
      SquareLess(r, e);
      StrictProduct(OrderedPairs(n), v, e * e);
    } else {
      RootOrder(e, r);
      MonotoneProduct(OrderedPairs(n), e * e, v);
    }
  }

  lemma RootOrder(p: real, q: real)
    requires 0.0 <= p <= q
    ensures p * p <= q * q
  {
    if p < q { SquareLess(p, q); }
  }

  lemma VarianceFromSums(xs: seq<real>)
    requires |xs| > 1
    ensures Times(OrderedPairs(|xs| as real), Variance(xs)) == Spread(xs)
  {
    var n, d := |xs| as real, Sum(SquaredDeviations(xs, Mean(xs)));
    VarianceBack(xs);
    MeanTimesCount(xs);
    DeviationsFromSums(xs, Mean(xs));
    hide Sum, Squares, SquaredDeviations, Mean, Deviating, Variance, OrderedPairs, Times, SpreadOf;
    SpreadOut(n, Variance(xs), d, Mean(xs), Sum(xs), Sum(Squares(xs)));
  }

  lemma VarianceBack(xs: seq<real>)
    requires |xs| > 1
    ensures Times(|xs| as real - 1.0, Variance(xs)) == Sum(SquaredDeviations(xs, Mean(xs)))
  {
    hide SquaredDeviations, Sum, Mean;
    DivideBack(Sum(SquaredDeviations(xs, Mean(xs))), |xs| as real - 1.0);
  }

  // The squared deviations of n numbers with sum s and sum of squares q, from mu.
  function Deviating(n: real, s: real, q: real, mu: real): real { q - 2.0 * mu * s + n * (mu * mu) }

  lemma SpreadOut(n: real, v: real, d: real, mu: real, s: real, q: real)
    requires Times(n - 1.0, v) == d && Times(n, mu) == s && d == Deviating(n, s, q, mu)
    ensures Times(OrderedPairs(n), v) == SpreadOf(n, s, q)
  {
    calc {
      Times(OrderedPairs(n), v);
      { Associate(n, n - 1.0, v); }
      n * d;
      { Spelled(n, mu, q); }
      n * q - (n * mu) * (n * mu);
    }
  }

  lemma Spelled(n: real, mu: real, q: real)
    ensures n * Deviating(n, n * mu, q, mu) == n * q - (n * mu) * (n * mu)
  {
  }

  lemma {:induction false} DeviationsFromSums(xs: seq<real>, mu: real)
    ensures Sum(SquaredDeviations(xs, mu)) == Deviating(|xs| as real, Sum(xs), Sum(Squares(xs)), mu)
  {
    if xs != [] {
      var n := |xs| - 1;
      assert SquaredDeviations(xs, mu)[..n] == SquaredDeviations(xs[..n], mu) by { hide Square; }
      assert Squares(xs)[..n] == Squares(xs[..n]) by { hide Square; }
      hide Deviating, Square;
      DeviationsFromSums(xs[..n], mu);
      OneDeviation(xs[n], mu, Sum(xs[..n]), Sum(Squares(xs[..n])), n as real);
    }
  }

  lemma OneDeviation(x: real, mu: real, s: real, q: real, n: real)
    ensures Deviating(n, s, q, mu) + Square(x - mu) == Deviating(n + 1.0, s + x, q + Square(x), mu)
  {
  }

  // By how much the observations ys together lie beyond the baseline on a side.
  ghost function Beyond(b: Baseline, side: Direction, ys: seq<real>): real
    requires b.Ready?
  {
    if side.Positive? then Sum(ys) - |ys| as real * b.mu else |ys| as real * b.mu - Sum(ys)
  }

  // What t + n * k deviations come to.
  function Deviations(b: Baseline, t: real, n: real, k: real): real
    requires b.Ready?
  {
    b.sigma * (t + n * k)
  }

  // They lie beyond it by more than t deviations, and k more for each of them.
  ghost predicate DriftsFrom(b: Baseline, k: real, side: Direction, ys: seq<real>, t: real)
    requires b.Ready?
  {
    Beyond(b, side, ys) > Deviations(b, t, |ys| as real, k)
  }

  // Some run of latest observations does.
  ghost predicate Drifts(b: Baseline, k: real, side: Direction, xs: seq<real>, t: real)
    requires b.Ready?
  {
    exists i :: 0 <= i <= |xs| && DriftsFrom(b, k, side, xs[i..], t)
  }

  // The whole test in the data's own units: after the baseline, an observation alerts exactly when the
  // latest observations have drifted beyond it by more than h deviations and k apiece on a side; upward
  // if on that side, and with the greatest such threshold as the score.
  lemma AlertInRawUnits(c: Config, base: seq<real>, xs: seq<real>)
    requires |base| == Max(1, c.samples) && xs != []
    ensures Run(c, Fresh, base).baseline.Ready?
    ensures var (b, a) := (Run(c, Fresh, base).baseline, LastAlert(c, Fresh, base + xs));
      && (a.Some? <==> Drifts(b, c.k, Positive, xs, c.h) || Drifts(b, c.k, Negative, xs, c.h))
      && (a.Some? ==> a.value.direction == (if Drifts(b, c.k, Positive, xs, c.h) then Positive else Negative))
      && (a.Some? ==> a.value.threshold == c.h && a.value.windowCount == |base| + |xs|)
      && (a.Some? ==> forall t: real :: Drifts(b, c.k, a.value.direction, xs, t) <==> t < a.value.score)
  {
    BaselineFrozen(c, base);
    var b := Estimate(base, c.root);
    SigmaPositive(base, c.root);
    AlertFromState(c, base, xs);
    RunAppend(c, Fresh, base, xs);
    hide LastAlert, Estimate, Lindley, Excess, Drifts;
    RunIsLindley(c, Run(c, Fresh, base), xs);
    forall side: Direction, t: real
      ensures Drifts(b, c.k, side, xs, t) <==> Lindley(Excess(b, c.k, side, xs)) > t
    {
      OverIffSuffix(Excess(b, c.k, side, xs), t);
      DriftsAreSuffixes(b, c.k, side, xs, t);
    }
    hide Run;
  }

  lemma DriftsAreSuffixes(b: Baseline, k: real, side: Direction, xs: seq<real>, t: real)
    requires b.Ready? && b.sigma > 0.0
    ensures Drifts(b, k, side, xs, t) <==> SuffixOver(Excess(b, k, side, xs), t)
  {
    forall i | 0 <= i <= |xs|
      ensures Sum(Excess(b, k, side, xs)[i..]) > t <==> DriftsFrom(b, k, side, xs[i..], t)
    {
      assert Excess(b, k, side, xs)[i..] == Excess(b, k, side, xs[i..]) by { hide Z; }
      ExcessTotal(b, k, side, xs[i..], t);
    }
    hide Excess, DriftsFrom, Sum;
    assert |Excess(b, k, side, xs)| == |xs|;
  }

  lemma ExcessTotal(b: Baseline, k: real, side: Direction, ys: seq<real>, t: real)
    requires b.Ready? && b.sigma > 0.0
    ensures Sum(Excess(b, k, side, ys)) > t <==> DriftsFrom(b, k, side, ys, t)
  {
    var n, s := |ys| as real, Sum(Excess(b, k, side, ys));
    ExcessScales(b, k, side, ys);
    hide Excess, Sum, Beyond, Deviations;
    MoreDeviations(b, s, t, n, k);
    MoreDeviations(b, t, s, n, k);
  }

  lemma MoreDeviations(b: Baseline, s: real, t: real, n: real, k: real)
    requires b.Ready? && b.sigma > 0.0
    ensures s > t ==> Deviations(b, s, n, k) > Deviations(b, t, n, k)
  {
    if s > t { StrictProduct(b.sigma, t + n * k, s + n * k); }
  }

  lemma {:induction false} ExcessScales(b: Baseline, k: real, side: Direction, ys: seq<real>)
    requires b.Ready? && b.sigma > 0.0
    ensures Deviations(b, Sum(Excess(b, k, side, ys)), |ys| as real, k) == Beyond(b, side, ys)
  {
    hide Z, Beyond, Deviations;
    if ys == [] {
      NothingBeyond(b, k, side);
    } else {
      var n := |ys| - 1;
      assert Excess(b, k, side, ys)[..n] == Excess(b, k, side, ys[..n]);
      hide Excess;
      ExcessScales(b, k, side, ys[..n]);
      NextBeyond(b, side, ys);
      NextExcess(b, Sum(Excess(b, k, side, ys[..n])), k, side, ys, n as real);
    }
  }

  lemma NothingBeyond(b: Baseline, k: real, side: Direction)
    requires b.Ready?
    ensures Deviations(b, 0.0, 0.0, k) == 0.0 == Beyond(b, side, [])
  {
  }

  lemma NextExcess(b: Baseline, s: real, k: real, side: Direction, ys: seq<real>, n: real)
    requires b.Ready? && b.sigma > 0.0 && ys != []
    ensures var y := ys[|ys| - 1];
      Deviations(b, s + Excess(b, k, side, ys)[|ys| - 1], n + 1.0, k)
      == Deviations(b, s, n, k) + (if side.Positive? then y - b.mu else b.mu - y)
  {
    var y := ys[|ys| - 1];
    var z := (y - b.mu) / b.sigma;
    var w := if side.Positive? then z else -z;
    DivideBack(y - b.mu, b.sigma);
    assert Excess(b, k, side, ys)[|ys| - 1] == w - k;
    assert s + (w - k) + (n + 1.0) * k == (s + n * k) + w;
    Distribute(b.sigma, s + n * k, w);
  }

  lemma NextBeyond(b: Baseline, side: Direction, ys: seq<real>)
    requires b.Ready? && ys != []
    ensures var n := |ys| - 1;
      Beyond(b, side, ys) == Beyond(b, side, ys[..n]) + (if side.Positive? then ys[n] - b.mu else b.mu - ys[n])
  {
    var n := (|ys| - 1) as real;
    assert (n + 1.0) * b.mu == n * b.mu + b.mu;
  }
}
