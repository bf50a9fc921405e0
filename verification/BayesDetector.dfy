// engine/correlation.py, BayesianOnlineDetector.update: the run-length recursion, its pruning,
// and what its arrays mean.
module BayesDetector {
  import opened Common
  import opened Bayes

  const PRUNE_THRESHOLD := 0.0000000001

  // density(x, nu, loc, scale_sq) stands for the clamped Student-t density.
  datatype Config = Config(hazard: real, prior: Nig, density: (real, real, real, real) -> real)

  ghost predicate Sound(c: Config) {
    && 0.0 < c.hazard < 1.0
    && (forall x, nu, loc, scale :: c.density(x, nu, loc, scale) >= 0.0)
  }

  // Clamping the log-density at -700 keeps every predictive positive.
  ghost predicate Positive(c: Config) {
    && 0.0 < c.hazard < 1.0
    && (forall x, nu, loc, scale :: c.density(x, nu, loc, scale) > 0.0)
  }

  datatype Hyp = Hyp(p: real, nig: Nig)

  function Predictive(c: Config, x: real, n: Nig): real {
    StrictProduct(n.alpha, 0.0, n.kappa);
    c.density(x, 2.0 * n.alpha, n.mu, n.beta * (n.kappa + 1.0) / (n.alpha * n.kappa))
  }

  // ---------------------------------------------------------------- one step

  function CpMass(c: Config, x: real): real {
    Times(c.hazard, Predictive(c, x, c.prior))
  }

  // What a hypothesis keeps of its mass when the run goes on through x.
  function Growth(c: Config, x: real, n: Nig): real {
    Times(1.0 - c.hazard, Predictive(c, x, n))
  }

  function Masses(c: Config, s: seq<Hyp>, x: real): seq<real> {
    [CpMass(c, x)] + seq(|s|, r requires 0 <= r < |s| => Times(s[r].p, Growth(c, x, s[r].nig)))
  }

  function Total(c: Config, s: seq<Hyp>, x: real): real { Sum(Masses(c, s, x)) }

  // The new hypotheses before pruning: index 0 restarts from the prior, index r + 1 extends r.
  function Grown(c: Config, s: seq<Hyp>, x: real): (g: seq<Hyp>)
    requires Total(c, s, x) > 0.0
    ensures |g| == |s| + 1
  {
    var ms, total := Masses(c, s, x), Total(c, s, x);
    seq(|s| + 1, i requires 0 <= i <= |s| =>
      Hyp(ms[i] / total, Observe(if i == 0 then c.prior else s[i - 1].nig, x)))
  }

  function Survivors(g: seq<Hyp>): seq<Hyp> {
    if g == [] then []
    else Survivors(g[..|g| - 1]) + (if g[|g| - 1].p >= PRUNE_THRESHOLD then [g[|g| - 1]] else [])
  }

  function Prune(g: seq<Hyp>): seq<Hyp>
    requires g != []
  {
    if Survivors(g) == [] then [g[0]] else Survivors(g)
  }

  function Start(c: Config): seq<Hyp> { [Hyp(1.0, c.prior)] }

  function Next(c: Config, s: seq<Hyp>, x: real): seq<Hyp> {
    if Total(c, s, x) <= 0.0 then Start(c) else Prune(Grown(c, s, x))
  }

  function Answer(c: Config, s: seq<Hyp>, x: real): real {
    if Total(c, s, x) <= 0.0 then 0.0 else Grown(c, s, x)[0].p
  }

  function After(c: Config, xs: seq<real>): seq<Hyp> {
    if xs == [] then Start(c) else Next(c, After(c, xs[..|xs| - 1]), xs[|xs| - 1])
  }

  // The observations since the last underflow reset.
  function Since(c: Config, xs: seq<real>): seq<real> {
    if xs == [] then []
    else
      var front, x := xs[..|xs| - 1], xs[|xs| - 1];
      if Total(c, After(c, front), x) <= 0.0 then [] else Since(c, front) + [x]
  }

  // ---------------------------------------------------------------- probabilities

  function Probs(s: seq<Hyp>): seq<real> { seq(|s|, i requires 0 <= i < |s| => s[i].p) }

  ghost predicate SubDistribution(s: seq<Hyp>) {
    && s != []
    && (forall i :: 0 <= i < |s| ==> s[i].p >= 0.0)
    && Sum(Probs(s)) <= 1.0
  }

  lemma MassesNonNegative(c: Config, s: seq<Hyp>, x: real)
    requires Sound(c) && SubDistribution(s)
    ensures forall i :: 0 <= i <= |s| ==> 0.0 <= Masses(c, s, x)[i] <= Total(c, s, x)
  {
    hide Predictive;
    var ms := Masses(c, s, x);
    PredictiveSound(c, x, c.prior);
    forall i | 0 <= i < |ms|
      ensures ms[i] >= 0.0
    {
      if i == 0 {
        TimesNonNegative(c.hazard, Predictive(c, x, c.prior));
      } else {
        PredictiveSound(c, x, s[i - 1].nig);
        TimesNonNegative(1.0 - c.hazard, Predictive(c, x, s[i - 1].nig));
        TimesNonNegative(s[i - 1].p, Growth(c, x, s[i - 1].nig));
      }
    }
    SumNonNegative(ms);
  }

  lemma PredictiveSound(c: Config, x: real, n: Nig)
    requires Sound(c)
    ensures Predictive(c, x, n) >= 0.0
  {
  }

  lemma TimesNonNegative(a: real, x: real)
    requires a >= 0.0 && x >= 0.0
    ensures Times(a, x) >= 0.0
  {
  }

  lemma GrownIsDistribution(c: Config, s: seq<Hyp>, x: real)
    requires Sound(c) && SubDistribution(s) && Total(c, s, x) > 0.0
    ensures forall i :: 0 <= i <= |s| ==> 0.0 <= Grown(c, s, x)[i].p <= 1.0
    ensures Sum(Probs(Grown(c, s, x))) == 1.0
  {
    var g, ms, total := Grown(c, s, x), Masses(c, s, x), Total(c, s, x);
    MassesNonNegative(c, s, x);
    hide Masses, Total, Sum, Observe;
    forall i | 0 <= i <= |s|
      ensures 0.0 <= g[i].p <= 1.0 && g[i].p == Times(1.0 / total, ms[i])
    {
      Share(ms[i], total);
    }
    SumTimes(ms, Probs(g), 1.0 / total);
    TotalIsSum(c, s, x);
    Share(total, total);
  }

  lemma TotalIsSum(c: Config, s: seq<Hyp>, x: real)
    ensures Total(c, s, x) == Sum(Masses(c, s, x)) && |Masses(c, s, x)| == |s| + 1
  {
  }

  lemma Share(m: real, total: real)
    requires 0.0 <= m <= total && total > 0.0
    ensures 0.0 <= m / total <= 1.0 && m / total == Times(1.0 / total, m)
    ensures m == total ==> m / total == 1.0
  {
  }

  lemma {:induction false} SurvivorsAreSubDistribution(g: seq<Hyp>)
    requires forall i :: 0 <= i < |g| ==> g[i].p >= 0.0
    ensures forall i :: 0 <= i < |Survivors(g)| ==> Survivors(g)[i].p >= 0.0
    ensures 0.0 <= Sum(Probs(Survivors(g))) <= Sum(Probs(g))
  {
    if g != [] {
      var n := |g| - 1;
      SurvivorsAreSubDistribution(g[..n]);
      assert Probs(g)[..n] == Probs(g[..n]);
      var k := Survivors(g[..n]);
      if g[n].p >= PRUNE_THRESHOLD {
        assert Probs(k + [g[n]])[..|k|] == Probs(k);
      } else {
        assert k + [] == k;
      }
    }
  }

  // What pruning drops weighs less than the threshold for each hypothesis dropped.
  lemma {:induction false} DroppedWeighsLittle(g: seq<Hyp>)
    ensures |Survivors(g)| <= |g|
    ensures Sum(Probs(g)) <= Sum(Probs(Survivors(g))) + Times(PRUNE_THRESHOLD, (|g| - |Survivors(g)|) as real)
    ensures g != [] && Survivors(g) == [] ==> Sum(Probs(g)) < Times(PRUNE_THRESHOLD, |g| as real)
  {
    if g == [] {
      TimesGrows(0);
    } else {
      var n := |g| - 1;
      DroppedWeighsLittle(g[..n]);
      assert Probs(g)[..n] == Probs(g[..n]);
      var k := Survivors(g[..n]);
      TimesGrows(n - |k|);
      if g[n].p >= PRUNE_THRESHOLD {
        assert Probs(k + [g[n]])[..|k|] == Probs(k);
      } else {
        assert k + [] == k;
      }
      hide Times;
    }
  }

  lemma TimesGrows(n: nat)
    ensures Times(PRUNE_THRESHOLD, (n + 1) as real) == Times(PRUNE_THRESHOLD, n as real) + PRUNE_THRESHOLD
    ensures Times(PRUNE_THRESHOLD, 0.0) == 0.0
  {
  }

  lemma {:induction false} ArrayIsShort(c: Config, xs: seq<real>)
    ensures |After(c, xs)| <= |xs| + 1
  {
    if xs != [] {
      var front, x := xs[..|xs| - 1], xs[|xs| - 1];
      ArrayIsShort(c, front);
      if Total(c, After(c, front), x) > 0.0 {
        DroppedWeighsLittle(Grown(c, After(c, front), x));
      }
      hide Total, Grown, Survivors;
    }
  }

  const MANY := 10_000_000_000

  // Pruning costs next to nothing: up to ten billion observations the fallback that keeps one
  // hypothesis whatever its weight is never needed, and what an update leaves of a unit of mass lacks
  // at most the threshold for each hypothesis it weighed.
  lemma PruningKeepsMass(c: Config, xs: seq<real>)
    requires Sound(c) && xs != []
    ensures var (s, x) := (After(c, xs[..|xs| - 1]), xs[|xs| - 1]);
      && (Total(c, s, x) > 0.0 && |xs| < MANY ==> Survivors(Grown(c, s, x)) != [])
      && (|xs| < MANY ==> Sum(Probs(After(c, xs))) >= 1.0 - Times(PRUNE_THRESHOLD, (|xs| + 1) as real))
  {
    var front, x := xs[..|xs| - 1], xs[|xs| - 1];
    var s := After(c, front);
    AfterIsSubDistribution(c, front);
    ArrayIsShort(c, front);
    StartIsDistribution(c);
    ThresholdTimes(0, |xs| + 1);
    hide Grown, Survivors, Sum, Probs, Times, Start, SubDistribution, Prune;
    if Total(c, s, x) > 0.0 && |xs| < MANY {
      GrownIsDistribution(c, s, x);
      PruneKeepsMass(Grown(c, s, x), |xs| + 1);
    }
    hide Total;
  }

  lemma PruneKeepsMass(g: seq<Hyp>, n: nat)
    requires Sum(Probs(g)) == 1.0 && 0 < |g| <= n <= MANY
    ensures Survivors(g) != [] && Sum(Probs(Prune(g))) >= 1.0 - Times(PRUNE_THRESHOLD, n as real)
  {
    hide Sum, Probs, Times, Survivors;
    DroppedWeighsLittle(g);
    ThresholdTimes(|g|, MANY);
    ThresholdTimes(|g| - |Survivors(g)|, n);
    FullThreshold();
  }

  lemma ThresholdTimes(m: nat, n: nat)
    ensures m <= n ==> 0.0 <= Times(PRUNE_THRESHOLD, m as real) <= Times(PRUNE_THRESHOLD, n as real)
  {
    if m <= n {
      MonotoneProduct(PRUNE_THRESHOLD, 0.0, m as real);
      MonotoneProduct(PRUNE_THRESHOLD, m as real, n as real);
    }
  }

  lemma FullThreshold()
    ensures Times(PRUNE_THRESHOLD, MANY as real) == 1.0
  {
  }

  lemma {:induction false} AfterIsSubDistribution(c: Config, xs: seq<real>)
    requires Sound(c)
    ensures SubDistribution(After(c, xs))
  {
    if xs == [] {
      StartIsDistribution(c);
    } else {
      var front, x := xs[..|xs| - 1], xs[|xs| - 1];
      AfterIsSubDistribution(c, front);
      var s := After(c, front);
      if Total(c, s, x) <= 0.0 {
        StartIsDistribution(c);
      } else {
        GrownIsDistribution(c, s, x);
        PruneIsSubDistribution(Grown(c, s, x));
      }
    }
  }

  lemma StartIsDistribution(c: Config)
    ensures SubDistribution(Start(c)) && Sum(Probs(Start(c))) == 1.0
  {
    assert Probs(Start(c))[..0] == [];
  }

  lemma PruneIsSubDistribution(g: seq<Hyp>)
    requires g != [] && (forall i :: 0 <= i < |g| ==> g[i].p >= 0.0) && Sum(Probs(g)) == 1.0
    ensures SubDistribution(Prune(g))
  {
    SurvivorsAreSubDistribution(g);
    SumNonNegative(Probs(g));
    assert Probs(g)[0] == g[0].p;
    assert Probs([g[0]])[..0] == [];
  }

  // Whatever the stream, the reported probability of a change lies between zero and one.
  lemma AnswerIsProbability(c: Config, xs: seq<real>, x: real)
    requires Sound(c)
    ensures 0.0 <= Answer(c, After(c, xs), x) <= 1.0
  {
    AfterIsSubDistribution(c, xs);
    if Total(c, After(c, xs), x) > 0.0 {
      GrownIsDistribution(c, After(c, xs), x);
    }
  }

  // Before anything is known, a value says nothing about a change: what a new detector reports for
  // the first one, whatever it is, is the hazard.
  lemma FirstAnswerIsHazard(c: Config, x: real)
    requires Positive(c)
    ensures Answer(c, After(c, []), x) == c.hazard
  {
    var p := Predictive(c, x, c.prior);
    FirstMasses(c, x);
    assert p > 0.0;
    hide Predictive, Masses, Total;
    DivideUnique(Times(c.hazard, p), p, c.hazard);
  }

  lemma FirstMasses(c: Config, x: real)
    ensures var p := Predictive(c, x, c.prior);
      Total(c, Start(c), x) == p && Masses(c, Start(c), x)[0] == Times(c.hazard, p)
  {
    var ms, p := Masses(c, Start(c), x), Predictive(c, x, c.prior);
    hide Predictive;
    assert ms == [CpMass(c, x), Times(1.0, Growth(c, x, c.prior))];
    assert ms[..1] == [CpMass(c, x)] && ms[..1][..0] == [];
    assert Sum(ms) == Sum(ms[..1]) + ms[1] && Sum(ms[..1]) == Sum([]) + ms[0];
    assert Times(c.hazard, p) + Times(1.0, Times(1.0 - c.hazard, p)) == p;
  }

  // An update keeps, with their posteriors, exactly the hypotheses of weight 1e-10 or more, or the
  // newest when there is none; without any mass it starts over from the prior and reports no change.
  lemma UpdateKeeps(c: Config, xs: seq<real>, x: real)
    ensures Total(c, After(c, xs), x) <= 0.0 ==>
              After(c, xs + [x]) == [Hyp(1.0, c.prior)] && Answer(c, After(c, xs), x) == 0.0
    ensures Total(c, After(c, xs), x) > 0.0 ==> IsPruned(Grown(c, After(c, xs), x), After(c, xs + [x]))
  {
    assert (xs + [x])[..|xs|] == xs;
    if Total(c, After(c, xs), x) > 0.0 { PruneIs(Grown(c, After(c, xs), x)); }
    hide Total, Grown, Prune, IsPruned;
  }

  ghost predicate IsPruned(g: seq<Hyp>, kept: seq<Hyp>)
    requires g != []
  {
    if forall h <- g :: h.p < 0.0000000001 then kept == [g[0]]
    else forall h :: h in kept <==> h in g && h.p >= 0.0000000001
  }

  lemma PruneIs(g: seq<Hyp>)
    requires g != []
    ensures IsPruned(g, Prune(g))
  {
    SurvivorsAre(g);
    hide Survivors;
    if h :| h in g && h.p >= 0.0000000001 { assert h in Survivors(g); }
    else if Survivors(g) != [] { assert Survivors(g)[0] in Survivors(g); }
  }

  lemma {:induction false} SurvivorsAre(g: seq<Hyp>)
    ensures forall h :: h in Survivors(g) <==> h in g && h.p >= 0.0000000001
  {
    if g != [] {
      var n := |g| - 1;
      SurvivorsAre(g[..n]);
      assert g == g[..n] + [g[n]];
    }
  }

  // ---------------------------------------------------------------- hypotheses are suffixes

  ghost predicate Fits(c: Config, n: Nig, since: seq<real>, len: nat) {
    && len <= |since|
    && (since != [] ==> len >= 1)
    && n == Posterior(c.prior, since[|since| - len..])
  }

  // Hypothesis i holds the posterior of the last lens[i] observations of since; the lengths rise
  // along the array, and two can only be equal when both cover everything.
  ghost predicate Explains(c: Config, s: seq<Hyp>, since: seq<real>, lens: seq<nat>) {
    && |lens| == |s|
    && (forall i :: 0 <= i < |s| ==> Fits(c, s[i].nig, since, lens[i]))
    && (forall i, j :: 0 <= i < j < |s| ==> lens[i] < lens[j] || lens[i] == lens[j] == |since|)
  }

  lemma {:induction false} SurvivorIndices(g: seq<Hyp>) returns (ix: seq<nat>)
    ensures |ix| == |Survivors(g)|
    ensures forall i :: 0 <= i < |ix| ==> ix[i] < |g| && Survivors(g)[i] == g[ix[i]]
    ensures forall i, j :: 0 <= i < j < |ix| ==> ix[i] < ix[j]
  {
    if g == [] {
      ix := [];
    } else {
      ix := SurvivorIndices(g[..|g| - 1]);
      if g[|g| - 1].p >= PRUNE_THRESHOLD {
        ix := ix + [|g| - 1];
      }
    }
  }

  lemma PruneExplains(c: Config, g: seq<Hyp>, since: seq<real>, lens: seq<nat>) returns (kept: seq<nat>)
    requires g != [] && Explains(c, g, since, lens)
    ensures Explains(c, Prune(g), since, kept)
  {
    hide Fits;
    if Survivors(g) == [] {
      kept := [lens[0]];
    } else {
      var ix := SurvivorIndices(g);
      kept := seq(|ix|, i requires 0 <= i < |ix| => lens[ix[i]]);
    }
  }

  lemma GrownExplains(c: Config, s: seq<Hyp>, since: seq<real>, lens: seq<nat>, x: real) returns (longer: seq<nat>)
    requires Total(c, s, x) > 0.0 && Explains(c, s, since, lens)
    ensures Explains(c, Grown(c, s, x), since + [x], longer)
  {
    hide Total, Masses, Observe;
    longer := [1] + seq(|lens|, i requires 0 <= i < |lens| => lens[i] + 1);
    var more, g := since + [x], Grown(c, s, x);
    forall i | 0 <= i < |g|
      ensures Fits(c, g[i].nig, more, longer[i])
    {
      assert i > 0 ==> Fits(c, s[i - 1].nig, since, lens[i - 1]);
      var tail := if i == 0 then [] else since[|since| - lens[i - 1]..];
      assert more[|more| - longer[i]..] == tail + [x];
      assert (tail + [x])[..|tail|] == tail;
      assert Posterior(c.prior, tail + [x]) == Observe(Posterior(c.prior, tail), x);
      assert Posterior(c.prior, tail) == if i == 0 then c.prior else s[i - 1].nig;
    }
  }

  // Every surviving hypothesis is the exact posterior of some suffix of the observations since
  // the last reset, through every pruning.
  lemma {:induction false} HypothesesAreSuffixes(c: Config, xs: seq<real>) returns (lens: seq<nat>)
    ensures Explains(c, After(c, xs), Since(c, xs), lens)
  {
    if xs == [] {
      lens := [0];
    } else {
      var front, x := xs[..|xs| - 1], xs[|xs| - 1];
      var s := After(c, front);
      if Total(c, s, x) <= 0.0 {
        lens := [0];
      } else {
        var before := HypothesesAreSuffixes(c, front);
        var longer := GrownExplains(c, s, Since(c, front), before, x);
        lens := PruneExplains(c, Grown(c, s, x), Since(c, xs), longer);
      }
    }
  }

  // With the clamp, an underflow never happens: the mass of a change is always positive.
  lemma {:induction false} NeverResets(c: Config, xs: seq<real>)
    requires Positive(c)
    ensures Since(c, xs) == xs
  {
    hide Total, Next, SubDistribution;
    if xs != [] {
      var front, x := xs[..|xs| - 1], xs[|xs| - 1];
      NeverResets(c, front);
      AfterIsSubDistribution(c, front);
      TotalPositive(c, After(c, front), x);
    }
  }

  lemma TotalPositive(c: Config, s: seq<Hyp>, x: real)
    requires Positive(c) && SubDistribution(s)
    ensures Total(c, s, x) > 0.0
  {
    MassesNonNegative(c, s, x);
    StrictProduct(c.hazard, 0.0, Predictive(c, x, c.prior));
    assert Masses(c, s, x)[0] == CpMass(c, x);
  }

  lemma SurvivorsByStep(g: seq<Hyp>)
    ensures Survivors([]) == [] && g[..0] == [] && g[..|g|] == g
    ensures forall i :: 0 <= i < |g| ==>
              Survivors(g[..i + 1]) == Survivors(g[..i]) + (if g[i].p >= PRUNE_THRESHOLD then [g[i]] else [])
  {
    forall i | 0 <= i < |g|
      ensures g[..i + 1][..i] == g[..i]
    {
    }
  }

  // ---------------------------------------------------------------- the object

  class BayesianOnlineDetector {
    const c: Config
    var runProbs: seq<real>
    var mu: seq<real>
    var kappa: seq<real>
    var alpha: seq<real>
    var beta: seq<real>

    constructor (c: Config)
      ensures this.c == c && Valid() && Hyps() == Start(c)
    {
      this.c := c;
      runProbs := [1.0];
      mu, kappa, alpha, beta := [c.prior.mu], [c.prior.kappa], [c.prior.alpha], [c.prior.beta];
    }

    // The five arrays stay parallel.
    ghost predicate Valid()
      reads this
    {
      && |runProbs| == |mu| == |kappa| == |alpha| == |beta|
      && (forall r :: 0 <= r < |mu| ==> kappa[r] > 0.0 && alpha[r] > 0.0 && beta[r] > 0.0)
    }

    function NigAt(r: nat): Nig
      requires Valid() && r < |mu|
      reads this
    {
      NigParams(mu[r], kappa[r], alpha[r], beta[r])
    }

    ghost function Hyps(): (s: seq<Hyp>)
      requires Valid()
      reads this
      ensures |s| == |mu|
    {
      seq(|mu|, r requires 0 <= r < |mu| reads this requires Valid() => Hyp(runProbs[r], NigAt(r)))
    }

    method Reset()
      modifies this
      ensures Valid() && Hyps() == Start(c)
    {
      runProbs := [1.0];
      mu, kappa, alpha, beta := [c.prior.mu], [c.prior.kappa], [c.prior.alpha], [c.prior.beta];
    }

    method Update(value: real) returns (p: real)
      requires Valid()
      modifies this
      ensures Valid()
      ensures Hyps() == Next(c, old(Hyps()), value)
      ensures p == Answer(c, old(Hyps()), value)
      ensures Positive(c) && old(Hyps()) == Start(c) ==> p == c.hazard
    {
      if Positive(c) { FirstAnswerIsHazard(c, value); }
      hide Observe, Predictive, Sum, Times, Survivors, Positive;
      ghost var s := Hyps();
      var masses := [CpMass(c, value)];
      for r := 0 to |runProbs|
        invariant masses == Masses(c, s, value)[..r + 1]
      {
        masses := masses + [Times(runProbs[r], Growth(c, value, NigAt(r)))];
      }
      var total := Sum(masses);
      assert masses == Masses(c, s, value);
      if total <= 0.0 {
        Reset();
        return 0.0;
      }
      p := masses[0] / total;
      Extend(value, masses, total);
      assert Hyps() == Grown(c, s, value);
      Discard();
    }

    // Normalised masses, and every run's statistics with the new observation.
    method Extend(value: real, masses: seq<real>, total: real)
      requires Valid() && |masses| == |mu| + 1 && total > 0.0
      modifies this
      ensures Valid() && |mu| == old(|mu|) + 1
      ensures forall i :: 0 <= i < |mu| ==>
                Hyps()[i] == Hyp(masses[i] / total, Observe(if i == 0 then c.prior else old(Hyps())[i - 1].nig, value))
    {
      hide Observe;
      var first := Observe(c.prior, value);
      var newMu, newKappa, newAlpha, newBeta := [first.mu], [first.kappa], [first.alpha], [first.beta];
      for r := 0 to |mu|
        invariant |newMu| == |newKappa| == |newAlpha| == |newBeta| == r + 1
        invariant forall i :: 0 <= i <= r ==>
                    NigParams(newMu[i], newKappa[i], newAlpha[i], newBeta[i])
                    == Observe(if i == 0 then c.prior else NigAt(i - 1), value)
      {
        var grown := Observe(NigAt(r), value);
        newMu, newKappa := newMu + [grown.mu], newKappa + [grown.kappa];
        newAlpha, newBeta := newAlpha + [grown.alpha], newBeta + [grown.beta];
      }
      forall i | 0 <= i < |newMu|
        ensures newKappa[i] > 0.0 && newAlpha[i] > 0.0 && newBeta[i] > 0.0
      {
        var o: Nig := Observe(if i == 0 then c.prior else NigAt(i - 1), value);
        assert o == NigParams(newMu[i], newKappa[i], newAlpha[i], newBeta[i]);
      }
      runProbs := seq(|masses|, i requires 0 <= i < |masses| => masses[i] / total);
      mu, kappa, alpha, beta := newMu, newKappa, newAlpha, newBeta;
    }

    method Discard()
      requires Valid() && |mu| > 0
      modifies this
      ensures Valid() && Hyps() == Prune(old(Hyps()))
    {
      hide Survivors;
      ghost var g := Hyps();
      SurvivorsByStep(g);
      var probs, m, k, a, b: seq<real> := [], [], [], [], [];
      for i := 0 to |runProbs|
        invariant |probs| == |m| == |k| == |a| == |b| == |Survivors(g[..i])|
        invariant forall j :: 0 <= j < |m| ==> k[j] > 0.0 && a[j] > 0.0 && b[j] > 0.0
        invariant forall j :: 0 <= j < |m| ==> Survivors(g[..i])[j] == Hyp(probs[j], NigParams(m[j], k[j], a[j], b[j]))
      {
        if runProbs[i] >= PRUNE_THRESHOLD {
          probs, m, k := probs + [runProbs[i]], m + [mu[i]], k + [kappa[i]];
          a, b := a + [alpha[i]], b + [beta[i]];
        }
      }
      assert g[..|g|] == g;
      if probs == [] {
        probs, m, k, a, b := [runProbs[0]], [mu[0]], [kappa[0]], [alpha[0]], [beta[0]];
      }
      runProbs, mu, kappa, alpha, beta := probs, m, k, a, b;
    }
  }

  // None stands for the ValueError of hyperparameters that make no prior or no hazard.
  method NewDetector(hazard: real, mu0: real, kappa0: real, alpha0: real, beta0: real,
                     density: (real, real, real, real) -> real)
    returns (d: BayesianOnlineDetector?)
    ensures d == null <==> alpha0 <= 0.0 || beta0 <= 0.0 || kappa0 <= 0.0 || hazard <= 0.0 || hazard >= 1.0
    ensures d != null ==>
              && fresh(d) && d.Valid()
              && d.c == Config(hazard, NigParams(mu0, kappa0, alpha0, beta0), density)
              && d.Hyps() == Start(d.c)
  {
    if alpha0 <= 0.0 || beta0 <= 0.0 || kappa0 <= 0.0 {
      return null;
    }
    if hazard <= 0.0 || hazard >= 1.0 {
      return null;
    }
    d := new BayesianOnlineDetector(Config(hazard, NigParams(mu0, kappa0, alpha0, beta0), density));
  }
}
