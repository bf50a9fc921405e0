// What BayesianOnlineDetector's array means when nothing has been pruned: the exact posterior
// over all change-point histories, grouped by the last change.
module BayesHistories {
  import opened Common
  import opened Combinatorics
  import opened Bayes
  import opened BayesDetector

  // ---------------------------------------------------------------- histories

  // true at i says that a change point occurred at observation i.
  type History = seq<bool>

  function Extend(hs: seq<History>, change: bool): seq<History> {
    seq(|hs|, i requires 0 <= i < |hs| => hs[i] + [change])
  }

  function Histories(t: nat): seq<History> {
    if t == 0 then [[]] else Extend(Histories(t - 1), true) + Extend(Histories(t - 1), false)
  }

  function TwoTo(t: nat): nat { if t == 0 then 1 else 2 * TwoTo(t - 1) }

  lemma {:induction false} HistoriesHaveLength(t: nat)
    ensures |Histories(t)| == TwoTo(t)
    ensures forall i :: 0 <= i < |Histories(t)| ==> |Histories(t)[i]| == t
  {
    if t > 0 { HistoriesHaveLength(t - 1); }
  }

  // Histories(t) lists each of the 2^t histories of length t, once.
  lemma {:induction false} HistoriesAreAll(h: History)
    ensures h in Histories(|h|)
  {
    if h != [] {
      var t := |h| - 1;
      HistoriesAreAll(h[..t]);
      var hs := Histories(t);
      var i :| 0 <= i < |hs| && hs[i] == h[..t];
      assert h == h[..t] + [h[t]];
      assert Extend(hs, h[t])[i] == h;
      assert Extend(hs, h[t])[i] in Histories(|h|);
    }
  }

  ghost predicate Distinct(hs: seq<History>) {
    forall i, j :: 0 <= i < j < |hs| ==> hs[i] != hs[j]
  }

  lemma {:induction false} HistoriesAreDistinct(t: nat)
    ensures Distinct(Histories(t))
  {
    if t > 0 {
      HistoriesAreDistinct(t - 1);
      HistoriesHaveLength(t - 1);
      var hs := Histories(t - 1);
      var a, b := Extend(hs, true), Extend(hs, false);
      forall i, j | 0 <= i < |hs| && 0 <= j < |hs|
        ensures a[i] == a[j] || b[i] == b[j] ==> hs[i] == hs[j]
        ensures a[i] != b[j]
      {
        assert a[i][..t - 1] == hs[i] == b[i][..t - 1] && a[j][..t - 1] == hs[j] == b[j][..t - 1];
        assert a[i][t - 1] && !b[j][t - 1];
      }
    }
  }

  // The array index a history belongs to.
  function RunIndex(h: History): nat {
    if h == [] || h[|h| - 1] then 0 else RunIndex(h[..|h| - 1]) + 1
  }

  // The observations from the last change on; all of them when there was none.
  function Segment(h: History, xs: seq<real>): seq<real>
    requires |h| == |xs|
  {
    if h == [] then []
    else
      var n := |h| - 1;
      if h[n] then [xs[n]] else Segment(h[..n], xs[..n]) + [xs[n]]
  }

  // What one observation multiplies a history's weight by: the hazard at a change and its complement
  // otherwise, and the Student-t density the running posterior predicts.
  function StepWeight(c: Config, x: real, change: bool, n: Nig): real {
    StrictProduct(n.alpha, 0.0, n.kappa);
    Times(if change then c.hazard else 1.0 - c.hazard,
          c.density(x, 2.0 * n.alpha, n.mu, n.beta * (n.kappa + 1.0) / (n.alpha * n.kappa)))
  }

  // The joint weight of a history and the data, each step predicted from the prior at a change and
  // from the running segment otherwise.
  function Weight(c: Config, h: History, xs: seq<real>): real
    requires |h| == |xs|
  {
    if h == [] then 1.0
    else
      var n := |h| - 1;
      var running := Posterior(c.prior, if h[n] then [] else Segment(h[..n], xs[..n]));
      Times(Weight(c, h[..n], xs[..n]), StepWeight(c, xs[n], h[n], running))
  }

  // The detector's two kinds of step weigh just that.
  lemma StepsWeigh(c: Config, x: real, n: Nig)
    ensures StepWeight(c, x, true, c.prior) == CpMass(c, x)
    ensures StepWeight(c, x, false, n) == Growth(c, x, n)
  {
  }

  ghost predicate AllOfLength(hs: seq<History>, t: nat) {
    forall i :: 0 <= i < |hs| ==> |hs[i]| == t
  }

  function WeightIf(c: Config, h: History, xs: seq<real>, j: nat): real
    requires |h| == |xs|
  {
    if RunIndex(h) == j then Weight(c, h, xs) else 0.0
  }

  ghost function Weights(c: Config, hs: seq<History>, xs: seq<real>): (ws: seq<real>)
    requires AllOfLength(hs, |xs|)
  {
    seq(|hs|, i requires 0 <= i < |hs| => Weight(c, hs[i], xs))
  }

  ghost function WeightsAt(c: Config, hs: seq<History>, xs: seq<real>, j: nat): (ws: seq<real>)
    requires AllOfLength(hs, |xs|)
  {
    seq(|hs|, i requires 0 <= i < |hs| => WeightIf(c, hs[i], xs, j))
  }

  // The total weight of the histories in hs, and of those among them with run index j.
  ghost function Mass(c: Config, hs: seq<History>, xs: seq<real>): real
    requires AllOfLength(hs, |xs|)
  {
    Sum(Weights(c, hs, xs))
  }

  ghost function MassAt(c: Config, hs: seq<History>, xs: seq<real>, j: nat): real
    requires AllOfLength(hs, |xs|)
  {
    Sum(WeightsAt(c, hs, xs, j))
  }

  // ---------------------------------------------------------------- grouping

  function SegmentLength(j: nat, t: nat): nat { Min(j + 1, t) }

  function LastOf(xs: seq<real>, len: nat): seq<real>
    requires len <= |xs|
  {
    xs[|xs| - len..]
  }

  // A history's segment depends only on its run index.
  lemma {:induction false} SegmentByIndex(h: History, xs: seq<real>)
    requires |h| == |xs|
    ensures RunIndex(h) <= |h|
    ensures Segment(h, xs) == LastOf(xs, SegmentLength(RunIndex(h), |xs|))
  {
    hide LastOf;
    if h == [] {
      LastNone(xs);
    } else {
      var n := |h| - 1;
      LastNone(xs[..n]);
      LastSnoc(xs, 0);
      if !h[n] {
        SegmentByIndex(h[..n], xs[..n]);
        LastSnoc(xs, SegmentLength(RunIndex(h[..n]), n));
      }
    }
  }

  lemma LastNone(xs: seq<real>)
    ensures LastOf(xs, 0) == []
  {
  }

  lemma LastSnoc(xs: seq<real>, len: nat)
    requires len < |xs|
    ensures LastOf(xs, len + 1) == LastOf(xs[..|xs| - 1], len) + [xs[|xs| - 1]]
  {
  }

  lemma SumIndicator(n: nat, k: nat, w: real)
    requires k < n
    ensures Sum(seq(n, j requires 0 <= j < n => if j == k then w else 0.0)) == w
  {
    var s := seq(n, j requires 0 <= j < n => if j == k then w else 0.0);
    assert s == s[..k] + [w] + s[k + 1..];
    SumConstant(s[..k], 0.0);
    SumConstant(s[k + 1..], 0.0);
    SumAppend(s[..k] + [w], s[k + 1..]);
    SumAppend(s[..k], [w]);
    assert [w][..0] == [];
  }

  ghost function Groups(c: Config, hs: seq<History>, xs: seq<real>): seq<real>
    requires AllOfLength(hs, |xs|)
  {
    seq(|xs| + 1, j requires 0 <= j <= |xs| => MassAt(c, hs, xs, j))
  }

  // The groups partition the histories.
  lemma {:induction false} GroupsPartition(c: Config, hs: seq<History>, xs: seq<real>)
    requires AllOfLength(hs, |xs|)
    ensures Sum(Groups(c, hs, xs)) == Mass(c, hs, xs)
  {
    if hs == [] {
      NoGroups(c, xs);
    } else {
      var n := |hs| - 1;
      GroupsPartition(c, hs[..n], xs);
      assert hs == hs[..n] + [hs[n]];
      hide Groups, Mass, Sum;
      GroupsSnoc(c, hs[..n], hs[n], xs);
      MassSnoc(c, hs[..n], hs[n], xs);
    }
  }

  lemma NoGroups(c: Config, xs: seq<real>)
    ensures Sum(Groups(c, [], xs)) == 0.0 == Mass(c, [], xs)
  {
    SumConstant(Groups(c, [], xs), 0.0);
  }

  // One more history adds its weight to its own group.
  lemma GroupsSnoc(c: Config, front: seq<History>, h: History, xs: seq<real>)
    requires AllOfLength(front + [h], |xs|) && AllOfLength(front, |xs|) && |h| == |xs|
    ensures Sum(Groups(c, front + [h], xs)) == Sum(Groups(c, front, xs)) + Weight(c, h, xs)
  {
    hide Weight, RunIndex, MassAt, Sum;
    SegmentByIndex(h, xs);
    var w, r := Weight(c, h, xs), RunIndex(h);
    var one := seq(|xs| + 1, j requires 0 <= j < |xs| + 1 => if j == r then w else 0.0);
    SumIndicator(|xs| + 1, r, w);
    forall j: nat | j <= |xs|
      ensures MassAt(c, front + [h], xs, j) == MassAt(c, front, xs, j) + one[j]
    {
      MassAtSnoc(c, front, h, xs, j);
    }
    SumPlus(Groups(c, front, xs), one, Groups(c, front + [h], xs));
  }

  lemma MassAtSnoc(c: Config, front: seq<History>, h: History, xs: seq<real>, j: nat)
    requires AllOfLength(front + [h], |xs|) && AllOfLength(front, |xs|) && |h| == |xs|
    ensures MassAt(c, front + [h], xs, j) == MassAt(c, front, xs, j) + WeightIf(c, h, xs, j)
  {
    hide WeightIf;
    assert WeightsAt(c, front + [h], xs, j)[..|front|] == WeightsAt(c, front, xs, j);
  }

  lemma MassSnoc(c: Config, front: seq<History>, h: History, xs: seq<real>)
    requires AllOfLength(front + [h], |xs|) && AllOfLength(front, |xs|) && |h| == |xs|
    ensures Mass(c, front + [h], xs) == Mass(c, front, xs) + Weight(c, h, xs)
  {
    hide Weight;
    assert Weights(c, front + [h], xs)[..|front|] == Weights(c, front, xs);
  }

  // ---------------------------------------------------------------- one more observation

  lemma ExtendedWeight(c: Config, h: History, xs: seq<real>, x: real, change: bool)
    requires |h| == |xs|
    ensures RunIndex(h + [change]) == if change then 0 else RunIndex(h) + 1
    ensures Weight(c, h + [change], xs + [x])
         == Times(Weight(c, h, xs),
                  if change then CpMass(c, x)
                  else Growth(c, x, Posterior(c.prior, LastOf(xs, SegmentLength(RunIndex(h), |xs|)))))
  {
    assert (h + [change])[..|h|] == h && (xs + [x])[..|xs|] == xs;
    SegmentByIndex(h, xs);
    StepsWeigh(c, x, Posterior(c.prior, Segment(h, xs)));
    assert Posterior(c.prior, []) == c.prior;
    hide Times, CpMass, Growth, Posterior, LastOf, StepWeight;
  }

  // What a step multiplies the weight of the histories with run index r by, if they go on.
  function GrowthAt(c: Config, xs: seq<real>, x: real, r: nat): real {
    Growth(c, x, Posterior(c.prior, LastOf(xs, SegmentLength(r, |xs|))))
  }

  lemma ChangedMass(c: Config, hs: seq<History>, xs: seq<real>, x: real, j: nat)
    requires AllOfLength(hs, |xs|)
    ensures MassAt(c, Extend(hs, true), xs + [x], j)
         == if j == 0 then Times(CpMass(c, x), Mass(c, hs, xs)) else 0.0
  {
    hide Weight, RunIndex, CpMass, Times;
    var changed := WeightsAt(c, Extend(hs, true), xs + [x], j);
    forall i | 0 <= i < |hs|
      ensures changed[i] == if j == 0 then Times(CpMass(c, x), Weight(c, hs[i], xs)) else 0.0
    {
      ExtendedWeight(c, hs[i], xs, x, true);
      TimesCommutes(Weight(c, hs[i], xs), CpMass(c, x));
    }
    if j == 0 {
      SumTimes(Weights(c, hs, xs), changed, CpMass(c, x));
    } else {
      SumConstant(changed, 0.0);
    }
  }

  lemma ContinuedMass(c: Config, hs: seq<History>, xs: seq<real>, x: real, j: nat)
    requires AllOfLength(hs, |xs|)
    ensures MassAt(c, Extend(hs, false), xs + [x], j)
         == if j == 0 then 0.0 else Times(GrowthAt(c, xs, x, j - 1), MassAt(c, hs, xs, j - 1))
  {
    hide Weight, RunIndex, Growth, Times, Posterior;
    var kept := WeightsAt(c, Extend(hs, false), xs + [x], j);
    forall i | 0 <= i < |hs|
      ensures kept[i] == if j == 0 then 0.0 else Times(GrowthAt(c, xs, x, j - 1), WeightIf(c, hs[i], xs, j - 1))
    {
      ExtendedWeight(c, hs[i], xs, x, false);
      TimesCommutes(Weight(c, hs[i], xs), GrowthAt(c, xs, x, RunIndex(hs[i])));
      if j > 0 { TimesCommutes(GrowthAt(c, xs, x, j - 1), 0.0); }
    }
    if j == 0 {
      SumConstant(kept, 0.0);
    } else {
      SumTimes(WeightsAt(c, hs, xs, j - 1), kept, GrowthAt(c, xs, x, j - 1));
    }
  }

  lemma TimesCommutes(a: real, x: real)
    ensures Times(a, x) == Times(x, a) && (x == 0.0 ==> Times(a, x) == 0.0)
  {
  }

  // All weight restarts into group 0; group r goes on into group r + 1.
  lemma GroupRecurrence(c: Config, xs: seq<real>, x: real, j: nat)
    requires AllOfLength(Histories(|xs|), |xs|) && AllOfLength(Histories(|xs| + 1), |xs| + 1)
    ensures MassAt(c, Histories(|xs| + 1), xs + [x], j)
         == if j == 0 then Times(CpMass(c, x), Mass(c, Histories(|xs|), xs))
            else Times(GrowthAt(c, xs, x, j - 1), MassAt(c, Histories(|xs|), xs, j - 1))
  {
    hide *;
    var hs := Histories(|xs|);
    HistoriesStep(|xs|);
    MassAtAppend(c, Extend(hs, true), Extend(hs, false), xs + [x], j);
    ChangedMass(c, hs, xs, x, j);
    ContinuedMass(c, hs, xs, x, j);
  }

  lemma HistoriesStep(t: nat)
    requires AllOfLength(Histories(t), t)
    ensures Histories(t + 1) == Extend(Histories(t), true) + Extend(Histories(t), false)
    ensures AllOfLength(Extend(Histories(t), true), t + 1) && AllOfLength(Extend(Histories(t), false), t + 1)
  {
  }

  lemma MassAtAppend(c: Config, a: seq<History>, b: seq<History>, xs: seq<real>, j: nat)
    requires AllOfLength(a + b, |xs|) && AllOfLength(a, |xs|) && AllOfLength(b, |xs|)
    ensures MassAt(c, a + b, xs, j) == MassAt(c, a, xs, j) + MassAt(c, b, xs, j)
  {
    hide WeightIf;
    assert WeightsAt(c, a + b, xs, j) == WeightsAt(c, a, xs, j) + WeightsAt(c, b, xs, j);
    SumAppend(WeightsAt(c, a, xs, j), WeightsAt(c, b, xs, j));
  }

  // ---------------------------------------------------------------- the array is the posterior

  // No step so far has dropped a hypothesis.
  ghost predicate NeverPruned(c: Config, xs: seq<real>) {
    xs == [] ||
    var front, x := xs[..|xs| - 1], xs[|xs| - 1];
    var s := After(c, front);
    && NeverPruned(c, front)
    && Total(c, s, x) > 0.0
    && (forall i :: 0 <= i <= |s| ==> Grown(c, s, x)[i].p >= PRUNE_THRESHOLD)
  }

  lemma {:induction false} NothingDropped(g: seq<Hyp>)
    requires forall i :: 0 <= i < |g| ==> g[i].p >= PRUNE_THRESHOLD
    ensures Survivors(g) == g
  {
    if g != [] {
      NothingDropped(g[..|g| - 1]);
      assert g == g[..|g| - 1] + [g[|g| - 1]];
    }
  }

  // s holds, for each run index, that group's weight in proportion, and its posterior.
  ghost predicate IsGrouped(c: Config, s: seq<Hyp>, xs: seq<real>) {
    && AllOfLength(Histories(|xs|), |xs|)
    && |s| == |xs| + 1
    && Mass(c, Histories(|xs|), xs) > 0.0
    && (forall j :: 0 <= j < |s| ==> IsGroup(c, s[j], xs, j))
  }

  ghost predicate IsGroup(c: Config, hyp: Hyp, xs: seq<real>, j: nat)
    requires AllOfLength(Histories(|xs|), |xs|)
  {
    && hyp.nig == Posterior(c.prior, LastOf(xs, SegmentLength(j, |xs|)))
    && Times(hyp.p, Mass(c, Histories(|xs|), xs)) == MassAt(c, Histories(|xs|), xs, j)
  }

  lemma StartIsGrouped(c: Config)
    ensures IsGrouped(c, Start(c), [])
  {
    assert Histories(0) == [[]];
    assert Weights(c, [[]], []) == [1.0] && WeightsAt(c, [[]], [], 0) == [1.0];
    assert [1.0][..0] == [];
  }

  // The masses a step assembles are the next groups, scaled down by the old total.
  lemma ScaledMasses(c: Config, s: seq<Hyp>, xs: seq<real>, x: real)
    requires IsGrouped(c, s, xs) && AllOfLength(Histories(|xs| + 1), |xs| + 1)
    ensures forall j :: 0 <= j <= |s| ==>
              Times(Mass(c, Histories(|xs|), xs), Masses(c, s, x)[j])
              == MassAt(c, Histories(|xs| + 1), xs + [x], j)
    ensures Times(Mass(c, Histories(|xs|), xs), Total(c, s, x)) == Mass(c, Histories(|xs| + 1), xs + [x])
  {
    var z, ms := Mass(c, Histories(|xs|), xs), Masses(c, s, x);
    var groups := Groups(c, Histories(|xs| + 1), xs + [x]);
    SameSize(c, s, xs);
    forall j: nat | j <= |s|
      ensures Times(z, ms[j]) == MassAt(c, Histories(|xs| + 1), xs + [x], j)
    {
      ScaledMass(c, s, xs, x, j);
    }
    hide IsGrouped, Masses, Mass, MassAt, Histories, Sum, Times;
    SumTimes(ms, groups, z);
    GroupsPartition(c, Histories(|xs| + 1), xs + [x]);
  }

  lemma ScaledMass(c: Config, s: seq<Hyp>, xs: seq<real>, x: real, j: nat)
    requires IsGrouped(c, s, xs) && AllOfLength(Histories(|xs| + 1), |xs| + 1) && j <= |s|
    ensures Times(Mass(c, Histories(|xs|), xs), Masses(c, s, x)[j]) == MassAt(c, Histories(|xs| + 1), xs + [x], j)
  {
    SameSize(c, s, xs);
    MassesAt(c, s, x, j);
    hide IsGrouped, Mass, MassAt, Masses, Histories, CpMass, Growth, GrowthAt, Times, AllOfLength;
    var z := Mass(c, Histories(|xs|), xs);
    GroupRecurrence(c, xs, x, j);
    if j == 0 {
      TimesCommutes(z, Masses(c, s, x)[0]);
    } else {
      GroupGrowth(c, s, xs, x, j - 1);
      Regroup(z, s[j - 1].p, GrowthAt(c, xs, x, j - 1));
    }
  }

  lemma MassesAt(c: Config, s: seq<Hyp>, x: real, j: nat)
    requires j <= |s|
    ensures Masses(c, s, x)[j] == if j == 0 then CpMass(c, x) else Times(s[j - 1].p, Growth(c, x, s[j - 1].nig))
  {
    hide CpMass, Growth, Times;
  }

  lemma GroupGrowth(c: Config, s: seq<Hyp>, xs: seq<real>, x: real, r: nat)
    requires IsGrouped(c, s, xs) && r < |s| && r <= |xs|
    ensures Growth(c, x, s[r].nig) == GrowthAt(c, xs, x, r)
    ensures AllOfLength(Histories(|xs|), |xs|)
    ensures Times(s[r].p, Mass(c, Histories(|xs|), xs)) == MassAt(c, Histories(|xs|), xs, r)
  {
    assert IsGroup(c, s[r], xs, r);
    hide IsGrouped, Mass, MassAt, Histories, Growth, Posterior, LastOf, Times;
  }

  lemma Regroup(z: real, p: real, g: real)
    ensures Times(z, Times(p, g)) == Times(g, Times(p, z))
  {
  }

  lemma GrownIsGrouped(c: Config, s: seq<Hyp>, xs: seq<real>, x: real)
    requires IsGrouped(c, s, xs) && Total(c, s, x) > 0.0
    ensures IsGrouped(c, Grown(c, s, x), xs + [x])
  {
    hide IsGroup, Mass, MassAt, Histories, Masses, Total, Times;
    HistoriesHaveLength(|xs| + 1);
    NextMassPositive(c, s, xs, x);
    forall j: nat | j <= |s|
      ensures IsGroup(c, Grown(c, s, x)[j], xs + [x], j)
    {
      GrownIsGroup(c, s, xs, x, j);
    }
  }

  lemma NextMassPositive(c: Config, s: seq<Hyp>, xs: seq<real>, x: real)
    requires IsGrouped(c, s, xs) && Total(c, s, x) > 0.0 && AllOfLength(Histories(|xs| + 1), |xs| + 1)
    ensures Mass(c, Histories(|xs| + 1), xs + [x]) > 0.0
  {
    hide IsGrouped, Mass, Histories, Total;
    SameSize(c, s, xs);
    ScaledTotal(c, s, xs, x);
    StrictProduct(Mass(c, Histories(|xs|), xs), 0.0, Total(c, s, x));
  }

  lemma ScaledTotal(c: Config, s: seq<Hyp>, xs: seq<real>, x: real)
    requires IsGrouped(c, s, xs) && AllOfLength(Histories(|xs|), |xs|)
    requires AllOfLength(Histories(|xs| + 1), |xs| + 1)
    ensures Times(Mass(c, Histories(|xs|), xs), Total(c, s, x)) == Mass(c, Histories(|xs| + 1), xs + [x])
  {
    hide *;
    ScaledMasses(c, s, xs, x);
  }

  lemma GrownIsGroup(c: Config, s: seq<Hyp>, xs: seq<real>, x: real, j: nat)
    requires IsGrouped(c, s, xs) && Total(c, s, x) > 0.0 && AllOfLength(Histories(|xs| + 1), |xs| + 1)
    requires j <= |s|
    ensures IsGroup(c, Grown(c, s, x)[j], xs + [x], j)
  {
    hide Mass, MassAt, Histories, Masses, Total, Times, IsGrouped, Posterior, LastOf, Observe;
    SameSize(c, s, xs);
    ScaledMasses(c, s, xs, x);
    Rescale(Masses(c, s, x)[j], Total(c, s, x), Mass(c, Histories(|xs|), xs));
    GrownPosterior(c, s, xs, x, j);
  }

  lemma SameSize(c: Config, s: seq<Hyp>, xs: seq<real>)
    requires IsGrouped(c, s, xs)
    ensures |s| == |xs| + 1 && AllOfLength(Histories(|xs|), |xs|)
    ensures Mass(c, Histories(|xs|), xs) > 0.0
    ensures forall x: real :: |Masses(c, s, x)| == |s| + 1
  {
  }

  lemma Rescale(m: real, total: real, z: real)
    requires total > 0.0
    ensures Times(m / total, Times(z, total)) == Times(z, m)
  {
    calc {
      Times(m / total, Times(z, total));
      z * (m / total * total);
      { DivideBack(m, total); }
      Times(z, m);
    }
  }

  lemma GrownPosterior(c: Config, s: seq<Hyp>, xs: seq<real>, x: real, j: nat)
    requires IsGrouped(c, s, xs) && Total(c, s, x) > 0.0 && j <= |s|
    ensures Grown(c, s, x)[j].nig == Posterior(c.prior, LastOf(xs + [x], SegmentLength(j, |xs| + 1)))
  {
    hide Mass, MassAt, Histories, Masses, Total, Times, Observe;
    var tail := if j == 0 then [] else LastOf(xs, SegmentLength(j - 1, |xs|));
    assert LastOf(xs + [x], SegmentLength(j, |xs| + 1)) == tail + [x];
    assert (tail + [x])[..|tail|] == tail;
    assert Posterior(c.prior, tail + [x]) == Observe(Posterior(c.prior, tail), x);
  }

  // While nothing is pruned, entry j of the array is the weight of the histories whose last
  // change was j observations ago (entry t: never) as a share of all 2^t histories' weight, with
  // the posterior of exactly their common segment.
  lemma {:induction false} ArrayIsPosterior(c: Config, xs: seq<real>)
    requires NeverPruned(c, xs)
    ensures IsGrouped(c, After(c, xs), xs)
  {
    hide IsGrouped, NeverPruned, Grown, Total, Next, Start;
    if xs == [] {
      StartIsGrouped(c);
    } else {
      var front, x := xs[..|xs| - 1], xs[|xs| - 1];
      NothingPruned(c, xs);
      ArrayIsPosterior(c, front);
      assert xs == front + [x];
      GrownIsGrouped(c, After(c, front), front, x);
    }
  }

  lemma NothingPruned(c: Config, xs: seq<real>)
    requires NeverPruned(c, xs) && xs != []
    ensures var (front, x) := (xs[..|xs| - 1], xs[|xs| - 1]);
      && NeverPruned(c, front) && Total(c, After(c, front), x) > 0.0
      && After(c, xs) == Grown(c, After(c, front), x)
  {
    var front, x := xs[..|xs| - 1], xs[|xs| - 1];
    NothingDropped(Grown(c, After(c, front), x));
    hide Grown, Total, Survivors;
  }

  // So what update reports is the exact posterior probability of a change at this observation.
  lemma AnswerIsPosterior(c: Config, xs: seq<real>, x: real)
    requires NeverPruned(c, xs) && Total(c, After(c, xs), x) > 0.0
    ensures AllOfLength(Histories(|xs| + 1), |xs| + 1)
    ensures Mass(c, Histories(|xs| + 1), xs + [x]) > 0.0
    ensures Answer(c, After(c, xs), x)
         == MassAt(c, Histories(|xs| + 1), xs + [x], 0) / Mass(c, Histories(|xs| + 1), xs + [x])
  {
    hide Mass, MassAt, Histories, Total, After, NeverPruned, IsGroup;
    ArrayIsPosterior(c, xs);
    GrownIsGrouped(c, After(c, xs), xs, x);
    GroupShare(c, Grown(c, After(c, xs), x)[0], xs + [x], 0);
  }

  lemma GroupShare(c: Config, hyp: Hyp, xs: seq<real>, j: nat)
    requires AllOfLength(Histories(|xs|), |xs|) && Mass(c, Histories(|xs|), xs) > 0.0
    requires IsGroup(c, hyp, xs, j)
    ensures hyp.p == MassAt(c, Histories(|xs|), xs, j) / Mass(c, Histories(|xs|), xs)
  {
    hide Mass, MassAt, Histories, Posterior, LastOf, SegmentLength, AllOfLength, Times;
    ShareOut(hyp.p, Mass(c, Histories(|xs|), xs), MassAt(c, Histories(|xs|), xs, j));
  }

  lemma ShareOut(p: real, z: real, m: real)
    requires z > 0.0 && Times(p, z) == m
    ensures p == m / z
  {
    DivideUnique(m, z, p);
  }
}
