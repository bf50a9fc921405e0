// probe/compare.py: the within / cross statistic of one item and its exact relabelling table.
module Permutation {
  import opened Common
  import opened Combinatorics

  function MeanOrZero(xs: seq<real>): real {
    if xs == [] then 0.0 else Sum(xs) / |xs| as real
  }

  // ---------------------------------------------------------------- the statistic

  function RowDists<T>(dist: (T, T) -> real, x: T, ys: seq<T>): seq<real> {
    seq(|ys|, i requires 0 <= i < |ys| => dist(x, ys[i]))
  }

  // The distances of all pairs, in the order of combinations(vals, 2).
  function PairDists<T>(dist: (T, T) -> real, vals: seq<T>): seq<real> {
    if vals == [] then [] else RowDists(dist, vals[0], vals[1..]) + PairDists(dist, vals[1..])
  }

  function CrossDists<T>(dist: (T, T) -> real, a: seq<T>, b: seq<T>): seq<real> {
    if a == [] then [] else RowDists(dist, a[0], b) + CrossDists(dist, a[1..], b)
  }

  function ItemStat<T>(dist: (T, T) -> real, a: seq<T>, b: seq<T>): real {
    MeanOrZero(CrossDists(dist, a, b))
    - (MeanOrZero(PairDists(dist, a)) + MeanOrZero(PairDists(dist, b))) / 2.0
  }

  // ---------------------------------------------------------------- all relabellings

  function WithLeft<T>(x: T, ss: seq<(seq<T>, seq<T>)>): seq<(seq<T>, seq<T>)> {
    seq(|ss|, i requires 0 <= i < |ss| => ([x] + ss[i].0, ss[i].1))
  }

  function WithRight<T>(x: T, ss: seq<(seq<T>, seq<T>)>): seq<(seq<T>, seq<T>)> {
    seq(|ss|, i requires 0 <= i < |ss| => (ss[i].0, [x] + ss[i].1))
  }

  // Every way of choosing k of xs for the left, the rest going right, in the order in which
  // combinations(range(n), k) lists the left sides.
  function Splits<T>(xs: seq<T>, k: int): (ss: seq<(seq<T>, seq<T>)>)
    decreases |xs|
  {
    if k < 0 then []
    else if xs == [] then (if k == 0 then [([], [])] else [])
    else WithLeft(xs[0], Splits(xs[1..], k - 1)) + WithRight(xs[0], Splits(xs[1..], k))
  }

  function Table<T>(dist: (T, T) -> real, a: seq<T>, b: seq<T>): seq<real> {
    var ss := Splits(a + b, |a|);
    seq(|ss|, i requires 0 <= i < |ss| => ItemStat(dist, ss[i].0, ss[i].1))
  }

  lemma {:induction false} SplitSizes<T>(xs: seq<T>, k: int)
    ensures |Splits(xs, k)| == Choose(|xs|, k)
    ensures forall s <- Splits(xs, k) :: |s.0| == k && |s.1| == |xs| - k
  {
    if k >= 0 && xs != [] {
      SplitSizes(xs[1..], k - 1);
      SplitSizes(xs[1..], k);
    }
  }

  lemma {:induction false} NoneLeft<T>(b: seq<T>)
    ensures Splits(b, 0) == [([], b)]
  {
    if b != [] {
      NoneLeft(b[1..]);
      assert Splits(b[1..], -1) == [];
      assert [b[0]] + b[1..] == b;
    }
  }

  lemma {:induction false} FirstSplit<T>(a: seq<T>, b: seq<T>)
    ensures Splits(a + b, |a|) != [] && Splits(a + b, |a|)[0] == (a, b)
  {
    if a == [] {
      assert a + b == b;
      NoneLeft(b);
    } else {
      assert (a + b)[1..] == a[1..] + b && (a + b)[0] == a[0];
      FirstSplit(a[1..], b);
      var ss := Splits(a[1..] + b, |a| - 1);
      assert Splits(a + b, |a|) == WithLeft(a[0], ss) + WithRight(a[0], Splits(a[1..] + b, |a|));
      assert WithLeft(a[0], ss)[0] == ([a[0]] + a[1..], b);
      assert [a[0]] + a[1..] == a;
    }
  }

  // The first entry of the table is the statistic of the labels as observed.
  lemma TableStartsWithObserved<T>(dist: (T, T) -> real, a: seq<T>, b: seq<T>)
    ensures Table(dist, a, b) != [] && Table(dist, a, b)[0] == ItemStat(dist, a, b)
  {
    FirstSplit(a, b);
  }

  // ---------------------------------------------------------------- double counting

  ghost predicate Symmetric<T(!new)>(dist: (T, T) -> real) {
    forall x, y :: dist(x, y) == dist(y, x)
  }

  // What one split contributes to a total: a constant, one row of distances on a side, the
  // pairs within a side, or the pairs across.
  datatype Part<T> =
    | Const(c: real)
    | LeftRow(x: T)
    | RightRow(x: T)
    | LeftPairs
    | RightPairs
    | Cross

  function Value<T>(dist: (T, T) -> real, p: Part<T>, s: (seq<T>, seq<T>)): real {
    match p
    case Const(c) => c
    case LeftRow(x) => Sum(RowDists(dist, x, s.0))
    case RightRow(x) => Sum(RowDists(dist, x, s.1))
    case LeftPairs => Sum(PairDists(dist, s.0))
    case RightPairs => Sum(PairDists(dist, s.1))
    case Cross => Sum(CrossDists(dist, s.0, s.1))
  }

  function Values<T>(dist: (T, T) -> real, p: Part<T>, ss: seq<(seq<T>, seq<T>)>): seq<real> {
    seq(|ss|, i requires 0 <= i < |ss| => Value(dist, p, ss[i]))
  }

  function Total<T>(dist: (T, T) -> real, p: Part<T>, ss: seq<(seq<T>, seq<T>)>): real {
    Sum(Values(dist, p, ss))
  }

  // What y adds when it joins the left side, and when it joins the right.
  function JoinLeft<T>(dist: (T, T) -> real, p: Part<T>, y: T): Part<T> {
    match p
    case LeftRow(x) => Const(dist(x, y))
    case LeftPairs => LeftRow(y)
    case Cross => RightRow(y)
    case _ => Const(0.0)
  }

  function JoinRight<T>(dist: (T, T) -> real, p: Part<T>, y: T): Part<T> {
    match p
    case RightRow(x) => Const(dist(x, y))
    case RightPairs => RightRow(y)
    case Cross => LeftRow(y)
    case _ => Const(0.0)
  }

  // The same quantity over the whole pool, each unordered pair counted once (twice for Cross,
  // which two label assignments separate).
  function Whole<T>(dist: (T, T) -> real, p: Part<T>, xs: seq<T>): real {
    match p
    case Const(c) => c
    case LeftRow(x) => Sum(RowDists(dist, x, xs))
    case RightRow(x) => Sum(RowDists(dist, x, xs))
    case LeftPairs => Sum(PairDists(dist, xs))
    case RightPairs => Sum(PairDists(dist, xs))
    case Cross => 2.0 * Sum(PairDists(dist, xs))
  }

  // The number of splits of n with k on the left in which a given element or pair takes part.
  function Weight<T>(p: Part<T>, n: int, k: int): nat {
    match p
    case Const(_) => Choose(n, k)
    case LeftRow(_) => Choose(n - 1, k - 1)
    case RightRow(_) => Choose(n - 1, k)
    case LeftPairs => Choose(n - 2, k - 2)
    case RightPairs => Choose(n - 2, k)
    case Cross => Choose(n - 2, k - 1)
  }

  lemma RowSplit<T>(dist: (T, T) -> real, x: T, y: T, ys: seq<T>)
    ensures Sum(RowDists(dist, x, [y] + ys)) == dist(x, y) + Sum(RowDists(dist, x, ys))
  {
    assert RowDists(dist, x, [y] + ys) == [dist(x, y)] + RowDists(dist, x, ys);
    SumAppend([dist(x, y)], RowDists(dist, x, ys));
    assert Sum([dist(x, y)]) == Sum([]) + dist(x, y) by { assert [dist(x, y)][..0] == []; }
  }

  lemma PairSplit<T>(dist: (T, T) -> real, y: T, ys: seq<T>)
    ensures Sum(PairDists(dist, [y] + ys)) == Sum(RowDists(dist, y, ys)) + Sum(PairDists(dist, ys))
  {
    assert ([y] + ys)[1..] == ys;
    SumAppend(RowDists(dist, y, ys), PairDists(dist, ys));
  }

  lemma CrossLeft<T>(dist: (T, T) -> real, y: T, a: seq<T>, b: seq<T>)
    ensures Sum(CrossDists(dist, [y] + a, b)) == Sum(RowDists(dist, y, b)) + Sum(CrossDists(dist, a, b))
  {
    assert ([y] + a)[1..] == a;
    SumAppend(RowDists(dist, y, b), CrossDists(dist, a, b));
  }

  lemma {:induction false} CrossRight<T(!new)>(dist: (T, T) -> real, y: T, a: seq<T>, b: seq<T>)
    requires Symmetric(dist)
    ensures Sum(CrossDists(dist, a, [y] + b)) == Sum(RowDists(dist, y, a)) + Sum(CrossDists(dist, a, b))
  {
    if a != [] {
      var x, a' := a[0], a[1..];
      assert a == [x] + a';
      CrossRight(dist, y, a', b);
      CrossLeft(dist, x, a', [y] + b);
      CrossLeft(dist, x, a', b);
      RowSplit(dist, x, y, b);
      RowSplit(dist, y, x, a');
    }
  }

  lemma JoinValue<T(!new)>(dist: (T, T) -> real, p: Part<T>, y: T, s: (seq<T>, seq<T>))
    requires Symmetric(dist) && !p.Const?
    ensures Value(dist, p, ([y] + s.0, s.1)) == Value(dist, JoinLeft(dist, p, y), s) + Value(dist, p, s)
    ensures Value(dist, p, (s.0, [y] + s.1)) == Value(dist, JoinRight(dist, p, y), s) + Value(dist, p, s)
  {
    match p
    case LeftRow(x) => RowSplit(dist, x, y, s.0);
    case RightRow(x) => RowSplit(dist, x, y, s.1);
    case LeftPairs => PairSplit(dist, y, s.0);
    case RightPairs => PairSplit(dist, y, s.1);
    case Cross => CrossLeft(dist, y, s.0, s.1); CrossRight(dist, y, s.0, s.1);
  }

  lemma TotalAppend<T>(dist: (T, T) -> real, p: Part<T>, l: seq<(seq<T>, seq<T>)>, r: seq<(seq<T>, seq<T>)>)
    ensures Total(dist, p, l + r) == Total(dist, p, l) + Total(dist, p, r)
  {
    assert Values(dist, p, l + r) == Values(dist, p, l) + Values(dist, p, r);
    SumAppend(Values(dist, p, l), Values(dist, p, r));
  }

  // The total over all splits of [y] + ys, by where y goes.
  lemma TotalRecurrence<T(!new)>(dist: (T, T) -> real, p: Part<T>, y: T, ys: seq<T>, k: nat)
    requires Symmetric(dist) && !p.Const?
    ensures Total(dist, p, Splits([y] + ys, k))
         == (Total(dist, JoinLeft(dist, p, y), Splits(ys, k - 1)) + Total(dist, p, Splits(ys, k - 1)))
          + (Total(dist, JoinRight(dist, p, y), Splits(ys, k)) + Total(dist, p, Splits(ys, k)))
  {
    var s0, s1 := Splits(ys, k - 1), Splits(ys, k);
    assert ([y] + ys)[1..] == ys;
    var l, r := WithLeft(y, s0), WithRight(y, s1);
    TotalAppend(dist, p, l, r);
    forall i | 0 <= i < |s0|
      ensures Value(dist, p, l[i]) == Value(dist, JoinLeft(dist, p, y), s0[i]) + Value(dist, p, s0[i])
    {
      JoinValue(dist, p, y, s0[i]);
    }
    forall i | 0 <= i < |s1|
      ensures Value(dist, p, r[i]) == Value(dist, JoinRight(dist, p, y), s1[i]) + Value(dist, p, s1[i])
    {
      JoinValue(dist, p, y, s1[i]);
    }
    hide Value;
    SumPlus(Values(dist, JoinLeft(dist, p, y), s0), Values(dist, p, s0), Values(dist, p, l));
    SumPlus(Values(dist, JoinRight(dist, p, y), s1), Values(dist, p, s1), Values(dist, p, r));
  }

  function Rank<T>(p: Part<T>): nat {
    match p
    case Const(_) => 0
    case LeftRow(_) => 1
    case RightRow(_) => 1
    case _ => 2
  }

  // Double counting: over all splits, every part totals its weight times the whole.
  lemma {:induction false} TotalIsWeighted<T(!new)>(dist: (T, T) -> real, p: Part<T>, xs: seq<T>, k: int)
    requires Symmetric(dist)
    ensures Total(dist, p, Splits(xs, k)) == Weighted(dist, p, xs, k)
    decreases Rank(p), |xs|
  {
    hide *;
    if p.Const? {
      ConstTotal(dist, p, xs, k);
    } else if k < 0 || xs == [] {
      EmptyTotal(dist, p, xs, k);
    } else {
      var y, ys := xs[0], xs[1..];
      assert xs == [y] + ys;
      JoinRanks(dist, p, y);
      TotalRecurrence(dist, p, y, ys, k);
      TotalIsWeighted(dist, JoinLeft(dist, p, y), ys, k - 1);
      TotalIsWeighted(dist, JoinRight(dist, p, y), ys, k);
      TotalIsWeighted(dist, p, ys, k - 1);
      TotalIsWeighted(dist, p, ys, k);
      WeightStep(dist, p, y, ys, k);
    }
  }

  lemma JoinRanks<T>(dist: (T, T) -> real, p: Part<T>, y: T)
    requires !p.Const?
    ensures Rank(JoinLeft(dist, p, y)) < Rank(p) && Rank(JoinRight(dist, p, y)) < Rank(p)
  {
  }

  lemma ConstTotal<T>(dist: (T, T) -> real, p: Part<T>, xs: seq<T>, k: int)
    requires p.Const?
    ensures Total(dist, p, Splits(xs, k)) == Weighted(dist, p, xs, k)
  {
    hide Splits, Choose, Sum;
    SplitSizes(xs, k);
    SumConstant(Values(dist, p, Splits(xs, k)), p.c);
  }

  lemma EmptyTotal<T>(dist: (T, T) -> real, p: Part<T>, xs: seq<T>, k: int)
    requires !p.Const? && (k < 0 || xs == [])
    ensures Total(dist, p, Splits(xs, k)) == Weighted(dist, p, xs, k)
  {
    SumConstant(Values(dist, p, Splits(xs, k)), 0.0);
    if k >= 0 {
      assert Whole(dist, p, xs) == 0.0;
    } else {
      assert Weight(p, |xs|, k) == 0;
    }
  }

  function Weighted<T>(dist: (T, T) -> real, p: Part<T>, xs: seq<T>, k: int): real {
    Weight(p, |xs|, k) as real * Whole(dist, p, xs)
  }

  lemma WeightStep<T>(dist: (T, T) -> real, p: Part<T>, y: T, ys: seq<T>, k: int)
    requires !p.Const?
    ensures (Weighted(dist, JoinLeft(dist, p, y), ys, k - 1) + Weighted(dist, p, ys, k - 1))
          + (Weighted(dist, JoinRight(dist, p, y), ys, k) + Weighted(dist, p, ys, k))
         == Weighted(dist, p, [y] + ys, k)
  {
    hide Sum, PairDists, RowDists, Choose;
    var n := |ys|;
    match p {
      case LeftRow(x) =>
        RowSplit(dist, x, y, ys);
        ShortRow(dist, x, ys);
        CountStep(n, k - 1, dist(x, y), Whole(dist, p, ys));
      case RightRow(x) =>
        RowSplit(dist, x, y, ys);
        ShortRow(dist, x, ys);
        CountStep(n, k, dist(x, y), Whole(dist, p, ys));
      case LeftPairs =>
        PairSplit(dist, y, ys);
        ShortPairs(dist, y, ys);
        CountStep(n - 1, k - 2, Sum(RowDists(dist, y, ys)), Whole(dist, p, ys));
      case RightPairs =>
        PairSplit(dist, y, ys);
        ShortPairs(dist, y, ys);
        CountStep(n - 1, k, Sum(RowDists(dist, y, ys)), Whole(dist, p, ys));
      case Cross =>
        PairSplit(dist, y, ys);
        ShortPairs(dist, y, ys);
        CountStep(n - 1, k - 1, 2.0 * Sum(RowDists(dist, y, ys)), Whole(dist, p, ys));
    }
  }

  lemma ShortRow<T>(dist: (T, T) -> real, x: T, ys: seq<T>)
    ensures |ys| == 0 ==> Sum(RowDists(dist, x, ys)) == 0.0
  {
  }

  lemma ShortPairs<T>(dist: (T, T) -> real, x: T, ys: seq<T>)
    ensures |ys| == 0 ==> Sum(RowDists(dist, x, ys)) == 0.0
    ensures |ys| <= 1 ==> Sum(PairDists(dist, ys)) == 0.0
  {
    if |ys| == 1 {
      assert ys == [ys[0]] + [];
      PairSplit(dist, ys[0], []);
    }
  }

  lemma CountStep(n: int, j: int, d: real, rest: real)
    requires n >= 1 || rest == 0.0
    ensures Choose(n, j) as real * d
          + (Choose(n - 1, j - 1) as real * rest + Choose(n - 1, j) as real * rest)
         == Choose(n, j) as real * (d + rest)
  {
    if n >= 1 {
      Pascal(n, j);
      hide Choose;
      Distribute(rest, Choose(n - 1, j - 1) as real, Choose(n - 1, j) as real);
    }
  }

  // ---------------------------------------------------------------- the table is centred

  lemma {:induction false} PairCount<T>(dist: (T, T) -> real, vals: seq<T>)
    ensures 2 * |PairDists(dist, vals)| == |vals| * (|vals| - 1)
  {
    if vals != [] { PairCount(dist, vals[1..]); }
  }

  lemma {:induction false} CrossCount<T>(dist: (T, T) -> real, a: seq<T>, b: seq<T>)
    ensures |CrossDists(dist, a, b)| == |a| * |b|
  {
    if a != [] { CrossCount(dist, a[1..], b); }
  }

  // Cross distances list, row by row, the distance of every element of a to every one of b.
  lemma {:induction false} CrossAt<T>(dist: (T, T) -> real, a: seq<T>, b: seq<T>, i: nat, j: nat)
    requires i < |a| && j < |b|
    ensures |CrossDists(dist, a, b)| == |a| * |b| && 0 <= i * |b| + j < |a| * |b|
    ensures CrossDists(dist, a, b)[i * |b| + j] == dist(a[i], b[j])
  {
    CrossCount(dist, a, b);
    PlaceInRange(i, j, |a|, |b|);
    if i == 0 {
      NoRows(|b|);
    } else {
      CrossAt(dist, a[1..], b, i - 1, j);
      OneRowUp(i, |b|);
    }
  }

  ghost predicate Metric<T(!new)>(dist: (T, T) -> real) {
    Symmetric(dist) && forall x :: dist(x, x) == 0.0
  }

  lemma {:induction false} TwicePairs<T(!new)>(dist: (T, T) -> real, a: seq<T>)
    requires Metric(dist)
    ensures 2.0 * Sum(PairDists(dist, a)) == Sum(CrossDists(dist, a, a))
  {
    if a != [] {
      var x, t := a[0], a[1..];
      assert a == [x] + t;
      TwicePairs(dist, t);
      PairSplit(dist, x, t);
      CrossLeft(dist, x, t, a);
      RowSplit(dist, x, x, t);
      CrossRight(dist, x, t, t);
      hide Sum, PairDists, CrossDists, RowDists;
    }
  }

  // The statistic is the energy distance of the two samples: the mean distance across, less half the
  // mean distance between two different elements on either side.
  lemma StatIsEnergy<T(!new)>(dist: (T, T) -> real, a: seq<T>, b: seq<T>)
    requires |a| >= 2 && |b| >= 2 && Metric(dist)
    ensures |a| * |b| > 0 && 2 * |a| * (|a| - 1) > 0 && 2 * |b| * (|b| - 1) > 0
    ensures ItemStat(dist, a, b)
         == Sum(CrossDists(dist, a, b)) / (|a| * |b|) as real
          - Sum(CrossDists(dist, a, a)) / (2 * |a| * (|a| - 1)) as real
          - Sum(CrossDists(dist, b, b)) / (2 * |b| * (|b| - 1)) as real
  {
    WithinIs(dist, a);
    WithinIs(dist, b);
    AcrossIs(dist, a, b);
    hide MeanOrZero, Sum, PairDists, CrossDists, Metric;
    assert ItemStat(dist, a, b) == MeanOrZero(CrossDists(dist, a, b))
      - MeanOrZero(PairDists(dist, a)) / 2.0 - MeanOrZero(PairDists(dist, b)) / 2.0;
  }

  lemma WithinIs<T(!new)>(dist: (T, T) -> real, a: seq<T>)
    requires |a| >= 2 && Metric(dist)
    ensures 2 * |a| * (|a| - 1) > 0
    ensures MeanOrZero(PairDists(dist, a)) / 2.0 == Sum(CrossDists(dist, a, a)) / (2 * |a| * (|a| - 1)) as real
  {
    TwicePairs(dist, a);
    PairCount(dist, a);
    hide Sum, PairDists, CrossDists, Metric;
    HalfMean(Sum(PairDists(dist, a)), Sum(CrossDists(dist, a, a)), |PairDists(dist, a)|, |a|);
    MeanIs(PairDists(dist, a));
    hide MeanOrZero;
  }

  lemma AcrossIs<T>(dist: (T, T) -> real, a: seq<T>, b: seq<T>)
    requires a != [] && b != []
    ensures |a| * |b| > 0
    ensures MeanOrZero(CrossDists(dist, a, b)) == Sum(CrossDists(dist, a, b)) / (|a| * |b|) as real
  {
    CrossCount(dist, a, b);
    assert |a| * |b| > 0;
    hide Sum, CrossDists;
  }

  lemma MeanIs(xs: seq<real>)
    ensures xs != [] ==> MeanOrZero(xs) == Sum(xs) / |xs| as real
  {
  }

  lemma HalfMean(x: real, twice: real, pairs: nat, n: nat)
    requires n >= 2 && 2 * pairs == n * (n - 1) && 2.0 * x == twice
    ensures pairs > 0 && 2 * n * (n - 1) > 0
    ensures x / pairs as real / 2.0 == twice / (2 * n * (n - 1)) as real
  {
    assert n * (n - 1) > 0;
    assert 2 * n * (n - 1) == 4 * pairs;
    FourTimes(x, pairs as real);
    assert (4 * pairs) as real == 4.0 * pairs as real;
  }

  lemma FourTimes(x: real, k: real)
    requires k > 0.0
    ensures x / k / 2.0 == 2.0 * x / (4.0 * k)
  {
    DivideBack(x, k);
    DivideUnique(2.0 * x, 4.0 * k, x / k / 2.0);
  }

  // The weights the three means give to one pair.
  function CrossWeight(na: nat, nb: nat): real
    requires na > 0 && nb > 0
  {
    1.0 / (na as real * nb as real)
  }

  function PairWeight(n: nat): real
    requires n > 1
  {
    1.0 / (n as real * (n - 1) as real)
  }

  lemma StatIsLinear<T>(dist: (T, T) -> real, s: (seq<T>, seq<T>))
    requires |s.0| >= 2 && |s.1| >= 2
    ensures ItemStat(dist, s.0, s.1)
         == Times(CrossWeight(|s.0|, |s.1|), Value(dist, Cross, s))
          + (Times(-PairWeight(|s.0|), Value(dist, LeftPairs, s))
           + Times(-PairWeight(|s.1|), Value(dist, RightPairs, s)))
  {
    CrossCount(dist, s.0, s.1);
    PairCount(dist, s.0);
    PairCount(dist, s.1);
    var na, nb := |s.0|, |s.1|;
    assert na * nb > 0 && na * (na - 1) > 0 && nb * (nb - 1) > 0;
    hide Sum, CrossDists, PairDists;
    MeanOfCross(Value(dist, Cross, s), na, nb, |CrossDists(dist, s.0, s.1)|);
    MeanOfPairs(Value(dist, LeftPairs, s), na, |PairDists(dist, s.0)|);
    MeanOfPairs(Value(dist, RightPairs, s), nb, |PairDists(dist, s.1)|);
    assert |PairDists(dist, s.0)| > 0 && |PairDists(dist, s.1)| > 0 && |CrossDists(dist, s.0, s.1)| > 0;
  }

  lemma MeanOfCross(x: real, na: nat, nb: nat, n: nat)
    requires na > 0 && nb > 0 && n == na * nb
    ensures n > 0 && x / n as real == CrossWeight(na, nb) * x
  {
    assert n as real == na as real * nb as real;
  }

  lemma MeanOfPairs(x: real, n: nat, pairs: nat)
    requires n > 1 && 2 * pairs == n * (n - 1)
    ensures pairs > 0 && x / pairs as real / 2.0 == PairWeight(n) * x
  {
    assert n * (n - 1) > 0;
    assert 2.0 * pairs as real == n as real * (n - 1) as real;
    var w := 2.0 * pairs as real;
    assert x / pairs as real / 2.0 == x / w;
  }

  lemma SumLinear(xs: seq<real>, ys: seq<real>, zs: seq<real>, ts: seq<real>, a: real, b: real, c: real)
    requires |xs| == |ys| == |zs| == |ts|
    requires forall i :: 0 <= i < |ts| ==> ts[i] == Times(a, xs[i]) + (Times(b, ys[i]) + Times(c, zs[i]))
    ensures Sum(ts) == Times(a, Sum(xs)) + (Times(b, Sum(ys)) + Times(c, Sum(zs)))
  {
    hide Times, Sum;
    var yz := seq(|ts|, i requires 0 <= i < |ts| => Times(b, ys[i]) + Times(c, zs[i]));
    var xs' := seq(|ts|, i requires 0 <= i < |ts| => Times(a, xs[i]));
    SumTwo(ys, zs, yz, b, c);
    SumTimes(xs, xs', a);
    SumPlus(xs', yz, ts);
  }

  lemma SumTwo(ys: seq<real>, zs: seq<real>, ts: seq<real>, b: real, c: real)
    requires |ys| == |zs| == |ts|
    requires forall i :: 0 <= i < |ts| ==> ts[i] == Times(b, ys[i]) + Times(c, zs[i])
    ensures Sum(ts) == Times(b, Sum(ys)) + Times(c, Sum(zs))
  {
    hide Times, Sum;
    var ys' := seq(|ts|, i requires 0 <= i < |ts| => Times(b, ys[i]));
    var zs' := seq(|ts|, i requires 0 <= i < |ts| => Times(c, zs[i]));
    SumTimes(ys, ys', b);
    SumTimes(zs, zs', c);
    SumPlus(ys', zs', ts);
  }

  // The table's total, from the totals of the three kinds of pairs.
  lemma TableTotal<T(!new)>(dist: (T, T) -> real, a: seq<T>, b: seq<T>)
    requires |a| >= 2 && |b| >= 2 && Symmetric(dist)
    ensures Sum(Table(dist, a, b))
         == Times(CrossWeight(|a|, |b|), Weighted(dist, Cross, a + b, |a|))
          + (Times(-PairWeight(|a|), Weighted(dist, LeftPairs, a + b, |a|))
           + Times(-PairWeight(|b|), Weighted(dist, RightPairs, a + b, |a|)))
  {
    hide ItemStat, Value, Splits, Choose, CrossWeight, PairWeight, Times, Sum, Weighted, Symmetric;
    var ss := Splits(a + b, |a|);
    SplitSizes(a + b, |a|);
    TotalIsWeighted(dist, Cross, a + b, |a|);
    TotalIsWeighted(dist, LeftPairs, a + b, |a|);
    TotalIsWeighted(dist, RightPairs, a + b, |a|);
    forall i | 0 <= i < |ss|
      ensures ItemStat(dist, ss[i].0, ss[i].1)
           == Times(CrossWeight(|a|, |b|), Value(dist, Cross, ss[i]))
            + (Times(-PairWeight(|a|), Value(dist, LeftPairs, ss[i]))
             + Times(-PairWeight(|b|), Value(dist, RightPairs, ss[i])))
    {
      assert ss[i] in ss;
      StatIsLinear(dist, ss[i]);
    }
    SumLinear(Values(dist, Cross, ss), Values(dist, LeftPairs, ss), Values(dist, RightPairs, ss),
              Table(dist, a, b), CrossWeight(|a|, |b|), -PairWeight(|a|), -PairWeight(|b|));
  }

  // The identity behind "zero in expectation": with c = C(n-2, na-1), absorption makes the two
  // within-side weights equal to the cross weight.
  lemma WeightsCancel(na: nat, nb: nat)
    requires na >= 2 && nb >= 2
    ensures PairWeight(na) * Choose(na + nb - 2, na - 2) as real
         == CrossWeight(na, nb) * Choose(na + nb - 2, na - 1) as real
    ensures PairWeight(nb) * Choose(na + nb - 2, na) as real
         == CrossWeight(na, nb) * Choose(na + nb - 2, na - 1) as real
  {
    hide Choose, PairWeight, CrossWeight;
    var N, k := na + nb - 2, na - 1;
    Absorption(N, k - 1);  // k * C(N, k) == nb * C(N, k - 1)
    Absorption(N, k);      // na * C(N, na) == (nb - 1) * C(N, k)
    var c, l, r := Choose(N, k), Choose(N, k - 1), Choose(N, k + 1);
    AsReals(k, c, nb, l);
    AsReals(nb - 1, c, na, r);
    WeightShares(na, nb, l as real, c as real);
    WeightShares(nb, na, r as real, c as real);
  }

  lemma WeightShares(n: nat, m: nat, l: real, c: real)
    requires n >= 2 && m >= 2 && (n - 1) as real * c == m as real * l
    ensures PairWeight(n) * l == CrossWeight(n, m) * c == CrossWeight(m, n) * c
  {
    EqualShares(l, c, n as real, (n - 1) as real, m as real);
  }

  lemma AsReals(a: int, b: int, c: int, d: int)
    requires a * b == c * d
    ensures a as real * b as real == c as real * d as real
  {
    assert (a * b) as real == a as real * b as real;
    assert (c * d) as real == c as real * d as real;
  }

  lemma EqualShares(l: real, c: real, p: real, p1: real, q: real)
    requires p > 0.0 && p1 > 0.0 && q > 0.0
    requires p1 * c == q * l
    ensures p * p1 > 0.0 && p * q > 0.0
    ensures 1.0 / (p * p1) * l == 1.0 / (p * q) * c
    ensures q * p > 0.0 && 1.0 / (q * p) * c == 1.0 / (p * q) * c
  {
    StrictProduct(p, 0.0, p1);
    StrictProduct(p, 0.0, q);
    var u := c / q;
    DivideBack(c, q);
    calc {
      q * l;
      p1 * c;
      p1 * (u * q);
      q * (u * p1);
    }
    assert l == u * p1;
    DivideUnique(l, p * p1, u / p);
    DivideUnique(c, p * q, u / p);
  }

  // For any item with at least two repeats a side and a symmetric distance, the statistic sums
  // to exactly zero over all relabellings: no relabelling is favoured.
  lemma TableSumsToZero<T(!new)>(dist: (T, T) -> real, a: seq<T>, b: seq<T>)
    requires |a| >= 2 && |b| >= 2 && Symmetric(dist)
    ensures Sum(Table(dist, a, b)) == 0.0
  {
    hide Choose, Sum, PairDists, CrossWeight, PairWeight, Table, Symmetric;
    TableTotal(dist, a, b);
    WeightsCancel(|a|, |b|);
    var n := |a| + |b| - 2;
    Cancels(CrossWeight(|a|, |b|), PairWeight(|a|), PairWeight(|b|), Choose(n, |a| - 1) as real,
            Choose(n, |a| - 2) as real, Choose(n, |a|) as real, Sum(PairDists(dist, a + b)));
  }

  lemma Cancels(x: real, p: real, q: real, c: real, l: real, r: real, t: real)
    requires p * l == x * c && q * r == x * c
    ensures x * (c * (2.0 * t)) + (-p * (l * t) + -q * (r * t)) == 0.0
  {
    calc {
      x * (c * (2.0 * t)) + (-p * (l * t) + -q * (r * t));
      2.0 * ((x * c) * t) - (p * l) * t - (q * r) * t;
      0.0;
    }
  }

  // ---------------------------------------------------------------- index tables

  function Range(lo: nat, n: nat): (r: seq<nat>)
    requires lo <= n
    ensures |r| == n - lo && forall i :: 0 <= i < |r| ==> r[i] == lo + i
  {
    seq(n - lo, i requires 0 <= i < n - lo => lo + i)
  }

  function Pick<T>(pooled: seq<T>, ix: seq<nat>): seq<T>
    requires Below(ix, |pooled|)
  {
    seq(|ix|, j requires 0 <= j < |ix| => pooled[ix[j]])
  }

  function Without(ix: seq<nat>, l: seq<nat>): seq<nat> {
    if ix == [] then [] else (if ix[0] in l then [] else [ix[0]]) + Without(ix[1..], l)
  }

  predicate Below(ix: seq<nat>, n: nat) { forall j :: 0 <= j < |ix| ==> ix[j] < n }

  predicate AtLeast(ix: seq<nat>, lo: nat) { forall j :: 0 <= j < |ix| ==> lo <= ix[j] }

  // A split s of the positions from lo on stands for the split v of the values there; its right
  // side is what its left side leaves.
  ghost predicate Stands<T>(pooled: seq<T>, lo: nat, s: (seq<nat>, seq<nat>), v: (seq<T>, seq<T>)) {
    && lo <= |pooled|
    && AtLeast(s.0, lo) && Below(s.0, |pooled|) && Below(s.1, |pooled|)
    && s.1 == Without(Range(lo, |pooled|), s.0)
    && v == (Pick(pooled, s.0), Pick(pooled, s.1))
  }

  lemma SplitsUnfold<T>(pooled: seq<T>, lo: nat, k: nat)
    requires lo < |pooled|
    ensures Splits(Range(lo, |pooled|), k)
         == WithLeft(lo, Splits(Range(lo + 1, |pooled|), k - 1)) + WithRight(lo, Splits(Range(lo + 1, |pooled|), k))
    ensures Splits(pooled[lo..], k)
         == WithLeft(pooled[lo], Splits(pooled[lo + 1..], k - 1)) + WithRight(pooled[lo], Splits(pooled[lo + 1..], k))
  {
    assert Range(lo, |pooled|)[1..] == Range(lo + 1, |pooled|);
    assert pooled[lo..][1..] == pooled[lo + 1..];
    hide WithLeft, WithRight;
  }

  ghost predicate AllStand<T>(pooled: seq<T>, lo: nat, ss: seq<(seq<nat>, seq<nat>)>, vs: seq<(seq<T>, seq<T>)>) {
    |ss| == |vs| && forall t :: 0 <= t < |ss| ==> Stands(pooled, lo, ss[t], vs[t])
  }

  lemma {:induction false} SplitsByIndex<T>(pooled: seq<T>, lo: nat, k: int)
    requires lo <= |pooled|
    ensures AllStand(pooled, lo, Splits(Range(lo, |pooled|), k), Splits(pooled[lo..], k))
    decreases |pooled| - lo
  {
    var n := |pooled|;
    if k < 0 {
    } else if lo == n {
      assert Range(lo, n) == [] && pooled[lo..] == [];
      assert Pick(pooled, []) == [];
    } else {
      SplitsByIndex(pooled, lo + 1, k - 1);
      SplitsByIndex(pooled, lo + 1, k);
      SplitsUnfold(pooled, lo, k);
      hide Splits, AllStand, WithLeft, WithRight, Range;
      JoinStands(pooled, lo, Splits(Range(lo + 1, n), k - 1), Splits(pooled[lo + 1..], k - 1),
                 Splits(Range(lo + 1, n), k), Splits(pooled[lo + 1..], k));
    }
  }

  lemma JoinStands<T>(pooled: seq<T>, lo: nat, i0: seq<(seq<nat>, seq<nat>)>, v0: seq<(seq<T>, seq<T>)>,
                      i1: seq<(seq<nat>, seq<nat>)>, v1: seq<(seq<T>, seq<T>)>)
    requires lo < |pooled| && AllStand(pooled, lo + 1, i0, v0) && AllStand(pooled, lo + 1, i1, v1)
    ensures AllStand(pooled, lo, WithLeft(lo, i0) + WithRight(lo, i1),
                     WithLeft(pooled[lo], v0) + WithRight(pooled[lo], v1))
  {
    hide Stands;
    forall t | 0 <= t < |i0|
      ensures Stands(pooled, lo, WithLeft(lo, i0)[t], WithLeft(pooled[lo], v0)[t])
    {
      StandsLeft(pooled, lo, i0[t], v0[t]);
    }
    forall t | 0 <= t < |i1|
      ensures Stands(pooled, lo, WithRight(lo, i1)[t], WithRight(pooled[lo], v1)[t])
    {
      StandsRight(pooled, lo, i1[t], v1[t]);
    }
  }

  lemma StandsLeft<T>(pooled: seq<T>, lo: nat, s: (seq<nat>, seq<nat>), v: (seq<T>, seq<T>))
    requires lo < |pooled| && Stands(pooled, lo + 1, s, v)
    ensures Stands(pooled, lo, ([lo] + s.0, s.1), ([pooled[lo]] + v.0, v.1))
  {
    var n := |pooled|;
    assert Range(lo, n)[1..] == Range(lo + 1, n);
    WithoutSmaller(Range(lo + 1, n), lo, s.0);
    assert Pick(pooled, [lo] + s.0) == [pooled[lo]] + Pick(pooled, s.0);
  }

  lemma StandsRight<T>(pooled: seq<T>, lo: nat, s: (seq<nat>, seq<nat>), v: (seq<T>, seq<T>))
    requires lo < |pooled| && Stands(pooled, lo + 1, s, v)
    ensures Stands(pooled, lo, (s.0, [lo] + s.1), (v.0, [pooled[lo]] + v.1))
  {
    assert Range(lo, |pooled|)[1..] == Range(lo + 1, |pooled|);
    assert Pick(pooled, [lo] + s.1) == [pooled[lo]] + Pick(pooled, s.1);
  }

  lemma {:induction false} WithoutSmaller(ix: seq<nat>, lo: nat, l: seq<nat>)
    requires AtLeast(ix, lo + 1)
    ensures Without(ix, [lo] + l) == Without(ix, l)
  {
    if ix != [] { WithoutSmaller(ix[1..], lo, l); }
  }

  type Matrix = seq<seq<real>>

  function Distances<T>(dist: (T, T) -> real, pooled: seq<T>): (d: Matrix)
    ensures |d| == |pooled| && forall i :: 0 <= i < |d| ==> |d[i]| == |pooled|
  {
    seq(|pooled|, i requires 0 <= i < |pooled| =>
      seq(|pooled|, j requires 0 <= j < |pooled| => dist(pooled[i], pooled[j])))
  }

  function Entry(d: Matrix): (nat, nat) -> real {
    (i: nat, j: nat) => if i < |d| && j < |d[i]| then d[i][j] else 0.0
  }

  lemma RowsByIndex<T>(dist: (T, T) -> real, pooled: seq<T>, x: nat, ix: seq<nat>)
    requires x < |pooled| && Below(ix, |pooled|)
    ensures RowDists(Entry(Distances(dist, pooled)), x, ix) == RowDists(dist, pooled[x], Pick(pooled, ix))
  {
  }

  lemma {:induction false} PairsByIndex<T>(dist: (T, T) -> real, pooled: seq<T>, ix: seq<nat>)
    requires Below(ix, |pooled|)
    ensures PairDists(Entry(Distances(dist, pooled)), ix) == PairDists(dist, Pick(pooled, ix))
  {
    if ix != [] {
      RowsByIndex(dist, pooled, ix[0], ix[1..]);
      PairsByIndex(dist, pooled, ix[1..]);
      assert Pick(pooled, ix)[1..] == Pick(pooled, ix[1..]);
    }
  }

  lemma {:induction false} CrossByIndex<T>(dist: (T, T) -> real, pooled: seq<T>, a: seq<nat>, b: seq<nat>)
    requires Below(a, |pooled|) && Below(b, |pooled|)
    ensures CrossDists(Entry(Distances(dist, pooled)), a, b)
         == CrossDists(dist, Pick(pooled, a), Pick(pooled, b))
  {
    if a != [] {
      RowsByIndex(dist, pooled, a[0], b);
      CrossByIndex(dist, pooled, a[1..], b);
      assert Pick(pooled, a)[1..] == Pick(pooled, a[1..]);
    }
  }

  predicate AllZero(d: Matrix) {
    forall i, j :: 0 <= i < |d| && 0 <= j < |d[i]| ==> d[i][j] == 0.0
  }

  // The table, with its shortcut for a pool at distance zero, over positions as the code has it.
  method SplitStats<T>(dist: (T, T) -> real, a: seq<T>, b: seq<T>) returns (out: seq<real>)
    ensures out == if AllZero(Distances(dist, a + b)) then [0.0] else Table(dist, a, b)
  {
    var pooled := a + b;
    var n := |pooled|;
    var d := Distances(dist, pooled);
    if AllZero(d) {
      return [0.0];
    }
    var choices := Splits(Range(0, n), |a|);
    ChoicesFillTable(dist, a, b);
    hide Splits, ItemStat, Distances, Entry, Without, AllZero, Table, Range;
    out := [];
    for t := 0 to |choices|
      invariant |out| == t && |choices| == |Table(dist, a, b)|
      invariant forall u :: 0 <= u < t ==> out[u] == Table(dist, a, b)[u]
    {
      var left := choices[t].0;
      var right := Without(Range(0, n), left);
      ChoiceStat(dist, a, b, t);
      var stat := ItemStat(Entry(d), left, right);
      out := out + [stat];
    }
  }

  lemma ChoicesAreSplits<T>(a: seq<T>, b: seq<T>)
    ensures AllStand(a + b, 0, Splits(Range(0, |a + b|), |a|), Splits(a + b, |a|))
  {
    assert (a + b)[0..] == a + b;
    SplitsByIndex(a + b, 0, |a|);
  }

  lemma ChoicesFillTable<T>(dist: (T, T) -> real, a: seq<T>, b: seq<T>)
    ensures |Splits(Range(0, |a + b|), |a|)| == |Table(dist, a, b)|
  {
    ChoicesAreSplits(a, b);
    hide Splits, Stands, Range;
  }

  // What the loop computes from index lists is the entry of the table of splits.
  lemma ChoiceStat<T>(dist: (T, T) -> real, a: seq<T>, b: seq<T>, t: nat)
    requires t < |Splits(Range(0, |a + b|), |a|)|
    ensures var left := Splits(Range(0, |a + b|), |a|)[t].0;
      var right := Without(Range(0, |a + b|), left);
      && t < |Table(dist, a, b)| && Below(left, |a + b|) && Below(right, |a + b|)
      && ItemStat(Entry(Distances(dist, a + b)), left, right) == Table(dist, a, b)[t]
  {
    ChoicesAreSplits(a, b);
    hide Splits, ItemStat, Distances, Entry, Pick, Without;
    var left := Splits(Range(0, |a + b|), |a|)[t].0;
    IndexStat(dist, a + b, left, Without(Range(0, |a + b|), left));
  }

  lemma IndexStat<T>(dist: (T, T) -> real, pooled: seq<T>, left: seq<nat>, right: seq<nat>)
    requires Below(left, |pooled|) && Below(right, |pooled|)
    ensures ItemStat(Entry(Distances(dist, pooled)), left, right)
         == ItemStat(dist, Pick(pooled, left), Pick(pooled, right))
  {
    PairsByIndex(dist, pooled, left);
    PairsByIndex(dist, pooled, right);
    CrossByIndex(dist, pooled, left, right);
  }

  // ---------------------------------------------------------------- the shortcut

  lemma {:induction false} ZeroDists<T>(dist: (T, T) -> real, a: seq<T>, b: seq<T>)
    requires forall x <- a + b, y <- a + b :: dist(x, y) == 0.0
    ensures forall v <- PairDists(dist, a) :: v == 0.0
    ensures forall v <- CrossDists(dist, a, b) :: v == 0.0
  {
    if a != [] {
      forall x <- a[1..] + b
        ensures x in a + b
      {
      }
      ZeroDists(dist, a[1..], b);
      assert a[0] in a + b;
    }
  }

  lemma MeanOfZeros(xs: seq<real>)
    requires forall x <- xs :: x == 0.0
    ensures MeanOrZero(xs) == 0.0
  {
    forall i | 0 <= i < |xs|
      ensures xs[i] == 0.0
    {
      assert xs[i] in xs;
    }
    SumConstant(xs, 0.0);
  }

  // Both sides of s draw on xs only.
  predicate FromPool<T(==)>(xs: seq<T>, s: (seq<T>, seq<T>)) {
    (forall x <- s.0 :: x in xs) && (forall x <- s.1 :: x in xs)
  }

  lemma {:induction false} SplitsStayInPool<T>(xs: seq<T>, k: int)
    ensures forall s <- Splits(xs, k) :: FromPool(xs, s)
  {
    if k >= 0 && xs != [] {
      SplitsStayInPool(xs[1..], k - 1);
      SplitsStayInPool(xs[1..], k);
      var l, r := Splits(xs[1..], k - 1), Splits(xs[1..], k);
      forall s <- Splits(xs, k)
        ensures FromPool(xs, s)
      {
        if s in WithLeft(xs[0], l) {
          var i :| 0 <= i < |l| && s == ([xs[0]] + l[i].0, l[i].1);
          assert l[i] in l;
          PoolGrows(xs, l[i]);
        } else {
          var i :| 0 <= i < |r| && s == (r[i].0, [xs[0]] + r[i].1);
          assert r[i] in r;
          PoolGrows(xs, r[i]);
        }
      }
    }
  }

  lemma PoolGrows<T>(xs: seq<T>, s: (seq<T>, seq<T>))
    requires xs != [] && FromPool(xs[1..], s)
    ensures FromPool(xs, ([xs[0]] + s.0, s.1)) && FromPool(xs, (s.0, [xs[0]] + s.1))
  {
  }

  // On a pool at distance zero the full enumeration holds nothing but the shortcut's entry, so
  // an entry drawn from either is the same number.
  lemma ShortcutAgrees<T>(dist: (T, T) -> real, a: seq<T>, b: seq<T>)
    requires AllZero(Distances(dist, a + b))
    ensures forall v <- Table(dist, a, b) :: v == 0.0
  {
    var xs := a + b;
    forall x <- xs, y <- xs
      ensures dist(x, y) == 0.0
    {
      var i :| 0 <= i < |xs| && xs[i] == x;
      var j :| 0 <= j < |xs| && xs[j] == y;
      assert Distances(dist, xs)[i][j] == 0.0;
    }
    SplitsStayInPool(xs, |a|);
    forall s <- Splits(xs, |a|)
      ensures ItemStat(dist, s.0, s.1) == 0.0
    {
      ZeroDists(dist, s.0, s.1);
      ZeroDists(dist, s.1, s.0);
      MeanOfZeros(PairDists(dist, s.0));
      MeanOfZeros(PairDists(dist, s.1));
      MeanOfZeros(CrossDists(dist, s.0, s.1));
    }
  }

  // ---------------------------------------------------------------- the p-value

  // All ways of drawing one entry from each table, as the totals they give.
  function JointTotals(tables: seq<seq<real>>): seq<real> {
    if tables == [] then [0.0] else Spread(tables[0], JointTotals(tables[1..]))
  }

  function Spread(t: seq<real>, rest: seq<real>): seq<real> {
    if t == [] then [] else Shifted(t[0], rest) + Spread(t[1..], rest)
  }

  function Shifted(x: real, xs: seq<real>): seq<real> {
    seq(|xs|, i requires 0 <= i < |xs| => x + xs[i])
  }

  lemma {:induction false} SumFirst(t: seq<real>)
    requires t != []
    ensures Sum(t) == t[0] + Sum(t[1..])
  {
    assert t == [t[0]] + t[1..];
    SumAppend([t[0]], t[1..]);
    assert [t[0]][..0] == [];
  }

  lemma {:induction false} SpreadTotal(t: seq<real>, rest: seq<real>)
    requires Sum(rest) == 0.0
    ensures Sum(Spread(t, rest)) == Times(|rest| as real, Sum(t))
  {
    var n := |rest| as real;
    if t != [] {
      SpreadTotal(t[1..], rest);
      SumFirst(t);
      TimesAdds(n, t[0], Sum(t[1..]));
      hide Sum, Shifted, Times;
      SumAppend(Shifted(t[0], rest), Spread(t[1..], rest));
      ShiftTotal(t[0], rest);
    }
  }

  lemma TimesAdds(a: real, x: real, y: real)
    ensures Times(a, x + y) == Times(a, x) + Times(a, y)
  {
    Distribute(a, x, y);
  }

  lemma ShiftTotal(x: real, rest: seq<real>)
    requires Sum(rest) == 0.0
    ensures Sum(Shifted(x, rest)) == Times(|rest| as real, x)
  {
    hide Sum;
    var consts := seq(|rest|, i requires 0 <= i < |rest| => x);
    SumConstant(consts, x);
    SumPlus(consts, rest, Shifted(x, rest));
  }

  // The null distribution the p-value is read from, relabelling every item independently, is
  // centred on zero.
  lemma {:induction false} NullIsCentred(tables: seq<seq<real>>)
    requires forall t <- tables :: Sum(t) == 0.0
    ensures Sum(JointTotals(tables)) == 0.0
  {
    if tables == [] {
      assert [0.0][..0] == [];
    } else {
      NullIsCentred(tables[1..]);
      assert tables[0] in tables;
      SpreadTotal(tables[0], JointTotals(tables[1..]));
    }
  }

  datatype Item<T> = Item(a: seq<T>, b: seq<T>)

  type Row = t: seq<real> | t != [] witness [0.0]

  function TableFor<T>(dist: (T, T) -> real, item: Item<T>): Row {
    TableStartsWithObserved(dist, item.a, item.b);
    if AllZero(Distances(dist, item.a + item.b)) then [0.0] else Table(dist, item.a, item.b)
  }

  function Tables<T>(dist: (T, T) -> real, items: seq<Item<T>>): seq<Row> {
    seq(|items|, i requires 0 <= i < |items| => TableFor(dist, items[i]))
  }

  // The tables the code draws from give a null distribution centred on zero.
  lemma PermutationNullIsCentred<T(!new)>(dist: (T, T) -> real, items: seq<Item<T>>)
    requires Symmetric(dist)
    requires forall i :: 0 <= i < |items| ==> |items[i].a| >= 2 && |items[i].b| >= 2
    ensures Sum(JointTotals(Tables(dist, items))) == 0.0
  {
    forall t <- Tables(dist, items)
      ensures Sum(t) == 0.0
    {
      var i :| 0 <= i < |items| && t == TableFor(dist, items[i]);
      hide Table;
      TableSumsToZero(dist, items[i].a, items[i].b);
      assert [0.0][..0] == [];
    }
    NullIsCentred(Tables(dist, items));
  }

  // The generator's answers, as (round, item, size of the table); any number stands for a place.
  type Draw = (nat, nat, nat) -> nat

  function Drawn(t: Row, draw: Draw, round: nat, item: nat): real {
    if |t| == 1 then t[0] else t[draw(round, item, |t|) % |t|]
  }

  function RoundTotal(ts: seq<Row>, draw: Draw, round: nat): real {
    if ts == [] then 0.0
    else RoundTotal(ts[..|ts| - 1], draw, round) + Drawn(ts[|ts| - 1], draw, round, |ts| - 1)
  }

  const TOLERANCE := 0.000000000001

  // The statistics of the labels as observed.
  function Stats<T>(dist: (T, T) -> real, items: seq<Item<T>>): seq<real> {
    seq(|items|, i requires 0 <= i < |items| => ItemStat(dist, items[i].a, items[i].b))
  }

  function Observed<T>(dist: (T, T) -> real, items: seq<Item<T>>): real { MeanOrZero(Stats(dist, items)) }

  predicate IsHit(ts: seq<Row>, observed: real, draw: Draw, round: nat)
    requires ts != []
  {
    RoundTotal(ts, draw, round) / |ts| as real >= observed - TOLERANCE
  }

  function Hits(ts: seq<Row>, observed: real, draw: Draw, rounds: nat): (h: nat)
    requires ts != []
    ensures h <= rounds
  {
    if rounds == 0 then 0
    else Hits(ts, observed, draw, rounds - 1) + (if IsHit(ts, observed, draw, rounds - 1) then 1 else 0)
  }

  predicate Degenerate(ts: seq<Row>) {
    forall i :: 0 <= i < |ts| ==> |ts[i]| == 1
  }

  function HitShare(h: nat, rounds: nat): (p: real)
    requires h <= rounds
    ensures 1.0 / (1 + rounds) as real <= p <= 1.0
    ensures p == 1.0 <==> h == rounds
  {
    (1 + h) as real / (1 + rounds) as real
  }

  function PValue<T>(dist: (T, T) -> real, items: seq<Item<T>>, draw: Draw, rounds: nat): real {
    var ts := Tables(dist, items);
    if Degenerate(ts) then 1.0 else HitShare(Hits(ts, Observed(dist, items), draw, rounds), rounds)
  }

  method PermutationP<T>(dist: (T, T) -> real, items: seq<Item<T>>, draw: Draw, rounds: nat) returns (p: real)
    ensures p == PValue(dist, items, draw, rounds)
    ensures items == [] ==> p == 1.0
    ensures forall ixs: seq<seq<nat>> :: items != [] && DrawsGive(Tables(dist, items), draw, rounds, ixs) ==>
              p == ShareReaching(Tables(dist, items), Stats(dist, items), ixs)
  {
    CountedPValue(dist, items, draw, rounds);
    hide Degenerate, Observed, Hits, HitShare, DrawsGive, ShareReaching, Stats;
    var tables := BuildTables(dist, items);
    if Degenerate(tables) {
      return 1.0;
    }
    var observed := Observed(dist, items);
    SomeTable(tables);
    var hits := CountHits(tables, observed, draw, rounds);
    p := ShareOfHits(hits, rounds);
  }

  lemma SomeTable(tables: seq<Row>)
    ensures !Degenerate(tables) ==> tables != []
  {
  }

  method BuildTables<T>(dist: (T, T) -> real, items: seq<Item<T>>) returns (tables: seq<Row>)
    ensures tables == Tables(dist, items)
  {
    hide TableFor, Table, AllZero, Distances;
    tables := [];
    for i := 0 to |items|
      invariant tables == Tables(dist, items)[..i]
    {
      var t := SplitStats(dist, items[i].a, items[i].b);
      ItsTable(dist, items[i]);
      tables := tables + [t];
    }
  }

  // The rounds whose drawn total reaches the observed mean.
  method CountHits(tables: seq<Row>, observed: real, draw: Draw, rounds: nat) returns (hits: nat)
    requires tables != []
    ensures hits == Hits(tables, observed, draw, rounds)
  {
    hide IsHit;
    hits := 0;
    for round := 0 to rounds
      invariant hits == Hits(tables, observed, draw, round)
    {
      var total := DrawRound(tables, draw, round);
      ItsHit(tables, observed, draw, round);
      if total / |tables| as real >= observed - TOLERANCE {
        hits := hits + 1;
      }
    }
  }

  lemma ItsTable<T>(dist: (T, T) -> real, item: Item<T>)
    ensures TableFor(dist, item)
         == if AllZero(Distances(dist, item.a + item.b)) then [0.0] else Table(dist, item.a, item.b)
  {
  }

  lemma ItsHit(ts: seq<Row>, observed: real, draw: Draw, round: nat)
    requires ts != []
    ensures IsHit(ts, observed, draw, round)
       <==> RoundTotal(ts, draw, round) / |ts| as real >= observed - TOLERANCE
  {
  }

  method ShareOfHits(hits: nat, rounds: nat) returns (p: real)
    requires hits <= rounds
    ensures p == HitShare(hits, rounds)
  {
    p := (1 + hits) as real / (1 + rounds) as real;
  }

  // One round: an entry from every table, a one-entry table answering without a draw.
  method DrawRound(tables: seq<Row>, draw: Draw, round: nat) returns (total: real)
    ensures total == RoundTotal(tables, draw, round)
  {
    total := 0.0;
    for i := 0 to |tables|
      invariant total == RoundTotal(tables[..i], draw, round)
    {
      assert tables[..i + 1][..i] == tables[..i];
      var t := tables[i];
      total := total + (if |t| == 1 then t[0] else t[draw(round, i, |t|) % |t|]);
    }
    assert tables[..|tables|] == tables;
  }

  // The p-value is never zero and never above one; it is one exactly when no round fell short.
  lemma PValueRange<T>(dist: (T, T) -> real, items: seq<Item<T>>, draw: Draw, rounds: nat)
    ensures var ts := Tables(dist, items);
      && 1.0 / (1 + rounds) as real <= PValue(dist, items, draw, rounds) <= 1.0
      && (PValue(dist, items, draw, rounds) == 1.0
          <==> Degenerate(ts) || forall round :: 0 <= round < rounds ==> IsHit(ts, Observed(dist, items), draw, round))
  {
    hide IsHit, Observed, Tables;
    var ts := Tables(dist, items);
    SomeTable(ts);
    OneIsLargest(rounds);
    if !Degenerate(ts) { AllOrSome(ts, Observed(dist, items), draw, rounds); }
    hide Degenerate;
  }

  lemma OneIsLargest(rounds: nat)
    ensures 1.0 / (1 + rounds) as real <= 1.0
  {
  }

  lemma {:induction false} AllOrSome(ts: seq<Row>, observed: real, draw: Draw, rounds: nat)
    requires ts != []
    ensures Hits(ts, observed, draw, rounds) == rounds
       <==> forall round :: 0 <= round < rounds ==> IsHit(ts, observed, draw, round)
  {
    hide IsHit;
    if rounds > 0 { AllOrSome(ts, observed, draw, rounds - 1); }
  }

  // Against the same draws, a larger observed difference never has a larger p-value.
  lemma {:induction false} HitsFall(ts: seq<Row>, low: real, high: real, draw: Draw, rounds: nat)
    requires ts != [] && low <= high
    ensures Hits(ts, high, draw, rounds) <= Hits(ts, low, draw, rounds)
    ensures HitShare(Hits(ts, high, draw, rounds), rounds) <= HitShare(Hits(ts, low, draw, rounds), rounds)
  {
    if rounds > 0 {
      HitsFall(ts, low, high, draw, rounds - 1);
      hide RoundTotal;
    }
    SharesOrder(Hits(ts, high, draw, rounds), Hits(ts, low, draw, rounds), rounds);
  }

  lemma SharesOrder(h: nat, k: nat, rounds: nat)
    requires h <= rounds && k <= rounds
    ensures h <= k ==> HitShare(h, rounds) <= HitShare(k, rounds)
  {
    if h < k { LargerQuotient((1 + h) as real, (1 + k) as real, (1 + rounds) as real); }
  }

  lemma LargerQuotient(x: real, y: real, n: real)
    requires x < y && n > 0.0
    ensures x / n <= y / n
  {
    Quotients(x, n);
    Quotients(y, n);
    MonotoneProduct(1.0 / n, x, y);
  }

  // ---------------------------------------------------------------- the p-value as a rank

  // How many of the values reach a bound.
  function Reaching(values: seq<real>, bound: real): nat {
    if values == [] then 0
    else Reaching(values[..|values| - 1], bound) + (if values[|values| - 1] >= bound then 1 else 0)
  }

  // A value's p-value among all of them, itself included.
  function RankShare(values: seq<real>, i: nat): real
    requires i < |values|
  {
    Reaching(values, values[i] - TOLERANCE) as real / |values| as real
  }

  function RoundMeans(ts: seq<Row>, draw: Draw, rounds: nat): seq<real>
    requires ts != []
  {
    seq(rounds, r requires 0 <= r < rounds => RoundTotal(ts, draw, r) / |ts| as real)
  }

  lemma {:induction false} HitsAreReaching(ts: seq<Row>, observed: real, draw: Draw, rounds: nat)
    requires ts != []
    ensures Reaching([observed] + RoundMeans(ts, draw, rounds), observed - TOLERANCE)
         == 1 + Hits(ts, observed, draw, rounds)
  {
    hide RoundTotal;
    var values := [observed] + RoundMeans(ts, draw, rounds);
    if rounds == 0 {
      assert values == [observed] && values[..0] == [];
    } else {
      HitsAreReaching(ts, observed, draw, rounds - 1);
      assert values[..|values| - 1] == [observed] + RoundMeans(ts, draw, rounds - 1);
    }
  }

  // The p-value is the observed mean's rank among itself and the drawn ones.
  lemma PValueIsRank(ts: seq<Row>, observed: real, draw: Draw, rounds: nat)
    requires ts != []
    ensures HitShare(Hits(ts, observed, draw, rounds), rounds)
         == RankShare([observed] + RoundMeans(ts, draw, rounds), 0)
  {
    HitsAreReaching(ts, observed, draw, rounds);
    hide Reaching, Hits;
  }

  lemma {:induction false} ReachingIsSize(values: seq<real>, bound: real)
    ensures Reaching(values, bound) == |set j: nat | j < |values| && values[j] >= bound|
  {
    if values != [] {
      var n := |values| - 1;
      ReachingIsSize(values[..n], bound);
      var before := set j: nat | j < n && values[..n][j] >= bound;
      var after := set j: nat | j < |values| && values[j] >= bound;
      assert after == if values[n] >= bound then before + {n} else before;
    }
  }

  ghost function LowRanked(values: seq<real>, k: nat): set<nat> {
    set i: nat | i < |values| && Reaching(values, values[i] - TOLERANCE) <= k
  }

  // Whatever the values, at most k of them rank within the first k: so among the observed mean and
  // the drawn ones, at most k could have had a p-value of k/(1 + rounds) or less.
  lemma FewRankLow(values: seq<real>, k: nat)
    requires values != []
    ensures |LowRanked(values, k)| <= k
    ensures forall i: nat :: i < |values| ==>
              (RankShare(values, i) <= k as real / |values| as real <==> i in LowRanked(values, k))
  {
    var low := LowRanked(values, k);
    forall i: nat | i < |values|
      ensures RankShare(values, i) <= k as real / |values| as real <==> i in low
    {
      SharesCompare(Reaching(values, values[i] - TOLERANCE), k, |values|);
    }
    if low != {} {
      var least := LeastOf(values, low);
      ReachingIsSize(values, values[least] - TOLERANCE);
      SubsetSize(low, set j: nat | j < |values| && values[j] >= values[least] - TOLERANCE);
    }
  }

  lemma SharesCompare(h: nat, k: nat, n: nat)
    requires n > 0
    ensures h as real / n as real <= k as real / n as real <==> h <= k
  {
    if h < k { LargerQuotient(h as real, k as real, n as real); }
    if k < h {
      DivideBack(h as real, n as real);
      DivideBack(k as real, n as real);
    }
  }

  lemma {:induction false} LeastOf(values: seq<real>, s: set<nat>) returns (i: nat)
    requires s != {} && forall j <- s :: j < |values|
    ensures i in s && forall j <- s :: values[i] <= values[j]
    decreases |s|
  {
    var x :| x in s;
    var rest := s - {x};
    if rest == {} {
      i := x;
      assert s == {x};
    } else {
      var y := LeastOf(values, rest);
      i := if values[y] <= values[x] then y else x;
    }
  }

  // A generator that always keeps the observed labels makes every round a hit, so the p-value
  // is one: the observed arrangement is itself among those it is ranked against.
  lemma ObservedAlwaysHits<T>(dist: (T, T) -> real, items: seq<Item<T>>, draw: Draw, rounds: nat)
    requires forall round, item, size: nat :: draw(round, item, size) == 0
    ensures PValue(dist, items, draw, rounds) == 1.0
  {
    if items != [] {
      AllHits(dist, items, draw, rounds);
    }
  }

  lemma {:induction false} AllHits<T>(dist: (T, T) -> real, items: seq<Item<T>>, draw: Draw, rounds: nat)
    requires items != []
    requires forall round, item, size: nat :: draw(round, item, size) == 0
    ensures Hits(Tables(dist, items), Observed(dist, items), draw, rounds) == rounds
  {
    hide TableFor, RoundTotal, ItemStat;
    if rounds > 0 {
      AllHits(dist, items, draw, rounds - 1);
      var stats := seq(|items|, i requires 0 <= i < |items| => ItemStat(dist, items[i].a, items[i].b));
      ObservedRound(dist, items, stats, draw, rounds - 1);
    }
  }

  lemma {:induction false} ObservedRound<T>(dist: (T, T) -> real, items: seq<Item<T>>, stats: seq<real>,
                                            draw: Draw, round: nat)
    requires |stats| == |items|
    requires forall i :: 0 <= i < |items| ==> stats[i] == ItemStat(dist, items[i].a, items[i].b)
    requires forall round, item, size: nat :: draw(round, item, size) == 0
    ensures RoundTotal(Tables(dist, items), draw, round) == Sum(stats)
  {
    hide TableFor, ItemStat, Drawn;
    if items != [] {
      var n := |items| - 1;
      ObservedRound(dist, items[..n], stats[..n], draw, round);
      assert Tables(dist, items)[..n] == Tables(dist, items[..n]);
      FirstEntry(dist, items[n]);
      KeepsFirst(TableFor(dist, items[n]), draw, round, n);
    }
  }

  lemma KeepsFirst(t: Row, draw: Draw, round: nat, item: nat)
    requires forall round, item, size: nat :: draw(round, item, size) == 0
    ensures Drawn(t, draw, round, item) == t[0]
  {
  }

  lemma FirstEntry<T>(dist: (T, T) -> real, item: Item<T>)
    ensures TableFor(dist, item)[0] == ItemStat(dist, item.a, item.b)
  {
    TableStartsWithObserved(dist, item.a, item.b);
    if AllZero(Distances(dist, item.a + item.b)) {
      ShortcutAgrees(dist, item.a, item.b);
      assert Table(dist, item.a, item.b)[0] in Table(dist, item.a, item.b);
    }
  }

  // ---------------------------------------------------------------- which entries a round adds up

  // One place in every table.
  ghost predicate Picks(ts: seq<Row>, ix: seq<nat>) {
    |ix| == |ts| && forall i :: 0 <= i < |ts| ==> ix[i] < |ts[i]|
  }

  ghost function Picked(ts: seq<Row>, ix: seq<nat>): seq<real>
    requires Picks(ts, ix)
  {
    seq(|ts|, i requires 0 <= i < |ts| => ts[i][ix[i]])
  }

  // Asked for a place in each table of two entries or more, the generator gives those of ix.
  ghost predicate Gives(draw: Draw, round: nat, ts: seq<Row>, ix: seq<nat>)
    requires Picks(ts, ix)
  {
    forall i :: 0 <= i < |ts| && |ts[i]| >= 2 ==> draw(round, i, |ts[i]|) == ix[i]
  }

  // A round adds up exactly the entries at the places the generator gives, and needs none for a
  // table of one entry.
  lemma {:induction false} RoundAddsPicked(ts: seq<Row>, draw: Draw, round: nat, ix: seq<nat>)
    requires Picks(ts, ix) && Gives(draw, round, ts, ix)
    ensures RoundTotal(ts, draw, round) == Sum(Picked(ts, ix))
  {
    if ts != [] {
      var n := |ts| - 1;
      forall i | 0 <= i < n && |ts[..n][i]| >= 2
        ensures draw(round, i, |ts[..n][i]|) == ix[..n][i]
      {
        assert ts[..n][i] == ts[i];
      }
      RoundAddsPicked(ts[..n], draw, round, ix[..n]);
      assert Picked(ts, ix)[..n] == Picked(ts[..n], ix[..n]);
      DrawsPicked(ts[n], draw, round, n, ix[n]);
      hide Drawn;
    }
  }

  lemma DrawsPicked(t: Row, draw: Draw, round: nat, item: nat, place: nat)
    requires place < |t| && (|t| >= 2 ==> draw(round, item, |t|) == place)
    ensures Drawn(t, draw, round, item) == t[place]
  {
  }

  lemma {:induction false} SpreadAt(t: seq<real>, rest: seq<real>, i: nat, j: nat)
    requires i < |t| && j < |rest|
    ensures |Spread(t, rest)| == |t| * |rest| && 0 <= i * |rest| + j < |t| * |rest|
    ensures Spread(t, rest)[i * |rest| + j] == t[i] + rest[j]
  {
    SpreadSize(t, rest);
    PlaceInRange(i, j, |t|, |rest|);
    var head := Shifted(t[0], rest);
    if i > 0 {
      SpreadAt(t[1..], rest, i - 1, j);
      OneRowUp(i, |rest|);
      assert Spread(t, rest)[i * |rest| + j] == Spread(t[1..], rest)[(i - 1) * |rest| + j];
    } else {
      NoRows(|rest|);
      assert Spread(t, rest)[j] == head[j];
    }
  }

  lemma {:induction false} SpreadSize(t: seq<real>, rest: seq<real>)
    ensures |Spread(t, rest)| == |t| * |rest|
  {
    if t != [] {
      SpreadSize(t[1..], rest);
      OneRowUp(|t|, |rest|);
    } else {
      NoRows(|rest|);
    }
  }

  lemma OneRowUp(i: nat, m: nat)
    requires i > 0
    ensures i * m == m + (i - 1) * m
  {
  }

  lemma NoRows(m: nat)
    ensures 0 * m == 0
  {
  }

  lemma PlaceInRange(i: nat, j: nat, n: nat, m: nat)
    requires i < n && j < m
    ensures 0 <= i * m + j < n * m
  {
    assert n * m == i * m + (n - i) * m;
    assert (n - i) * m == m + (n - i - 1) * m;
  }

  // Where the total of the entries at ix stands among the joint ones.
  ghost function Place(ts: seq<Row>, ix: seq<nat>): nat
    requires Picks(ts, ix)
    decreases |ts|
  {
    if ts == [] then 0 else ix[0] * |JointTotals(ts[1..])| + Place(ts[1..], ix[1..])
  }

  lemma {:induction false} PlaceTotals(ts: seq<Row>, ix: seq<nat>)
    requires Picks(ts, ix)
    ensures Place(ts, ix) < |JointTotals(ts)| && JointTotals(ts)[Place(ts, ix)] == Sum(Picked(ts, ix))
    decreases |ts|
  {
    if ts != [] {
      PlaceTotals(ts[1..], ix[1..]);
      assert Picked(ts, ix)[1..] == Picked(ts[1..], ix[1..]);
      SumFirst(Picked(ts, ix));
      hide Sum, Spread, Picked;
      SpreadAt(ts[0], JointTotals(ts[1..]), ix[0], Place(ts[1..], ix[1..]));
    }
  }

  lemma {:induction false} PlacesDiffer(ts: seq<Row>, ix: seq<nat>, iy: seq<nat>)
    requires Picks(ts, ix) && Picks(ts, iy) && Place(ts, ix) == Place(ts, iy)
    ensures ix == iy
    decreases |ts|
  {
    if ts != [] {
      PlaceTotals(ts[1..], ix[1..]);
      PlaceTotals(ts[1..], iy[1..]);
      hide JointTotals;
      SameDigits(ix[0], Place(ts[1..], ix[1..]), iy[0], Place(ts[1..], iy[1..]), |JointTotals(ts[1..])|);
      PlacesDiffer(ts[1..], ix[1..], iy[1..]);
      assert ix == [ix[0]] + ix[1..] && iy == [iy[0]] + iy[1..];
    }
  }

  lemma SameDigits(i: nat, j: nat, k: nat, l: nat, m: nat)
    requires j < m && l < m && i * m + j == k * m + l
    ensures i == k && j == l
  {
    if i < k { RowsApart(i, k, m); }
    if k < i { RowsApart(k, i, m); }
  }

  lemma RowsApart(i: nat, k: nat, m: nat)
    requires i < k
    ensures i * m + m <= k * m
  {
    assert k * m == i * m + (k - i) * m;
    assert (k - i) * m == m + (k - i - 1) * m;
  }

  lemma {:induction false} PlacesFill(ts: seq<Row>, k: nat) returns (ix: seq<nat>)
    requires k < |JointTotals(ts)|
    ensures Picks(ts, ix) && Place(ts, ix) == k
    decreases |ts|
  {
    if ts == [] {
      ix := [];
    } else {
      var m := |JointTotals(ts[1..])|;
      SpreadSize(ts[0], JointTotals(ts[1..]));
      assert k < |ts[0]| * m;
      hide JointTotals, Place, Picks;
      var i, j := Digits(k, |ts[0]|, m);
      var rest := PlacesFill(ts[1..], j);
      ix := [i] + rest;
      FirstPlace(ts, i, rest);
    }
  }

  lemma FirstPlace(ts: seq<Row>, i: nat, rest: seq<nat>)
    requires ts != [] && i < |ts[0]| && Picks(ts[1..], rest)
    ensures Picks(ts, [i] + rest)
    ensures Place(ts, [i] + rest) == i * |JointTotals(ts[1..])| + Place(ts[1..], rest)
  {
    assert ([i] + rest)[1..] == rest;
    hide JointTotals;
  }

  lemma Digits(k: nat, n: nat, m: nat) returns (i: nat, j: nat)
    requires k < n * m
    ensures i < n && j < m && i * m + j == k
  {
    if m == 0 { NoRows(n); }
    i, j := k / m, k % m;
    assert k / m * m == n * m + (k / m - n) * m;
  }

  ghost predicate IsPlace(ts: seq<Row>, k: nat) { exists ix: seq<nat> :: Picks(ts, ix) && Place(ts, ix) == k }

  // What a round can add up is what the joint distribution lists: each choice of one place per table
  // has a place of its own there, holding the total of exactly those entries, and every place is some
  // choice's. So a fair generator draws the rounds' totals evenly from that list, whose mean is zero.
  lemma RoundsDrawFromNull(ts: seq<Row>)
    ensures forall ix: seq<nat> :: Picks(ts, ix) ==>
              Place(ts, ix) < |JointTotals(ts)| && JointTotals(ts)[Place(ts, ix)] == Sum(Picked(ts, ix))
    ensures forall ix: seq<nat>, iy: seq<nat> :: Picks(ts, ix) && Picks(ts, iy) && Place(ts, ix) == Place(ts, iy) ==>
              ix == iy
    ensures forall k: nat :: k < |JointTotals(ts)| ==> IsPlace(ts, k)
  {
    hide JointTotals, Place, Picked, Sum;
    forall ix: seq<nat> | Picks(ts, ix)
      ensures Place(ts, ix) < |JointTotals(ts)| && JointTotals(ts)[Place(ts, ix)] == Sum(Picked(ts, ix))
    {
      PlaceTotals(ts, ix);
    }
    forall ix: seq<nat>, iy: seq<nat> | Picks(ts, ix) && Picks(ts, iy) && Place(ts, ix) == Place(ts, iy)
      ensures ix == iy
    {
      PlacesDiffer(ts, ix, iy);
    }
    forall k: nat | k < |JointTotals(ts)|
      ensures IsPlace(ts, k)
    {
      var ix := PlacesFill(ts, k);
    }
  }

  // ---------------------------------------------------------------- the p-value, counted

  // The mean of the entries at ix reaches the mean of the observed statistics, but for rounding.
  ghost predicate Reaches(ts: seq<Row>, stats: seq<real>, ix: seq<nat>)
    requires Picks(ts, ix) && ts != []
  {
    Sum(Picked(ts, ix)) / |ts| as real >= Sum(stats) / |ts| as real - 0.000000000001
  }

  // What the generator gives in each round.
  ghost predicate DrawsGive(ts: seq<Row>, draw: Draw, rounds: nat, ixs: seq<seq<nat>>) {
    |ixs| == rounds && forall r :: 0 <= r < rounds ==> Picks(ts, ixs[r]) && Gives(draw, r, ts, ixs[r])
  }

  // Among the rounds and the observation itself, the share of those whose mean reaches the observed one.
  ghost function ShareReaching(ts: seq<Row>, stats: seq<real>, ixs: seq<seq<nat>>): real {
    var hits := set r: nat | r < |ixs| && ts != [] && Picks(ts, ixs[r]) && Reaches(ts, stats, ixs[r]);
    (1 + |hits|) as real / (1 + |ixs|) as real
  }

  // The whole permutation test: the p-value is that share, where a round's mean is the one of the entries
  // at the places drawn in it. Without items it is one.
  lemma PermutationPIs<T>(dist: (T, T) -> real, items: seq<Item<T>>, draw: Draw, rounds: nat, ixs: seq<seq<nat>>)
    requires DrawsGive(Tables(dist, items), draw, rounds, ixs)
    ensures items == [] ==> PValue(dist, items, draw, rounds) == 1.0
    ensures items != [] ==>
              PValue(dist, items, draw, rounds) == ShareReaching(Tables(dist, items), Stats(dist, items), ixs)
  {
    if items == [] {
      NoItems(dist, draw, rounds);
    } else {
      hide Tables, Hits, Observed, Stats, Reaches, Picks, Gives, PValue;
      var ts, stats := Tables(dist, items), Stats(dist, items);
      CountPicked(ts, stats, draw, rounds, ixs);
      ObservedIsMean(dist, items);
      PValueIsShare(dist, items, draw, rounds);
      assert (set r: nat | r < |ixs| && ts != [] && Picks(ts, ixs[r]) && Reaches(ts, stats, ixs[r]))
          == (set r: nat | r < rounds && Reaches(ts, stats, ixs[r]));
    }
  }

  lemma CountedPValue<T>(dist: (T, T) -> real, items: seq<Item<T>>, draw: Draw, rounds: nat)
    ensures items == [] ==> PValue(dist, items, draw, rounds) == 1.0
    ensures forall ixs: seq<seq<nat>> :: items != [] && DrawsGive(Tables(dist, items), draw, rounds, ixs) ==>
              PValue(dist, items, draw, rounds) == ShareReaching(Tables(dist, items), Stats(dist, items), ixs)
  {
    NoItems(dist, draw, rounds);
    hide PValue, Tables, Stats, DrawsGive, ShareReaching;
    forall ixs: seq<seq<nat>> | items != [] && DrawsGive(Tables(dist, items), draw, rounds, ixs)
      ensures PValue(dist, items, draw, rounds) == ShareReaching(Tables(dist, items), Stats(dist, items), ixs)
    {
      PermutationPIs(dist, items, draw, rounds, ixs);
    }
  }

  lemma NoItems<T>(dist: (T, T) -> real, draw: Draw, rounds: nat)
    ensures PValue(dist, [], draw, rounds) == 1.0
  {
  }

  // The answer for tables of one entry each is what counting would give too.
  lemma PValueIsShare<T>(dist: (T, T) -> real, items: seq<Item<T>>, draw: Draw, rounds: nat)
    requires items != []
    ensures Tables(dist, items) != [] && Hits(Tables(dist, items), Observed(dist, items), draw, rounds) <= rounds
    ensures PValue(dist, items, draw, rounds)
         == (1 + Hits(Tables(dist, items), Observed(dist, items), draw, rounds)) as real / (1 + rounds) as real
  {
    hide TableFor, Observed;
    var ts := Tables(dist, items);
    assert |ts| == |items|;
    if Degenerate(ts) { OnlyHits(dist, items, ts, draw, rounds); }
    hide Tables, Degenerate, Hits;
  }

  lemma ObservedIsMean<T>(dist: (T, T) -> real, items: seq<Item<T>>)
    requires items != []
    ensures |Tables(dist, items)| == |items| && Observed(dist, items) == Sum(Stats(dist, items)) / |items| as real
  {
    hide ItemStat, TableFor;
  }

  lemma {:induction false} CountPicked(ts: seq<Row>, stats: seq<real>, draw: Draw, rounds: nat, ixs: seq<seq<nat>>)
    requires ts != [] && |ixs| == rounds
    requires forall r :: 0 <= r < rounds ==> Picks(ts, ixs[r]) && Gives(draw, r, ts, ixs[r])
    ensures Hits(ts, Sum(stats) / |ts| as real, draw, rounds) == |set r: nat | r < rounds && Reaches(ts, stats, ixs[r])|
  {
    hide RoundTotal, Picks, Gives, Sum, Picked;
    if rounds > 0 {
      var n := rounds - 1;
      forall r | 0 <= r < n
        ensures ixs[..n][r] == ixs[r]
      {
      }
      CountPicked(ts, stats, draw, n, ixs[..n]);
      RoundAddsPicked(ts, draw, n, ixs[n]);
      var before := set r: nat | r < n && Reaches(ts, stats, ixs[..n][r]);
      var after := set r: nat | r < rounds && Reaches(ts, stats, ixs[r]);
      assert after == if Reaches(ts, stats, ixs[n]) then before + {n} else before;
    }
  }

  // Tables of one entry each hold the observed statistics, so every round reaches them.
  lemma {:induction false} OnlyHits<T>(dist: (T, T) -> real, items: seq<Item<T>>, ts: seq<Row>, draw: Draw, rounds: nat)
    requires items != [] && ts == Tables(dist, items) && Degenerate(ts)
    ensures Hits(ts, Observed(dist, items), draw, rounds) == rounds
  {
    var first: Draw := (round, item, size) => 0;
    AllHits(dist, items, first, rounds);
    SameHits(ts, Observed(dist, items), draw, first, rounds);
    hide Hits, Observed, Degenerate;
  }

  lemma {:induction false} SameHits(ts: seq<Row>, observed: real, draw: Draw, other: Draw, rounds: nat)
    requires ts != [] && Degenerate(ts)
    ensures Hits(ts, observed, draw, rounds) == Hits(ts, observed, other, rounds)
  {
    if rounds > 0 {
      SameHits(ts, observed, draw, other, rounds - 1);
      SameTotal(ts, draw, other, rounds - 1);
      hide RoundTotal, Degenerate;
    }
  }

  lemma {:induction false} SameTotal(ts: seq<Row>, draw: Draw, other: Draw, round: nat)
    requires Degenerate(ts)
    ensures RoundTotal(ts, draw, round) == RoundTotal(ts, other, round)
  {
    if ts != [] { SameTotal(ts[..|ts| - 1], draw, other, round); }
  }
}
