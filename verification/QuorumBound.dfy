// scripts/experiment_quorum_bound.py: the binomial tail behind the quorum schedule, and the band
// of quorums it allows.
module QuorumBound {
  import opened Common
  import opened Combinatorics

  const HARD_FLOOR := 2

  function Pow(x: real, n: int): real {
    if n <= 0 then 1.0 else x * Pow(x, n - 1)
  }

  // P(Binom(m, p) == i).
  function Term(m: nat, i: int, p: real): real {
    Choose(m, i) as real * Pow(p, i) * Pow(1.0 - p, m - i)
  }

  // The terms from q to m.
  function Tail(m: nat, q: int, p: real): real
    decreases m + 1 - q
  {
    if q > m then 0.0 else Term(m, q, p) + Tail(m, q + 1, p)
  }

  predicate Probability(p: real) { 0.0 <= p <= 1.0 }

  lemma {:induction false} PowInUnit(x: real, n: int)
    requires Probability(x)
    ensures Probability(Pow(x, n))
  {
    if n > 0 {
      PowInUnit(x, n - 1);
      UnitProduct(x, Pow(x, n - 1));
    }
  }

  lemma UnitProduct(x: real, y: real)
    requires Probability(x) && Probability(y)
    ensures Probability(x * y)
  {
    if x == 0.0 {
      assert x * y == 0.0;
    } else if y == 0.0 {
      assert x * y == 0.0;
    } else {
      StrictProduct(x, 0.0, y);
      if y < 1.0 { StrictProduct(x, y, 1.0); }
    }
  }

  lemma TermNonNegative(m: nat, i: int, p: real)
    requires Probability(p)
    ensures Term(m, i, p) >= 0.0
  {
    PowInUnit(p, i);
    PowInUnit(1.0 - p, m - i);
    hide Pow, Choose;
    var c := Choose(m, i) as real;
    MonotoneProduct(c, 0.0, Pow(p, i));
    MonotoneProduct(c * Pow(p, i), 0.0, Pow(1.0 - p, m - i));
  }

  function Mix(p: real, x: real, y: real): real { Times(p, x) + Times(1.0 - p, y) }

  lemma MixAdds(p: real, x: real, y: real, x': real, y': real)
    ensures Mix(p, x, y) + Mix(p, x', y') == Mix(p, x + x', y + y')
  {
  }

  lemma MixSame(p: real, x: real)
    ensures Mix(p, x, x) == x
  {
  }

  lemma MixRises(p: real, r: real, a: real, b: real, a': real, b': real)
    requires 0.0 <= p <= r <= 1.0 && b <= a <= a' && b <= b'
    ensures b <= Mix(p, a, b) <= Mix(r, a', b')
  {
    hide Mix;
    MixIsOffset(p, a, b);
    MixIsOffset(r, a, b);
    MonotoneProduct(a - b, 0.0, p);
    MonotoneProduct(a - b, p, r);
    MixInValues(r, a, b, a', b');
  }

  lemma MixIsOffset(p: real, a: real, b: real)
    ensures Mix(p, a, b) == b + (a - b) * p
  {
  }

  lemma MixInValues(r: real, a: real, b: real, a': real, b': real)
    requires 0.0 <= r <= 1.0 && a <= a' && b <= b'
    ensures Mix(r, a, b) <= Mix(r, a', b')
  {
    hide Times;
    TimesMonotone(r, a, a');
    TimesMonotone(1.0 - r, b, b');
  }

  // One more trial: it succeeds, or it does not.
  lemma TermRecurrence(m: nat, i: int, p: real)
    ensures Term(m + 1, i, p) == Mix(p, Term(m, i - 1, p), Term(m, i, p))
  {
    hide Choose, Pow, Mix;
    Pascal(m + 1, i);
    if 0 < i { PowStep(p, i); } else { OutsideRow(m, i - 1); }
    if i <= m { PowStep(1.0 - p, m + 1 - i); } else { OutsideRow(m, i); }
    var a, b := Choose(m, i - 1) as real, Choose(m, i) as real;
    var s, f, s', f' := Pow(p, i - 1), Pow(1.0 - p, m - i), Pow(p, i), Pow(1.0 - p, m + 1 - i);
    assert Term(m, i - 1, p) == a * s * f' by { assert m - (i - 1) == m + 1 - i; }
    assert Term(m, i, p) == b * s' * f;
    calc {
      Term(m + 1, i, p);
      (a + b) * s' * f';
      { OneMoreTrial(a, b, p, s, f, s', f'); }
      Mix(p, a * s * f', b * s' * f);
      Mix(p, Term(m, i - 1, p), Term(m, i, p));
    }
  }

  lemma PowStep(x: real, n: int)
    requires n > 0
    ensures Pow(x, n) == x * Pow(x, n - 1)
  {
  }

  lemma OutsideRow(m: nat, i: int)
    requires i < 0 || i > m
    ensures Choose(m, i) == 0
  {
  }

  lemma OneMoreTrial(a: real, b: real, p: real, s: real, f: real, s': real, f': real)
    requires a == 0.0 || s' == p * s
    requires b == 0.0 || f' == (1.0 - p) * f
    ensures (a + b) * s' * f' == Mix(p, a * s * f', b * s' * f)
  {
    calc {
      a * s' * f';
      { if a != 0.0 { Rearrange(a, p, s, f'); } }
      p * (a * s * f');
    }
    calc {
      b * s' * f';
      { if b != 0.0 { Rearrange(b * s', 1.0 - p, f, 1.0); } }
      (1.0 - p) * (b * s' * f);
    }
    calc {
      (a + b) * s' * f';
      a * s' * f' + b * s' * f';
    }
  }

  lemma Rearrange(a: real, p: real, s: real, f: real)
    ensures a * (p * s) * f == p * (a * s * f)
  {
  }

  lemma {:induction false} TailRecurrence(m: nat, q: int, p: real)
    ensures Tail(m + 1, q, p) == Mix(p, Tail(m, q - 1, p), Tail(m, q, p))
    decreases m + 1 - q
  {
    hide Term, Mix;
    if q > m + 1 {
      MixSame(p, 0.0);
    } else {
      TailRecurrence(m, q + 1, p);
      TermRecurrence(m, q, p);
      if q > m { TermAbove(m, q, p); }
      MixAdds(p, Term(m, q - 1, p), Term(m, q, p), Tail(m, q, p), Tail(m, q + 1, p));
    }
  }

  lemma TermAbove(m: nat, q: int, p: real)
    requires q > m || q < 0
    ensures Term(m, q, p) == 0.0
  {
  }

  // The distribution is one: a tail from zero or below is everything.
  lemma {:induction false} WholeTail(m: nat, q: int, p: real)
    requires q <= 0
    ensures Tail(m, q, p) == 1.0
    decreases m, -q
  {
    if m > 0 {
      TailRecurrence(m - 1, q, p);
      WholeTail(m - 1, q - 1, p);
      WholeTail(m - 1, q, p);
      MixSame(p, 1.0);
    } else if q < 0 {
      WholeTail(m, q + 1, p);
      assert Term(m, q, p) == 0.0;
    }
  }

  lemma {:induction false} TailFalls(m: nat, q: int, r: int, p: real)
    requires Probability(p) && q <= r
    ensures 0.0 <= Tail(m, r, p) <= Tail(m, q, p) <= 1.0
    decreases m + 1 - q
  {
    if q > m {
    } else if q < r {
      TermNonNegative(m, q, p);
      TailFalls(m, q + 1, r, p);
      AtMostOne(m, q, p);
    } else {
      TermNonNegative(m, q, p);
      TailFalls(m, q + 1, q + 1, p);
      AtMostOne(m, q, p);
    }
  }

  lemma {:induction false} AtMostOne(m: nat, q: int, p: real)
    requires Probability(p)
    ensures Tail(m, q, p) <= 1.0
    decreases if q > 0 then q else 0
  {
    if q <= 0 {
      WholeTail(m, q, p);
    } else if q <= m + 1 {
      AtMostOne(m, q - 1, p);
      TermNonNegative(m, q - 1, p);
    }
  }

  lemma TailRisesWithPopulation(m: nat, q: int, p: real)
    requires Probability(p)
    ensures Tail(m, q, p) <= Tail(m + 1, q, p)
  {
    hide Tail, Mix;
    TailRecurrence(m, q, p);
    TailFalls(m, q - 1, q, p);
    MixRises(p, p, Tail(m, q - 1, p), Tail(m, q, p), Tail(m, q - 1, p), Tail(m, q, p));
  }

  lemma {:induction false} TailRisesWithProbability(m: nat, q: int, p: real, r: real)
    requires Probability(p) && Probability(r) && p <= r
    ensures Tail(m, q, p) <= Tail(m, q, r)
  {
    hide Mix;
    if q <= 0 {
      WholeTail(m, q, p);
      WholeTail(m, q, r);
    } else if m > 0 {
      TailRecurrence(m - 1, q, p);
      TailRecurrence(m - 1, q, r);
      TailRisesWithProbability(m - 1, q - 1, p, r);
      TailRisesWithProbability(m - 1, q, p, r);
      TailFalls(m - 1, q - 1, q, p);
      MixRises(p, r, Tail(m - 1, q - 1, p), Tail(m - 1, q, p), Tail(m - 1, q - 1, r), Tail(m - 1, q, r));
    }
  }

  // ---------------------------------------------------------------- the script's functions

  method BinomSfGe(m: nat, q: int, prob: real) returns (total: real)
    ensures total == Tail(m, q, prob)
  {
    if q <= 0 {
      WholeTail(m, q, prob);
      return 1.0;
    }
    if q > m {
      return 0.0;
    }
    total := 0.0;
    for i := q to m + 1
      invariant total + Tail(m, i, prob) == Tail(m, q, prob)
    {
      total := total + Choose(m, i) as real * Pow(prob, i) * Pow(1.0 - prob, m - i);
    }
  }

  // The first quorum whose false-alarm rate is within beta; everything above it is too.
  method QMinFp(m: nat, p: real, beta: real) returns (r: Option<nat>)
    requires Probability(p)
    ensures r.Some? ==> 2 <= r.value <= m
    ensures forall q :: 2 <= q <= m ==> (Tail(m, q, p) <= beta <==> r.Some? && r.value <= q)
  {
    hide Tail;
    var q := HARD_FLOOR;
    while q <= m
      invariant HARD_FLOOR <= q
      invariant forall j :: HARD_FLOOR <= j < q ==> Tail(m, j, p) > beta
    {
      var fp := BinomSfGe(m, q, p);
      if fp <= beta {
        forall j | q <= j <= m
          ensures Tail(m, j, p) <= beta
        {
          TailFalls(m, q, j, p);
        }
        return Some(q);
      }
      q := q + 1;
    }
    return None;
  }

  // The last quorum with enough power; everything below it has enough too.
  method QMaxPower(m: nat, d: real, gamma: real) returns (best: nat)
    requires Probability(d)
    ensures best <= m
    ensures forall q :: 1 <= q <= m ==> (Tail(m, q, d) >= 1.0 - gamma <==> q <= best)
  {
    hide Tail;
    best := 0;
    for q := 1 to m + 1
      invariant best < q
      invariant forall j :: 1 <= j < q ==> (Tail(m, j, d) >= 1.0 - gamma <==> j <= best)
    {
      var power := BinomSfGe(m, q, d);
      if power >= 1.0 - gamma {
        forall j | 1 <= j <= q
          ensures Tail(m, j, d) >= 1.0 - gamma
        {
          TailFalls(m, j, q, d);
        }
        best := q;
      }
    }
  }

  // The quorums that keep false alarms within beta and power at 1 - gamma are exactly the
  // interval between the two searches' answers, and there is one when the answers are in order.
  method FeasibleBand(m: nat, p: real, d: real, beta: real, gamma: real)
    returns (low: Option<nat>, high: nat)
    requires Probability(p) && Probability(d)
    ensures forall q :: 2 <= q <= m ==>
              (Tail(m, q, p) <= beta && Tail(m, q, d) >= 1.0 - gamma
               <==> low.Some? && low.value <= q <= high)
    ensures (exists q :: 2 <= q <= m && Tail(m, q, p) <= beta && Tail(m, q, d) >= 1.0 - gamma)
       <==> low.Some? && low.value <= high && 2 <= high
  {
    hide Tail;
    low := QMinFp(m, p, beta);
    high := QMaxPower(m, d, gamma);
    if low.Some? && low.value <= high {
      assert HARD_FLOOR <= low.value <= m && Tail(m, low.value, p) <= beta;
    }
  }
}
