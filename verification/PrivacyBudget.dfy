// probe/privacy.py: the epsilon budget with its tumbling 24-hour window, and flush pacing.
module PrivacyBudget {
  import opened Common

  const WINDOW := 86400.0

  // ---------------------------------------------------------------- the accountant

  datatype Budget = Budget(daily: real, spend: real, start: real)

  datatype Spending = Granted | Exceeded | BadEpsilon

  function AfterReset(b: Budget, now: real): Budget {
    if now - b.start >= WINDOW then b.(spend := 0.0, start := now) else b
  }

  function Spend(b: Budget, eps: real): (Budget, Spending) {
    if eps <= 0.0 then (b, BadEpsilon)
    else if b.spend + eps > b.daily then (b, Exceeded)
    else (b.(spend := b.spend + eps), Granted)
  }

  // What the file at storage_path holds: each field as far as it can be read.
  datatype Saved = Saved(spend: Option<real>, start: Option<real>)

  // The spend is taken over before the date is read, so a bad date keeps it, in a window from now.
  function Loaded(daily: real, file: Option<Saved>, now: real): Budget {
    if file.None? || file.value.spend.None? then Budget(daily, 0.0, now)
    else Budget(daily, file.value.spend.value, if file.value.start.Some? then file.value.start.value else now)
  }

  class DPAccountant {
    const daily: real
    const persistent: bool
    var currentSpend: real
    var windowStart: real
    var file: Option<Saved>

    static predicate ValidBudget(daily: real) { daily > 0.0 }

    // file is what is found on disk, None when unreadable.
    constructor (daily: real, persistent: bool, file: Option<Saved>, now: real)
      requires ValidBudget(daily)
      ensures this.daily == daily && this.persistent == persistent && this.file == file
      ensures Value() == if persistent then Loaded(daily, file, now) else Budget(daily, 0.0, now)
    {
      this.daily, this.persistent, this.file := daily, persistent, file;
      currentSpend, windowStart := 0.0, now;
      if persistent && file.Some? && file.value.spend.Some? {
        currentSpend := file.value.spend.value;
        if file.value.start.Some? {
          windowStart := file.value.start.value;
        }
      }
    }

    function Value(): Budget
      reads this
    {
      Budget(daily, currentSpend, windowStart)
    }

    // The file says what the object says, so a restart resumes where it left off.
    predicate IsSaved()
      reads this
    {
      persistent ==> file == Some(Saved(Some(currentSpend), Some(windowStart)))
    }

    // written: whether the disk took it; failures are swallowed.
    method Persist(written: bool)
      modifies this`file
      ensures written ==> IsSaved()
      ensures !written || !persistent ==> file == old(file)
    {
      if persistent && written {
        file := Some(Saved(Some(currentSpend), Some(windowStart)));
      }
    }

    method SpendEpsilon(eps: real, written: bool) returns (r: Spending)
      modifies this
      ensures (Value(), r) == Spend(old(Value()), eps)
      ensures written && old(IsSaved()) ==> IsSaved()
    {
      if eps <= 0.0 { return BadEpsilon; }
      if currentSpend + eps > daily { return Exceeded; }
      currentSpend := currentSpend + eps;
      Persist(written);
      r := Granted;
    }

    method ResetIfNeeded(now: real, written: bool) returns (reset: bool)
      modifies this
      ensures Value() == AfterReset(old(Value()), now)
      ensures reset <==> now - old(windowStart) >= WINDOW
      ensures written && old(IsSaved()) ==> IsSaved()
    {
      if now - windowStart >= WINDOW {
        currentSpend, windowStart := 0.0, now;
        Persist(written);
        return true;
      }
      return false;
    }
  }

  // A saved budget survives a restart exactly; one whose date has gone bad keeps its spend and starts
  // its window anew, so what was spent counts against the next 24 hours. Without a readable spend the
  // budget is whole.
  lemma LoadedExactly(b: Budget, now: real)
    ensures Loaded(b.daily, Some(Saved(Some(b.spend), Some(b.start))), now) == b
    ensures forall start :: Loaded(b.daily, Some(Saved(None, start)), now) == Budget(b.daily, 0.0, now)
    ensures Loaded(b.daily, None, now) == Budget(b.daily, 0.0, now)
    ensures var c := Loaded(b.daily, Some(Saved(Some(b.spend), None)), now);
      (Within(b) ==> Within(c)) && forall at: real, eps: real :: at - now < WINDOW ==>
        Tried(c, Attempt(at, eps)).1 == Spend(b, eps).1
  {
  }

  // null stands for the ValueError of a budget that is not positive.
  method NewAccountant(daily: real, persistent: bool, file: Option<Saved>, now: real) returns (a: DPAccountant?)
    ensures a == null <==> daily <= 0.0
    ensures a != null ==>
              && fresh(a) && a.persistent == persistent && a.file == file
              && a.Value() == if persistent then Loaded(daily, file, now) else Budget(daily, 0.0, now)
  {
    if daily <= 0.0 {
      return null;
    }
    a := new DPAccountant(daily, persistent, file, now);
  }

  // ---------------------------------------------------------------- runs of attempts

  // One flush that reaches the budget gate: reset if due, then spend.
  datatype Attempt = Attempt(at: real, eps: real)

  function Tried(b: Budget, a: Attempt): (Budget, Spending) {
    Spend(AfterReset(b, a.at), a.eps)
  }

  function Cost(b: Budget, a: Attempt): real {
    if Tried(b, a).1.Granted? then a.eps else 0.0
  }

  function After(b: Budget, xs: seq<Attempt>): Budget
    decreases |xs|
  {
    if xs == [] then b else After(Tried(b, xs[0]).0, xs[1..])
  }

  // The epsilon granted over a run.
  function Total(b: Budget, xs: seq<Attempt>): real
    decreases |xs|
  {
    if xs == [] then 0.0 else Cost(b, xs[0]) + Total(Tried(b, xs[0]).0, xs[1..])
  }

  predicate Within(b: Budget) { 0.0 <= b.spend <= b.daily }

  // The clock does not run backwards.
  predicate Monotone(b: Budget, xs: seq<Attempt>) {
    && (forall i :: 0 <= i < |xs| ==> b.start <= xs[i].at)
    && (forall i, j :: 0 <= i <= j < |xs| ==> xs[i].at <= xs[j].at)
  }

  lemma TriedStep(b: Budget, xs: seq<Attempt>)
    requires Within(b) && Monotone(b, xs) && xs != []
    ensures var b' := Tried(b, xs[0]).0;
            && Within(b') && b'.daily == b.daily && Monotone(b', xs[1..])
            && (if xs[0].at - b.start >= WINDOW then b'.start == xs[0].at && b'.spend == Cost(b, xs[0])
                else b'.start == b.start && b'.spend == b.spend + Cost(b, xs[0]))
            && Cost(b, xs[0]) >= 0.0
  {
    var b' := Tried(b, xs[0]).0;
    forall i | 0 <= i < |xs[1..]|
      ensures b'.start <= xs[1..][i].at
    {
      assert xs[1..][i] == xs[i + 1];
    }
  }

  // At every moment the window's spend is within the budget.
  lemma {:induction false} SpendNeverExceeds(b: Budget, xs: seq<Attempt>)
    requires Within(b) && Monotone(b, xs)
    ensures Within(After(b, xs)) && After(b, xs).daily == b.daily
    decreases |xs|
  {
    if xs != [] {
      TriedStep(b, xs);
      SpendNeverExceeds(Tried(b, xs[0]).0, xs[1..]);
    }
  }

  lemma {:induction false} OneWindow(b: Budget, xs: seq<Attempt>)
    requires Within(b) && Monotone(b, xs)
    requires forall i :: 0 <= i < |xs| ==> xs[i].at < b.start + WINDOW
    ensures Total(b, xs) <= b.daily - b.spend
    decreases |xs|
  {
    if xs != [] {
      TriedStep(b, xs);
      OneWindow(Tried(b, xs[0]).0, xs[1..]);
    }
  }

  lemma {:induction false} TwoWindows(b: Budget, xs: seq<Attempt>)
    requires Within(b) && Monotone(b, xs)
    requires forall i :: 0 <= i < |xs| ==> xs[i].at < b.start + 2.0 * WINDOW
    ensures Total(b, xs) <= (b.daily - b.spend) + b.daily
    decreases |xs|
  {
    if xs != [] {
      TriedStep(b, xs);
      var b' := Tried(b, xs[0]).0;
      if xs[0].at - b.start >= WINDOW {
        OneWindow(b', xs[1..]);
      } else {
        TwoWindows(b', xs[1..]);
      }
    }
  }

  // Any interval of 24 hours, wherever it falls, spends at most twice the daily budget.
  lemma AnyDaySpendsAtMostTwice(b: Budget, xs: seq<Attempt>)
    requires Within(b) && Monotone(b, xs)
    requires xs != [] ==> xs[|xs| - 1].at - xs[0].at <= WINDOW
    ensures Total(b, xs) <= 2.0 * b.daily
  {
    if xs != [] {
      TriedStep(b, xs);
      if xs[0].at - b.start >= WINDOW {
        TwoWindows(Tried(b, xs[0]).0, xs[1..]);
      } else {
        TwoWindows(b, xs);
      }
    }
  }

  lemma {:induction false} AfterAppend(b: Budget, xs: seq<Attempt>, ys: seq<Attempt>)
    ensures After(b, xs + ys) == After(After(b, xs), ys)
    ensures Total(b, xs + ys) == Total(b, xs) + Total(After(b, xs), ys)
    decreases |xs|
  {
    if xs == [] {
      assert xs + ys == ys;
    } else {
      assert (xs + ys)[1..] == xs[1..] + ys;
      AfterAppend(Tried(b, xs[0]).0, xs[1..], ys);
    }
  }

  lemma {:induction false} StartsBeforeRest(b: Budget, xs: seq<Attempt>, ys: seq<Attempt>)
    requires Within(b) && Monotone(b, xs + ys)
    ensures Within(After(b, xs)) && After(b, xs).daily == b.daily && Monotone(After(b, xs), ys)
    decreases |xs|
  {
    if xs == [] {
      assert xs + ys == ys;
    } else {
      assert (xs + ys)[1..] == xs[1..] + ys && (xs + ys)[0] == xs[0];
      TriedStep(b, xs + ys);
      StartsBeforeRest(Tried(b, xs[0]).0, xs[1..], ys);
    }
  }

  // The same for a stretch in the middle of any run: after past, whatever ys does within 24 hours.
  lemma AnyDayOfAnyRun(b: Budget, past: seq<Attempt>, ys: seq<Attempt>)
    requires Within(b) && Monotone(b, past + ys)
    requires ys != [] ==> ys[|ys| - 1].at - ys[0].at <= WINDOW
    ensures Total(b, past + ys) - Total(b, past) <= 2.0 * b.daily
  {
    AfterAppend(b, past, ys);
    StartsBeforeRest(b, past, ys);
    AnyDaySpendsAtMostTwice(After(b, past), ys);
  }

  // ---------------------------------------------------------------- pacing

  // None stands for the ValueError of a non-positive argument.
  function RecommendedInterval(daily: real, eps: real, window: real): Option<real> {
    if daily <= 0.0 || eps <= 0.0 then None
    else Some(window / MaxFlushes(daily, eps) as real)
  }

  function MaxFlushes(daily: real, eps: real): (n: int)
    requires eps > 0.0
    ensures n >= 1
  {
    Max(1, (daily / eps).Floor)
  }

  // Flushes of one epsilon each, at least one interval apart.
  predicate Spaced(xs: seq<Attempt>, eps: real, gap: real) {
    && (forall i :: 0 <= i < |xs| ==> xs[i].eps == eps)
    && (forall i :: 0 <= i < |xs| - 1 ==> xs[i].at + gap <= xs[i + 1].at)
  }

  function Product(n: nat, x: real): real { n as real * x }

  lemma ProductStep(n: nat, x: real)
    ensures Product(n + 1, x) == Product(n, x) + x && Product(0, x) == 0.0
  {
  }

  // i flushes fit the window's time only if they fit its budget.
  lemma FitsTimeFitsBudget(i: nat, daily: real, eps: real)
    requires 0.0 < eps <= daily
    requires Product(i, WINDOW / MaxFlushes(daily, eps) as real) < WINDOW
    ensures Product(i + 1, eps) <= daily
  {
    var n := MaxFlushes(daily, eps);
    var gap := WINDOW / n as real;
    DivideBack(WINDOW, n as real);
    if i >= n {
      MonotoneProduct(gap, n as real, i as real);
    }
    assert i + 1 <= n;
    FullBudget(daily, eps);
    MonotoneProduct(eps, (i + 1) as real, n as real);
  }

  lemma FullBudget(daily: real, eps: real)
    requires 0.0 < eps <= daily
    ensures MaxFlushes(daily, eps) as real * eps <= daily
  {
    var q := daily / eps;
    DivideBack(daily, eps);
    if q < 1.0 {
      StrictProduct(eps, q, 1.0);
    }
    MonotoneProduct(eps, MaxFlushes(daily, eps) as real, q);
  }

  // i flushes have been granted in this window, and the next one cannot come before i gaps of it
  // have passed.
  ghost predicate OnPace(b: Budget, i: nat, eps: real, gap: real, next: real) {
    b.spend == Product(i, eps) && b.start + Product(i, gap) <= next
  }

  lemma {:induction false} PacedNeverRefused(b: Budget, xs: seq<Attempt>, eps: real, i: nat)
    requires 0.0 < eps <= b.daily && Within(b) && Monotone(b, xs)
    requires Spaced(xs, eps, WINDOW / MaxFlushes(b.daily, eps) as real)
    requires xs != [] ==> OnPace(b, i, eps, WINDOW / MaxFlushes(b.daily, eps) as real, xs[0].at)
    ensures Total(b, xs) == Product(|xs|, eps)
    decreases |xs|
  {
    if xs == [] {
      ProductStep(0, eps);
    } else {
      var j := PaceStep(b, xs, eps, i);
      TriedStep(b, xs);
      assert forall j :: 0 <= j < |xs| - 1 ==> xs[1..][j] == xs[j + 1];
      hide Product, MaxFlushes, OnPace;
      PacedNeverRefused(Tried(b, xs[0]).0, xs[1..], eps, j);
      ProductStep(|xs| - 1, eps);
    }
  }

  // A flush that comes on pace is granted, and leaves the next one on pace.
  lemma PaceStep(b: Budget, xs: seq<Attempt>, eps: real, i: nat) returns (j: nat)
    requires 0.0 < eps <= b.daily && Within(b) && Monotone(b, xs) && xs != []
    requires Spaced(xs, eps, WINDOW / MaxFlushes(b.daily, eps) as real)
    requires OnPace(b, i, eps, WINDOW / MaxFlushes(b.daily, eps) as real, xs[0].at)
    ensures Cost(b, xs[0]) == eps
    ensures |xs| > 1 ==>
              OnPace(Tried(b, xs[0]).0, j, eps, WINDOW / MaxFlushes(b.daily, eps) as real, xs[1].at)
  {
    var gap := WINDOW / MaxFlushes(b.daily, eps) as real;
    ProductStep(0, eps);
    ProductStep(0, gap);
    ProductStep(i, eps);
    ProductStep(i, gap);
    if xs[0].at - b.start >= WINDOW {
      j := 1;
    } else {
      FitsTimeFitsBudget(i, b.daily, eps);
      j := i + 1;
    }
    hide Product, MaxFlushes;
    assert |xs| > 1 ==> xs[0].at + gap <= xs[1].at;
  }

  lemma {:induction false} TooSmallNeverGrants(b: Budget, xs: seq<Attempt>, eps: real)
    requires 0.0 < b.daily < eps && Within(b) && Monotone(b, xs)
    requires forall i :: 0 <= i < |xs| ==> xs[i].eps == eps
    ensures Total(b, xs) == 0.0
    decreases |xs|
  {
    if xs != [] {
      TriedStep(b, xs);
      TooSmallNeverGrants(Tried(b, xs[0]).0, xs[1..], eps);
    }
  }

  // Flushes at the recommended interval are never refused, however long the probe runs, exactly
  // when the budget covers a single one.
  lemma PacingExact(daily: real, eps: real, now: real, xs: seq<Attempt>)
    requires daily > 0.0 && eps > 0.0 && xs != []
    requires Monotone(Budget(daily, 0.0, now), xs)
    requires Spaced(xs, eps, RecommendedInterval(daily, eps, WINDOW).value)
    ensures Total(Budget(daily, 0.0, now), xs) == Product(|xs|, eps) <==> daily >= eps
  {
    var b := Budget(daily, 0.0, now);
    if daily >= eps {
      ProductStep(0, eps);
      ProductStep(0, WINDOW / MaxFlushes(daily, eps) as real);
      PacedNeverRefused(b, xs, eps, 0);
    } else {
      TooSmallNeverGrants(b, xs, eps);
      StrictProduct(eps, 0.0, |xs| as real);
    }
  }

  // Flushes of one epsilon each, exactly one gap apart.
  function Even(n: nat, start: real, gap: real, eps: real): seq<Attempt> {
    seq(n, i requires 0 <= i < n => Attempt(start + Product(i, gap), eps))
  }

  // The recommended interval cuts the 24 hours into as many parts as the budget covers flushes; so
  // one more flush than that is more than the budget covers.
  lemma IntervalIsShare(daily: real, eps: real) returns (n: nat)
    requires 0.0 < eps <= daily
    ensures n >= 1 && Product(n, RecommendedInterval(daily, eps, 86400.0).value) == 86400.0
    ensures Product(n, eps) <= daily < Product(n + 1, eps)
  {
    n := MaxFlushes(daily, eps);
    FullBudget(daily, eps);
    DivideBack(86400.0, n as real);
    MoreThanBudget(daily, eps);
    assert Product(n, 86400.0 / n as real) == 86400.0 && Product(n, eps) <= daily;
    hide MaxFlushes, Product;
  }

  lemma MoreThanBudget(daily: real, eps: real)
    requires 0.0 < eps <= daily
    ensures daily < Product(MaxFlushes(daily, eps) + 1, eps)
  {
    var q, n := daily / eps, MaxFlushes(daily, eps);
    DivideBack(daily, eps);
    assert q < (n + 1) as real;
    StrictProduct(eps, q, (n + 1) as real);
  }

  // No shorter interval would do: flushes any closer together are not all granted.
  lemma ShorterIsRefused(daily: real, eps: real, gap: real, now: real) returns (n: nat)
    requires 0.0 < eps <= daily && 0.0 <= gap < RecommendedInterval(daily, eps, 86400.0).value
    ensures var xs := Even(n, now, gap, eps);
      && Spaced(xs, eps, gap) && Monotone(Budget(daily, 0.0, now), xs)
      && Total(Budget(daily, 0.0, now), xs) < Product(n, eps)
  {
    var m := IntervalIsShare(daily, eps);
    var best := RecommendedInterval(daily, eps, 86400.0).value;
    n := m + 1;
    EvenIsSpaced(n, now, gap, eps);
    FasterFits(m, gap, best);
    var xs := Even(n, now, gap, eps);
    forall i | 0 <= i < n
      ensures xs[i].at < now + WINDOW
    {
      MonotoneProduct(gap, i as real, m as real);
    }
    hide Product, Total, RecommendedInterval, Even;
    OneWindow(Budget(daily, 0.0, now), xs);
  }

  lemma FasterFits(n: nat, gap: real, best: real)
    requires n >= 1 && gap < best
    ensures Product(n, gap) < Product(n, best)
  {
    StrictProduct(n as real, gap, best);
  }

  lemma EvenIsSpaced(n: nat, start: real, gap: real, eps: real)
    requires gap >= 0.0
    ensures Spaced(Even(n, start, gap, eps), eps, gap)
    ensures forall daily: real :: Monotone(Budget(daily, 0.0, start), Even(n, start, gap, eps))
  {
    var xs := Even(n, start, gap, eps);
    forall i, j | 0 <= i <= j < n
      ensures start <= xs[i].at <= xs[j].at
    {
      MonotoneProduct(gap, i as real, j as real);
      MonotoneProduct(gap, 0.0, i as real);
    }
    forall i | 0 <= i < n - 1
      ensures xs[i].at + gap <= xs[i + 1].at
    {
      ProductStep(i, gap);
    }
  }

  // ---------------------------------------------------------------- twice is reached

  // n attempts of one epsilon at the same moment.
  function Burst(n: nat, at: real, eps: real): seq<Attempt> { seq(n, i => Attempt(at, eps)) }

  lemma {:induction false} BurstGranted(b: Budget, n: nat, at: real, eps: real)
    requires eps > 0.0 && b.spend + Product(n, eps) <= b.daily && at - b.start < WINDOW
    ensures Total(b, Burst(n, at, eps)) == Product(n, eps)
    ensures After(b, Burst(n, at, eps)) == b.(spend := b.spend + Product(n, eps))
    decreases n
  {
    ProductStep(0, eps);
    if n > 0 {
      assert Burst(n, at, eps)[0] == Attempt(at, eps) && Burst(n, at, eps)[1..] == Burst(n - 1, at, eps);
      ProductStep(n - 1, eps);
      ProductPositive(n - 1, eps);
      hide Product;
      BurstGranted(b.(spend := b.spend + eps), n - 1, at, eps);
    }
  }

  lemma ProductPositive(n: nat, x: real)
    requires x >= 0.0
    ensures Product(n, x) >= 0.0
  {
  }

  lemma ResetFirst(b: Budget, xs: seq<Attempt>)
    requires xs != []
    ensures Total(b, xs) == Total(AfterReset(b, xs[0].at), xs)
  {
    assert Tried(b, xs[0]) == Tried(AfterReset(b, xs[0].at), xs[0]);
    hide Tried;
  }

  // The bound is sharp for every budget: n flushes it covers, in the last second of one window and
  // again at the start of the next, are all granted. With daily a multiple of epsilon that spends
  // exactly twice the budget within a second.
  lemma TwiceIsReached(daily: real, eps: real, n: nat) returns (xs: seq<Attempt>)
    requires daily > 0.0 && eps > 0.0 && n > 0 && Product(n, eps) <= daily
    ensures |xs| == 2 * n && Monotone(Budget(daily, 0.0, 0.0), xs)
    ensures xs[|xs| - 1].at - xs[0].at <= 1.0 && forall i :: 0 <= i < |xs| ==> xs[i].eps == eps
    ensures Total(Budget(daily, 0.0, 0.0), xs) == 2.0 * Product(n, eps)
    ensures Product(n, eps) == daily ==> Total(Budget(daily, 0.0, 0.0), xs) == 2.0 * daily
  {
    var b := Budget(daily, 0.0, 0.0);
    var early, late := Burst(n, WINDOW - 1.0, eps), Burst(n, WINDOW, eps);
    xs := early + late;
    hide Product, Total, After;
    BurstGranted(b, n, WINDOW - 1.0, eps);
    AfterAppend(b, early, late);
    ResetFirst(After(b, early), late);
    BurstGranted(AfterReset(After(b, early), WINDOW), n, WINDOW, eps);
  }
}
