// probe/sdk.py, ProbeSDK.flush: pacing gate, budget gate, then one batch per pending model. The
// backlog delivery flush begins with, and what a post does beyond its answer, are in Delivery.
module ProbeSdk {
  import opened Common
  import opened CanaryResults
  import opened Aggregation
  import opened PrivacyBudget
  import Spool

  const FLUSH_EPSILON := 2.0

  datatype Config = Config(minInterval: real, dryRun: bool, hasSpool: bool)

  datatype Probe = Probe(queue: Queue, budget: Budget, lastFlush: Option<real>)

  // wall and mono are the two clocks at the gates, committed the monotonic one once the budget is
  // paid; answers(i) is what the i-th post comes to.
  datatype Call = Call(wall: real, mono: real, committed: real, answers: nat -> Spool.Answer)

  datatype Outcome = DryRun | Accepted | Duplicate | Spooled | Failed

  datatype Release = Release(model: string, results: seq<CanaryResult>, outcome: Outcome)

  datatype Status = Noop | Accumulating | BudgetExceeded | Sent | Raised

  function Comes(c: Config, a: Spool.Answer): Outcome {
    match a
    case Raised => if c.hasSpool then Spooled else Failed
    case Broken => Failed
    case Status(code) =>
      if code == 409 then Duplicate
      else if code >= 500 && c.hasSpool then Spooled
      else if code == 202 then Accepted
      else Failed
  }

  function Pending(q: seq<Entry>): seq<string> {
    if q == [] then []
    else Pending(q[..|q| - 1]) + (if q[|q| - 1].results != [] then [q[|q| - 1].model] else [])
  }

  // The loop over pending models: the queue, what was released, and whether it raised.
  datatype Progress = Progress(queue: Queue, out: seq<Release>, raised: bool)

  function SendOne(c: Config, x: Progress, model: string, a: Spool.Answer): Progress {
    var batch := Flushable(x.queue, model);
    if x.raised then x
    else if batch.None? then x.(raised := true)
    else
      var outcome := if c.dryRun then DryRun else Comes(c, a);
      Progress(Removed(x.queue, model), x.out + [Release(model, batch.value, outcome)], outcome.Failed?)
  }

  function SendFirst(c: Config, q: Queue, models: seq<string>, answers: nat -> Spool.Answer, n: nat): Progress
    requires n <= |models|
  {
    if n == 0 then Progress(q, [], false)
    else SendOne(c, SendFirst(c, q, models, answers, n - 1), models[n - 1], answers(n - 1))
  }

  predicate Throttled(c: Config, p: Probe, mono: real) {
    c.minInterval > 0.0 && p.lastFlush.Some? && mono - p.lastFlush.value < c.minInterval
  }

  function Flushed(c: Config, p: Probe, call: Call): (Probe, Status, seq<Release>) {
    var models := Pending(p.queue);
    if models == [] then (p, Noop, [])
    else if Throttled(c, p, call.mono) then (p, Accumulating, [])
    else
      var (budget, spent) := Tried(p.budget, Attempt(call.wall, FLUSH_EPSILON));
      if !spent.Granted? then (Probe([], budget, p.lastFlush), BudgetExceeded, [])
      else
        var x := SendFirst(c, p.queue, models, call.answers, |models|);
        (Probe(x.queue, budget, Some(call.committed)), if x.raised then Raised else Sent, x.out)
  }

  class ProbeSDK {
    const c: Config
    var queue: Queue
    var budget: Budget
    var lastFlush: Option<real>

    constructor (c: Config, budget: Budget)
      ensures this.c == c && Value() == Probe([], budget, None)
    {
      this.c := c;
      queue, this.budget, lastFlush := [], budget, None;
    }

    function Value(): Probe
      reads this
    {
      Probe(queue, budget, lastFlush)
    }

    method Flush(call: Call) returns (status: Status, out: seq<Release>)
      modifies this
      ensures (Value(), status, out) == Flushed(c, old(Value()), call)
      ensures forall i :: 0 <= i < |out| ==> Warranted(c, out[i].outcome, call.answers(i))
    {
      OutcomesByAnswer(c, Value(), call);
      hide Flushable, Removed, Comes, Warranted;
      out := [];
      var models := Pending(queue);
      if models == [] {
        return Noop, [];
      }
      if c.minInterval > 0.0 && lastFlush.Some? {
        var elapsed := call.mono - lastFlush.value;
        if elapsed < c.minInterval {
          return Accumulating, [];
        }
      }
      budget := AfterReset(budget, call.wall);
      var (spent, verdict) := Spend(budget, FLUSH_EPSILON);
      budget := spent;
      if !verdict.Granted? {
        queue := [];
        return BudgetExceeded, [];
      }
      lastFlush := Some(call.committed);
      ghost var q := queue;
      for i := 0 to |models|
        invariant Progress(queue, out, false) == SendFirst(c, q, models, call.answers, i)
        invariant budget == Tried(old(budget), Attempt(call.wall, FLUSH_EPSILON)).0 && lastFlush == Some(call.committed)
      {
        var batch := Flushable(queue, models[i]);
        if batch.None? {
          StaysRaised(c, q, models, call.answers, i + 1, |models|);
          return Status.Raised, out;
        }
        queue := Removed(queue, models[i]);
        var outcome := if c.dryRun then DryRun else Comes(c, call.answers(i));
        out := out + [Release(models[i], batch.value, outcome)];
        if outcome.Failed? {
          StaysRaised(c, q, models, call.answers, i + 1, |models|);
          return Status.Raised, out;
        }
      }
      status := Status.Sent;
    }
  }

  lemma {:induction false} StaysRaised(c: Config, q: Queue, models: seq<string>, answers: nat -> Spool.Answer,
                                       m: nat, n: nat)
    requires m <= n <= |models| && SendFirst(c, q, models, answers, m).raised
    ensures SendFirst(c, q, models, answers, n) == SendFirst(c, q, models, answers, m)
    decreases n - m
  {
    hide Flushable, Removed, Comes;
    if m < n {
      StaysRaised(c, q, models, answers, m, n - 1);
    }
  }

  // ---------------------------------------------------------------- conservation

  function Results(out: seq<Release>): multiset<CanaryResult> {
    if out == [] then multiset{} else Results(out[..|out| - 1]) + multiset(out[|out| - 1].results)
  }

  // The results a flush under way still answers for.
  function Held(x: Progress): multiset<CanaryResult> { Staged(x.queue) + Results(x.out) }

  lemma {:induction false} SendingConserves(c: Config, q: Queue, models: seq<string>,
                                            answers: nat -> Spool.Answer, n: nat)
    requires n <= |models|
    ensures Held(SendFirst(c, q, models, answers, n)) == Staged(q)
  {
    hide Held, Staged, SendOne;
    if n == 0 {
      NothingSent(q);
    } else {
      SendingConserves(c, q, models, answers, n - 1);
      OneConserves(c, SendFirst(c, q, models, answers, n - 1), models[n - 1], answers(n - 1));
    }
  }

  lemma NothingSent(q: Queue)
    ensures Held(Progress(q, [], false)) == Staged(q)
  {
    hide Staged;
  }

  lemma OneConserves(c: Config, x: Progress, model: string, a: Spool.Answer)
    ensures Held(SendOne(c, x, model, a)) == Held(x)
  {
    RemovedStages(x.queue, model);
    hide Staged, Removed, Comes, Results, OneSuite;
    var batch := Flushable(x.queue, model);
    if !x.raised && batch.Some? {
      PushedResults(x.out, Release(model, batch.value, if c.dryRun then DryRun else Comes(c, a)));
    }
  }

  lemma PushedResults(out: seq<Release>, r: Release)
    ensures Results(out + [r]) == Results(out) + multiset(r.results)
  {
    assert (out + [r])[..|out|] == out;
  }

  // A flush loses no result without saying so: each staged result is still staged, or in exactly
  // one released batch, unless the budget gate discarded the whole queue.
  lemma FlushConserves(c: Config, p: Probe, call: Call)
    ensures var (p', status, out) := Flushed(c, p, call);
            if status.BudgetExceeded? then p'.queue == [] && out == []
            else Staged(p.queue) == Staged(p'.queue) + Results(out)
  {
    hide SendFirst, SendOne, Pending, Throttled, Tried, Staged, Results;
    SendingConserves(c, p.queue, Pending(p.queue), call.answers, |Pending(p.queue)|);
    NothingSent(p.queue);
  }

  // Epsilon is spent exactly when the flush gets past both gates; a flush that releases anything
  // has paid for it and restarts the interval, and a throttled one changes nothing.
  lemma FlushPays(c: Config, p: Probe, call: Call)
    ensures var (p', status, out) := Flushed(c, p, call);
            && (status.Noop? || status.Accumulating? ==> p' == p && out == [])
            && (!status.Noop? && !status.Accumulating? ==>
                  p'.budget == Tried(p.budget, Attempt(call.wall, FLUSH_EPSILON)).0)
            && (status.Sent? || status.Raised? <==>
                  Pending(p.queue) != [] && !Throttled(c, p, call.mono)
                  && Tried(p.budget, Attempt(call.wall, FLUSH_EPSILON)).1.Granted?)
            && (status.Noop? <==> Pending(p.queue) == [])
            && (status.Accumulating? <==> Pending(p.queue) != [] && Throttled(c, p, call.mono))
            && (out != [] ==> status.Sent? || status.Raised?)
            && p'.lastFlush == if status.Sent? || status.Raised? then Some(call.committed) else p.lastFlush
  {
    hide SendFirst, Pending, Throttled, Tried;
  }

  // ---------------------------------------------------------------- who gets sent

  // No entry of the queue is empty: results are only ever staged into it.
  predicate AllStaged(q: seq<Entry>) { forall i :: 0 <= i < |q| ==> q[i].results != [] }

  // A post that fails for good: with a spool, one that ends in an exception other than a transport
  // error, or in a status below 500 other than 202 and 409; without one, all but these two.
  predicate FailsForGood(c: Config, a: Spool.Answer) {
    match a
    case Raised => !c.hasSpool
    case Broken => true
    case Status(code) => code != 202 && code != 409 && (code < 500 || !c.hasSpool)
  }

  // Whether a post's answer is what its outcome says.
  predicate Warranted(c: Config, outcome: Outcome, a: Spool.Answer) {
    match outcome
    case DryRun => c.dryRun
    case Accepted => a == Spool.Status(202)
    case Duplicate => a == Spool.Status(409)
    case Spooled => c.hasSpool && (a.Raised? || (a.Status? && a.code >= 500))
    case Failed => FailsForGood(c, a)
  }

  lemma ComesWarranted(c: Config, a: Spool.Answer)
    ensures Warranted(c, Comes(c, a), a) && !Comes(c, a).DryRun?
    ensures Comes(c, a).Failed? <==> FailsForGood(c, a)
  {
  }

  lemma {:induction false} OutcomesAre(c: Config, q: Queue, models: seq<string>, answers: nat -> Spool.Answer, n: nat)
    requires n <= |models|
    ensures var x := SendFirst(c, q, models, answers, n);
      && (!x.raised ==> |x.out| == n) && |x.out| <= n
      && forall i :: 0 <= i < |x.out| ==> x.out[i].outcome == if c.dryRun then DryRun else Comes(c, answers(i))
  {
    hide Comes, Flushable, Removed;
    if n > 0 { OutcomesAre(c, q, models, answers, n - 1); }
  }

  // Every release of a flush says what became of its own post: accepted exactly on 202, duplicate on
  // 409, spooled on a transport error or a status from 500 on, with a spool; failed on the rest.
  lemma OutcomesByAnswer(c: Config, p: Probe, call: Call)
    ensures var out := Flushed(c, p, call).2;
      forall i :: 0 <= i < |out| ==>
        && out[i].outcome == (if c.dryRun then DryRun else Comes(c, call.answers(i)))
        && Warranted(c, out[i].outcome, call.answers(i)) && (out[i].outcome.DryRun? ==> c.dryRun)
  {
    OutcomesAre(c, p.queue, Pending(p.queue), call.answers, |Pending(p.queue)|);
    hide SendFirst, Pending, Throttled, Tried, Comes, Warranted;
    forall i: nat
      ensures Warranted(c, Comes(c, call.answers(i)), call.answers(i)) && !Comes(c, call.answers(i)).DryRun?
    {
      ComesWarranted(c, call.answers(i));
    }
    DryWarranted(c);
  }

  lemma DryWarranted(c: Config)
    ensures forall a: Spool.Answer :: c.dryRun ==> Warranted(c, DryRun, a)
  {
  }

  // An entry whose results are of one suite, and whose post, if there is one, does not fail for good.
  predicate Goes(c: Config, e: Entry, a: Spool.Answer) {
    OneSuite(e.results) && (!c.dryRun ==> !FailsForGood(c, a))
  }

  // The first of n entries that does not go; n when all do.
  function Stuck(c: Config, q: Queue, answers: nat -> Spool.Answer, n: nat): (i: nat)
    requires n <= |q|
    ensures i <= n
    ensures forall j :: 0 <= j < i ==> Goes(c, q[j], answers(j))
    ensures i < n ==> !Goes(c, q[i], answers(i))
  {
    if n == 0 then 0
    else
      var i := Stuck(c, q, answers, n - 1);
      if i < n - 1 then i else if Goes(c, q[n - 1], answers(n - 1)) then n else n - 1
  }

  // The first n entries, each whole and in a release of its own, in order.
  predicate Released(out: seq<Release>, q: Queue, n: nat) {
    |out| == n <= |q| && forall j :: 0 <= j < n ==> out[j].model == q[j].model && out[j].results == q[j].results
  }

  lemma {:induction false} PendingAll(q: seq<Entry>)
    requires AllStaged(q)
    ensures |Pending(q)| == |q| && forall i :: 0 <= i < |q| ==> Pending(q)[i] == q[i].model
  {
    if q != [] { PendingAll(q[..|q| - 1]); }
  }

  lemma {:induction false} SendingGoes(c: Config, q: Queue, models: seq<string>, answers: nat -> Spool.Answer, n: nat)
    requires AllStaged(q) && |models| == |q| && n <= |q|
    requires forall i :: 0 <= i < |q| ==> models[i] == q[i].model
    requires forall j :: 0 <= j < n ==> Goes(c, q[j], answers(j))
    ensures var x := SendFirst(c, q, models, answers, n); !x.raised && x.queue == q[n..] && Released(x.out, q, n)
  {
    hide SendOne, Goes, AllStaged, OneSuite;
    if n > 0 {
      SendingGoes(c, q, models, answers, n - 1);
      NotEmpty(q, n - 1);
      SendsHead(c, q, n - 1, SendFirst(c, q, models, answers, n - 1), answers(n - 1));
      GoesWhole(c, q[n - 1], answers(n - 1));
    }
  }

  lemma NotEmpty(q: seq<Entry>, i: nat)
    requires AllStaged(q) && i < |q|
    ensures q[i].results != []
  {
  }

  lemma GoesWhole(c: Config, e: Entry, a: Spool.Answer)
    requires Goes(c, e, a)
    ensures OneSuite(e.results)
  {
  }

  // What the next send makes of the entry now at the head.
  lemma SendsHead(c: Config, q: Queue, n: nat, x: Progress, a: Spool.Answer)
    requires n < |q| && x.queue == q[n..] && !x.raised && Released(x.out, q, n) && q[n].results != []
    ensures var (y, whole) := (SendOne(c, x, q[n].model, a), OneSuite(q[n].results));
      && (y.raised <==> !Goes(c, q[n], a))
      && y.queue == (if whole then q[n + 1..] else q[n..])
      && Released(y.out, q, if whole then n + 1 else n)
  {
    ComesWarranted(c, a);
    hide Comes, OneSuite, FailsForGood;
    assert x.queue[0] == q[n];
    FindHead(x.queue);
    assert x.queue[..0] + x.queue[1..] == q[n + 1..];
  }

  lemma FindHead(q: Queue)
    requires q != []
    ensures Find(q, q[0].model) == 0
  {
  }

  // What is left of the queue, and what was released of it: the entries before the first that does
  // not go, each whole. A failed post takes its entry along; an entry of mixed suites stays, with all
  // behind it.
  predicate StopsRight(c: Config, q: Queue, answers: nat -> Spool.Answer, left: seq<Entry>, out: seq<Release>,
                       raised: bool)
  {
    var i := Stuck(c, q, answers, |q|);
    var whole := i < |q| && OneSuite(q[i].results);
    && (raised <==> i < |q|)
    && left == (if whole then q[i + 1..] else q[i..])
    && Released(out, q, if whole then i + 1 else i)
  }

  lemma SendingStops(c: Config, q: Queue, models: seq<string>, answers: nat -> Spool.Answer)
    requires AllStaged(q) && |models| == |q|
    requires forall i :: 0 <= i < |q| ==> models[i] == q[i].model
    ensures var x := SendFirst(c, q, models, answers, |q|); StopsRight(c, q, answers, x.queue, x.out, x.raised)
  {
    hide SendOne, Stuck, OneSuite, Goes, Released, AllStaged;
    var i := Stuck(c, q, answers, |q|);
    SendingGoes(c, q, models, answers, i);
    if i < |q| {
      NotEmpty(q, i);
      SendsHead(c, q, i, SendFirst(c, q, models, answers, i), answers(i));
      StaysRaised(c, q, models, answers, i + 1, |q|);
    }
  }

  // What a flush that passes its gates does: it stops at the first entry that does not go.
  lemma FlushReleases(c: Config, p: Probe, call: Call)
    requires AllStaged(p.queue) && p.queue != [] && !Throttled(c, p, call.mono)
    requires Tried(p.budget, Attempt(call.wall, FLUSH_EPSILON)).1.Granted?
    ensures var (p', status, out) := Flushed(c, p, call);
      && (status == Sent || status == Raised)
      && StopsRight(c, p.queue, call.answers, p'.queue, out, status == Raised)
  {
    PendingAll(p.queue);
    FlushedSends(c, p, call);
    hide Flushed, SendFirst, Pending, Throttled, Tried, StopsRight;
    SendingStops(c, p.queue, Pending(p.queue), call.answers);
  }

  lemma FlushedSends(c: Config, p: Probe, call: Call)
    requires Pending(p.queue) != [] && !Throttled(c, p, call.mono)
    requires Tried(p.budget, Attempt(call.wall, FLUSH_EPSILON)).1.Granted?
    ensures var ((p', status, out), x) := (Flushed(c, p, call),
              SendFirst(c, p.queue, Pending(p.queue), call.answers, |Pending(p.queue)|));
            p'.queue == x.queue && status == (if x.raised then Raised else Sent) && out == x.out
  {
    hide SendFirst, Pending, Throttled, Tried;
  }

  // A flush that passes its gates sends everything staged exactly when each model's results are
  // of one suite and no post fails for good.
  lemma SendsAllExactly(c: Config, p: Probe, call: Call)
    requires AllStaged(p.queue) && p.queue != [] && !Throttled(c, p, call.mono)
    requires Tried(p.budget, Attempt(call.wall, FLUSH_EPSILON)).1.Granted?
    ensures Flushed(c, p, call).1 == Sent
       <==> forall i :: 0 <= i < |p.queue| ==>
              OneSuite(p.queue[i].results) && (!c.dryRun ==> !FailsForGood(c, call.answers(i)))
  {
    FlushReleases(c, p, call);
    hide Flushed, OneSuite, FailsForGood, Throttled, Tried;
    var i := Stuck(c, p.queue, call.answers, |p.queue|);
    assert i < |p.queue| ==> !Goes(c, p.queue[i], call.answers(i));
    assert i == |p.queue| ==> forall j :: 0 <= j < |p.queue| ==> Goes(c, p.queue[j], call.answers(j));
  }

  // What the gates go by: nothing staged; less than the minimum interval since the last paid flush of
  // this process; two epsilon that the budget of the running 24 hours does not cover. Only a flush past
  // all three pays.
  lemma FlushGates(c: Config, p: Probe, call: Call)
    requires AllStaged(p.queue)
    ensures var (p', status, _) := Flushed(c, p, call);
      var soon := c.minInterval > 0.0 && p.lastFlush.Some? && call.mono < p.lastFlush.value + c.minInterval;
      var over := call.wall >= p.budget.start + 86400.0;
      var spent := if over then 0.0 else p.budget.spend;
      && (status == Noop <==> p.queue == [])
      && (status == Accumulating <==> p.queue != [] && soon)
      && (status == BudgetExceeded <==> p.queue != [] && !soon && spent + 2.0 > p.budget.daily)
      && (status == Noop || status == Accumulating ==> p'.budget == p.budget)
      && (status == BudgetExceeded ==> p'.budget.spend == spent)
      && (status == Sent || status == Raised ==> p'.budget.spend == spent + 2.0)
  {
    FlushPays(c, p, call);
    PendingAll(p.queue);
    hide Flushed, Pending;
  }

  // ---------------------------------------------------------------- runs

  // Restart: a new process, with the accountant's file as the old one left it.
  datatype Event = Add(r: CanaryResult) | Flush(call: Call) | Restart

  function Take(c: Config, p: Probe, e: Event): (Probe, Status, seq<Release>) {
    match e
    case Add(r) => (p.(queue := Added(p.queue, r)), Noop, [])
    case Flush(call) => Flushed(c, p, call)
    case Restart => (Probe([], p.budget, None), Noop, [])
  }

  function After(c: Config, p: Probe, es: seq<Event>): Probe {
    if es == [] then p else Take(c, After(c, p, es[..|es| - 1]), es[|es| - 1]).0
  }

  // The budget attempts of a run: the flushes that reach the gate.
  function Attempts(c: Config, p: Probe, es: seq<Event>): seq<Attempt> {
    if es == [] then []
    else
      var n := |es| - 1;
      var status := Take(c, After(c, p, es[..n]), es[n]).1;
      Attempts(c, p, es[..n])
      + (if es[n].Flush? && !status.Noop? && !status.Accumulating?
         then [Attempt(es[n].call.wall, FLUSH_EPSILON)] else [])
  }

  // How many flushes of a run released something.
  function Releases(c: Config, p: Probe, es: seq<Event>): nat {
    if es == [] then 0
    else
      var n := |es| - 1;
      Releases(c, p, es[..n]) + (if Take(c, After(c, p, es[..n]), es[n]).2 != [] then 1 else 0)
  }

  lemma {:induction false} RunFollowsAccountant(c: Config, p: Probe, es: seq<Event>)
    ensures After(c, p, es).budget == PrivacyBudget.After(p.budget, Attempts(c, p, es))
    ensures Releases(c, p, es) as real * FLUSH_EPSILON <= PrivacyBudget.Total(p.budget, Attempts(c, p, es))
  {
    if es != [] {
      var n := |es| - 1;
      RunFollowsAccountant(c, p, es[..n]);
      var q, xs := After(c, p, es[..n]), Attempts(c, p, es[..n]);
      hide Flushed, PrivacyBudget.After, PrivacyBudget.Total;
      if es[n].Flush? {
        FlushPays(c, q, es[n].call);
        var a := Attempt(es[n].call.wall, FLUSH_EPSILON);
        OneAttempt(q.budget, a);
        AfterAppend(p.budget, xs, [a]);
      }
      assert xs + [] == xs;
    }
  }

  // Runs keep every staged entry non-empty.
  lemma {:induction false} AlwaysStaged(c: Config, p: Probe, es: seq<Event>)
    requires AllStaged(p.queue)
    ensures AllStaged(After(c, p, es).queue)
  {
    if es != [] {
      var q := After(c, p, es[..|es| - 1]);
      AlwaysStaged(c, p, es[..|es| - 1]);
      match es[|es| - 1] {
        case Add(_) =>
        case Flush(call) => FlushKeepsStaged(c, q, call);
        case Restart =>
      }
    }
  }

  lemma FlushKeepsStaged(c: Config, p: Probe, call: Call)
    requires AllStaged(p.queue)
    ensures AllStaged(Flushed(c, p, call).0.queue)
  {
    FlushPays(c, p, call);
    FlushConserves(c, p, call);
    PendingAll(p.queue);
    if p.queue != [] && !Throttled(c, p, call.mono) && Tried(p.budget, Attempt(call.wall, FLUSH_EPSILON)).1.Granted? {
      FlushReleases(c, p, call);
    }
    hide Flushed, Pending, Throttled, Tried, Stuck, OneSuite, Staged, Results;
  }

  predicate MixedHead(q: Queue) { q != [] && !OneSuite(q[0].results) }

  // No flush of the run was refused by the budget, and the process was not restarted.
  ghost predicate Undisturbed(c: Config, p: Probe, es: seq<Event>) {
    forall i :: 0 <= i < |es| ==> !Take(c, After(c, p, es[..i]), es[i]).1.BudgetExceeded? && !es[i].Restart?
  }

  // Once the oldest model's results mix two suites, no flush of any run releases anything, for any
  // model, while each that is not throttled still pays; it ends only with the refusal or the restart
  // that discards the whole queue.
  lemma {:induction false} MixedHeadStarves(c: Config, p: Probe, es: seq<Event>)
    requires AllStaged(p.queue) && MixedHead(p.queue) && Undisturbed(c, p, es)
    ensures AllStaged(After(c, p, es).queue) && MixedHead(After(c, p, es).queue)
    ensures |After(c, p, es).queue| >= |p.queue| && After(c, p, es).queue[0].model == p.queue[0].model
    ensures Releases(c, p, es) == 0
    ensures PrivacyBudget.Total(p.budget, Attempts(c, p, es)) == Product(|Attempts(c, p, es)|, FLUSH_EPSILON)
  {
    var n := |es| - 1;
    if es == [] {
      ProductStep(0, FLUSH_EPSILON);
    } else {
      assert Undisturbed(c, p, es[..n]) by {
        assert forall i :: 0 <= i < n ==> es[..n][i] == es[i] && es[..n][..i] == es[..i];
      }
      MixedHeadStarves(c, p, es[..n]);
      RunFollowsAccountant(c, p, es[..n]);
      MixedStep(c, p, es);
    }
  }

  lemma MixedStep(c: Config, p: Probe, es: seq<Event>)
    requires es != []
    requires var q := After(c, p, es[..|es| - 1]);
      && AllStaged(q.queue) && MixedHead(q.queue)
      && q.budget == PrivacyBudget.After(p.budget, Attempts(c, p, es[..|es| - 1]))
      && !Take(c, q, es[|es| - 1]).1.BudgetExceeded? && !es[|es| - 1].Restart?
    ensures var (x, y) := (After(c, p, es[..|es| - 1]).queue, After(c, p, es).queue);
      AllStaged(y) && MixedHead(y) && |y| >= |x| && y[0].model == x[0].model
    ensures Releases(c, p, es) == Releases(c, p, es[..|es| - 1])
    ensures var (xs, ys) := (Attempts(c, p, es[..|es| - 1]), Attempts(c, p, es));
      PrivacyBudget.Total(p.budget, ys) - Product(|ys|, FLUSH_EPSILON)
      == PrivacyBudget.Total(p.budget, xs) - Product(|xs|, FLUSH_EPSILON)
  {
    var n := |es| - 1;
    var q, xs := After(c, p, es[..n]), Attempts(c, p, es[..n]);
    assert xs + [] == xs;
    match es[n] {
      case Add(r) => AddKeepsMixed(q.queue, r);
      case Flush(call) =>
        MixedFlush(c, q, call);
        var a := Attempt(call.wall, FLUSH_EPSILON);
        hide Flushed, Tried, MixedHead, Product, PrivacyBudget.Total, PrivacyBudget.After;
        AfterAppend(p.budget, xs, [a]);
        OneAttempt(q.budget, a);
        ProductStep(|xs|, FLUSH_EPSILON);
    }
  }

  lemma AddKeepsMixed(q: Queue, r: CanaryResult)
    requires AllStaged(q) && MixedHead(q)
    ensures AllStaged(Added(q, r)) && MixedHead(Added(q, r)) && |Added(q, r)| >= |q|
    ensures Added(q, r)[0].model == q[0].model
  {
    var i, j :| 0 <= i < |q[0].results| && 0 <= j < |q[0].results| && q[0].results[i].suite != q[0].results[j].suite;
    var rs := Added(q, r)[0].results;
    assert rs[i] == q[0].results[i] && rs[j] == q[0].results[j];
  }

  // One flush on such a queue: throttled, refused, or paid for nothing.
  lemma MixedFlush(c: Config, p: Probe, call: Call)
    requires AllStaged(p.queue) && MixedHead(p.queue)
    ensures var (p', status, out) := Flushed(c, p, call);
      && out == []
      && (status.BudgetExceeded? || p'.queue == p.queue)
      && (status.Accumulating? || status.BudgetExceeded? || status.Raised?)
      && (status.Raised? ==> Tried(p.budget, Attempt(call.wall, FLUSH_EPSILON)).1.Granted?)
  {
    FlushPays(c, p, call);
    PendingAll(p.queue);
    if !Throttled(c, p, call.mono) && Tried(p.budget, Attempt(call.wall, FLUSH_EPSILON)).1.Granted? {
      FlushReleases(c, p, call);
      assert !Goes(c, p.queue[0], call.answers(0));
    }
    FlushConserves(c, p, call);
    hide Flushed, Pending, Throttled, Tried, OneSuite;
  }

  lemma OneAttempt(b: Budget, a: Attempt)
    ensures PrivacyBudget.After(b, [a]) == Tried(b, a).0
    ensures PrivacyBudget.Total(b, [a]) == if Tried(b, a).1.Granted? then a.eps else 0.0
  {
    assert [a][1..] == [];
  }

  // Whatever is staged and however often flush is called, within any 24 hours of wall clock no
  // more than daily_budget flushes' worth of batches leave the probe: at two epsilon each, at
  // most the budget in count.
  lemma DayOfReleases(c: Config, p: Probe, es: seq<Event>)
    requires Within(p.budget) && Monotone(p.budget, Attempts(c, p, es))
    requires var xs := Attempts(c, p, es); xs != [] ==> xs[|xs| - 1].at - xs[0].at <= WINDOW
    ensures Releases(c, p, es) as real <= p.budget.daily
  {
    RunFollowsAccountant(c, p, es);
    AnyDaySpendsAtMostTwice(p.budget, Attempts(c, p, es));
  }

  // ---------------------------------------------------------------- pacing

  function Interval(daily: real): real
    requires daily > 0.0
  {
    RecommendedInterval(daily, FLUSH_EPSILON, WINDOW).value
  }

  // What a run has done to the current budget window: how many flushes it paid for, whether the
  // process was restarted in it, and this process's last paid flush.
  datatype Tally = Tally(grants: nat, restarted: bool, last: Option<Call>)

  function Tallied(p: Probe, t: Tally, call: Call, status: Status): Tally {
    if !status.Sent? && !status.Raised? then t
    else if call.wall - p.budget.start >= WINDOW then Tally(1, false, Some(call))
    else t.(grants := t.grants + 1, last := Some(call))
  }

  function TallyOf(c: Config, p: Probe, es: seq<Event>): Tally {
    if es == [] then Tally(0, false, None)
    else
      var n := |es| - 1;
      var t := TallyOf(c, p, es[..n]);
      match es[n]
      case Add(_) => t
      case Flush(call) => Tallied(After(c, p, es[..n]), t, call, Take(c, After(c, p, es[..n]), es[n]).1)
      case Restart => t.(restarted := true, last := None)
  }

  // The wall clock never shows a time before the window's start, and from a paid flush to a later
  // call of the same process it advances at least as far as the monotonic clock.
  predicate InStep(p: Probe, t: Tally, call: Call) {
    && call.wall >= p.budget.start
    && (t.last.Some? ==> call.wall - t.last.value.wall >= call.mono - t.last.value.committed)
  }

  predicate OnClock(c: Config, p: Probe, es: seq<Event>) {
    es == [] ||
    var n := |es| - 1;
    && OnClock(c, p, es[..n])
    && (es[n].Flush? ==> InStep(After(c, p, es[..n]), TallyOf(c, p, es[..n]), es[n].call))
  }

  // The tally accounts for the budget; and unless the process was restarted in this window, its paid
  // flushes came an interval apart.
  ghost predicate OnSchedule(p: Probe, t: Tally, daily: real)
    requires daily > 0.0
  {
    && p.budget.daily == daily && p.budget.spend == Product(t.grants, FLUSH_EPSILON)
    && p.lastFlush == (if t.last.Some? then Some(t.last.value.committed) else None)
    && (!t.restarted && t.grants > 0 ==>
          t.last.Some? && p.budget.start + Product(t.grants - 1, Interval(daily)) <= t.last.value.wall)
  }

  // A probe whose min_flush_interval is at least the recommended one, however often flush is called,
  // whatever is staged, whatever the network does and whenever it is restarted: a flush that reaches
  // the budget is refused exactly when the window is not over and already holds as many paid flushes
  // as the budget covers. That takes a restart in the same window; without one it never happens.
  lemma {:induction false} PacedProbeRefusedExactly(c: Config, q: Queue, daily: real, now: real, es: seq<Event>)
    requires daily >= FLUSH_EPSILON && c.minInterval >= Interval(daily)
    requires OnClock(c, Probe(q, Budget(daily, 0.0, now), None), es)
    ensures var p := Probe(q, Budget(daily, 0.0, now), None);
      && OnSchedule(After(c, p, es), TallyOf(c, p, es), daily)
      && (es != [] && es[|es| - 1].Flush? ==>
            var (x, t, call) := (After(c, p, es[..|es| - 1]), TallyOf(c, p, es[..|es| - 1]), es[|es| - 1].call);
            var refused := Flushed(c, x, call).1.BudgetExceeded?;
            && (refused <==> Pending(x.queue) != [] && !Throttled(c, x, call.mono)
                             && call.wall - x.budget.start < WINDOW && Product(t.grants + 1, FLUSH_EPSILON) > daily)
            && (refused ==> t.restarted))
  {
    hide Flushed, OnSchedule, Interval, Tallied, InStep;
    var p := Probe(q, Budget(daily, 0.0, now), None);
    if es == [] {
      NothingPaidYet(q, daily, now);
    } else {
      var n := |es| - 1;
      PacedProbeRefusedExactly(c, q, daily, now, es[..n]);
      var x, t := After(c, p, es[..n]), TallyOf(c, p, es[..n]);
      match es[n] {
        case Add(r) => OtherKeepsSchedule(x, t, Added(x.queue, r), daily);
        case Flush(call) => FlushKeepsSchedule(c, x, t, call, daily);
        case Restart => OtherKeepsSchedule(x, t, [], daily);
      }
    }
  }

  lemma NothingPaidYet(q: Queue, daily: real, now: real)
    requires daily > 0.0
    ensures OnSchedule(Probe(q, Budget(daily, 0.0, now), None), Tally(0, false, None), daily)
  {
    ProductStep(0, FLUSH_EPSILON);
  }

  lemma OtherKeepsSchedule(p: Probe, t: Tally, q: Queue, daily: real)
    requires daily > 0.0 && OnSchedule(p, t, daily)
    ensures OnSchedule(p.(queue := q), t, daily)
    ensures OnSchedule(Probe(q, p.budget, None), t.(restarted := true, last := None), daily)
  {
  }

  lemma FlushKeepsSchedule(c: Config, p: Probe, t: Tally, call: Call, daily: real)
    requires daily >= FLUSH_EPSILON && c.minInterval >= Interval(daily)
    requires OnSchedule(p, t, daily) && InStep(p, t, call)
    ensures var (p', status, _) := Flushed(c, p, call);
      && OnSchedule(p', Tallied(p, t, call, status), daily)
      && (status.BudgetExceeded? <==>
            Pending(p.queue) != [] && !Throttled(c, p, call.mono)
            && call.wall - p.budget.start < WINDOW && Product(t.grants + 1, FLUSH_EPSILON) > daily)
      && (status.BudgetExceeded? ==> t.restarted)
  {
    FlushPays(c, p, call);
    ProductStep(t.grants, FLUSH_EPSILON);
    ProductStep(0, FLUSH_EPSILON);
    ProductStep(0, Interval(daily));
    IntervalPositive(daily);
    if !Throttled(c, p, call.mono) && !t.restarted { NextIsOnPace(p, t, call, c.minInterval, daily); }
    hide Flushed, Product, Interval, Pending;
  }

  lemma IntervalPositive(daily: real)
    requires daily > 0.0
    ensures Interval(daily) > 0.0
  {
  }

  // Without a restart in the window, a flush past the throttle leaves the pace and fits the budget.
  lemma NextIsOnPace(p: Probe, t: Tally, call: Call, minInterval: real, daily: real)
    requires daily >= FLUSH_EPSILON && minInterval >= Interval(daily) > 0.0 && !t.restarted
    requires OnSchedule(p, t, daily) && InStep(p, t, call)
    requires p.lastFlush.Some? ==> call.mono - p.lastFlush.value >= minInterval
    ensures p.budget.start + Product(t.grants, Interval(daily)) <= call.wall
    ensures call.wall - p.budget.start < WINDOW ==> Product(t.grants + 1, FLUSH_EPSILON) <= daily
  {
    ProductStep(0, Interval(daily));
    if t.grants > 0 { ProductStep(t.grants - 1, Interval(daily)); }
    if call.wall - p.budget.start < WINDOW { FitsTimeFitsBudget(t.grants, daily, FLUSH_EPSILON); }
    hide Product, MaxFlushes;
  }

  predicate NoRestart(es: seq<Event>) { forall i :: 0 <= i < |es| ==> !es[i].Restart? }

  // So a paced probe that is never restarted never runs into its budget.
  lemma {:induction false} PacedProbeNeverSleeps(c: Config, q: Queue, daily: real, now: real, es: seq<Event>)
    requires daily >= FLUSH_EPSILON && c.minInterval >= Interval(daily) && NoRestart(es) && es != []
    requires OnClock(c, Probe(q, Budget(daily, 0.0, now), None), es)
    ensures var p := Probe(q, Budget(daily, 0.0, now), None);
      !Take(c, After(c, p, es[..|es| - 1]), es[|es| - 1]).1.BudgetExceeded?
  {
    var p := Probe(q, Budget(daily, 0.0, now), None);
    PacedProbeRefusedExactly(c, q, daily, now, es);
    NeverRestarted(c, p, es[..|es| - 1]);
    hide Flushed, OnClock;
  }

  lemma {:induction false} NeverRestarted(c: Config, p: Probe, es: seq<Event>)
    requires NoRestart(es)
    ensures !TallyOf(c, p, es).restarted
  {
    hide Take, After;
    if es != [] { NeverRestarted(c, p, es[..|es| - 1]); }
  }
}
