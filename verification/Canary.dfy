// probe/canary.py: the plain suite runner and the all-or-nothing runner with pacing and retries.
// Timestamps are not part of a result, and sleeps are recorded in milliseconds.
module Canary {
  import opened Common
  import opened CanaryResults

  datatype Category = ToolCalling | StructuredOutput | Plain

  datatype Prompt = Prompt(id: string, category: Category)

  datatype Fault = ProviderError(status: Option<int>) | NotConfigured | OtherError

  datatype Completion = Completion(
    text: string, toolCalls: Option<string>, latency: int,
    outputTokens: Option<int>, reasoningTokens: Option<int>)

  datatype Reply = Answer(completion: Completion) | Fail(fault: Fault)

  // reply(n, p) is what the provider's call number n comes to when it asks prompt p: any provider,
  // with any history, is such a function. rich tells whether it has complete_ex.
  datatype Provider = Provider(rich: bool, reply: (nat, Prompt) -> Reply)

  // Library routines and the frozen mock answers.
  datatype Kit = Kit(
    hash: string -> string, jsonValid: string -> bool, toolValid: string -> bool,
    mockText: string -> string, mockTools: string -> string)

  datatype Config = Config(
    model: string, suiteVersion: string, kit: Kit, mock: bool, provider: Option<Provider>,
    delay: int, maxRetries: int, base: int, maxBackoff: int)

  const TRANSIENT: set<int> := {429, 503}

  // ---------------------------------------------------------------- one prompt

  datatype Outcome = Done(result: CanaryResult) | Raised(fault: Fault)

  function ToolCallValid(k: Kit, calls: Option<string>): bool {
    calls.Some? && calls.value != "" && k.toolValid(calls.value)
  }

  function Scored(c: Config, p: Prompt, a: Completion): CanaryResult {
    var tool := p.category.ToolCalling?;
    var raw := if tool && a.toolCalls.Some? && a.toolCalls.value != "" then a.toolCalls.value else a.text;
    CanaryResult(c.model, c.suiteVersion, p.id, c.kit.hash(raw), |raw|,
                 p.category.StructuredOutput? && c.kit.jsonValid(raw), a.latency,
                 if tool then Some(ToolCallValid(c.kit, a.toolCalls)) else None,
                 a.outputTokens, a.reasoningTokens)
  }

  function MockAnswer(c: Config, p: Prompt): Completion {
    if p.category.ToolCalling? then
      var raw := c.kit.mockTools(p.id);
      Completion("", Some(raw), -1, None, None)
    else Completion(c.kit.mockText(p.id), None, -1, None, None)
  }

  // complete(...) gives a text and a latency only.
  function Bare(a: Completion): Completion { Completion(a.text, None, a.latency, None, None) }

  predicate Unsupported(c: Config, p: Prompt) {
    !c.mock && (c.provider.None? || (p.category.ToolCalling? && !c.provider.value.rich))
  }

  function Once(c: Config, p: Prompt, n: nat): Outcome {
    if c.mock then Done(Scored(c, p, MockAnswer(c, p)))
    else if Unsupported(c, p) then Raised(NotConfigured)
    else
      match c.provider.value.reply(n, p)
      case Fail(fault) => Raised(fault)
      case Answer(a) => Done(Scored(c, p, if c.provider.value.rich then a else Bare(a)))
  }

  // Provider calls one attempt makes.
  function Cost(c: Config, p: Prompt): nat { if c.mock || Unsupported(c, p) then 0 else 1 }

  // ---------------------------------------------------------------- the plain runner

  datatype Batch = Returned(results: seq<CanaryResult>) | Aborted(fault: Fault)

  // The first provider failure aborts the run; otherwise prompt i is answered by call start + i.
  method ExecuteCanary(c: Config, suite: seq<Prompt>, start: nat) returns (r: Batch, calls: nat)
    ensures r.Returned? ==>
              && (c.mock || c.provider.Some?) && |r.results| == |suite|
              && calls == (if c.mock then 0 else |suite|)
              && forall i :: 0 <= i < |suite| ==> Once(c, suite[i], start + i) == Done(r.results[i])
    ensures r.Aborted? ==> !c.mock
    ensures !c.mock && c.provider.None? ==> r == Aborted(NotConfigured) && calls == 0
    ensures r.Aborted? && c.provider.Some? ==>
              exists i :: 0 <= i < |suite| && Once(c, suite[i], start + i) == Raised(r.fault)
                          && calls == i + Cost(c, suite[i])
                          && forall j :: 0 <= j < i ==> Once(c, suite[j], start + j).Done?
  {
    calls := 0;
    if !c.mock && c.provider.None? {
      return Aborted(NotConfigured), calls;
    }
    var results := [];
    for i := 0 to |suite|
      invariant |results| == i && calls == (if c.mock then 0 else i)
      invariant forall j :: 0 <= j < i ==> Once(c, suite[j], start + j) == Done(results[j])
    {
      var p := suite[i];
      var answer := MockAnswer(c, p);
      if !c.mock {
        if p.category.ToolCalling? && !c.provider.value.rich {
          return Aborted(NotConfigured), calls;
        }
        var reply := c.provider.value.reply(start + calls, p);
        calls := calls + 1;
        if reply.Fail? {
          return Aborted(reply.fault), calls;
        }
        answer := if c.provider.value.rich then reply.completion else Bare(reply.completion);
      }
      results := results + [Scored(c, p, answer)];
    }
    r := Returned(results);
  }

  // ---------------------------------------------------------------- the strict runner

  predicate Transient(f: Fault) {
    f.ProviderError? && f.status.Some? && f.status.value in TRANSIENT
  }

  function Pow2(n: nat): (r: nat)
    ensures r >= 1
  {
    if n == 0 then 1 else 2 * Pow2(n - 1)
  }

  function Backoff(attempt: nat, base: int): int
    requires attempt >= 1
  {
    base * Pow2(attempt - 1)
  }

  function PacingBudget(n: nat, delay: int, maxBackoff: int): int {
    Spaced(n, delay) + Max(0, maxBackoff)
  }

  function Spaced(n: nat, delay: int): int { if n <= 1 then 0 else (n - 1) * Max(0, delay) }

  datatype Run = Run(results: seq<CanaryResult>, failed: seq<string>, calls: nat, spent: int, sleeps: seq<int>)

  // The retry loop of one prompt, after `attempt` failed tries.
  function Tries(c: Config, p: Prompt, attempt: nat, x: Run): Run
    decreases Max(0, c.maxRetries - attempt)
  {
    var y := x.(calls := x.calls + Cost(c, p));
    match Once(c, p, x.calls)
    case Done(result) => y.(results := x.results + [result])
    case Raised(fault) =>
      var wait := Min(Backoff(attempt + 1, c.base), c.maxBackoff - x.spent);
      if attempt + 1 > c.maxRetries || wait <= 0 || !Transient(fault) then y.(failed := x.failed + [p.id])
      else Tries(c, p, attempt + 1, y.(spent := x.spent + wait, sleeps := x.sleeps + [wait]))
  }

  function Paced(c: Config, i: nat, x: Run): Run {
    if i > 0 && c.delay > 0 then x.(sleeps := x.sleeps + [c.delay]) else x
  }

  const START := Run([], [], 0, 0, [])

  // The run over the first n prompts.
  function Strict(c: Config, suite: seq<Prompt>, n: nat): Run
    requires n <= |suite|
  {
    if n == 0 then START else Tries(c, suite[n - 1], 0, Paced(c, n - 1, Strict(c, suite, n - 1)))
  }

  datatype Verdict = Complete(results: seq<CanaryResult>)
                   | PartialSuite(completed: nat, expected: nat, failedIds: seq<string>)
                   | ValueError

  predicate Configured(c: Config, suite: seq<Prompt>) {
    c.mock || (c.provider.Some?
               && (c.provider.value.rich || forall i :: 0 <= i < |suite| ==> !suite[i].category.ToolCalling?))
  }

  // The retry loop of one prompt ends whatever the provider does.
  method TryPrompt(c: Config, p: Prompt, x: Run) returns (y: Run)
    ensures y == Tries(c, p, 0, x)
  {
    hide Scored, MockAnswer, Transient, Backoff;
    y := x;
    var attempt := 0;
    while true
      invariant Tries(c, p, 0, x) == Tries(c, p, attempt, y)
      decreases Max(0, c.maxRetries - attempt)
    {
      var one, used := ExecuteCanary(c, [p], y.calls);
      assert one.Returned? ==> Once(c, [p][0], y.calls + 0) == Done(one.results[0]);
      if one.Returned? {
        assert one.results == [one.results[0]];
        return y.(results := y.results + one.results, calls := y.calls + used);
      }
      attempt := attempt + 1;
      var wait := Min(Backoff(attempt, c.base), c.maxBackoff - y.spent);
      if attempt > c.maxRetries || wait <= 0 || !Transient(one.fault) {
        return y.(failed := y.failed + [p.id], calls := y.calls + used);
      }
      y := y.(calls := y.calls + used, spent := y.spent + wait, sleeps := y.sleeps + [wait]);
    }
  }

  // `sleeps` is what the sleeper was asked for, in order.
  method ExecuteCanaryStrict(c: Config, suite: seq<Prompt>)
    returns (v: Verdict, calls: nat, sleeps: seq<int>)
    ensures v.ValueError? <==> !Configured(c, suite)
    ensures v.ValueError? ==> calls == 0 && sleeps == []
    ensures !v.ValueError? ==>
      var x := Strict(c, suite, |suite|);
      && calls == x.calls && sleeps == x.sleeps
      && v == if x.failed == [] && |x.results| == |suite| then Complete(x.results)
              else PartialSuite(|x.results|, |suite|, x.failed)
  {
    hide Tries;
    if !c.mock && c.provider.None? {
      return ValueError, 0, [];
    }
    var tool := exists i :: 0 <= i < |suite| && suite[i].category.ToolCalling?;
    if !c.mock && tool && !c.provider.value.rich {
      return ValueError, 0, [];
    }
    var x := START;
    for i := 0 to |suite|
      invariant x == Strict(c, suite, i)
    {
      if i > 0 && c.delay > 0 {
        x := x.(sleeps := x.sleeps + [c.delay]);
      }
      x := TryPrompt(c, suite[i], x);
    }
    if x.failed != [] || |x.results| != |suite| {
      return PartialSuite(|x.results|, |suite|, x.failed), x.calls, x.sleeps;
    }
    return Complete(x.results), x.calls, x.sleeps;
  }

  // ---------------------------------------------------------------- what a result holds

  // The completion an attempt is scored by: the mock's, the provider's, or of a provider that only
  // completes text, its text and latency.
  function Said(c: Config, p: Prompt, n: nat): Completion
    requires Once(c, p, n).Done?
  {
    if c.mock then
      if p.category.ToolCalling? then Completion("", Some(c.kit.mockTools(p.id)), -1, None, None)
      else Completion(c.kit.mockText(p.id), None, -1, None, None)
    else
      var a := c.provider.value.reply(n, p).completion;
      if c.provider.value.rich then a else Completion(a.text, None, a.latency, None, None)
  }

  // The raw text a result is derived from: the tool calls where the prompt asks for them and there are
  // any, otherwise the answer's text.
  ghost predicate IsRaw(p: Prompt, a: Completion, raw: string) {
    if p.category == ToolCalling && a.toolCalls.Some? && |a.toolCalls.value| > 0
    then Some(raw) == a.toolCalls else raw == a.text
  }

  // Field by field, what an answered attempt's result says of the completion.
  lemma ResultSaysWhatWasSaid(c: Config, p: Prompt, n: nat, raw: string)
    requires Once(c, p, n).Done? && IsRaw(p, Said(c, p, n), raw)
    ensures var (r, a) := (Once(c, p, n).result, Said(c, p, n));
      && r.model == c.model && r.suite == c.suiteVersion && r.promptId == p.id
      && r.hash == c.kit.hash(raw) && r.outputLength == |raw| && r.latency == a.latency
      && r.outputTokens == a.outputTokens && r.reasoningTokens == a.reasoningTokens
      && (r.jsonValid <==> p.category == StructuredOutput && c.kit.jsonValid(raw))
      && (r.toolValid.Some? <==> p.category == ToolCalling)
      && (r.toolValid == Some(true) ==> a.toolCalls == Some(raw) && |raw| > 0 && c.kit.toolValid(raw))
      && (r.toolValid == Some(false) ==>
            a.toolCalls.None? || |a.toolCalls.value| == 0 || !c.kit.toolValid(a.toolCalls.value))
  {
  }

  // ---------------------------------------------------------------- retries

  lemma {:induction false} TriesSleepsOn(c: Config, p: Prompt, attempt: nat, x: Run)
    ensures x.sleeps <= Tries(c, p, attempt, x).sleeps
    decreases Max(0, c.maxRetries - attempt)
  {
    hide Once, Cost, Backoff, Transient;
    var wait := Min(Backoff(attempt + 1, c.base), c.maxBackoff - x.spent);
    if Once(c, p, x.calls).Raised? && attempt + 1 <= c.maxRetries && wait > 0 {
      TriesSleepsOn(c, p, attempt + 1,
                    x.(calls := x.calls + Cost(c, p), spent := x.spent + wait, sleeps := x.sleeps + [wait]));
    }
  }

  // The first retry waits for the base, and each further one for twice as long.
  lemma BackoffDoubles(n: nat, base: int)
    requires n >= 1
    ensures Backoff(1, base) == base && Backoff(n + 1, base) == 2 * Backoff(n, base)
  {
    var d := Pow2(n - 1);
    assert Pow2(n) == 2 * d;
    assert base * (2 * d) == 2 * (base * d);
    assert Pow2(0) == 1;
  }

  // What a provider answers with when it is overloaded.
  predicate RateLimited(o: Outcome) {
    o == Raised(ProviderError(Some(429))) || o == Raised(ProviderError(Some(503)))
  }

  // After its (a + 1)-th try a prompt is tried again exactly when that ended in a provider error of
  // status 429 or 503, fewer than max_retries retries have been made, and there is backoff to wait for:
  // the doubled base, or what is left of the ceiling.
  lemma RetriesExactly(c: Config, p: Prompt, a: nat, x: Run)
    ensures var (o, y) := (Once(c, p, x.calls), Tries(c, p, a, x));
      var wait := Min(Backoff(a + 1, c.base), c.maxBackoff - x.spent);
      if RateLimited(o) && a < c.maxRetries && wait > 0
      then |y.sleeps| > |x.sleeps| && y.sleeps[|x.sleeps|] == wait
      else y.sleeps == x.sleeps && y.calls == x.calls + Cost(c, p)
           && y.failed == (if o.Raised? then x.failed + [p.id] else x.failed)
  {
    var o, wait := Once(c, p, x.calls), Min(Backoff(a + 1, c.base), c.maxBackoff - x.spent);
    TransientIsRateLimited(o);
    hide Once, Cost, Backoff, Transient, RateLimited;
    if o.Raised? && a + 1 <= c.maxRetries && wait > 0 {
      TriesSleepsOn(c, p, a + 1,
                    x.(calls := x.calls + Cost(c, p), spent := x.spent + wait, sleeps := x.sleeps + [wait]));
    }
  }

  lemma TransientIsRateLimited(o: Outcome)
    ensures RateLimited(o) <==> o.Raised? && Transient(o.fault)
  {
  }

  // ---------------------------------------------------------------- sleep

  function Total(xs: seq<int>): int {
    if xs == [] then 0 else Total(xs[..|xs| - 1]) + xs[|xs| - 1]
  }

  lemma TotalPush(xs: seq<int>, x: int)
    ensures Total(xs + [x]) == Total(xs) + x
  {
    assert (xs + [x])[..|xs|] == xs;
  }

  lemma {:induction false} TriesSleep(c: Config, p: Prompt, attempt: nat, x: Run)
    requires 0 <= x.spent <= Max(0, c.maxBackoff)
    ensures var y := Tries(c, p, attempt, x);
      x.spent <= y.spent <= Max(0, c.maxBackoff) && Total(y.sleeps) - y.spent == Total(x.sleeps) - x.spent
    decreases Max(0, c.maxRetries - attempt)
  {
    hide Once, Cost, Backoff, Transient, Total;
    var wait := Min(Backoff(attempt + 1, c.base), c.maxBackoff - x.spent);
    if Once(c, p, x.calls).Raised? && attempt + 1 <= c.maxRetries && wait > 0 {
      var y := x.(calls := x.calls + Cost(c, p), spent := x.spent + wait, sleeps := x.sleeps + [wait]);
      TotalPush(x.sleeps, wait);
      TriesSleep(c, p, attempt + 1, y);
    }
  }

  // Sleep is the pacing, exactly, plus the backoff, which stays under its ceiling.
  lemma {:induction false} SleepIsAccounted(c: Config, suite: seq<Prompt>, n: nat)
    requires n <= |suite|
    ensures var x := Strict(c, suite, n);
      && 0 <= x.spent <= Max(0, c.maxBackoff)
      && Total(x.sleeps) == Spaced(n, c.delay) + x.spent
  {
    if n > 0 {
      SleepIsAccounted(c, suite, n - 1);
      SpacedStep(n, c.delay);
      hide Tries, Spaced, Total;
      var x := Strict(c, suite, n - 1);
      TotalPush(x.sleeps, c.delay);
      TriesSleep(c, suite[n - 1], 0, Paced(c, n - 1, x));
    }
  }

  lemma SpacedStep(n: nat, delay: int)
    requires n > 0
    ensures Spaced(n, delay) == Spaced(n - 1, delay) + (if n > 1 then Max(0, delay) else 0)
  {
    var d := Max(0, delay);
    assert n > 1 ==> (n - 1) * d == (n - 2) * d + d;
  }

  // No provider makes a run sleep longer than its pacing budget.
  lemma SleepWithinBudget(c: Config, suite: seq<Prompt>)
    ensures Total(Strict(c, suite, |suite|).sleeps) <= PacingBudget(|suite|, c.delay, c.maxBackoff)
  {
    SleepIsAccounted(c, suite, |suite|);
  }

  // ---------------------------------------------------------------- calls

  lemma {:induction false} TriesCalls(c: Config, p: Prompt, attempt: nat, x: Run)
    requires attempt <= Max(0, c.maxRetries)
    ensures x.calls + Cost(c, p) <= Tries(c, p, attempt, x).calls <= x.calls + Max(0, c.maxRetries) + 1 - attempt
    decreases Max(0, c.maxRetries - attempt)
  {
    var wait := Min(Backoff(attempt + 1, c.base), c.maxBackoff - x.spent);
    hide Once, Backoff, Transient, Unsupported;
    if Once(c, p, x.calls).Raised? && attempt + 1 <= c.maxRetries && wait > 0 {
      var y := x.(calls := x.calls + Cost(c, p), spent := x.spent + wait, sleeps := x.sleeps + [wait]);
      TriesCalls(c, p, attempt + 1, y);
    }
  }

  // Every prompt is tried, and none more than 1 + max_retries times.
  lemma {:induction false} CallsAreBounded(c: Config, suite: seq<Prompt>, n: nat)
    requires n <= |suite|
    ensures Strict(c, suite, n).calls <= n * (Max(0, c.maxRetries) + 1)
    ensures Configured(c, suite) && !c.mock ==> n <= Strict(c, suite, n).calls
  {
    if n > 0 {
      CallsAreBounded(c, suite, n - 1);
      hide Tries;
      TriesCalls(c, suite[n - 1], 0, Paced(c, n - 1, Strict(c, suite, n - 1)));
      var r := Max(0, c.maxRetries) + 1;
      assert n * r == (n - 1) * r + r;
    }
  }

  // ---------------------------------------------------------------- all or nothing

  // r is what some attempt at p came to.
  ghost predicate Answered(c: Config, p: Prompt, r: CanaryResult) {
    r.promptId == p.id && exists k: nat :: Once(c, p, k) == Done(r)
  }

  // What one prompt may add to a run: its id to the failures, or an answer to the results.
  predicate Fails(p: Prompt, x: Run, y: Run) {
    y.failed == x.failed + [p.id] && y.results == x.results
  }

  ghost predicate Succeeds(c: Config, p: Prompt, x: Run, y: Run) {
    var n := |x.results|;
    y.failed == x.failed && |y.results| == n + 1 && y.results[..n] == x.results && Answered(c, p, y.results[n])
  }

  lemma AnswerNames(c: Config, p: Prompt, k: nat)
    requires Once(c, p, k).Done?
    ensures Answered(c, p, Once(c, p, k).result)
  {
  }

  lemma {:induction false} TriesSettles(c: Config, p: Prompt, attempt: nat, x: Run)
    ensures Fails(p, x, Tries(c, p, attempt, x)) || Succeeds(c, p, x, Tries(c, p, attempt, x))
    decreases Max(0, c.maxRetries - attempt)
  {
    var o := Once(c, p, x.calls);
    if o.Done? { AnswerNames(c, p, x.calls); }
    hide Once, Backoff, Cost, Answered;
    var wait := Min(Backoff(attempt + 1, c.base), c.maxBackoff - x.spent);
    if o.Raised? && attempt + 1 <= c.maxRetries && wait > 0 && Transient(o.fault) {
      var y := x.(calls := x.calls + Cost(c, p), spent := x.spent + wait, sleeps := x.sleeps + [wait]);
      TriesSettles(c, p, attempt + 1, y);
    }
  }

  lemma PromptSettles(c: Config, suite: seq<Prompt>, n: nat)
    requires n < |suite|
    ensures var (x, y) := (Strict(c, suite, n), Strict(c, suite, n + 1));
      Fails(suite[n], x, y) || Succeeds(c, suite[n], x, y)
  {
    hide Tries, Answered;
    TriesSettles(c, suite[n], 0, Paced(c, n, Strict(c, suite, n)));
  }

  // The ids of the prompts whose flag equals `keep`, in suite order.
  function Chosen(suite: seq<Prompt>, flags: seq<bool>, keep: bool): seq<string>
    requires |flags| <= |suite|
  {
    if flags == [] then []
    else
      var n := |flags| - 1;
      Chosen(suite, flags[..n], keep) + (if flags[n] == keep then [suite[n].id] else [])
  }

  function Names(results: seq<CanaryResult>): (names: seq<string>)
    ensures |names| == |results|
  {
    seq(|results|, i requires 0 <= i < |results| => results[i].promptId)
  }

  lemma NamesPush(xs: seq<CanaryResult>, ys: seq<CanaryResult>)
    requires |ys| == |xs| + 1 && ys[..|xs|] == xs
    ensures Names(ys) == Names(xs) + [ys[|xs|].promptId]
  {
  }

  // Completed and failed prompts partition the suite, both in suite order.
  lemma {:induction false} PromptsPartition(c: Config, suite: seq<Prompt>, n: nat) returns (flags: seq<bool>)
    requires n <= |suite|
    ensures |flags| == n
    ensures Names(Strict(c, suite, n).results) == Chosen(suite, flags, true)
    ensures Strict(c, suite, n).failed == Chosen(suite, flags, false)
  {
    if n == 0 {
      flags := [];
    } else {
      var before := PromptsPartition(c, suite, n - 1);
      PromptSettles(c, suite, n - 1);
      var x, y := Strict(c, suite, n - 1), Strict(c, suite, n);
      flags := before + [y.failed == x.failed];
      assert flags[..n - 1] == before;
      hide Strict, Names;
      if y.failed == x.failed { NamesPush(x.results, y.results); }
    }
  }

  lemma {:induction false} PromptsAreCounted(c: Config, suite: seq<Prompt>, n: nat)
    requires n <= |suite|
    ensures |Strict(c, suite, n).results| + |Strict(c, suite, n).failed| == n
  {
    if n > 0 {
      PromptsAreCounted(c, suite, n - 1);
      PromptSettles(c, suite, n - 1);
      hide Strict, Answered;
    }
  }

  // What a complete run returns: one result per prompt, in suite order, each what an attempt at
  // that prompt came to. A run is partial exactly when some prompt failed.
  lemma {:induction false} CompleteIsWholeSuite(c: Config, suite: seq<Prompt>, n: nat)
    requires n <= |suite|
    ensures var x := Strict(c, suite, n);
      && (|x.results| == n <==> x.failed == [])
      && (x.failed == [] ==> forall i :: 0 <= i < n ==> Answered(c, suite[i], x.results[i]))
  {
    PromptsAreCounted(c, suite, n);
    if n > 0 {
      CompleteIsWholeSuite(c, suite, n - 1);
      PromptSettles(c, suite, n - 1);
      hide Strict, Answered;
      var x, y := Strict(c, suite, n - 1), Strict(c, suite, n);
      if y.failed == [] {
        assert |x.results| == n - 1 && y.results[..n - 1] == x.results;
        assert forall i :: 0 <= i < n - 1 ==> y.results[..n - 1][i] == y.results[i];
      }
    }
  }

  // ---------------------------------------------------------------- against the plain runner

  // If no call fails, the strict run gives what the plain run gives (call i answers prompt i), with
  // no retry, no backoff and just the pacing sleeps.
  lemma {:induction false} CleanRunIsPlainRun(c: Config, suite: seq<Prompt>, n: nat)
    requires n <= |suite| && forall i :: 0 <= i < n ==> Once(c, suite[i], i).Done?
    ensures var x := Strict(c, suite, n);
      && x.failed == [] && x.spent == 0 && x.calls == (if c.mock then 0 else n)
      && |x.results| == n && (forall i :: 0 <= i < n ==> Done(x.results[i]) == Once(c, suite[i], i))
      && x.sleeps == if c.delay > 0 && n > 0 then seq(n - 1, i => c.delay) else []
  {
    if n > 0 {
      CleanRunIsPlainRun(c, suite, n - 1);
      hide Scored, MockAnswer, Transient, Backoff;
      var x, p := Strict(c, suite, n - 1), suite[n - 1];
      assert Once(c, p, x.calls) == Once(c, p, n - 1);
      assert Strict(c, suite, n).results == x.results + [Once(c, p, n - 1).result];
    }
  }

  // Pacing changes when calls are made, never what is derived from them.
  lemma {:induction false} DelayOnlySleeps(c: Config, delay: int, suite: seq<Prompt>, n: nat)
    requires n <= |suite|
    ensures var (x, y) := (Strict(c, suite, n), Strict(c.(delay := delay), suite, n));
      x.(sleeps := []) == y.(sleeps := [])
  {
    if n > 0 {
      DelayOnlySleeps(c, delay, suite, n - 1);
      hide Tries;
      var d := c.(delay := delay);
      SleepsDoNotMatter(c, delay, suite[n - 1], 0, Paced(c, n - 1, Strict(c, suite, n - 1)),
                        Paced(d, n - 1, Strict(d, suite, n - 1)));
    }
  }

  lemma {:induction false} SleepsDoNotMatter(c: Config, delay: int, p: Prompt, attempt: nat, x: Run, y: Run)
    requires x.(sleeps := []) == y.(sleeps := [])
    ensures Tries(c, p, attempt, x).(sleeps := []) == Tries(c.(delay := delay), p, attempt, y).(sleeps := [])
    decreases Max(0, c.maxRetries - attempt)
  {
    var d := c.(delay := delay);
    assert Once(c, p, x.calls) == Once(d, p, x.calls) && Cost(c, p) == Cost(d, p);
    hide Once, Cost, Backoff, Transient;
    var wait := Min(Backoff(attempt + 1, c.base), c.maxBackoff - x.spent);
    if Once(c, p, x.calls).Raised? && attempt + 1 <= c.maxRetries && wait > 0 {
      var next := x.(calls := x.calls + Cost(c, p), spent := x.spent + wait, sleeps := x.sleeps + [wait]);
      SleepsDoNotMatter(c, delay, p, attempt + 1, next, next.(sleeps := y.sleeps + [wait]));
    }
  }

  // ---------------------------------------------------------------- outages

  // The backoff a prompt asks for from its retry number a + 1 on.
  function Remaining(c: Config, a: nat): int
    requires a <= c.maxRetries
  {
    c.base * (Pow2(c.maxRetries) - Pow2(a))
  }

  lemma RemainingStep(c: Config, a: nat)
    requires a < c.maxRetries
    ensures Remaining(c, a) == Backoff(a + 1, c.base) + Remaining(c, a + 1)
  {
    var b, p := c.base, Pow2(a);
    assert Pow2(a + 1) == 2 * p;
    assert b * (Pow2(c.maxRetries) - p) == b * p + b * (Pow2(c.maxRetries) - 2 * p);
  }

  lemma {:induction false} Pow2Grows(a: nat, b: nat)
    requires a <= b
    ensures Pow2(a) <= Pow2(b)
  {
    if a < b { Pow2Grows(a, b - 1); }
  }

  lemma BackoffGrows(c: Config, a: nat)
    requires c.base > 0
    ensures Backoff(a + 1, c.base) > 0
    ensures a <= c.maxRetries ==> Remaining(c, a) >= 0
  {
    Positive(c.base, Pow2(a));
    if a <= c.maxRetries {
      Pow2Grows(a, c.maxRetries);
      if Pow2(c.maxRetries) - Pow2(a) > 0 { Positive(c.base, Pow2(c.maxRetries) - Pow2(a)); }
    }
  }

  lemma Positive(x: int, y: int)
    requires x > 0 && y > 0
    ensures x * y > 0
  {
  }

  ghost predicate AlwaysTransient(c: Config) {
    && !c.mock && c.provider.Some? && c.provider.value.rich
    && forall k: nat, p: Prompt :: c.provider.value.reply(k, p).Fail? && Transient(c.provider.value.reply(k, p).fault)
  }

  lemma {:induction false} OutageTries(c: Config, p: Prompt, attempt: nat, x: Run)
    requires AlwaysTransient(c) && c.base > 0 && attempt <= c.maxRetries && 0 <= x.spent <= c.maxBackoff
    ensures var y := Tries(c, p, attempt, x);
      y.spent == Min(c.maxBackoff, x.spent + Remaining(c, attempt)) && y.failed == x.failed + [p.id]
    decreases c.maxRetries - attempt
  {
    var o := Once(c, p, x.calls);
    assert c.provider.value.reply(x.calls, p).Fail?;
    assert o.Raised? && Transient(o.fault);
    BackoffGrows(c, attempt);
    hide Once, Cost, Backoff, Transient, Remaining, AlwaysTransient;
    var wait := Min(Backoff(attempt + 1, c.base), c.maxBackoff - x.spent);
    if attempt + 1 <= c.maxRetries {
      RemainingStep(c, attempt);
      BackoffGrows(c, attempt + 1);
      if wait > 0 {
        var y := x.(calls := x.calls + Cost(c, p), spent := x.spent + wait, sleeps := x.sleeps + [wait]);
        OutageTries(c, p, attempt + 1, y);
      }
    } else {
      NothingRemains(c);
    }
  }

  lemma NothingRemains(c: Config)
    requires c.maxRetries >= 0
    ensures Remaining(c, c.maxRetries) == 0
  {
  }

  // Against a provider that is rate-limited throughout, the run spends exactly the lesser of the
  // ceiling and what its prompts ask for, so the ceiling is reached by every long enough suite.
  lemma {:induction false} OutageSpends(c: Config, suite: seq<Prompt>, n: nat)
    requires AlwaysTransient(c) && c.base > 0 && c.maxRetries >= 0 && c.maxBackoff >= 0 && n <= |suite|
    ensures Strict(c, suite, n).spent == Min(c.maxBackoff, n * Remaining(c, 0))
    ensures |Strict(c, suite, n).failed| == n
  {
    if n > 0 {
      OutageSpends(c, suite, n - 1);
      SleepIsAccounted(c, suite, n - 1);
      BackoffGrows(c, 0);
      hide Tries, Remaining, AlwaysTransient;
      OutageTries(c, suite[n - 1], 0, Paced(c, n - 1, Strict(c, suite, n - 1)));
      var w := Remaining(c, 0);
      assert n * w == (n - 1) * w + w;
    }
  }

  // So the pacing budget is no looser than it must be: under such an outage a suite long enough to ask
  // for the whole ceiling sleeps for exactly its pacing and the ceiling.
  lemma PacingBudgetIsReached(c: Config, suite: seq<Prompt>)
    requires AlwaysTransient(c) && c.base > 0 && c.maxRetries >= 0 && c.maxBackoff >= 0 && |suite| >= 1
    requires |suite| * Remaining(c, 0) >= c.maxBackoff
    ensures Total(Strict(c, suite, |suite|).sleeps) == (|suite| - 1) * Max(0, c.delay) + c.maxBackoff
         == PacingBudget(|suite|, c.delay, c.maxBackoff)
  {
    SleepIsAccounted(c, suite, |suite|);
    OutageSpends(c, suite, |suite|);
    hide Strict, Remaining, Total;
  }

  // A provider whose failures are all transient and never last more than max_retries calls in a row.
  ghost predicate ShortOutages(c: Config) {
    && !c.mock && c.provider.Some? && c.provider.value.rich
    && (forall k: nat, p: Prompt :: c.provider.value.reply(k, p).Fail? ==>
          Transient(c.provider.value.reply(k, p).fault))
    && (forall k: nat :: UpNear(c, k))
  }

  // Some call from number k to number last is answered, whatever the prompt.
  ghost predicate UpWithin(c: Config, k: nat, last: int)
    requires c.provider.Some?
  {
    exists j: nat :: k <= j <= last && Up(c, j)
  }

  ghost predicate UpNear(c: Config, k: nat)
    requires c.provider.Some?
  {
    UpWithin(c, k, k + c.maxRetries)
  }

  ghost predicate Up(c: Config, k: nat)
    requires c.provider.Some?
  {
    forall p: Prompt :: c.provider.value.reply(k, p).Answer?
  }

  lemma {:induction false} ShortOutageTries(c: Config, p: Prompt, attempt: nat, x: Run)
    requires ShortOutages(c) && c.base > 0 && attempt <= c.maxRetries
    requires 0 <= x.spent && x.spent + Remaining(c, attempt) <= c.maxBackoff
    requires UpWithin(c, x.calls, x.calls + c.maxRetries - attempt)
    ensures var y := Tries(c, p, attempt, x);
      y.failed == x.failed && 0 <= y.spent <= x.spent + Remaining(c, attempt)
    decreases c.maxRetries - attempt
  {
    BackoffGrows(c, attempt);
    hide Backoff, Transient, Remaining, Scored;
    var o := Once(c, p, x.calls);
    if o.Raised? {
      assert c.provider.value.reply(x.calls, p).Fail? && Transient(o.fault);
      assert !Up(c, x.calls);
      RemainingStep(c, attempt);
      BackoffGrows(c, attempt + 1);
      var wait := Min(Backoff(attempt + 1, c.base), c.maxBackoff - x.spent);
      assert wait == Backoff(attempt + 1, c.base);
      ShortOutageTries(c, p, attempt + 1,
                       x.(calls := x.calls + 1, spent := x.spent + wait, sleeps := x.sleeps + [wait]));
    }
  }

  // Such outages never cost the window, given backoff room for every prompt's retries.
  lemma {:induction false} ShortOutagesAreSurvived(c: Config, suite: seq<Prompt>, n: nat)
    requires ShortOutages(c) && c.base > 0 && c.maxRetries >= 0 && n <= |suite|
    requires |suite| * Remaining(c, 0) <= c.maxBackoff
    ensures var x := Strict(c, suite, n);
      x.failed == [] && 0 <= x.spent <= n * Remaining(c, 0)
  {
    if n > 0 {
      ShortOutagesAreSurvived(c, suite, n - 1);
      BackoffGrows(c, 0);
      var w := Remaining(c, 0);
      assert n * w == (n - 1) * w + w && n * w <= |suite| * w by { Ordered(n, |suite|, w); }
      assert UpNear(c, Strict(c, suite, n - 1).calls);
      hide Tries, Remaining;
      ShortOutageTries(c, suite[n - 1], 0, Paced(c, n - 1, Strict(c, suite, n - 1)));
    }
  }

  lemma Ordered(m: nat, n: nat, w: int)
    requires m <= n && w >= 0
    ensures m * w <= n * w
  {
  }
}
