// probe/privacy.py: the metrics of a batch before noise, their declared sensitivity, and the
// aggregator's queue.
module Aggregation {
  import opened Common
  import opened CanaryResults

  const MAX_OUTPUT_LENGTH := 320
  const MAX_TOKEN_COUNT := 8192

  datatype Metric = AvgOutputLength | JsonSuccessRate | ToolCallValidityRate | AvgOutputTokens | AvgReasoningTokens

  // ---------------------------------------------------------------- metrics

  function BaseSensitivity(m: Metric): real {
    match m
    case AvgOutputLength => MAX_OUTPUT_LENGTH as real
    case JsonSuccessRate => 1.0
    case ToolCallValidityRate => 1.0
    case AvgOutputTokens => MAX_TOKEN_COUNT as real
    case AvgReasoningTokens => MAX_TOKEN_COUNT as real
  }

  // None stands for the ValueError of an empty batch.
  function Sensitivity(m: Metric, n: int): Option<real> {
    if n < 1 then None else Some(BaseSensitivity(m) / n as real)
  }

  function Clamped(x: int, high: int): real { Max(0, Min(x, high)) as real }

  function OrZero(x: Option<int>): int { if x.Some? then x.value else 0 }

  // What one record adds to a metric's sum.
  function Share(m: Metric, r: CanaryResult): real {
    match m
    case AvgOutputLength => Clamped(r.outputLength, MAX_OUTPUT_LENGTH)
    case JsonSuccessRate => if r.jsonValid then 1.0 else 0.0
    case ToolCallValidityRate => if r.toolValid == Some(true) then 1.0 else 0.0
    case AvgOutputTokens => Clamped(OrZero(r.outputTokens), MAX_TOKEN_COUNT)
    case AvgReasoningTokens => Clamped(OrZero(r.reasoningTokens), MAX_TOKEN_COUNT)
  }

  // Whether a metric is emitted: tool and token metrics only when some record carries them.
  predicate Emitted(m: Metric, rs: seq<CanaryResult>) {
    match m
    case ToolCallValidityRate => exists i :: 0 <= i < |rs| && rs[i].toolValid.Some?
    case AvgOutputTokens => exists i :: 0 <= i < |rs| && rs[i].outputTokens.Some?
    case AvgReasoningTokens => exists i :: 0 <= i < |rs| && rs[i].reasoningTokens.Some?
    case _ => true
  }

  function Shares(m: Metric, rs: seq<CanaryResult>): seq<real> {
    seq(|rs|, i requires 0 <= i < |rs| => Share(m, rs[i]))
  }

  // The metric of a non-empty batch before noise.
  function RawMetric(m: Metric, rs: seq<CanaryResult>): Option<real>
    requires rs != []
  {
    if Emitted(m, rs) then Some(Sum(Shares(m, rs)) / |rs| as real) else None
  }

  // ---------------------------------------------------------------- sensitivity

  lemma ShareBounds(m: Metric, r: CanaryResult)
    ensures 0.0 <= Share(m, r) <= BaseSensitivity(m)
  {
  }

  lemma {:induction false} SumSubstitution(xs: seq<real>, i: nat, y: real)
    requires i < |xs|
    ensures Sum(xs[i := y]) == Sum(xs) - xs[i] + y
  {
    var n := |xs| - 1;
    if i == n {
      assert xs[i := y][..n] == xs[..n];
    } else {
      SumSubstitution(xs[..n], i, y);
      assert xs[i := y][..n] == xs[..n][i := y];
    }
  }

  lemma SharesSubstitution(m: Metric, rs: seq<CanaryResult>, i: nat, r: CanaryResult)
    requires i < |rs|
    ensures Shares(m, rs[i := r]) == Shares(m, rs)[i := Share(m, r)]
  {
    hide Share;
  }

  // Substituting one record moves a metric that both batches emit by at most its declared
  // sensitivity, whatever the records hold: negative or oversized lengths, missing counters.
  lemma SubstitutionWithinSensitivity(m: Metric, rs: seq<CanaryResult>, i: nat, r: CanaryResult)
    requires i < |rs| && Emitted(m, rs) && Emitted(m, rs[i := r])
    ensures RAbs(RawMetric(m, rs[i := r]).value - RawMetric(m, rs).value) <= Sensitivity(m, |rs|).value
  {
    SharesSubstitution(m, rs, i, r);
    SumSubstitution(Shares(m, rs), i, Share(m, r));
    ShareBounds(m, r);
    ShareBounds(m, rs[i]);
    hide Share, Sum, Shares, BaseSensitivity, Emitted;
    MeanMoves(Sum(Shares(m, rs)), Share(m, r) - Share(m, rs[i]), |rs| as real, BaseSensitivity(m));
  }

  lemma MeanMoves(s: real, d: real, n: real, base: real)
    requires n > 0.0 && -base <= d <= base
    ensures RAbs((s + d) / n - s / n) <= base / n
  {
    var m := 1.0 / n;
    Quotients(s + d, n);
    Quotients(s, n);
    Quotients(base, n);
    assert m > 0.0;
    Distribute(m, s, d);
    MonotoneProduct(m, d, base);
    MonotoneProduct(m, -base, d);
    assert m * -base == -(m * base);
  }

  // And no smaller bound would do: some substitution in a batch of every size moves it that far.
  lemma SensitivityIsReached(m: Metric, n: nat) returns (rs: seq<CanaryResult>, r: CanaryResult)
    requires n >= 1
    ensures |rs| == n && Emitted(m, rs) && Emitted(m, rs[0 := r])
    ensures RawMetric(m, rs[0 := r]).value - RawMetric(m, rs).value == Sensitivity(m, n).value
  {
    var low := Least();
    r := Greatest();
    rs := seq(n, i => low);
    assert rs[0] == low && rs[0 := r][0] == r;
    ExtremeShares(m, rs, r);
    SharesSubstitution(m, rs, 0, r);
    SumSubstitution(Shares(m, rs), 0, Share(m, r));
    assert Shares(m, rs)[0] == Share(m, low);
    hide Share, Sum, Shares, BaseSensitivity, Emitted;
    MeansDiffer(Sum(Shares(m, rs)), BaseSensitivity(m), n as real);
  }

  function Least(): CanaryResult {
    CanaryResult("m", "s", "p", "h", 0, false, 0, Some(false), Some(0), Some(0))
  }

  function Greatest(): CanaryResult {
    CanaryResult("m", "s", "p", "h", MAX_OUTPUT_LENGTH, true, 0, Some(true),
                 Some(MAX_TOKEN_COUNT), Some(MAX_TOKEN_COUNT))
  }

  lemma ExtremeShares(m: Metric, rs: seq<CanaryResult>, r: CanaryResult)
    requires rs != [] && rs[0] == Least() && r == Greatest()
    ensures Share(m, r) == BaseSensitivity(m) && Share(m, rs[0]) == 0.0
    ensures Emitted(m, rs) && Emitted(m, rs[0 := r])
  {
    assert rs[0].toolValid.Some? && rs[0].outputTokens.Some? && rs[0].reasoningTokens.Some?;
    assert rs[0 := r][0] == r;
  }

  lemma MeansDiffer(s: real, b: real, k: real)
    requires k > 0.0
    ensures (s + b) / k - s / k == b / k
  {
    Quotients(s + b, k);
    Quotients(s, k);
    Quotients(b, k);
    Distribute(1.0 / k, s, b);
  }

  // ---------------------------------------------------------------- what the metrics count

  lemma {:induction false} IndicatorSum(xs: seq<real>, flags: seq<bool>)
    requires |xs| == |flags| && forall i :: 0 <= i < |xs| ==> xs[i] == if flags[i] then 1.0 else 0.0
    ensures Sum(xs) == |set i: nat | i < |flags| && flags[i]| as real
  {
    if xs != [] {
      var n := |xs| - 1;
      IndicatorSum(xs[..n], flags[..n]);
      var before, after := set i: nat | i < n && flags[..n][i], set i: nat | i < |flags| && flags[i];
      assert after == if flags[n] then before + {n} else before;
    }
  }

  lemma MeanTimesSize(m: Metric, rs: seq<CanaryResult>)
    requires rs != [] && RawMetric(m, rs).Some?
    ensures |rs| as real * RawMetric(m, rs).value == Sum(Shares(m, rs))
  {
    DivideBack(Sum(Shares(m, rs)), |rs| as real);
  }

  // The success rate is the number of records with valid JSON, over all of them.
  lemma JsonRateCounts(rs: seq<CanaryResult>)
    requires rs != []
    ensures RawMetric(JsonSuccessRate, rs).Some?
    ensures |rs| as real * RawMetric(JsonSuccessRate, rs).value == |set i: nat | i < |rs| && rs[i].jsonValid| as real
  {
    var flags := seq(|rs|, i requires 0 <= i < |rs| => rs[i].jsonValid);
    IndicatorSum(Shares(JsonSuccessRate, rs), flags);
    assert (set i: nat | i < |flags| && flags[i]) == (set i: nat | i < |rs| && rs[i].jsonValid);
    MeanTimesSize(JsonSuccessRate, rs);
  }

  // The tool rate is given when some record was asked for a tool call, and is the number of valid calls
  // over all records, those not asked included.
  lemma ToolRateCounts(rs: seq<CanaryResult>)
    requires rs != []
    ensures RawMetric(ToolCallValidityRate, rs).Some? <==> exists r <- rs :: r.toolValid.Some?
    ensures RawMetric(ToolCallValidityRate, rs).Some? ==>
              |rs| as real * RawMetric(ToolCallValidityRate, rs).value
              == |set i: nat | i < |rs| && rs[i].toolValid == Some(true)| as real
  {
    var flags := seq(|rs|, i requires 0 <= i < |rs| => rs[i].toolValid == Some(true));
    IndicatorSum(Shares(ToolCallValidityRate, rs), flags);
    assert (set i: nat | i < |flags| && flags[i]) == (set i: nat | i < |rs| && rs[i].toolValid == Some(true));
    if Emitted(ToolCallValidityRate, rs) { MeanTimesSize(ToolCallValidityRate, rs); }
  }

  // The counters xs, none counting as zero, add up to total once cut to between zero and high.
  ghost predicate AddUp(xs: seq<Option<int>>, high: int, total: real) {
    if xs == [] then total == 0.0
    else
      var x := xs[|xs| - 1];
      AddUp(xs[..|xs| - 1], high,
            total - (if x.None? || x.value < 0 then 0 else if x.value > high then high else x.value) as real)
  }

  lemma {:induction false} CutSum(ys: seq<real>, xs: seq<Option<int>>, high: int)
    requires high >= 0 && |ys| == |xs| && forall i :: 0 <= i < |xs| ==> ys[i] == Clamped(OrZero(xs[i]), high)
    ensures AddUp(xs, high, Sum(ys))
  {
    if xs != [] { CutSum(ys[..|ys| - 1], xs[..|xs| - 1], high); }
  }

  function Lengths(rs: seq<CanaryResult>): seq<Option<int>> {
    seq(|rs|, i requires 0 <= i < |rs| => Some(rs[i].outputLength))
  }

  function AnswerTokens(rs: seq<CanaryResult>): seq<Option<int>> {
    seq(|rs|, i requires 0 <= i < |rs| => rs[i].outputTokens)
  }

  function ReasonTokens(rs: seq<CanaryResult>): seq<Option<int>> {
    seq(|rs|, i requires 0 <= i < |rs| => rs[i].reasoningTokens)
  }

  // n times the metric is what the counters of the n records add up to.
  ghost predicate Averages(m: Metric, rs: seq<CanaryResult>, xs: seq<Option<int>>, high: int)
    requires rs != []
  {
    RawMetric(m, rs).Some? ==> AddUp(xs, high, |rs| as real * RawMetric(m, rs).value)
  }

  // The averages: of the lengths, each cut to 320, over every batch; of either token counter, each cut
  // to 8192, where some record carries that counter.
  lemma AveragesAdd(rs: seq<CanaryResult>)
    requires rs != []
    ensures RawMetric(AvgOutputLength, rs).Some?
    ensures RawMetric(AvgOutputTokens, rs).Some? <==> exists r <- rs :: r.outputTokens.Some?
    ensures RawMetric(AvgReasoningTokens, rs).Some? <==> exists r <- rs :: r.reasoningTokens.Some?
    ensures Averages(AvgOutputLength, rs, Lengths(rs), 320)
    ensures Averages(AvgOutputTokens, rs, AnswerTokens(rs), 8192)
    ensures Averages(AvgReasoningTokens, rs, ReasonTokens(rs), 8192)
  {
    hide Averages, RawMetric, Clamped, Sum;
    MeanAddsUp(AvgOutputLength, rs, Lengths(rs), 320);
    MeanAddsUp(AvgOutputTokens, rs, AnswerTokens(rs), 8192);
    MeanAddsUp(AvgReasoningTokens, rs, ReasonTokens(rs), 8192);
    assert Emitted(AvgOutputTokens, rs) <==> exists r <- rs :: r.outputTokens.Some?;
    assert Emitted(AvgReasoningTokens, rs) <==> exists r <- rs :: r.reasoningTokens.Some?;
  }

  lemma MeanAddsUp(m: Metric, rs: seq<CanaryResult>, xs: seq<Option<int>>, high: int)
    requires rs != [] && high >= 0 && |xs| == |rs|
    requires forall i :: 0 <= i < |rs| ==> Share(m, rs[i]) == Clamped(OrZero(xs[i]), high)
    ensures RawMetric(m, rs).Some? <==> Emitted(m, rs)
    ensures Averages(m, rs, xs, high)
  {
    CutSum(Shares(m, rs), xs, high);
    if Emitted(m, rs) {
      MeanTimesSize(m, rs);
      SameTotal(xs, high, Sum(Shares(m, rs)), |rs| as real * RawMetric(m, rs).value);
    }
    assert RawMetric(m, rs).Some? ==> AddUp(xs, high, |rs| as real * RawMetric(m, rs).value);
  }

  lemma SameTotal(xs: seq<Option<int>>, high: int, a: real, b: real)
    requires AddUp(xs, high, a) && a == b
    ensures AddUp(xs, high, b)
  {
  }

  // What a substitution can move, in figures: 320 over n for the length, 8192 over n for a token
  // counter, one record's share for a rate; an empty batch has no sensitivity.
  lemma SensitivityInFigures(m: Metric, n: int)
    ensures Sensitivity(m, n).None? <==> n <= 0
    ensures n >= 1 ==>
              n as real * Sensitivity(m, n).value
              == (if m == AvgOutputLength then 320.0 else if m == AvgOutputTokens || m == AvgReasoningTokens
                  then 8192.0 else 1.0)
  {
    if n >= 1 { DivideBack(BaseSensitivity(m), n as real); }
  }

  // ---------------------------------------------------------------- the queue

  // Results staged per model, models in the order they were first staged.
  datatype Entry = Entry(model: string, results: seq<CanaryResult>)

  type Queue = q: seq<Entry> | forall i, j :: 0 <= i < j < |q| ==> q[i].model != q[j].model

  function Find(q: Queue, model: string): (i: nat)
    ensures i <= |q|
    ensures i < |q| ==> q[i].model == model
    ensures forall j :: 0 <= j < i ==> q[j].model != model
  {
    if q == [] then 0
    else
      var i := Find(q[..|q| - 1], model);
      if i < |q| - 1 then i else if q[|q| - 1].model == model then |q| - 1 else |q|
  }

  function Added(q: Queue, r: CanaryResult): Queue {
    var i := Find(q, r.model);
    if i < |q| then q[i := Entry(r.model, q[i].results + [r])] else q + [Entry(r.model, [r])]
  }

  function Removed(q: Queue, model: string): Queue {
    var i := Find(q, model);
    if i < |q| then q[..i] + q[i + 1..] else q
  }

  // Everything staged, whatever the model.
  function Staged(q: seq<Entry>): multiset<CanaryResult> {
    if q == [] then multiset{} else Staged(q[..|q| - 1]) + multiset(q[|q| - 1].results)
  }

  lemma {:induction false} StagedAppend(a: seq<Entry>, b: seq<Entry>)
    ensures Staged(a + b) == Staged(a) + Staged(b)
  {
    if b == [] {
      assert a + b == a;
    } else {
      assert (a + b)[..|a + b| - 1] == a + b[..|b| - 1];
      StagedAppend(a, b[..|b| - 1]);
    }
  }

  lemma StagedAt(q: seq<Entry>, i: nat)
    requires i < |q|
    ensures Staged(q) == Staged(q[..i]) + multiset(q[i].results) + Staged(q[i + 1..])
  {
    assert q == q[..i + 1] + q[i + 1..];
    assert q[..i + 1][..i] == q[..i];
    assert Staged(q[..i + 1]) == Staged(q[..i]) + multiset(q[i].results);
    hide Staged;
    StagedAppend(q[..i + 1], q[i + 1..]);
  }

  // Adding stages exactly the new result; removing a model takes exactly its own.
  lemma AddedStages(q: Queue, r: CanaryResult)
    ensures Staged(Added(q, r)) == Staged(q) + multiset{r}
  {
    var i := Find(q, r.model);
    var q' := Added(q, r);
    if i < |q| {
      StagedAt(q, i);
      StagedAt(q', i);
      assert q'[..i] == q[..i] && q'[i + 1..] == q[i + 1..];
    } else {
      StagedAppend(q, [Entry(r.model, [r])]);
      assert [Entry(r.model, [r])][..0] == [];
    }
  }

  lemma RemovedStages(q: Queue, model: string)
    ensures Staged(q) == Staged(Removed(q, model))
                       + (if Find(q, model) < |q| then multiset(q[Find(q, model)].results) else multiset{})
  {
    var i := Find(q, model);
    if i < |q| {
      StagedAt(q, i);
      StagedAppend(q[..i], q[i + 1..]);
    }
  }

  // Results are kept by model, models in the order of their first result.
  function Models(q: Queue): seq<string> { seq(|q|, i requires 0 <= i < |q| => q[i].model) }

  ghost predicate Holds(q: Queue, model: string, rs: seq<CanaryResult>) {
    if model in Models(q) then exists i :: 0 <= i < |q| && q[i] == Entry(model, rs) else rs == []
  }

  lemma ModelsListed(q: Queue)
    ensures forall e <- q :: e.model in Models(q)
  {
    forall e <- q
      ensures e.model in Models(q)
    {
      var i :| 0 <= i < |q| && q[i] == e;
      assert Models(q)[i] == e.model;
    }
  }

  // A result joins its own model's list, at its end, and touches no other; a new model comes last.
  lemma AddedJoinsItsModel(q: Queue, r: CanaryResult, model: string, rs: seq<CanaryResult>)
    requires Holds(q, model, rs)
    ensures Holds(Added(q, r), model, if model == r.model then rs + [r] else rs)
    ensures Models(Added(q, r)) == if r.model in Models(q) then Models(q) else Models(q) + [r.model]
  {
    var i, q' := Find(q, r.model), Added(q, r);
    if r.model in Models(q) {
      var j :| 0 <= j < |q| && Models(q)[j] == r.model;
      assert q[j].model == r.model && i < |q|;
      assert Models(q') == Models(q);
    } else {
      ModelsListed(q);
      assert Models(q') == Models(q) + [r.model];
      assert q'[|q|] == Entry(r.model, [r]);
    }
    if model in Models(q) {
      var j :| 0 <= j < |q| && q[j] == Entry(model, rs);
      assert model == r.model ==> i == j;
      assert q'[j] == Entry(model, if model == r.model then rs + [r] else rs);
    }
  }

  // Flushing a model takes its list out whole and leaves the others, in their order.
  lemma RemovedTakesItsModel(q: Queue, gone: string, model: string, rs: seq<CanaryResult>)
    requires Holds(q, model, rs)
    ensures Holds(Removed(q, gone), model, if model == gone then [] else rs)
    ensures gone !in Models(Removed(q, gone))
  {
    var i, q' := Find(q, gone), Removed(q, gone);
    forall j | 0 <= j < |q'|
      ensures q'[j].model != gone
    {
      assert i < |q| ==> q'[j] == q[if j < i then j else j + 1];
    }
    if model in Models(q) && model != gone {
      var j :| 0 <= j < |q| && q[j] == Entry(model, rs);
      var k := if i < |q| && i < j then j - 1 else j;
      assert q'[k] == q[j] && Models(q')[k] == model;
    } else {
      ModelsListed(q);
      forall j | 0 <= j < |q'|
        ensures Models(q')[j] != model
      {
        assert q'[j] in q;
      }
    }
  }

  datatype FlushError = NothingPending | MixedSuites

  predicate OneSuite(rs: seq<CanaryResult>) {
    forall i, j :: 0 <= i < |rs| && 0 <= j < |rs| ==> rs[i].suite == rs[j].suite
  }

  // The results a flush of one model would put into its batch, or why it raises.
  function Flushable(q: Queue, model: string): (r: Option<seq<CanaryResult>>)
  {
    var i := Find(q, model);
    if i < |q| && q[i].results != [] && OneSuite(q[i].results) then Some(q[i].results) else None
  }

  class Aggregator {
    var pending: Queue

    constructor ()
      ensures pending == []
    {
      pending := [];
    }

    method AddResult(r: CanaryResult)
      modifies this
      ensures pending == Added(old(pending), r)
    {
      var i := Find(pending, r.model);
      if i == |pending| {
        pending := pending + [Entry(r.model, [])];
        assert [] + [r] == [r];
      }
      pending := pending[i := Entry(r.model, pending[i].results + [r])];
      assert pending == Added(old(pending), r);
    }

    method ClearAll()
      modifies this
      ensures pending == []
    {
      pending := [];
    }

    // The batch's results; the queue entry goes only once the batch is whole.
    method Flush(model: string) returns (batch: Option<seq<CanaryResult>>, error: Option<FlushError>)
      modifies this
      ensures batch == Flushable(old(pending), model)
      ensures pending == if batch.Some? then Removed(old(pending), model) else old(pending)
      ensures batch.None? <==> error.Some?
      ensures error == Some(MixedSuites) ==>
                Find(pending, model) < |pending| && !OneSuite(pending[Find(pending, model)].results)
    {
      var i := Find(pending, model);
      if i == |pending| || pending[i].results == [] {
        return None, Some(NothingPending);
      }
      if !OneSuite(pending[i].results) {
        return None, Some(MixedSuites);
      }
      batch, error := Some(pending[i].results), None;
      pending := pending[..i] + pending[i + 1..];
    }
  }
}
