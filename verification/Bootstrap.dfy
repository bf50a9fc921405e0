// gateway/main.py bootstrap_detector, and what a restart of the gateway changes.
module Bootstrap {
  import opened Common
  import opened Detector
  import opened DetectorStreams
  import opened AgreementScorer
  import opened Gateway

  const LIMIT := 50

  function AsSeq<T>(o: Option<T>): seq<T> { if o.Some? then [o.value] else [] }

  // A row written before the column existed lands in the legacy bucket.
  function SuiteOf(r: Row): string { if r.suite.Some? then r.suite.value else "" }

  function Stored(r: Row, metric: string): Option<real> {
    if metric == "json_success_rate" then r.jsonRate
    else if metric == "avg_output_length" then r.outputLength
    else None
  }

  predicate Replayed(metric: string) { metric == "json_success_rate" || metric == "avg_output_length" }

  function MetricSample(r: Row, metric: string): seq<Sample> {
    var v := Stored(r, metric);
    if v.Some? then [Sample(Key(r.model, SuiteOf(r), metric), v.value)] else []
  }

  function RowSamples(r: Row): seq<Sample> {
    MetricSample(r, "json_success_rate") + MetricSample(r, "avg_output_length")
  }

  function AllSamples(rows: seq<Row>): seq<Sample> {
    if rows == [] then [] else AllSamples(rows[..|rows| - 1]) + RowSamples(rows[|rows| - 1])
  }

  function OfModel(rows: seq<Row>, model: string): seq<Row> {
    if rows == [] then []
    else
      OfModel(rows[..|rows| - 1], model)
      + (if rows[|rows| - 1].model == model then [rows[|rows| - 1]] else [])
  }

  // get_recent_signals(limit=50), oldest first.
  function Recent(rows: seq<Row>, model: string): seq<Row> {
    var mine := OfModel(rows, model);
    if |mine| <= LIMIT then mine else mine[|mine| - LIMIT..]
  }

  // A restart looks at the last fifty rows of a model, or at all of fewer, oldest first.
  lemma RecentAreLastFifty(rows: seq<Row>, model: string)
    ensures var (recent, mine) := (Recent(rows, model), OfModel(rows, model));
      && |recent| == Min(|mine|, 50) && recent == mine[|mine| - |recent|..]
      && forall r :: r in mine <==> r in rows && r.model == model
  {
    OfModelIs(rows, model);
    hide OfModel;
  }

  lemma {:induction false} OfModelIs(rows: seq<Row>, model: string)
    ensures forall r :: r in OfModel(rows, model) <==> r in rows && r.model == model
  {
    if rows != [] {
      OfModelIs(rows[..|rows| - 1], model);
      assert rows == rows[..|rows| - 1] + [rows[|rows| - 1]];
    }
  }

  function ReplaySamples(rows: seq<Row>, models: seq<string>): seq<Sample> {
    if models == [] then []
    else ReplaySamples(rows, models[..|models| - 1]) + AllSamples(Recent(rows, models[|models| - 1]))
  }

  // ---------------------------------------------------------------- the method

  // models is the repository's list of distinct model tuples.
  method BootstrapDetector(c: Config, detector: Streams, rows: seq<Row>, models: seq<string>)
    returns (warmed: Streams, total: nat)
    ensures warmed == FeedAll(c, detector, ReplaySamples(rows, models))
    ensures total == |ReplaySamples(rows, models)|
  {
    hide Feed, Recent, RowSamples;
    warmed, total := detector, 0;
    for m := 0 to |models|
      invariant warmed == FeedAll(c, detector, ReplaySamples(rows, models[..m]))
      invariant total == |ReplaySamples(rows, models[..m])|
    {
      assert models[..m + 1][..m] == models[..m];
      ghost var before := warmed;
      var signals := Recent(rows, models[m]);
      for i := 0 to |signals|
        invariant warmed == FeedAll(c, before, AllSamples(signals[..i]))
        invariant total == |ReplaySamples(rows, models[..m])| + |AllSamples(signals[..i])|
      {
        assert signals[..i + 1][..i] == signals[..i];
        var n: nat;
        ghost var mid := warmed;
        warmed, n := ReplayRow(c, warmed, signals[i]);
        total := total + n;
        FeedAllAppend(c, before, AllSamples(signals[..i]), RowSamples(signals[i]));
      }
      assert signals[..|signals|] == signals;
      FeedAllAppend(c, detector, ReplaySamples(rows, models[..m]), AllSamples(signals));
    }
    assert models[..|models|] == models;
  }

  method ReplayRow(c: Config, detector: Streams, r: Row) returns (warmed: Streams, n: nat)
    ensures warmed == FeedAll(c, detector, RowSamples(r)) && n == |RowSamples(r)|
  {
    hide Feed;
    warmed, n := detector, 0;
    if r.jsonRate.Some? {
      warmed, n := Feed(c, warmed, Key(r.model, SuiteOf(r), "json_success_rate"), r.jsonRate.value), n + 1;
    }
    if r.outputLength.Some? {
      warmed, n := Feed(c, warmed, Key(r.model, SuiteOf(r), "avg_output_length"), r.outputLength.value), n + 1;
    }
    var a, b := MetricSample(r, "json_success_rate"), MetricSample(r, "avg_output_length");
    FeedAllAppend(c, detector, a, b);
    forall s: Streams, x: Sample
      ensures FeedAll(c, s, [x]) == Feed(c, s, x.key, x.value)
    {
      assert [x][..0] == [];
    }
  }

  // ---------------------------------------------------------------- what a stream gets

  // The stored values of a stream, in order of storage.
  function StoredValues(rows: seq<Row>, k: Key): seq<real> {
    if rows == [] then []
    else
      var r := rows[|rows| - 1];
      StoredValues(rows[..|rows| - 1], k)
      + (if r.model == k.model && SuiteOf(r) == k.suite then AsSeq(Stored(r, k.metric)) else [])
  }

  lemma RowSamplesValues(r: Row, k: Key)
    ensures ValuesOf(RowSamples(r), k)
         == if r.model == k.model && SuiteOf(r) == k.suite then AsSeq(Stored(r, k.metric)) else []
  {
    var a, b := MetricSample(r, "json_success_rate"), MetricSample(r, "avg_output_length");
    ValuesOfAppend(a, b, k);
    forall x: Sample
      ensures ValuesOf([x], k) == if x.key == k then [x.value] else []
    {
      assert [x][..0] == [];
    }
  }

  lemma {:induction false} AllSamplesValues(rows: seq<Row>, k: Key)
    ensures ValuesOf(AllSamples(rows), k) == StoredValues(rows, k)
  {
    hide Stored, SuiteOf, RowSamples;
    if rows != [] {
      var n := |rows| - 1;
      AllSamplesValues(rows[..n], k);
      ValuesOfAppend(AllSamples(rows[..n]), RowSamples(rows[n]), k);
      RowSamplesValues(rows[n], k);
    }
  }

  predicate DistinctModels(models: seq<string>) {
    forall i, j :: 0 <= i < j < |models| ==> models[i] != models[j]
  }

  ghost predicate Lists(models: seq<string>, rows: seq<Row>) {
    DistinctModels(models) && forall r <- rows :: r.model in models
  }

  lemma {:induction false} OtherModelValues(rows: seq<Row>, k: Key)
    requires forall r <- rows :: r.model != k.model
    ensures StoredValues(rows, k) == []
  {
    if rows != [] {
      OtherModelValues(rows[..|rows| - 1], k);
      assert rows[|rows| - 1] in rows;
    }
  }

  lemma {:induction false} OfModelOnly(rows: seq<Row>, model: string)
    ensures forall r <- OfModel(rows, model) :: r.model == model && r in rows
  {
    if rows != [] {
      OfModelOnly(rows[..|rows| - 1], model);
    }
  }

  lemma {:induction false} OfModelValues(rows: seq<Row>, k: Key)
    ensures StoredValues(OfModel(rows, k.model), k) == StoredValues(rows, k)
  {
    hide Stored, SuiteOf;
    if rows != [] {
      var n := |rows| - 1;
      OfModelValues(rows[..n], k);
      var front := OfModel(rows[..n], k.model);
      if rows[n].model == k.model {
        assert (front + [rows[n]])[..|front|] == front;
      } else {
        assert front + [] == front;
      }
    }
  }

  lemma {:induction false} ReplayValues(rows: seq<Row>, models: seq<string>, k: Key)
    requires DistinctModels(models)
    ensures ValuesOf(ReplaySamples(rows, models), k)
         == if k.model in models then StoredValues(Recent(rows, k.model), k) else []
  {
    hide Stored, SuiteOf, Recent;
    if models != [] {
      var n := |models| - 1;
      ReplayValues(rows, models[..n], k);
      ValuesOfAppend(ReplaySamples(rows, models[..n]), AllSamples(Recent(rows, models[n])), k);
      AllSamplesValues(Recent(rows, models[n]), k);
      if models[n] != k.model {
        RecentOnly(rows, models[n]);
        OtherModelValues(Recent(rows, models[n]), k);
      }
    }
  }

  lemma RecentOnly(rows: seq<Row>, model: string)
    ensures forall r <- Recent(rows, model) :: r.model == model
  {
    OfModelOnly(rows, model);
  }

  // After bootstrap a stream is a fresh one fed its model's last 50 rows, oldest first, split by
  // suite; streams of unreplayed metrics start cold.
  lemma BootstrapStream(c: Config, rows: seq<Row>, models: seq<string>, k: Key)
    requires Lists(models, rows)
    ensures StreamAt(FeedAll(c, map[], ReplaySamples(rows, models)), k)
         == Detector.Run(c, Fresh, StoredValues(Recent(rows, k.model), k))
    ensures !Replayed(k.metric) ==> StoredValues(Recent(rows, k.model), k) == []
  {
    StreamsAreIndependent(c, map[], ReplaySamples(rows, models), k);
    ReplayValues(rows, models, k);
    if k.model !in models {
      NoRows(rows, k.model);
    }
    if !Replayed(k.metric) {
      Unreplayed(Recent(rows, k.model), k);
    }
  }

  lemma {:induction false} NoRows(rows: seq<Row>, model: string)
    requires forall r <- rows :: r.model != model
    ensures OfModel(rows, model) == []
  {
    if rows != [] {
      NoRows(rows[..|rows| - 1], model);
      assert rows[|rows| - 1] in rows;
    }
  }

  lemma {:induction false} Unreplayed(rows: seq<Row>, k: Key)
    requires !Replayed(k.metric)
    ensures StoredValues(rows, k) == []
  {
    if rows != [] { Unreplayed(rows[..|rows| - 1], k); }
  }

  // ---------------------------------------------------------------- lifetimes

  // A request, or a restart that rebuilds the in-memory state from the rows.
  datatype Event = Arrive(a: Arrival) | Restart(models: seq<string>)

  function Restarted(s: Setup, g: State, models: seq<string>): State {
    g.(detector := FeedAll(s.c, map[], ReplaySamples(g.rows, models)), fleets := map[], scorer := EmptyBook)
  }

  function Live(s: Setup, es: seq<Event>): State
    requires GoodSetup(s)
  {
    if es == [] then Empty
    else
      var g := Live(s, es[..|es| - 1]);
      match es[|es| - 1]
      case Arrive(a) => Receive(s, g, a).0
      case Restart(models) => Restarted(s, g, models)
  }

  predicate UniqueNames(b: Batch) {
    forall i, j :: 0 <= i < j < |b.metrics| ==> b.metrics[i].name != b.metrics[j].name
  }

  // Metrics are dictionaries, and each restart is told every stored model.
  ghost predicate Proper(s: Setup, es: seq<Event>)
    requires GoodSetup(s)
  {
    es == [] ||
    (&& Proper(s, es[..|es| - 1])
     && match es[|es| - 1]
        case Arrive(a) => UniqueNames(a.batch)
        case Restart(models) => Lists(models, Live(s, es[..|es| - 1]).rows))
  }

  lemma {:induction false} BatchValues(b: Batch, n: nat, k: Key)
    requires n <= |b.metrics| && UniqueNames(b)
    ensures ValuesOf(SamplesOf(b, n), k)
         == if k.model == b.model && k.suite == b.suite then AsSeq(Lookup(b.metrics[..n], k.metric)) else []
  {
    if n > 0 {
      BatchValues(b, n - 1, k);
      assert SamplesOf(b, n)[..n - 1] == SamplesOf(b, n - 1);
      assert b.metrics[..n][..n - 1] == b.metrics[..n - 1];
      if b.metrics[n - 1].name == k.metric {
        NoEarlier(b.metrics[..n - 1], k.metric);
      }
    }
  }

  lemma {:induction false} NoEarlier(ms: seq<Metric>, name: string)
    requires forall i :: 0 <= i < |ms| ==> ms[i].name != name
    ensures Lookup(ms, name) == None
  {
    if ms != [] { NoEarlier(ms[..|ms| - 1], name); }
  }

  lemma RowValues(b: Batch, k: Key)
    requires UniqueNames(b) && Replayed(k.metric)
    ensures ValuesOf(SamplesOf(b, |b.metrics|), k)
         == if k.model == b.model && k.suite == b.suite then AsSeq(Stored(RowOf(b), k.metric)) else []
  {
    BatchValues(b, |b.metrics|, k);
    assert b.metrics[..|b.metrics|] == b.metrics;
  }

  // ---------------------------------------------------------------- what a restart changes

  // How many rows the last restart saw; none, when there was none.
  function Base(s: Setup, es: seq<Event>): nat
    requires GoodSetup(s)
  {
    if es == [] then 0
    else if es[|es| - 1].Restart? then |Live(s, es[..|es| - 1]).rows|
    else Base(s, es[..|es| - 1])
  }

  predicate StoresFor(r: Row, k: Key) {
    r.model == k.model && SuiteOf(r) == k.suite && Stored(r, k.metric).Some?
  }

  // The values of k that came in on the public lane.
  function PublicValues(rows: seq<Row>, k: Key): seq<real> {
    if rows == [] then []
    else
      var r := rows[|rows| - 1];
      PublicValues(rows[..|rows| - 1], k) + (if r.fleet == None then RowValue(r, k) else [])
  }

  // Some private row stores a value for k.
  predicate PrivateIn(rows: seq<Row>, k: Key) {
    exists i :: 0 <= i < |rows| && rows[i].fleet.Some? && StoresFor(rows[i], k)
  }

  // The values the public stream k has been fed: by the last restart the most recent ones it saw,
  // whatever lane they came in on, and the public ones since.
  function FedValues(rows: seq<Row>, base: nat, k: Key): seq<real>
    requires base <= |rows|
  {
    StoredValues(Recent(rows[..base], k.model), k) + PublicValues(rows[base..], k)
  }

  lemma {:induction false} PublicIsStored(rows: seq<Row>, k: Key)
    ensures |PublicValues(rows, k)| <= |StoredValues(rows, k)|
    ensures PrivateIn(rows, k) ==> |PublicValues(rows, k)| < |StoredValues(rows, k)|
    ensures !PrivateIn(rows, k) ==> PublicValues(rows, k) == StoredValues(rows, k)
  {
    hide Stored, SuiteOf;
    if rows != [] {
      var n := |rows| - 1;
      PublicIsStored(rows[..n], k);
      assert PrivateIn(rows, k) <==> PrivateIn(rows[..n], k) || (rows[n].fleet.Some? && StoresFor(rows[n], k));
    }
  }

  lemma FedPush(rows: seq<Row>, r: Row, base: nat, k: Key)
    requires base <= |rows|
    ensures FedValues(rows + [r], base, k)
         == FedValues(rows, base, k) + (if r.fleet == None then RowValue(r, k) else [])
  {
    assert (rows + [r])[..base] == rows[..base] && (rows + [r])[base..] == rows[base..] + [r];
    assert (rows[base..] + [r])[..|rows| - base] == rows[base..];
    hide RowValue, StoredValues, Recent;
  }

  function RowValue(r: Row, k: Key): seq<real> { if StoresFor(r, k) then [Stored(r, k.metric).value] else [] }

  // A batch adds to a stream the value its row stores for it, if any.
  lemma BatchFeeds(c: Config, t: Streams, b: Batch, past: seq<real>, k: Key)
    requires UniqueNames(b) && Replayed(k.metric) && StreamAt(t, k) == Detector.Run(c, Fresh, past)
    ensures StreamAt(FeedAll(c, t, SamplesOf(b, |b.metrics|)), k)
         == Detector.Run(c, Fresh, past + RowValue(RowOf(b), k))
  {
    RowValues(b, k);
    hide SamplesOf, Detector.Run;
    StreamsAreIndependent(c, t, SamplesOf(b, |b.metrics|), k);
    RunAppend(c, Fresh, past, ValuesOf(SamplesOf(b, |b.metrics|), k));
  }

  lemma ArrivalFeeds(s: Setup, g: State, a: Arrival, base: nat, k: Key)
    requires GoodSetup(s) && UniqueNames(a.batch) && Replayed(k.metric) && base <= |g.rows|
    requires StreamAt(g.detector, k) == Detector.Run(s.c, Fresh, FedValues(g.rows, base, k))
    ensures var h := Receive(s, g, a).0;
      base <= |h.rows| && StreamAt(h.detector, k) == Detector.Run(s.c, Fresh, FedValues(h.rows, base, k))
  {
    ReceivedRows(s, g, a);
    hide Accept, SamplesOf, FedValues, RowValue, RowOf, Detector.Run;
    var b, past := a.batch, FedValues(g.rows, base, k);
    AcceptStores(s, g, a);
    AcceptFeeds(s, g, a, None);
    FedPush(g.rows, RowOf(b), base, k);
    LaneOfRow(b);
    assert past + [] == past;
    BatchFeeds(s.c, g.detector, b, past, k);
  }

  lemma ReceivedRows(s: Setup, g: State, a: Arrival)
    requires GoodSetup(s)
    ensures Receive(s, g, a).0.rows == g.rows || Receive(s, g, a).0.rows == g.rows + [RowOf(a.batch)]
  {
    AcceptStores(s, g, a);
    hide Accept;
  }

  lemma LaneOfRow(b: Batch)
    ensures RowOf(b).fleet == b.fleet
  {
  }

  // Where a replay of the model's rows starts: all but the last 50 are cut off.
  function Cut(rows: seq<Row>, model: string): (c: nat)
    ensures c <= |OfModel(rows, model)|
  {
    Max(0, |OfModel(rows, model)| - LIMIT)
  }

  // A row the last restart replayed, or one that came in since, is now too old for a replay and
  // stores a value for k.
  predicate NewlyCut(rows: seq<Row>, base: nat, k: Key)
    requires base <= |rows|
  {
    var mine := OfModel(rows, k.model);
    exists i :: Cut(rows[..base], k.model) <= i < Cut(rows, k.model) && StoresFor(mine[i], k)
  }

  lemma {:induction false} StoredAppend(a: seq<Row>, b: seq<Row>, k: Key)
    ensures StoredValues(a + b, k) == StoredValues(a, k) + StoredValues(b, k)
  {
    hide Stored, SuiteOf;
    if b == [] {
      assert a + b == a;
    } else {
      assert (a + b)[..|a + b| - 1] == a + b[..|b| - 1];
      StoredAppend(a, b[..|b| - 1], k);
    }
  }

  lemma {:induction false} StoredNone(rows: seq<Row>, k: Key)
    ensures StoredValues(rows, k) == [] <==> forall i :: 0 <= i < |rows| ==> !StoresFor(rows[i], k)
  {
    hide Stored, SuiteOf;
    if rows != [] { StoredNone(rows[..|rows| - 1], k); }
  }

  lemma {:induction false} OfModelAppend(a: seq<Row>, b: seq<Row>, model: string)
    ensures OfModel(a + b, model) == OfModel(a, model) + OfModel(b, model)
  {
    if b == [] {
      assert a + b == a;
    } else {
      assert (a + b)[..|a + b| - 1] == a + b[..|b| - 1];
      OfModelAppend(a, b[..|b| - 1], model);
    }
  }

  lemma {:induction false} StreamIsFed(s: Setup, es: seq<Event>, k: Key)
    requires GoodSetup(s) && Proper(s, es) && Replayed(k.metric)
    ensures Base(s, es) <= |Live(s, es).rows|
    ensures StreamAt(Live(s, es).detector, k)
         == Detector.Run(s.c, Fresh, FedValues(Live(s, es).rows, Base(s, es), k))
  {
    hide Receive, FedValues;
    if es == [] {
      NothingFed(k);
    } else {
      var front := es[..|es| - 1];
      var g := Live(s, front);
      StreamIsFed(s, front, k);
      match es[|es| - 1] {
        case Arrive(a) =>
          ReceivedRows(s, g, a);
          ArrivalFeeds(s, g, a, Base(s, front), k);
        case Restart(models) =>
          BootstrapStream(s.c, g.rows, models, k);
          JustReplayed(g.rows, k);
      }
    }
  }

  lemma NothingFed(k: Key)
    ensures FedValues([], 0, k) == []
  {
  }

  lemma JustReplayed(rows: seq<Row>, k: Key)
    ensures FedValues(rows, |rows|, k) == StoredValues(Recent(rows, k.model), k)
  {
    assert rows[..|rows|] == rows && rows[|rows|..] == [];
    hide StoredValues, Recent;
  }

  // A slice of the model's rows with no value for k is the empty difference between two replays.
  lemma SliceValues(mine: seq<Row>, from: nat, to: nat, k: Key)
    requires from <= to <= |mine|
    ensures StoredValues(mine[from..], k) == StoredValues(mine[from..to], k) + StoredValues(mine[to..], k)
    ensures StoredValues(mine[from..to], k) == [] <==> forall i :: from <= i < to ==> !StoresFor(mine[i], k)
  {
    assert mine[from..] == mine[from..to] + mine[to..];
    StoredAppend(mine[from..to], mine[to..], k);
    StoredNone(mine[from..to], k);
    hide StoresFor;
    assert forall i :: from <= i < to ==> mine[i] == mine[from..to][i - from];
  }

  // What was fed against what another restart would replay: the one lacks the private values since
  // the last restart, the other the values newly cut off.
  lemma FedAgainstReplay(rows: seq<Row>, base: nat, k: Key)
    requires base <= |rows|
    ensures var (fed, seen) := (FedValues(rows, base, k), StoredValues(Recent(rows, k.model), k));
      && (!PrivateIn(rows[base..], k) && !NewlyCut(rows, base, k) ==> fed == seen)
      && (PrivateIn(rows[base..], k) && !NewlyCut(rows, base, k) ==> |fed| < |seen|)
      && (!PrivateIn(rows[base..], k) && NewlyCut(rows, base, k) ==> |fed| > |seen|)
  {
    var mine, from, to := OfModel(rows, k.model), Cut(rows[..base], k.model), Cut(rows, k.model);
    ReplayGrows(rows, base, k);
    RecentIs(rows, k.model);
    SliceValues(mine, from, to, k);
    PublicIsStored(rows[base..], k);
    hide OfModel, StoredValues, PublicValues, PrivateIn, StoresFor, Recent, Cut;
  }

  // A replay from where the last one started would feed what that one fed, and all stored since.
  lemma ReplayGrows(rows: seq<Row>, base: nat, k: Key)
    requires base <= |rows|
    ensures Cut(rows[..base], k.model) <= Cut(rows, k.model)
    ensures StoredValues(OfModel(rows, k.model)[Cut(rows[..base], k.model)..], k)
         == StoredValues(Recent(rows[..base], k.model), k) + StoredValues(rows[base..], k)
  {
    var known, since := OfModel(rows[..base], k.model), OfModel(rows[base..], k.model);
    var from := Cut(rows[..base], k.model);
    assert rows == rows[..base] + rows[base..];
    OfModelAppend(rows[..base], rows[base..], k.model);
    assert OfModel(rows, k.model)[from..] == known[from..] + since;
    RecentIs(rows[..base], k.model);
    hide OfModel, StoredValues, Recent;
    StoredAppend(known[from..], since, k);
    OfModelValues(rows[base..], k);
  }

  lemma RecentIs(rows: seq<Row>, model: string)
    ensures Recent(rows, model) == OfModel(rows, model)[Cut(rows, model)..]
  {
    hide OfModel;
  }

  // Over any run of requests and restarts: what one more restart does to a replayed stream. Unless
  // values were newly cut off, it leaves the stream as it is exactly when no private row since the
  // last restart stores a value for it, rows not saying which lane they fed; and without such a
  // row, exactly when no value was newly cut off, a replay reading a model's last 50 rows only.
  // Where both happen, counts tell unless they match; a stream still building its baseline is the
  // same exactly when both values and order are.
  lemma RestartInvisibleExactly(s: Setup, es: seq<Event>, models: seq<string>, k: Key)
    requires GoodSetup(s) && Proper(s, es) && Lists(models, Live(s, es).rows) && Replayed(k.metric)
    ensures Base(s, es) <= |Live(s, es).rows|
    ensures var (rows, base) := (Live(s, es).rows, Base(s, es));
      var same := StreamAt(Restarted(s, Live(s, es), models).detector, k) == StreamAt(Live(s, es).detector, k);
      && (!NewlyCut(rows, base, k) ==> (same <==> !PrivateIn(rows[base..], k)))
      && (!PrivateIn(rows[base..], k) ==> (same <==> !NewlyCut(rows, base, k)))
      && (|FedValues(rows, base, k)| <= BaselineSize(s.c)
          ==> (same <==> FedValues(rows, base, k) == StoredValues(Recent(rows, k.model), k)))
  {
    StreamIsFed(s, es, k);
    hide Live, Base, FedValues, StoredValues, Recent, NewlyCut, PrivateIn, Proper;
    var rows, base := Live(s, es).rows, Base(s, es);
    var fed, seen := FedValues(rows, base, k), StoredValues(Recent(rows, k.model), k);
    BootstrapStream(s.c, rows, models, k);
    FedAgainstReplay(rows, base, k);
    CountIsLength(s.c, fed);
    CountIsLength(s.c, seen);
    if |fed| == |seen| <= BaselineSize(s.c) {
      BufferIsWhole(s.c, fed);
      BufferIsWhole(s.c, seen);
    }
  }

  // Up to the baseline's end a stream remembers everything it was fed.
  lemma BufferIsWhole(c: Config, xs: seq<real>)
    requires |xs| <= BaselineSize(c)
    ensures Detector.Run(c, Fresh, xs).buf == xs
  {
    hide Detector.Run, Estimate;
    if |xs| < BaselineSize(c) { WhileWarming(c, xs); } else { BaselineFrozen(c, xs); }
  }

  // A second restart in a row changes nothing, however much the first one cut off.
  lemma SecondRestartInvisible(s: Setup, es: seq<Event>, models: seq<string>, again: seq<string>, k: Key)
    requires GoodSetup(s) && Proper(s, es) && Replayed(k.metric)
    requires Lists(models, Live(s, es).rows) && Lists(again, Live(s, es).rows)
    ensures var g := Restarted(s, Live(s, es), models);
      StreamAt(Restarted(s, g, again).detector, k) == StreamAt(g.detector, k)
  {
    BootstrapStream(s.c, Live(s, es).rows, models, k);
    BootstrapStream(s.c, Live(s, es).rows, again, k);
  }

  // ---------------------------------------------------------------- a process that never stopped

  function Requests(es: seq<Event>): seq<Event> {
    if es == [] then []
    else Requests(es[..|es| - 1]) + (if es[|es| - 1].Arrive? then [es[|es| - 1]] else [])
  }

  lemma {:induction false} RequestsKeepRows(s: Setup, es: seq<Event>)
    requires GoodSetup(s) && Proper(s, es)
    ensures Live(s, Requests(es)).rows == Live(s, es).rows
    ensures Base(s, Requests(es)) == 0 && Proper(s, Requests(es))
  {
    if es != [] {
      var front := es[..|es| - 1];
      RequestsKeepRows(s, front);
      var kept := Requests(front);
      match es[|es| - 1] {
        case Arrive(a) =>
          assert (kept + [es[|es| - 1]])[..|kept|] == kept;
          SameRows(s, Live(s, front), Live(s, kept), a);
        case Restart(_) =>
          assert kept + [] == kept;
      }
    }
  }

  lemma SameRows(s: Setup, g: State, h: State, a: Arrival)
    requires GoodSetup(s) && g.rows == h.rows
    ensures Receive(s, g, a).0.rows == Receive(s, h, a).0.rows
  {
    AcceptStores(s, g, a);
    AcceptStores(s, h, a);
    hide Accept;
  }

  function Arrivals(es: seq<Event>): seq<Arrival> {
    if es == [] then []
    else Arrivals(es[..|es| - 1]) + (if es[|es| - 1].Arrive? then [es[|es| - 1].a] else [])
  }

  // Rows are on disk: restarts neither lose nor repeat any. Without a restart the two runs are one.
  lemma {:induction false} LiveRows(s: Setup, es: seq<Event>)
    requires GoodSetup(s)
    ensures Live(s, es).rows == Gateway.Run(s, Arrivals(es)).rows
    ensures (forall i :: 0 <= i < |es| ==> es[i].Arrive?) ==> Live(s, es) == Gateway.Run(s, Arrivals(es))
  {
    if es != [] {
      var front := es[..|es| - 1];
      LiveRows(s, front);
      var ts := Arrivals(front);
      match es[|es| - 1] {
        case Arrive(a) =>
          assert (ts + [a])[..|ts|] == ts;
          SameRows(s, Live(s, front), Gateway.Run(s, ts), a);
        case Restart(_) =>
          assert ts + [] == ts;
      }
      hide Receive;
    }
  }

  // However often batches are re-sent and however often the gateway restarts, no batch is stored
  // twice, and the store is that of the first acceptances.
  lemma StoredOnceAcrossRestarts(s: Setup, es: seq<Event>)
    requires GoodSetup(s)
    ensures DistinctIds(Live(s, es).rows)
    ensures Live(s, es).rows == Gateway.Run(s, Firsts(Arrivals(es))).rows
  {
    LiveRows(s, es);
    StoredOnce(s, Arrivals(es));
    ExactlyOnce(s, Arrivals(es));
  }

  lemma {:induction false} PublicAppend(a: seq<Row>, b: seq<Row>, k: Key)
    ensures PublicValues(a + b, k) == PublicValues(a, k) + PublicValues(b, k)
  {
    hide RowValue;
    if b == [] {
      assert a + b == a;
    } else {
      assert (a + b)[..|a + b| - 1] == a + b[..|b| - 1];
      PublicAppend(a, b[..|b| - 1], k);
    }
  }

  lemma {:induction false} PublicNone(rows: seq<Row>, k: Key)
    ensures PublicValues(rows, k) == []
       <==> forall i :: 0 <= i < |rows| ==> !(rows[i].fleet == None && StoresFor(rows[i], k))
  {
    hide StoresFor;
    if rows != [] { PublicNone(rows[..|rows| - 1], k); }
  }

  lemma {:induction false} OfModelPublic(rows: seq<Row>, k: Key)
    ensures PublicValues(OfModel(rows, k.model), k) == PublicValues(rows, k)
  {
    hide Stored, SuiteOf;
    if rows != [] {
      var n := |rows| - 1;
      OfModelPublic(rows[..n], k);
      var front := OfModel(rows[..n], k.model);
      if rows[n].model == k.model {
        assert (front + [rows[n]])[..|front|] == front;
      } else {
        assert front + [] == front;
      }
    }
  }

  // Some public row the last restart found too old for a replay stores a value for k.
  predicate PublicCut(rows: seq<Row>, k: Key) {
    var mine := OfModel(rows, k.model);
    exists i :: 0 <= i < Cut(rows, k.model) && mine[i].fleet == None && StoresFor(mine[i], k)
  }

  // What a replay of rows feeds against what came in on the public lane.
  lemma ReplayAgainstPublic(rows: seq<Row>, k: Key)
    ensures var (replayed, public) := (StoredValues(Recent(rows, k.model), k), PublicValues(rows, k));
      && (!PublicCut(rows, k) && !PrivateIn(Recent(rows, k.model), k) ==> replayed == public)
      && (!PublicCut(rows, k) && PrivateIn(Recent(rows, k.model), k) ==> |replayed| > |public|)
      && (PublicCut(rows, k) && !PrivateIn(Recent(rows, k.model), k) ==> |replayed| < |public|)
  {
    var mine, cut := OfModel(rows, k.model), Cut(rows, k.model);
    OfModelPublic(rows, k);
    hide OfModel, StoredValues, PublicValues, PrivateIn, StoresFor;
    assert mine == mine[..cut] + mine[cut..] && Recent(rows, k.model) == mine[cut..];
    PublicAppend(mine[..cut], mine[cut..], k);
    PublicNone(mine[..cut], k);
    PublicIsStored(mine[cut..], k);
  }

  // Over any run, whenever and however often it restarted: a replayed stream against that of a
  // process that never stopped. Unless the last restart cut off a public value, they are the same
  // exactly when it replayed no private one; and if it replayed none, exactly when it cut off no
  // public one. Earlier restarts do not matter.
  lemma NeverStoppedExactly(s: Setup, es: seq<Event>, k: Key)
    requires GoodSetup(s) && Proper(s, es) && Replayed(k.metric)
    ensures Base(s, es) <= |Live(s, es).rows|
    ensures var seen := Live(s, es).rows[..Base(s, es)];
      var same := StreamAt(Live(s, es).detector, k) == StreamAt(Live(s, Requests(es)).detector, k);
      && (!PublicCut(seen, k) ==> (same <==> !PrivateIn(Recent(seen, k.model), k)))
      && (!PrivateIn(Recent(seen, k.model), k) ==> (same <==> !PublicCut(seen, k)))
  {
    RequestsKeepRows(s, es);
    StreamIsFed(s, es, k);
    StreamIsFed(s, Requests(es), k);
    var rows, base := Live(s, es).rows, Base(s, es);
    hide Live, FedValues, PublicValues, Recent, PublicCut, PrivateIn, Proper, Requests, Base;
    FedAgainstPublic(rows, base, k);
    CountIsLength(s.c, FedValues(rows, base, k));
    CountIsLength(s.c, FedValues(rows, 0, k));
  }

  lemma FedAgainstPublic(rows: seq<Row>, base: nat, k: Key)
    requires base <= |rows|
    ensures var (seen, fed, public) := (rows[..base], FedValues(rows, base, k), FedValues(rows, 0, k));
      && (!PublicCut(seen, k) && !PrivateIn(Recent(seen, k.model), k) ==> fed == public)
      && (!PublicCut(seen, k) && PrivateIn(Recent(seen, k.model), k) ==> |fed| > |public|)
      && (PublicCut(seen, k) && !PrivateIn(Recent(seen, k.model), k) ==> |fed| < |public|)
  {
    ReplayAgainstPublic(rows[..base], k);
    assert rows == rows[..base] + rows[base..];
    PublicAppend(rows[..base], rows[base..], k);
    AllPublic(rows, k);
    hide StoredValues, PublicValues, Recent, PublicCut, PrivateIn;
  }

  lemma AllPublic(rows: seq<Row>, k: Key)
    ensures FedValues(rows, 0, k) == PublicValues(rows, k)
  {
    assert rows[..0] == [] && rows[0..] == rows;
    hide PublicValues;
  }

  // With at most 50 rows of the model nothing is ever cut off.
  lemma FewRowsNeverCut(rows: seq<Row>, base: nat, k: Key)
    requires base <= |rows| && |OfModel(rows, k.model)| <= 50
    ensures !NewlyCut(rows, base, k) && !PublicCut(rows[..base], k)
  {
    assert rows == rows[..base] + rows[base..];
    OfModelAppend(rows[..base], rows[base..], k.model);
  }
}
