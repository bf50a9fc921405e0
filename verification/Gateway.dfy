// gateway/main.py: ingestion of signed batches on the public and private paths, and the
// detector's bootstrap from stored rows.
module Gateway {
  import opened Common
  import opened Detector
  import opened DetectorStreams
  import opened AgreementScorer

  datatype Metric = Metric(name: string, value: real)

  // The parts of a validated batch that routing and detection read.
  datatype Batch = Batch(id: string, client: string, model: string, suite: string,
                         metrics: seq<Metric>, fleet: Option<string>)

  datatype Row = Row(id: string, model: string, outputLength: Option<real>, jsonRate: Option<real>,
                     suite: Option<string>, fleet: Option<string>)

  datatype LocalAlert = LocalAlert(key: Key, fired: Fired, client: string, fleet: Option<string>)

  datatype PublicAlert = PublicAlert(model: string, metric: string, orgs: nat)

  datatype State = State(rows: seq<Row>, detector: Streams, fleets: map<string, Streams>, scorer: Book,
                         localAlerts: seq<LocalAlert>, publicAlerts: seq<PublicAlert>)

  const Empty := State([], map[], map[], EmptyBook, [], [])

  // One request: the body's batch, whether its signature and schema hold, and the wall-clock
  // readings its scorer calls will make.
  datatype Arrival = Arrival(batch: Batch, signed: bool, valid: bool, clock: nat -> int)

  datatype Setup = Setup(c: Config, p: Policy)

  predicate GoodSetup(s: Setup) { s.p.den > 0 }

  function Lookup(ms: seq<Metric>, name: string): Option<real> {
    if ms == [] then None
    else if ms[|ms| - 1].name == name then Some(ms[|ms| - 1].value)
    else Lookup(ms[..|ms| - 1], name)
  }

  function RowOf(b: Batch): Row {
    Row(b.id, b.model, Lookup(b.metrics, "avg_output_length"), Lookup(b.metrics, "json_success_rate"),
        Some(b.suite), b.fleet)
  }

  predicate HasBatch(g: State, id: string) { exists i :: 0 <= i < |g.rows| && g.rows[i].id == id }

  function KeyOf(b: Batch, name: string): Key { Key(b.model, b.suite, name) }

  function FleetStreams(g: State, fleet: string): Streams {
    if fleet in g.fleets then g.fleets[fleet] else map[]
  }

  // ---------------------------------------------------------------- one metric

  function PublicMetric(s: Setup, g: State, b: Batch, i: nat, clock: nat -> int): State
    requires GoodSetup(s) && i < |b.metrics|
  {
    var k := KeyOf(b, b.metrics[i].name);
    var seen := Observed(g.scorer, k, b.client, clock(3 * i));
    var fired := FeedAlert(s.c, g.detector, k, b.metrics[i].value);
    var fed := g.(scorer := seen, detector := Feed(s.c, g.detector, k, b.metrics[i].value));
    if fired.None? then fed
    else
      var voted := Ingested(seen, k, [b.client], clock(3 * i + 1), true);
      var (decided, count) := Promotion(s.p, voted, k, clock(3 * i + 2));
      var told := fed.(localAlerts := g.localAlerts + [LocalAlert(k, fired.value, b.client, None)]);
      if count.Some?
      then told.(scorer := Cleared(decided, k),
                 publicAlerts := g.publicAlerts + [PublicAlert(b.model, b.metrics[i].name, count.value)])
      else told.(scorer := decided)
  }

  function PrivateMetric(s: Setup, g: State, b: Batch, i: nat): State
    requires i < |b.metrics| && b.fleet.Some?
  {
    var k := KeyOf(b, b.metrics[i].name);
    var fired := FeedAlert(s.c, FleetStreams(g, b.fleet.value), k, b.metrics[i].value);
    var fed := g.(fleets := g.fleets[b.fleet.value :=
                    Feed(s.c, FleetStreams(g, b.fleet.value), k, b.metrics[i].value)]);
    if fired.None? then fed
    else fed.(localAlerts := g.localAlerts + [LocalAlert(k, fired.value, b.client, b.fleet)])
  }

  function OneMetric(s: Setup, g: State, b: Batch, i: nat, clock: nat -> int): State
    requires GoodSetup(s) && i < |b.metrics|
  {
    if b.fleet.Some? then PrivateMetric(s, g, b, i) else PublicMetric(s, g, b, i, clock)
  }

  function FirstMetrics(s: Setup, g: State, b: Batch, n: nat, clock: nat -> int): State
    requires GoodSetup(s) && n <= |b.metrics|
  {
    if n == 0 then g else OneMetric(s, FirstMetrics(s, g, b, n - 1, clock), b, n - 1, clock)
  }

  // ---------------------------------------------------------------- one request

  // Row, fleet detector and metrics of a batch the gateway does not hold yet.
  function Accept(s: Setup, g: State, a: Arrival): State
    requires GoodSetup(s)
  {
    FirstMetrics(s, Filed(g, a.batch), a.batch, |a.batch.metrics|, a.clock)
  }

  function Filed(g: State, b: Batch): State {
    var stored := g.(rows := g.rows + [RowOf(b)]);
    if b.fleet.Some? then stored.(fleets := stored.fleets[b.fleet.value := FleetStreams(stored, b.fleet.value)])
    else stored
  }

  function Receive(s: Setup, g: State, a: Arrival): (State, int)
    requires GoodSetup(s)
  {
    if !a.signed then (g, 401)
    else if !a.valid then (g, 422)
    else if HasBatch(g, a.batch.id) then (g, 409)
    else (Accept(s, g, a), 202)
  }

  class App {
    const s: Setup
    var rows: seq<Row>
    var detector: Streams
    var privateDetectors: map<string, Streams>
    var scorer: Book
    var localAlerts: seq<LocalAlert>
    var publicAlerts: seq<PublicAlert>

    constructor (s: Setup)
      ensures this.s == s && Value() == Empty
    {
      this.s := s;
      rows, detector, privateDetectors, scorer := [], map[], map[], EmptyBook;
      localAlerts, publicAlerts := [], [];
    }

    function Value(): State
      reads this
    {
      State(rows, detector, privateDetectors, scorer, localAlerts, publicAlerts)
    }

    method IngestSignals(a: Arrival) returns (status: int)
      requires GoodSetup(s)
      modifies this
      ensures (Value(), status) == Receive(s, old(Value()), a)
    {
      hide OneMetric;
      if !a.signed { return 401; }
      if !a.valid { return 422; }
      var b := a.batch;
      if HasBatch(Value(), b.id) { return 409; }
      rows := rows + [RowOf(b)];
      if b.fleet.Some? && b.fleet.value !in privateDetectors {
        privateDetectors := privateDetectors[b.fleet.value := map[]];
      }
      ghost var ready := Value();
      assert b.fleet.Some? ==> privateDetectors == privateDetectors[b.fleet.value := privateDetectors[b.fleet.value]];
      for i := 0 to |b.metrics|
        invariant Value() == FirstMetrics(s, ready, b, i, a.clock)
        invariant b.fleet.Some? ==> b.fleet.value in privateDetectors
      {
        if b.fleet.Some? {
          IngestPrivate(b, i);
        } else {
          IngestPublic(b, i, a.clock);
        }
        OneMetricIs(s, FirstMetrics(s, ready, b, i, a.clock), b, i, a.clock);
      }
      status := 202;
    }

    method IngestPrivate(b: Batch, i: nat)
      requires i < |b.metrics| && b.fleet.Some? && b.fleet.value in privateDetectors
      modifies this
      ensures Value() == PrivateMetric(s, old(Value()), b, i)
      ensures b.fleet.value in privateDetectors
    {
      var k := KeyOf(b, b.metrics[i].name);
      var streams := privateDetectors[b.fleet.value];
      var fired := FeedAlert(s.c, streams, k, b.metrics[i].value);
      privateDetectors := privateDetectors[b.fleet.value := Feed(s.c, streams, k, b.metrics[i].value)];
      if fired.Some? {
        localAlerts := localAlerts + [LocalAlert(k, fired.value, b.client, b.fleet)];
      }
    }

    method IngestPublic(b: Batch, i: nat, clock: nat -> int)
      requires GoodSetup(s) && i < |b.metrics|
      modifies this
      ensures Value() == PublicMetric(s, old(Value()), b, i, clock)
    {
      hide Observed, Feed, FeedAlert, Ingested, Promotion, Cleared;
      var k := KeyOf(b, b.metrics[i].name);
      scorer := Observed(scorer, k, b.client, clock(3 * i));
      var fired := FeedAlert(s.c, detector, k, b.metrics[i].value);
      detector := Feed(s.c, detector, k, b.metrics[i].value);
      if fired.Some? {
        localAlerts := localAlerts + [LocalAlert(k, fired.value, b.client, None)];
        scorer := Ingested(scorer, k, [b.client], clock(3 * i + 1), true);
        var (decided, count) := Promotion(s.p, scorer, k, clock(3 * i + 2));
        scorer := decided;
        if count.Some? {
          publicAlerts := publicAlerts + [PublicAlert(b.model, b.metrics[i].name, count.value)];
          scorer := Cleared(scorer, k);
        }
      }
    }
  }

  lemma OneMetricIs(s: Setup, g: State, b: Batch, i: nat, clock: nat -> int)
    requires GoodSetup(s) && i < |b.metrics|
    ensures OneMetric(s, g, b, i, clock)
         == if b.fleet.Some? then PrivateMetric(s, g, b, i) else PublicMetric(s, g, b, i, clock)
  {
  }

  // ---------------------------------------------------------------- runs

  function Run(s: Setup, ts: seq<Arrival>): State
    requires GoodSetup(s)
  {
    if ts == [] then Empty else Receive(s, Run(s, ts[..|ts| - 1]), ts[|ts| - 1]).0
  }

  predicate Sound(a: Arrival) { a.signed && a.valid }

  ghost predicate Sent(ts: seq<Arrival>, id: string) {
    exists i :: 0 <= i < |ts| && Sound(ts[i]) && ts[i].batch.id == id
  }

  lemma {:induction false} MetricsKeepRows(s: Setup, g: State, b: Batch, n: nat, clock: nat -> int)
    requires GoodSetup(s) && n <= |b.metrics|
    ensures FirstMetrics(s, g, b, n, clock).rows == g.rows
  {
    hide Feed, FeedAlert, Observed, Ingested, Promotion, Cleared, Sane;
    if n > 0 { MetricsKeepRows(s, g, b, n - 1, clock); }
  }

  lemma AcceptStores(s: Setup, g: State, a: Arrival)
    requires GoodSetup(s)
    ensures Accept(s, g, a).rows == g.rows + [RowOf(a.batch)]
  {
    MetricsKeepRows(s, Filed(g, a.batch), a.batch, |a.batch.metrics|, a.clock);
  }

  // The store holds exactly the ids of the sound arrivals.
  lemma {:induction false} StoreHoldsSent(s: Setup, ts: seq<Arrival>, id: string)
    requires GoodSetup(s)
    ensures HasBatch(Run(s, ts), id) <==> Sent(ts, id)
  {
    if ts != [] {
      var front, a := ts[..|ts| - 1], ts[|ts| - 1];
      StoreHoldsSent(s, front, id);
      var g := Run(s, front);
      AcceptStores(s, g, a);
      hide Accept;
      if HasBatch(g, id) {
        var i :| 0 <= i < |g.rows| && g.rows[i].id == id;
        assert Run(s, ts).rows[i].id == id;
        var j :| 0 <= j < |front| && Sound(front[j]) && front[j].batch.id == id;
        assert Sound(ts[j]) && ts[j].batch.id == id;
      } else if Sound(a) && a.batch.id == id {
        assert Run(s, ts).rows[|g.rows|].id == id;
      }
    }
  }

  ghost predicate DistinctIds(rows: seq<Row>) {
    forall i, j :: 0 <= i < j < |rows| ==> rows[i].id != rows[j].id
  }

  // No batch id is ever stored twice.
  lemma {:induction false} StoredOnce(s: Setup, ts: seq<Arrival>)
    requires GoodSetup(s)
    ensures DistinctIds(Run(s, ts).rows)
  {
    if ts != [] {
      var g := Run(s, ts[..|ts| - 1]);
      StoredOnce(s, ts[..|ts| - 1]);
      AcceptStores(s, g, ts[|ts| - 1]);
      hide Accept;
      assert forall i :: 0 <= i < |g.rows| ==> (g.rows[i].id == ts[|ts| - 1].batch.id ==> HasBatch(g, g.rows[i].id));
    }
  }

  // The sound arrivals that are the first with their id, in order.
  function Firsts(ts: seq<Arrival>): seq<Arrival> {
    if ts == [] then []
    else
      var front, a := ts[..|ts| - 1], ts[|ts| - 1];
      Firsts(front) + (if Sound(a) && (forall f <- Ids(Firsts(front)) :: f != a.batch.id) then [a] else [])
  }

  function Ids(ts: seq<Arrival>): seq<string> {
    seq(|ts|, i requires 0 <= i < |ts| => ts[i].batch.id)
  }

  lemma {:induction false} FirstsCover(ts: seq<Arrival>, id: string)
    ensures Sent(Firsts(ts), id) <==> Sent(ts, id)
    ensures Sent(Firsts(ts), id) <==> id in Ids(Firsts(ts))
    ensures forall i :: 0 <= i < |Firsts(ts)| ==> Sound(Firsts(ts)[i])
  {
    if ts != [] {
      var n := |ts| - 1;
      var front, a := ts[..n], ts[n];
      var before, after := Firsts(front), Firsts(ts);
      FirstsCover(front, id);
      forall i | 0 <= i < |after|
        ensures Ids(after)[i] == after[i].batch.id && Sound(after[i])
      {
      }
      if Sent(before, id) {
        var i :| 0 <= i < |before| && Sound(before[i]) && before[i].batch.id == id;
        assert after[i] == before[i];
        assert Ids(after)[i] == id;
      }
      if Sent(front, id) {
        var i :| 0 <= i < n && Sound(front[i]) && front[i].batch.id == id;
        assert Sound(ts[i]) && ts[i].batch.id == id;
      }
      if Sound(a) && a.batch.id == id {
        assert Sent(ts, id) by { assert Sound(ts[n]); }
        if id !in Ids(before) {
          assert after == before + [a];
          assert Ids(after)[|before|] == id;
        }
      }
    }
  }

  // At-least-once delivery is exactly-once ingestion: however often and in whatever order
  // batches are re-sent or replayed, detectors, scorer, alerts and store end as if each had
  // arrived once, at its first arrival.
  lemma {:induction false} ExactlyOnce(s: Setup, ts: seq<Arrival>)
    requires GoodSetup(s)
    ensures Run(s, ts) == Run(s, Firsts(ts))
  {
    if ts != [] {
      var front, a := ts[..|ts| - 1], ts[|ts| - 1];
      ExactlyOnce(s, front);
      var before := Firsts(front);
      StoreHoldsSent(s, before, a.batch.id);
      FirstsCover(front, a.batch.id);
      hide Accept;
      if Sound(a) && a.batch.id !in Ids(before) {
        assert Firsts(ts) == before + [a];
        assert (before + [a])[..|before|] == before;
      } else {
        assert Firsts(ts) == before + [];
        assert before + [] == before;
      }
    }
  }

  // ---------------------------------------------------------------- what detectors are fed

  function SamplesOf(b: Batch, n: nat): seq<Sample>
    requires n <= |b.metrics|
  {
    seq(n, i requires 0 <= i < n => Sample(KeyOf(b, b.metrics[i].name), b.metrics[i].value))
  }

  // The samples of the batches on one lane: the public one (None) or a fleet's.
  function LaneSamples(ts: seq<Arrival>, lane: Option<string>): seq<Sample> {
    if ts == [] then []
    else
      var b := ts[|ts| - 1].batch;
      LaneSamples(ts[..|ts| - 1], lane) + (if b.fleet == lane then SamplesOf(b, |b.metrics|) else [])
  }

  function LaneStreams(g: State, lane: Option<string>): Streams {
    match lane
    case None => g.detector
    case Some(f) => FleetStreams(g, f)
  }

  lemma MetricFeeds(s: Setup, g: State, b: Batch, i: nat, clock: nat -> int, lane: Option<string>)
    requires GoodSetup(s) && i < |b.metrics|
    ensures LaneStreams(OneMetric(s, g, b, i, clock), lane)
         == if b.fleet == lane
            then Feed(s.c, LaneStreams(g, lane), KeyOf(b, b.metrics[i].name), b.metrics[i].value)
            else LaneStreams(g, lane)
  {
    hide Feed, FeedAlert, Observed, Ingested, Promotion, Cleared, Sane;
  }

  lemma {:induction false} MetricsFeed(s: Setup, g: State, b: Batch, n: nat, clock: nat -> int, lane: Option<string>)
    requires GoodSetup(s) && n <= |b.metrics|
    ensures LaneStreams(FirstMetrics(s, g, b, n, clock), lane)
         == if b.fleet == lane then FeedAll(s.c, LaneStreams(g, lane), SamplesOf(b, n)) else LaneStreams(g, lane)
  {
    hide Feed, OneMetric, LaneStreams, Sane;
    if n > 0 {
      MetricsFeed(s, g, b, n - 1, clock, lane);
      MetricFeeds(s, FirstMetrics(s, g, b, n - 1, clock), b, n - 1, clock, lane);
      assert SamplesOf(b, n)[..n - 1] == SamplesOf(b, n - 1);
    }
  }

  lemma AcceptFeeds(s: Setup, g: State, a: Arrival, lane: Option<string>)
    requires GoodSetup(s)
    ensures LaneStreams(Accept(s, g, a), lane)
         == if a.batch.fleet == lane
            then FeedAll(s.c, LaneStreams(g, lane), SamplesOf(a.batch, |a.batch.metrics|))
            else LaneStreams(g, lane)
  {
    MetricsFeed(s, Filed(g, a.batch), a.batch, |a.batch.metrics|, a.clock, lane);
  }

  // A lane's detector has been fed the metrics of the batches stored on that lane, each batch
  // once, in the order they were stored; and nothing else.
  lemma {:induction false} LaneIsFedStored(s: Setup, ts: seq<Arrival>, lane: Option<string>)
    requires GoodSetup(s)
    ensures LaneStreams(Run(s, ts), lane) == FeedAll(s.c, map[], LaneSamples(Firsts(ts), lane))
  {
    if ts != [] {
      var front, a := ts[..|ts| - 1], ts[|ts| - 1];
      LaneIsFedStored(s, front, lane);
      var before := Firsts(front);
      var g := Run(s, front);
      StoreHoldsSent(s, front, a.batch.id);
      FirstsCover(front, a.batch.id);
      if Sound(a) && a.batch.id !in Ids(before) {
        assert Firsts(ts) == before + [a];
        assert (before + [a])[..|before|] == before;
        AcceptFeeds(s, g, a, lane);
        hide Accept, SamplesOf, FeedAll;
        FeedAllAppend(s.c, map[], LaneSamples(before, lane), SamplesOf(a.batch, |a.batch.metrics|));
        assert LaneSamples(before, lane) + [] == LaneSamples(before, lane);
      } else {
        assert Firsts(ts) == before + [];
        assert before + [] == before;
        hide Accept;
      }
    }
  }

  // ---------------------------------------------------------------- an ingestion cut short

  // An exception after the row is saved: n metrics have been dealt with, and the answer is a 500.
  function Interrupted(s: Setup, g: State, b: Batch, n: nat, clock: nat -> int): State
    requires GoodSetup(s) && n <= |b.metrics|
  {
    FirstMetrics(s, Filed(g, b), b, n, clock)
  }

  function RunFrom(s: Setup, g: State, ts: seq<Arrival>): State
    requires GoodSetup(s)
  {
    if ts == [] then g else Receive(s, RunFrom(s, g, ts[..|ts| - 1]), ts[|ts| - 1]).0
  }

  function Without(ts: seq<Arrival>, id: string): seq<Arrival> {
    if ts == [] then []
    else Without(ts[..|ts| - 1], id) + (if ts[|ts| - 1].batch.id == id then [] else [ts[|ts| - 1]])
  }

  lemma RowsStay(s: Setup, g: State, a: Arrival, id: string)
    requires GoodSetup(s) && HasBatch(g, id)
    ensures HasBatch(Receive(s, g, a).0, id)
  {
    AcceptStores(s, g, a);
    hide Accept;
    var i :| 0 <= i < |g.rows| && g.rows[i].id == id;
    assert Receive(s, g, a).0.rows[i].id == id;
  }

  // A batch that is held, however far its ingestion got, is never dealt with again.
  lemma {:induction false} HeldIsIgnored(s: Setup, g: State, ts: seq<Arrival>, id: string)
    requires GoodSetup(s) && HasBatch(g, id)
    ensures HasBatch(RunFrom(s, g, ts), id)
    ensures RunFrom(s, g, ts) == RunFrom(s, g, Without(ts, id))
  {
    if ts != [] {
      var front, a := ts[..|ts| - 1], ts[|ts| - 1];
      HeldIsIgnored(s, g, front, id);
      RowsStay(s, RunFrom(s, g, front), a, id);
      var kept := Without(front, id);
      assert kept + [] == kept && (kept + [a])[..|kept|] == kept;
      hide Accept, HasBatch;
    }
  }

  // So a batch whose ingestion was cut short has fed its lane a prefix of its metrics, once, whatever
  // arrives afterwards; no re-send completes it.
  lemma InterruptedFeedsPrefix(s: Setup, g: State, b: Batch, n: nat, clock: nat -> int, lane: Option<string>,
                               ts: seq<Arrival>)
    requires GoodSetup(s) && n <= |b.metrics|
    ensures var h := Interrupted(s, g, b, n, clock);
      && h.rows == g.rows + [RowOf(b)]
      && LaneStreams(h, lane) == (if b.fleet == lane then FeedAll(s.c, LaneStreams(g, lane), SamplesOf(b, n))
                                  else LaneStreams(g, lane))
      && RunFrom(s, h, ts) == RunFrom(s, h, Without(ts, b.id))
  {
    var h := Interrupted(s, g, b, n, clock);
    MetricsKeepRows(s, Filed(g, b), b, n, clock);
    MetricsFeed(s, Filed(g, b), b, n, clock, lane);
    assert LaneStreams(Filed(g, b), lane) == LaneStreams(g, lane);
    hide FirstMetrics, LaneStreams, RowOf;
    assert h.rows[|g.rows|] == RowOf(b) && RowOf(b).id == b.id by { RowId(b); }
    HeldIsIgnored(s, h, ts, b.id);
  }

  lemma RowId(b: Batch)
    ensures RowOf(b).id == b.id
  {
  }

  // ---------------------------------------------------------------- non-interference

  function OnLane(ts: seq<Arrival>, lane: Option<string>): seq<Arrival> {
    if ts == [] then []
    else OnLane(ts[..|ts| - 1], lane) + (if ts[|ts| - 1].batch.fleet == lane then [ts[|ts| - 1]] else [])
  }

  function LaneAlerts(alerts: seq<LocalAlert>, lane: Option<string>): seq<LocalAlert> {
    if alerts == [] then []
    else
      LaneAlerts(alerts[..|alerts| - 1], lane)
      + (if alerts[|alerts| - 1].fleet == lane then [alerts[|alerts| - 1]] else [])
  }

  // All that a lane's traffic may affect.
  datatype View = View(streams: Streams, alerts: seq<LocalAlert>, scorer: Book, publicAlerts: seq<PublicAlert>)

  function ViewOf(g: State, lane: Option<string>): View {
    View(LaneStreams(g, lane), LaneAlerts(g.localAlerts, lane),
         if lane == None then g.scorer else EmptyBook, if lane == None then g.publicAlerts else [])
  }

  lemma LaneAlertsSnoc(alerts: seq<LocalAlert>, a: LocalAlert, lane: Option<string>)
    ensures LaneAlerts(alerts + [a], lane) == LaneAlerts(alerts, lane) + (if a.fleet == lane then [a] else [])
  {
    assert (alerts + [a])[..|alerts|] == alerts;
  }

  lemma PublicIsLocal(s: Setup, g: State, h: State, b: Batch, i: nat, clock: nat -> int, lane: Option<string>)
    requires GoodSetup(s) && i < |b.metrics| && b.fleet == None
    ensures lane != None ==> ViewOf(PublicMetric(s, g, b, i, clock), lane) == ViewOf(g, lane)
    ensures lane == None && ViewOf(g, lane) == ViewOf(h, lane)
            ==> ViewOf(PublicMetric(s, g, b, i, clock), lane) == ViewOf(PublicMetric(s, h, b, i, clock), lane)
  {
    hide Feed, FeedAlert, Observed, Ingested, Promotion, Cleared, LaneAlerts, Sane;
    var k := KeyOf(b, b.metrics[i].name);
    LaneAlertsSnocs(g.localAlerts, h.localAlerts, k, b.client, None, lane);
  }

  lemma PrivateIsLocal(s: Setup, g: State, h: State, b: Batch, i: nat, lane: Option<string>)
    requires i < |b.metrics| && b.fleet.Some?
    ensures b.fleet != lane ==> ViewOf(PrivateMetric(s, g, b, i), lane) == ViewOf(g, lane)
    ensures b.fleet == lane && ViewOf(g, lane) == ViewOf(h, lane)
            ==> ViewOf(PrivateMetric(s, g, b, i), lane) == ViewOf(PrivateMetric(s, h, b, i), lane)
  {
    hide Feed, FeedAlert, LaneAlerts, Sane;
    var k := KeyOf(b, b.metrics[i].name);
    LaneAlertsSnocs(g.localAlerts, h.localAlerts, k, b.client, b.fleet, lane);
  }

  lemma LaneAlertsSnocs(x: seq<LocalAlert>, y: seq<LocalAlert>, k: Key, client: string, fleet: Option<string>,
                        lane: Option<string>)
    ensures forall f :: LaneAlerts(x + [LocalAlert(k, f, client, fleet)], lane)
                     == LaneAlerts(x, lane) + (if fleet == lane then [LocalAlert(k, f, client, fleet)] else [])
    ensures forall f :: LaneAlerts(y + [LocalAlert(k, f, client, fleet)], lane)
                     == LaneAlerts(y, lane) + (if fleet == lane then [LocalAlert(k, f, client, fleet)] else [])
  {
    hide LaneAlerts;
    forall f: Fired
      ensures LaneAlerts(x + [LocalAlert(k, f, client, fleet)], lane)
           == LaneAlerts(x, lane) + (if fleet == lane then [LocalAlert(k, f, client, fleet)] else [])
      ensures LaneAlerts(y + [LocalAlert(k, f, client, fleet)], lane)
           == LaneAlerts(y, lane) + (if fleet == lane then [LocalAlert(k, f, client, fleet)] else [])
    {
      LaneAlertsSnoc(x, LocalAlert(k, f, client, fleet), lane);
      LaneAlertsSnoc(y, LocalAlert(k, f, client, fleet), lane);
    }
  }

  // A metric acts on its own lane's view, by what that view holds, and on no other.
  lemma MetricIsLocal(s: Setup, g: State, h: State, b: Batch, i: nat, clock: nat -> int, lane: Option<string>)
    requires GoodSetup(s) && i < |b.metrics|
    ensures b.fleet != lane ==> ViewOf(OneMetric(s, g, b, i, clock), lane) == ViewOf(g, lane)
    ensures b.fleet == lane && ViewOf(g, lane) == ViewOf(h, lane)
            ==> ViewOf(OneMetric(s, g, b, i, clock), lane) == ViewOf(OneMetric(s, h, b, i, clock), lane)
  {
    hide ViewOf, PublicMetric, PrivateMetric;
    if b.fleet.Some? {
      PrivateIsLocal(s, g, h, b, i, lane);
    } else {
      PublicIsLocal(s, g, h, b, i, clock, lane);
    }
  }

  lemma {:induction false} MetricsAreLocal(s: Setup, g: State, h: State, b: Batch, n: nat, clock: nat -> int,
                                           lane: Option<string>)
    requires GoodSetup(s) && n <= |b.metrics|
    ensures b.fleet != lane ==> ViewOf(FirstMetrics(s, g, b, n, clock), lane) == ViewOf(g, lane)
    ensures b.fleet == lane && ViewOf(g, lane) == ViewOf(h, lane)
            ==> ViewOf(FirstMetrics(s, g, b, n, clock), lane) == ViewOf(FirstMetrics(s, h, b, n, clock), lane)
  {
    hide OneMetric, ViewOf;
    if n > 0 {
      MetricsAreLocal(s, g, h, b, n - 1, clock, lane);
      MetricIsLocal(s, FirstMetrics(s, g, b, n - 1, clock), FirstMetrics(s, h, b, n - 1, clock), b, n - 1, clock, lane);
    }
  }

  lemma AcceptIsLocal(s: Setup, g: State, h: State, a: Arrival, lane: Option<string>)
    requires GoodSetup(s)
    ensures a.batch.fleet != lane ==> ViewOf(Accept(s, g, a), lane) == ViewOf(g, lane)
    ensures a.batch.fleet == lane && ViewOf(g, lane) == ViewOf(h, lane)
            ==> ViewOf(Accept(s, g, a), lane) == ViewOf(Accept(s, h, a), lane)
  {
    hide FirstMetrics;
    var b := a.batch;
    assert ViewOf(Filed(g, b), lane) == ViewOf(g, lane) && ViewOf(Filed(h, b), lane) == ViewOf(h, lane);
    MetricsAreLocal(s, Filed(g, b), Filed(h, b), b, |b.metrics|, a.clock, lane);
  }

  // A sound batch with that id came on the lane.
  ghost predicate SentOn(ts: seq<Arrival>, lane: Option<string>, id: string) {
    exists i :: 0 <= i < |ts| && Sound(ts[i]) && ts[i].batch.fleet == lane && ts[i].batch.id == id
  }

  // Arrival i carries metrics, is the lane's first sound one with its id, and comes too late: a
  // sound batch of another lane has taken the id.
  ghost predicate StolenAt(ts: seq<Arrival>, lane: Option<string>, i: nat)
    requires i < |ts|
  {
    var b := ts[i].batch;
    && Sound(ts[i]) && b.fleet == lane && b.metrics != [] && !SentOn(ts[..i], lane, b.id)
    && exists j :: 0 <= j < i && Sound(ts[j]) && ts[j].batch.fleet != lane && ts[j].batch.id == b.id
  }

  ghost predicate Stolen(ts: seq<Arrival>, lane: Option<string>) {
    exists i :: 0 <= i < |ts| && StolenAt(ts, lane, i)
  }

  lemma StolenSnoc(ts: seq<Arrival>, lane: Option<string>)
    requires ts != []
    ensures Stolen(ts, lane) <==> Stolen(ts[..|ts| - 1], lane) || StolenAt(ts, lane, |ts| - 1)
  {
    var n := |ts| - 1;
    var front := ts[..n];
    forall i | 0 <= i < n
      ensures StolenAt(front, lane, i) <==> StolenAt(ts, lane, i)
    {
      assert front[..i] == ts[..i];
      assert forall j :: 0 <= j <= i ==> front[j] == ts[j];
    }
  }

  lemma LiftSent(front: seq<Arrival>, a: Arrival, id: string)
    ensures Sent(front + [a], id) <==> Sent(front, id) || (Sound(a) && a.batch.id == id)
  {
    var ts := front + [a];
    if Sent(front, id) {
      var i :| 0 <= i < |front| && Sound(front[i]) && front[i].batch.id == id;
      assert Sound(ts[i]) && ts[i].batch.id == id;
    }
    if Sound(a) && a.batch.id == id {
      assert Sound(ts[|front|]);
    }
  }

  lemma SentOnSnoc(ts: seq<Arrival>, lane: Option<string>, id: string)
    requires ts != []
    ensures var (front, a) := (ts[..|ts| - 1], ts[|ts| - 1]);
      SentOn(ts, lane, id) <==> SentOn(front, lane, id) || (Sound(a) && a.batch.fleet == lane && a.batch.id == id)
  {
    var n := |ts| - 1;
    if SentOn(ts[..n], lane, id) {
      var i :| 0 <= i < n && Sound(ts[..n][i]) && ts[..n][i].batch.fleet == lane && ts[..n][i].batch.id == id;
      assert Sound(ts[i]);
    }
    if Sound(ts[n]) && ts[n].batch.fleet == lane && ts[n].batch.id == id {
      assert Sound(ts[n]);
    }
  }

  lemma {:induction false} OnLaneSent(ts: seq<Arrival>, lane: Option<string>, id: string)
    ensures Sent(OnLane(ts, lane), id) <==> SentOn(ts, lane, id)
  {
    if ts != [] {
      var n := |ts| - 1;
      OnLaneSent(ts[..n], lane, id);
      SentOnSnoc(ts, lane, id);
      LiftSent(OnLane(ts[..n], lane), ts[n], id);
      hide Sent, SentOn;
      assert OnLane(ts[..n], lane) + [] == OnLane(ts[..n], lane);
    }
  }

  // The last arrival, on the lane: whether it is stored with and without the other lanes' traffic.
  lemma LastArrival(s: Setup, ts: seq<Arrival>, lane: Option<string>)
    requires GoodSetup(s) && ts != [] && ts[|ts| - 1].batch.fleet == lane
    ensures var (front, b) := (ts[..|ts| - 1], ts[|ts| - 1].batch);
      var (all, own) := (HasBatch(Run(s, front), b.id), HasBatch(Run(s, OnLane(front, lane)), b.id));
      && (own ==> all)
      && (StolenAt(ts, lane, |ts| - 1) <==> Sound(ts[|ts| - 1]) && b.metrics != [] && all && !own)
      && (all <==> Sent(front, b.id)) && (own <==> Sent(OnLane(front, lane), b.id))
  {
    var front, id := ts[..|ts| - 1], ts[|ts| - 1].batch.id;
    StoreHoldsSent(s, front, id);
    StoreHoldsSent(s, OnLane(front, lane), id);
    OnLaneSent(front, lane, id);
    hide Run, HasBatch, OnLane;
    if Sent(front, id) && !SentOn(front, lane, id) {
      var j :| 0 <= j < |front| && Sound(front[j]) && front[j].batch.id == id;
      assert Sound(ts[j]) && ts[j].batch.fleet != lane;
    }
    assert forall j :: 0 <= j < |front| ==> front[j] == ts[j];
  }

  // ---------------------------------------------------------------- what theft costs

  // The stolen batches, those without metrics included.
  ghost function Losses(ts: seq<Arrival>, lane: Option<string>): seq<Arrival> {
    if ts == [] then []
    else
      var front, a := ts[..|ts| - 1], ts[|ts| - 1];
      Losses(front, lane)
      + (if Sound(a) && a.batch.fleet == lane && Sent(front, a.batch.id) && !SentOn(front, lane, a.batch.id)
         then [a] else [])
  }

  // How often a run of stored batches feeds the lane's stream k.
  function Feeds(ts: seq<Arrival>, lane: Option<string>, k: Key): nat { |ValuesOf(LaneSamples(ts, lane), k)| }

  lemma FeedsSnoc(ts: seq<Arrival>, a: Arrival, lane: Option<string>, k: Key)
    ensures Feeds(ts + [a], lane, k)
         == Feeds(ts, lane, k)
            + (if a.batch.fleet == lane then |ValuesOf(SamplesOf(a.batch, |a.batch.metrics|), k)| else 0)
  {
    assert (ts + [a])[..|ts|] == ts;
    hide SamplesOf, ValuesOf;
    var xs := LaneSamples(ts, lane);
    assert xs + [] == xs;
    ValuesOfAppend(xs, SamplesOf(a.batch, |a.batch.metrics|), k);
  }

  lemma FirstsSnoc(ts: seq<Arrival>)
    requires ts != []
    ensures var (front, a) := (ts[..|ts| - 1], ts[|ts| - 1]);
      Firsts(ts) == if Sound(a) && !Sent(front, a.batch.id) then Firsts(front) + [a] else Firsts(front)
  {
    var front := Firsts(ts[..|ts| - 1]);
    FirstsCover(ts[..|ts| - 1], ts[|ts| - 1].batch.id);
    hide Sent;
    assert front + [] == front;
  }

  // Alone, a lane's stream would have seen exactly the stolen batches' values besides its own.
  lemma {:induction false} LossesCount(ts: seq<Arrival>, lane: Option<string>, k: Key)
    ensures Feeds(Firsts(ts), lane, k) + Feeds(Losses(ts, lane), lane, k) == Feeds(Firsts(OnLane(ts, lane)), lane, k)
  {
    hide Feeds, Firsts, Sent, SentOn, SamplesOf;
    if ts == [] {
      NoArrivals(lane, k);
    } else {
      var front, a := ts[..|ts| - 1], ts[|ts| - 1];
      LossesCount(front, lane, k);
      FirstsSnoc(ts);
      OnLaneSent(front, lane, a.batch.id);
      SentOnIsSent(front, lane, a.batch.id);
      FeedsSnoc(Firsts(front), a, lane, k);
      LossesSnoc(ts, lane);
      FeedsSnoc(Losses(front, lane), a, lane, k);
      OwnSnoc(ts, lane);
      FeedsSnoc(Firsts(OnLane(front, lane)), a, lane, k);
      hide Losses, OnLane;
    }
  }

  lemma NoArrivals(lane: Option<string>, k: Key)
    ensures Firsts([]) == [] && Losses([], lane) == [] && OnLane([], lane) == [] && Feeds([], lane, k) == 0
  {
  }

  lemma LossesSnoc(ts: seq<Arrival>, lane: Option<string>)
    requires ts != []
    ensures var (front, a) := (ts[..|ts| - 1], ts[|ts| - 1]);
      Losses(ts, lane) ==
      if Sound(a) && a.batch.fleet == lane && Sent(front, a.batch.id) && !SentOn(front, lane, a.batch.id)
      then Losses(front, lane) + [a] else Losses(front, lane)
  {
    hide Sent, SentOn;
    assert Losses(ts[..|ts| - 1], lane) + [] == Losses(ts[..|ts| - 1], lane);
  }

  lemma OwnSnoc(ts: seq<Arrival>, lane: Option<string>)
    requires ts != []
    ensures var (own, a) := (OnLane(ts[..|ts| - 1], lane), ts[|ts| - 1]);
      Firsts(OnLane(ts, lane)) ==
      if a.batch.fleet == lane && Sound(a) && !Sent(own, a.batch.id) then Firsts(own) + [a] else Firsts(own)
  {
    hide Sent, Firsts;
    var own, a := OnLane(ts[..|ts| - 1], lane), ts[|ts| - 1];
    if a.batch.fleet == lane {
      assert OnLane(ts, lane) == own + [a] && (own + [a])[..|own|] == own;
      FirstsSnoc(own + [a]);
    } else {
      assert own + [] == own;
    }
  }

  lemma SentOnIsSent(ts: seq<Arrival>, lane: Option<string>, id: string)
    ensures SentOn(ts, lane, id) ==> Sent(ts, id)
  {
  }

  lemma {:induction false} StolenIsLost(ts: seq<Arrival>, lane: Option<string>) returns (k: Key)
    requires Stolen(ts, lane)
    ensures Feeds(Losses(ts, lane), lane, k) > 0
  {
    var front, a := ts[..|ts| - 1], ts[|ts| - 1];
    StolenSnoc(ts, lane);
    var lost := Losses(front, lane);
    assert lost + [] == lost;
    if Stolen(front, lane) {
      k := StolenIsLost(front, lane);
      FeedsSnoc(lost, a, lane, k);
    } else {
      k := KeyOf(a.batch, a.batch.metrics[0].name);
      FeedsSnoc(lost, a, lane, k);
      SampleCounts(SamplesOf(a.batch, |a.batch.metrics|), k, 0);
      assert Sent(front, a.batch.id) by {
        var j :| 0 <= j < |front| && Sound(ts[j]) && ts[j].batch.fleet != lane && ts[j].batch.id == a.batch.id;
        assert Sound(front[j]);
      }
    }
  }

  lemma {:induction false} SampleCounts(xs: seq<Sample>, k: Key, i: nat)
    requires i < |xs| && xs[i].key == k
    ensures |ValuesOf(xs, k)| > 0
  {
    if i < |xs| - 1 { SampleCounts(xs[..|xs| - 1], k, i); }
  }

  lemma StreamCounts(s: Setup, ts: seq<Arrival>, lane: Option<string>, k: Key)
    requires GoodSetup(s)
    ensures StreamAt(LaneStreams(Run(s, ts), lane), k).n == Feeds(Firsts(ts), lane, k)
  {
    LaneIsFedStored(s, ts, lane);
    hide Run, Firsts, LaneStreams;
    StreamsAreIndependent(s.c, map[], LaneSamples(Firsts(ts), lane), k);
    CountIsLength(s.c, ValuesOf(LaneSamples(Firsts(ts), lane), k));
  }

  // ---------------------------------------------------------------- exactly when lanes interfere

  // Deleting every other lane's batches from a trace leaves this lane's view as it was exactly
  // when none of its batches' ids was stolen: otherwise private fleets leave the global detector,
  // the scorer and the public alerts alone, the public path leaves fleets alone, and fleets leave
  // one another alone.
  lemma LanesInterfereExactly(s: Setup, ts: seq<Arrival>, lane: Option<string>)
    requires GoodSetup(s)
    ensures ViewOf(Run(s, ts), lane) == ViewOf(Run(s, OnLane(ts, lane)), lane) <==> !Stolen(ts, lane)
  {
    hide Stolen, Run, OnLane, LaneStreams;
    if Stolen(ts, lane) {
      var k := StolenIsLost(ts, lane);
      LossesCount(ts, lane, k);
      StreamCounts(s, ts, lane, k);
      StreamCounts(s, OnLane(ts, lane), lane, k);
    } else {
      NothingStolen(s, ts, lane);
    }
  }

  lemma {:induction false} NothingStolen(s: Setup, ts: seq<Arrival>, lane: Option<string>)
    requires GoodSetup(s) && !Stolen(ts, lane)
    ensures ViewOf(Run(s, ts), lane) == ViewOf(Run(s, OnLane(ts, lane)), lane)
  {
    if ts != [] {
      var front, a := ts[..|ts| - 1], ts[|ts| - 1];
      StolenSnoc(ts, lane);
      NothingStolen(s, front, lane);
      var g, own := Run(s, front), OnLane(front, lane);
      var h := Run(s, own);
      AcceptIsLocal(s, g, h, a, lane);
      if a.batch.fleet == lane {
        LastArrival(s, ts, lane);
        assert (own + [a])[..|own|] == own;
        if a.batch.metrics == [] { NoMetricsNoView(s, h, a, lane); NoMetricsNoView(s, g, a, lane); }
      } else {
        assert own + [] == own;
      }
      hide Accept, ViewOf, StolenAt, Stolen, HasBatch;
    }
  }

  lemma NoMetricsNoView(s: Setup, g: State, a: Arrival, lane: Option<string>)
    requires GoodSetup(s) && a.batch.metrics == []
    ensures ViewOf(Accept(s, g, a), lane) == ViewOf(g, lane)
  {
  }
}
