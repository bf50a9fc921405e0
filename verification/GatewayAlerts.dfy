// gateway/main.py: what a trace of requests is answered, what it leaves in the store, and which local
// alerts it raises, said of the requests alone.
module GatewayAlerts {
  import opened Common
  import opened Detector
  import opened DetectorStreams
  import opened Gateway
  import S = AgreementScorer

  // ---------------------------------------------------------------- answers and rows

  // The last request of a trace is refused for its signature, then for its schema; a sound one is a
  // duplicate exactly when a sound one with its id came before.
  lemma AnswersExactly(s: Setup, ts: seq<Arrival>)
    requires GoodSetup(s) && ts != []
    ensures var (front, a) := (ts[..|ts| - 1], ts[|ts| - 1]);
      var status := Receive(s, Gateway.Run(s, front), a).1;
      && (status == 401 <==> !a.signed)
      && (status == 422 <==> a.signed && !a.valid)
      && (status == 409 <==> a.signed && a.valid && Sent(front, a.batch.id))
      && (status == 202 <==> a.signed && a.valid && !Sent(front, a.batch.id))
  {
    StoreHoldsSent(s, ts[..|ts| - 1], ts[|ts| - 1].batch.id);
    hide Gateway.Run, Accept, HasBatch, Sent;
  }

  // The metric of that name, the last one where a batch repeats a name.
  ghost predicate IsNamed(ms: seq<Metric>, name: string, v: Option<real>) {
    if v.None? then forall i :: 0 <= i < |ms| ==> ms[i].name != name
    else exists i :: 0 <= i < |ms| && ms[i] == Metric(name, v.value) && NoneNamed(ms, name, i + 1)
  }

  ghost predicate NoneNamed(ms: seq<Metric>, name: string, from: nat) {
    forall j :: from <= j < |ms| ==> ms[j].name != name
  }

  lemma {:induction false} LookupNames(ms: seq<Metric>, name: string)
    ensures IsNamed(ms, name, Lookup(ms, name))
  {
    if ms != [] {
      var n := |ms| - 1;
      if ms[n].name == name {
        assert ms[n] == Metric(name, ms[n].value) && NoneNamed(ms, name, n + 1);
      } else {
        LookupNames(ms[..n], name);
        var v := Lookup(ms[..n], name);
        if v.Some? {
          var i :| 0 <= i < n && ms[..n][i] == Metric(name, v.value) && NoneNamed(ms[..n], name, i + 1);
          forall j | i + 1 <= j < |ms|
            ensures ms[j].name != name
          {
            if j < n { assert ms[..n][j] == ms[j]; }
          }
          assert ms[i] == Metric(name, v.value) && NoneNamed(ms, name, i + 1);
        } else {
          assert forall i :: 0 <= i < n ==> ms[..n][i] == ms[i];
        }
      }
    }
  }

  ghost predicate IsRowOf(r: Row, b: Batch) {
    && r.id == b.id && r.model == b.model && r.suite == Some(b.suite) && r.fleet == b.fleet
    && IsNamed(b.metrics, "avg_output_length", r.outputLength)
    && IsNamed(b.metrics, "json_success_rate", r.jsonRate)
  }

  // The store holds, in order, a row for the first sound request with each id.
  lemma {:induction false} RowsOfFirsts(s: Setup, ts: seq<Arrival>)
    requires GoodSetup(s)
    ensures var (rows, firsts) := (Gateway.Run(s, ts).rows, Firsts(ts));
      |rows| == |firsts| && forall i :: 0 <= i < |rows| ==> IsRowOf(rows[i], firsts[i].batch)
  {
    if ts != [] {
      var front, a := ts[..|ts| - 1], ts[|ts| - 1];
      RowsOfFirsts(s, front);
      StoreHoldsSent(s, front, a.batch.id);
      FirstsSnoc(ts);
      AcceptStores(s, Gateway.Run(s, front), a);
      LookupNames(a.batch.metrics, "avg_output_length");
      LookupNames(a.batch.metrics, "json_success_rate");
      assert IsRowOf(RowOf(a.batch), a.batch);
      hide Accept, HasBatch, Sent, IsRowOf, RowOf, Firsts;
    }
  }

  // ---------------------------------------------------------------- local alerts

  // What a sample raises on a lane that has been fed xs: the alert of the last value of its own stream.
  function Alarm(c: Config, xs: seq<Sample>, x: Sample, client: string, lane: Option<string>): seq<LocalAlert> {
    var fired := LastAlert(c, Fresh, ValuesOf(xs, x.key) + [x.value]);
    if fired.Some? then [LocalAlert(x.key, fired.value, client, lane)] else []
  }

  // A batch's first n metrics, on a lane that has been fed xs.
  function BatchAlarms(c: Config, xs: seq<Sample>, b: Batch, n: nat): seq<LocalAlert>
    requires n <= |b.metrics|
  {
    if n == 0 then []
    else
      var m := b.metrics[n - 1];
      BatchAlarms(c, xs, b, n - 1)
      + Alarm(c, xs + SamplesOf(b, n - 1), Sample(Key(b.model, b.suite, m.name), m.value), b.client, b.fleet)
  }

  // Batches in order, the lane's among them.
  function LaneAlarms(c: Config, ts: seq<Arrival>, lane: Option<string>): seq<LocalAlert> {
    if ts == [] then []
    else
      var front, b := ts[..|ts| - 1], ts[|ts| - 1].batch;
      LaneAlarms(c, front, lane)
      + (if b.fleet == lane then BatchAlarms(c, LaneSamples(front, lane), b, |b.metrics|) else [])
  }

  // Feeding a lane raises the alert of the sample's own stream.
  lemma FedAlert(c: Config, xs: seq<Sample>, k: Key, v: real)
    ensures FeedAlert(c, FeedAll(c, map[], xs), k, v) == LastAlert(c, Fresh, ValuesOf(xs, k) + [v])
  {
    StreamsAreIndependent(c, map[], xs, k);
    assert (ValuesOf(xs, k) + [v])[..|ValuesOf(xs, k)|] == ValuesOf(xs, k);
    hide ValuesOf, FeedAll, AlertOf;
  }

  // What a metric adds to the local alerts.
  lemma MetricRecords(s: Setup, g: State, b: Batch, i: nat, clock: nat -> int)
    requires GoodSetup(s) && i < |b.metrics|
    ensures var k := KeyOf(b, b.metrics[i].name);
      var fired := FeedAlert(s.c, LaneStreams(g, b.fleet), k, b.metrics[i].value);
      OneMetric(s, g, b, i, clock).localAlerts
      == g.localAlerts + (if fired.Some? then [LocalAlert(k, fired.value, b.client, b.fleet)] else [])
  {
    hide Feed, FeedAlert, S.Observed, S.Ingested, S.Promotion, S.Cleared, Sane;
    assert g.localAlerts + [] == g.localAlerts;
  }

  lemma LaneAlertsAppend(x: seq<LocalAlert>, y: seq<LocalAlert>, lane: Option<string>)
    requires |y| <= 1 && forall i :: 0 <= i < |y| ==> y[i].fleet == lane
    ensures LaneAlerts(x + y, lane) == LaneAlerts(x, lane) + y
    ensures forall other :: other != lane ==> LaneAlerts(x + y, other) == LaneAlerts(x, other)
  {
    if y == [] {
      assert x + y == x;
    } else {
      assert y == [y[0]] && (x + y)[..|x|] == x;
    }
  }

  lemma {:induction false} BatchRecords(s: Setup, g: State, b: Batch, n: nat, clock: nat -> int, xs: seq<Sample>,
                                        lane: Option<string>)
    requires GoodSetup(s) && n <= |b.metrics| && LaneStreams(g, b.fleet) == FeedAll(s.c, map[], xs)
    ensures LaneAlerts(FirstMetrics(s, g, b, n, clock).localAlerts, lane)
         == LaneAlerts(g.localAlerts, lane) + (if b.fleet == lane then BatchAlarms(s.c, xs, b, n) else [])
  {
    hide OneMetric, LaneAlerts, Alarm, LaneStreams, FeedAll, FeedAlert, SamplesOf;
    if n > 0 {
      BatchRecords(s, g, b, n - 1, clock, xs, lane);
      var before := FirstMetrics(s, g, b, n - 1, clock);
      OneRecords(s, g, b, n, clock, xs);
      var m := b.metrics[n - 1];
      var x := Sample(Key(b.model, b.suite, m.name), m.value);
      var more := Alarm(s.c, xs + SamplesOf(b, n - 1), x, b.client, b.fleet);
      AlarmIsOne(s.c, xs + SamplesOf(b, n - 1), x, b.client, b.fleet);
      LaneAlertsAppend(before.localAlerts, more, b.fleet);
      if b.fleet != lane { assert LaneAlerts(before.localAlerts + more, lane) == LaneAlerts(before.localAlerts, lane); }
    }
  }

  lemma AlarmIsOne(c: Config, xs: seq<Sample>, x: Sample, client: string, lane: Option<string>)
    ensures var a := Alarm(c, xs, x, client, lane); |a| <= 1 && forall i :: 0 <= i < |a| ==> a[i].fleet == lane
  {
    hide LastAlert;
  }

  lemma OneRecords(s: Setup, g: State, b: Batch, n: nat, clock: nat -> int, xs: seq<Sample>)
    requires GoodSetup(s) && 0 < n <= |b.metrics| && LaneStreams(g, b.fleet) == FeedAll(s.c, map[], xs)
    ensures var m := b.metrics[n - 1];
      FirstMetrics(s, g, b, n, clock).localAlerts
      == FirstMetrics(s, g, b, n - 1, clock).localAlerts
         + Alarm(s.c, xs + SamplesOf(b, n - 1), Sample(Key(b.model, b.suite, m.name), m.value), b.client, b.fleet)
  {
    hide *;
    FirstStep(s, g, b, n, clock);
    MetricRecords(s, FirstMetrics(s, g, b, n - 1, clock), b, n - 1, clock);
    MetricsFeed(s, g, b, n - 1, clock, b.fleet);
    FeedAllAppend(s.c, map[], xs, SamplesOf(b, n - 1));
    AlarmIs(s.c, xs + SamplesOf(b, n - 1), b, n - 1);
  }

  lemma FirstStep(s: Setup, g: State, b: Batch, n: nat, clock: nat -> int)
    requires GoodSetup(s) && 0 < n <= |b.metrics|
    ensures FirstMetrics(s, g, b, n, clock) == OneMetric(s, FirstMetrics(s, g, b, n - 1, clock), b, n - 1, clock)
  {
    hide OneMetric;
  }

  lemma AlarmIs(c: Config, xs: seq<Sample>, b: Batch, i: nat)
    requires i < |b.metrics|
    ensures var (k, v) := (KeyOf(b, b.metrics[i].name), b.metrics[i].value);
      var fired := FeedAlert(c, FeedAll(c, map[], xs), k, v);
      (if fired.Some? then [LocalAlert(k, fired.value, b.client, b.fleet)] else [])
      == Alarm(c, xs, Sample(Key(b.model, b.suite, b.metrics[i].name), v), b.client, b.fleet)
  {
    hide LastAlert, FeedAlert, FeedAll, ValuesOf;
    FedAlert(c, xs, KeyOf(b, b.metrics[i].name), b.metrics[i].value);
  }

  // The local alerts of a lane, public or a fleet's, are the alerts of its own samples: each stored
  // batch once, in order, each sample by the stream it belongs to, with the batch's client.
  lemma {:induction false} LocalAlertsAre(s: Setup, ts: seq<Arrival>, lane: Option<string>)
    requires GoodSetup(s)
    ensures LaneAlerts(Gateway.Run(s, ts).localAlerts, lane) == LaneAlarms(s.c, Firsts(ts), lane)
  {
    if ts != [] {
      var front, a := ts[..|ts| - 1], ts[|ts| - 1];
      var g, before := Gateway.Run(s, front), Firsts(front);
      LocalAlertsAre(s, front, lane);
      StoreHoldsSent(s, front, a.batch.id);
      FirstsSnoc(ts);
      LaneIsFedStored(s, front, a.batch.fleet);
      assert (before + [a])[..|before|] == before;
      AcceptRecords(s, g, a, LaneSamples(before, a.batch.fleet), lane);
      hide Accept, HasBatch, Sent, Firsts, BatchAlarms, LaneAlerts, LaneSamples, LaneStreams, FeedAll;
    }
  }

  lemma AcceptRecords(s: Setup, g: State, a: Arrival, xs: seq<Sample>, lane: Option<string>)
    requires GoodSetup(s) && LaneStreams(g, a.batch.fleet) == FeedAll(s.c, map[], xs)
    ensures var b := a.batch;
      LaneAlerts(Accept(s, g, a).localAlerts, lane)
      == LaneAlerts(g.localAlerts, lane) + (if b.fleet == lane then BatchAlarms(s.c, xs, b, |b.metrics|) else [])
  {
    var b := a.batch;
    assert LaneStreams(Filed(g, b), b.fleet) == LaneStreams(g, b.fleet) && Filed(g, b).localAlerts == g.localAlerts;
    BatchRecords(s, Filed(g, b), b, |b.metrics|, a.clock, xs, lane);
    hide FirstMetrics, BatchAlarms, LaneAlerts;
  }
}
