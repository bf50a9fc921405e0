// gateway/main.py: the quorum scorer inside the gateway. What the scorer's own theorems say of runs
// of operations is said here of the gateway's alerts.
module GatewayScorer {
  import opened Common
  import opened Detector
  import opened DetectorStreams
  import opened AgreementScorer
  import opened Gateway

  // ---------------------------------------------------------------- the operations a run makes

  // A local alert's scorer calls: a vote, a quorum check, and a clear when the check succeeds.
  function VoteOps(p: Policy, seen: Book, k: Key, client: string, at: int, now: int): seq<Op>
    requires p.den > 0
  {
    var voted := Ingested(seen, k, [client], at, true);
    [Ingest(k, [client], true, at)] + [Promote(k, now)]
    + (if Promotion(p, voted, k, now).1.Some? then [Clear(k, now)] else [])
  }

  // The scorer calls one metric of a public batch makes in state g.
  function MetricOps(s: Setup, g: State, b: Batch, i: nat, clock: nat -> int): seq<Op>
    requires GoodSetup(s) && i < |b.metrics|
  {
    var k := KeyOf(b, b.metrics[i].name);
    var seen := Observed(g.scorer, k, b.client, clock(3 * i));
    [Observe(k, b.client, clock(3 * i))]
    + (if FeedAlert(s.c, g.detector, k, b.metrics[i].value).None? then []
       else VoteOps(s.p, seen, k, b.client, clock(3 * i + 1), clock(3 * i + 2)))
  }

  function BatchOps(s: Setup, g: State, b: Batch, n: nat, clock: nat -> int): seq<Op>
    requires GoodSetup(s) && n <= |b.metrics|
  {
    if n == 0 || b.fleet.Some? then []
    else BatchOps(s, g, b, n - 1, clock) + MetricOps(s, FirstMetrics(s, g, b, n - 1, clock), b, n - 1, clock)
  }

  function RunOps(s: Setup, ts: seq<Arrival>): seq<Op>
    requires GoodSetup(s)
  {
    if ts == [] then []
    else
      var g, a := Gateway.Run(s, ts[..|ts| - 1]), ts[|ts| - 1];
      RunOps(s, ts[..|ts| - 1])
      + (if Sound(a) && !HasBatch(g, a.batch.id)
         then BatchOps(s, Filed(g, a.batch), a.batch, |a.batch.metrics|, a.clock) else [])
  }

  // ---------------------------------------------------------------- what they leave behind

  // The public alerts a run of operations raises: one for each promotion that succeeds.
  function AlertsOf(p: Policy, ops: seq<Op>): seq<PublicAlert>
    requires p.den > 0
  {
    if ops == [] then []
    else
      var n := |ops| - 1;
      var r := Output(p, ops, n);
      AlertsOf(p, ops[..n]) + (if r.Some? then [PublicAlert(ops[n].key.model, ops[n].key.metric, r.value)] else [])
  }

  // The alerts of the public detector on stream k.
  function PublicCount(alerts: seq<LocalAlert>, k: Key): nat {
    if alerts == [] then 0
    else
      var a := alerts[|alerts| - 1];
      PublicCount(alerts[..|alerts| - 1], k) + (if a.fleet == None && a.key == k then 1 else 0)
  }

  // Scorer, public alerts and local alerts are those of the operations.
  ghost predicate Follows(s: Setup, g: State, ops: seq<Op>)
    requires GoodSetup(s)
  {
    Agree(s.p, g.scorer, g.publicAlerts, g.localAlerts, ops)
  }

  ghost predicate Agree(p: Policy, b: Book, told: seq<PublicAlert>, alerts: seq<LocalAlert>, ops: seq<Op>)
    requires p.den > 0
  {
    && b == After(p, ops)
    && told == AlertsOf(p, ops)
    && (forall k :: Candidates(ops, k) == PublicCount(alerts, k))
  }

  lemma {:induction false} OpSnoc(p: Policy, ops: seq<Op>, op: Op)
    requires p.den > 0
    ensures var (b, r) := Apply(p, After(p, ops), op);
      && After(p, ops + [op]) == b
      && AlertsOf(p, ops + [op])
         == AlertsOf(p, ops) + (if r.Some? then [PublicAlert(op.key.model, op.key.metric, r.value)] else [])
    ensures forall k :: Candidates(ops + [op], k)
                     == Candidates(ops, k) + (if op.Ingest? && op.key == k && op.changed then |op.orgs| else 0)
  {
    assert (ops + [op])[..|ops|] == ops;
    hide Apply;
  }

  lemma {:induction false} CountSnoc(alerts: seq<LocalAlert>, a: LocalAlert)
    ensures forall k :: PublicCount(alerts + [a], k)
                     == PublicCount(alerts, k) + (if a.fleet == None && a.key == k then 1 else 0)
  {
    assert (alerts + [a])[..|alerts|] == alerts;
  }

  // An operation that ingests nothing.
  lemma AgreeAfter(p: Policy, b: Book, told: seq<PublicAlert>, alerts: seq<LocalAlert>, ops: seq<Op>, op: Op)
    requires p.den > 0 && Agree(p, b, told, alerts, ops) && !op.Ingest?
    ensures var (b', r) := Apply(p, b, op);
      Agree(p, b', if r.Some? then told + [PublicAlert(op.key.model, op.key.metric, r.value)] else told,
            alerts, ops + [op])
  {
    OpSnoc(p, ops, op);
    assert told + [] == told;
    hide Apply, After, AlertsOf, Candidates, PublicCount;
  }

  // A vote, with the local alert it came with.
  lemma AgreeVoted(p: Policy, b: Book, told: seq<PublicAlert>, alerts: seq<LocalAlert>, ops: seq<Op>,
                   k: Key, client: string, at: int, fired: Fired)
    requires p.den > 0 && Agree(p, b, told, alerts, ops)
    ensures Agree(p, Ingested(b, k, [client], at, true), told, alerts + [LocalAlert(k, fired, client, None)],
                  ops + [Ingest(k, [client], true, at)])
  {
    OpSnoc(p, ops, Ingest(k, [client], true, at));
    CountSnoc(alerts, LocalAlert(k, fired, client, None));
    assert told + [] == told;
    hide Ingested, After, AlertsOf, Candidates, PublicCount;
  }

  lemma VoteFollows(p: Policy, seen: Book, told: seq<PublicAlert>, alerts: seq<LocalAlert>, ops: seq<Op>,
                    k: Key, client: string, at: int, now: int, fired: Fired)
    requires p.den > 0 && Agree(p, seen, told, alerts, ops)
    ensures var (decided, count) := Promotion(p, Ingested(seen, k, [client], at, true), k, now);
      Agree(p, if count.Some? then Cleared(decided, k) else decided,
            if count.Some? then told + [PublicAlert(k.model, k.metric, count.value)] else told,
            alerts + [LocalAlert(k, fired, client, None)], ops + VoteOps(p, seen, k, client, at, now))
  {
    var vote, ask, clear := Ingest(k, [client], true, at), Promote(k, now), Clear(k, now);
    var voted, after := Ingested(seen, k, [client], at, true), alerts + [LocalAlert(k, fired, client, None)];
    hide Agree, Ingested, Promotion, Cleared;
    AgreeVoted(p, seen, told, alerts, ops, k, client, at, fired);
    AgreeAfter(p, voted, told, after, ops + [vote], ask);
    var (decided, count) := Promotion(p, voted, k, now);
    if count.Some? {
      AgreeAfter(p, decided, told + [PublicAlert(k.model, k.metric, count.value)], after, ops + [vote] + [ask], clear);
      assert ops + ([vote] + [ask] + [clear]) == ops + [vote] + [ask] + [clear];
    } else {
      assert ops + ([vote] + [ask] + []) == ops + [vote] + [ask];
    }
  }

  lemma MetricFollows(s: Setup, g: State, b: Batch, i: nat, clock: nat -> int, ops: seq<Op>)
    requires GoodSetup(s) && i < |b.metrics| && b.fleet == None && Follows(s, g, ops)
    ensures Follows(s, PublicMetric(s, g, b, i, clock), ops + MetricOps(s, g, b, i, clock))
  {
    var k := KeyOf(b, b.metrics[i].name);
    WatchFollows(s.p, g, k, b.client, clock(3 * i), ops);
    hide Follows, Agree, Observed, FeedAlert, PublicMetric, VoteOps;
    if FeedAlert(s.c, g.detector, k, b.metrics[i].value).Some? {
      MetricFires(s, g, b, i, clock, ops + [Observe(k, b.client, clock(3 * i))]);
    } else {
      MetricQuiet(s, g, b, i, clock, ops + [Observe(k, b.client, clock(3 * i))]);
    }
    MetricOpsSnoc(s, g, b, i, clock, ops);
  }

  lemma WatchFollows(p: Policy, g: State, k: Key, client: string, at: int, ops: seq<Op>)
    requires p.den > 0 && Agree(p, g.scorer, g.publicAlerts, g.localAlerts, ops)
    ensures Agree(p, Observed(g.scorer, k, client, at), g.publicAlerts, g.localAlerts, ops + [Observe(k, client, at)])
  {
    AgreeAfter(p, g.scorer, g.publicAlerts, g.localAlerts, ops, Observe(k, client, at));
    hide Agree, Observed;
  }

  lemma MetricOpsSnoc(s: Setup, g: State, b: Batch, i: nat, clock: nat -> int, ops: seq<Op>)
    requires GoodSetup(s) && i < |b.metrics|
    ensures var k := KeyOf(b, b.metrics[i].name);
      var seen := Observed(g.scorer, k, b.client, clock(3 * i));
      ops + MetricOps(s, g, b, i, clock) == ops + [Observe(k, b.client, clock(3 * i))]
        + (if FeedAlert(s.c, g.detector, k, b.metrics[i].value).None? then []
           else VoteOps(s.p, seen, k, b.client, clock(3 * i + 1), clock(3 * i + 2)))
  {
    hide Observed, FeedAlert, VoteOps;
  }

  lemma MetricQuiet(s: Setup, g: State, b: Batch, i: nat, clock: nat -> int, ops: seq<Op>)
    requires GoodSetup(s) && i < |b.metrics| && b.fleet == None
    requires FeedAlert(s.c, g.detector, KeyOf(b, b.metrics[i].name), b.metrics[i].value).None?
    requires var k := KeyOf(b, b.metrics[i].name);
      Agree(s.p, Observed(g.scorer, k, b.client, clock(3 * i)), g.publicAlerts, g.localAlerts, ops)
    ensures Follows(s, PublicMetric(s, g, b, i, clock), ops + [])
  {
    assert ops + [] == ops;
    hide Agree, Observed, Ingested, Promotion, Cleared, Feed, FeedAlert;
  }

  lemma MetricFires(s: Setup, g: State, b: Batch, i: nat, clock: nat -> int, ops: seq<Op>)
    requires GoodSetup(s) && i < |b.metrics| && b.fleet == None
    requires FeedAlert(s.c, g.detector, KeyOf(b, b.metrics[i].name), b.metrics[i].value).Some?
    requires var k := KeyOf(b, b.metrics[i].name);
      Agree(s.p, Observed(g.scorer, k, b.client, clock(3 * i)), g.publicAlerts, g.localAlerts, ops)
    ensures var k := KeyOf(b, b.metrics[i].name);
      var seen := Observed(g.scorer, k, b.client, clock(3 * i));
      Follows(s, PublicMetric(s, g, b, i, clock),
              ops + VoteOps(s.p, seen, k, b.client, clock(3 * i + 1), clock(3 * i + 2)))
  {
    var k := KeyOf(b, b.metrics[i].name);
    var seen := Observed(g.scorer, k, b.client, clock(3 * i));
    var fired := FeedAlert(s.c, g.detector, k, b.metrics[i].value);
    hide Agree, Observed, Ingested, Promotion, Cleared, Feed, FeedAlert, VoteOps;
    VoteFollows(s.p, seen, g.publicAlerts, g.localAlerts, ops, k, b.client,
                clock(3 * i + 1), clock(3 * i + 2), fired.value);
  }

  lemma PrivateFollows(s: Setup, g: State, b: Batch, i: nat, ops: seq<Op>)
    requires GoodSetup(s) && i < |b.metrics| && b.fleet.Some? && Follows(s, g, ops)
    ensures Follows(s, PrivateMetric(s, g, b, i), ops)
  {
    var k := KeyOf(b, b.metrics[i].name);
    var fired := FeedAlert(s.c, FleetStreams(g, b.fleet.value), k, b.metrics[i].value);
    hide Feed, FeedAlert, After, AlertsOf, Candidates, PublicCount;
    if fired.Some? {
      CountSnoc(g.localAlerts, LocalAlert(k, fired.value, b.client, b.fleet));
    }
  }

  lemma {:induction false} BatchFollows(s: Setup, g: State, b: Batch, n: nat, clock: nat -> int, ops: seq<Op>)
    requires GoodSetup(s) && n <= |b.metrics| && Follows(s, g, ops)
    ensures Follows(s, FirstMetrics(s, g, b, n, clock), ops + BatchOps(s, g, b, n, clock))
  {
    hide Follows, PublicMetric, PrivateMetric, MetricOps;
    assert ops + [] == ops;
    if n > 0 {
      BatchFollows(s, g, b, n - 1, clock, ops);
      var before, done := FirstMetrics(s, g, b, n - 1, clock), BatchOps(s, g, b, n - 1, clock);
      if b.fleet.Some? {
        PrivateFollows(s, before, b, n - 1, ops);
      } else {
        MetricFollows(s, before, b, n - 1, clock, ops + done);
        assert ops + (done + MetricOps(s, before, b, n - 1, clock))
            == (ops + done) + MetricOps(s, before, b, n - 1, clock);
      }
    }
  }

  // After any trace the scorer is where the operations of its accepted public batches take it, the
  // public alerts are their successful promotions, and a stream's candidates are its local alerts.
  lemma {:induction false} ScorerFollowsTrace(s: Setup, ts: seq<Arrival>)
    requires GoodSetup(s)
    ensures Follows(s, Gateway.Run(s, ts), RunOps(s, ts))
  {
    if ts == [] {
      NothingYet(s);
    } else {
      var front, a := ts[..|ts| - 1], ts[|ts| - 1];
      var g := Gateway.Run(s, front);
      ScorerFollowsTrace(s, front);
      SameFollows(s, g, a.batch, RunOps(s, front));
      BatchFollows(s, Filed(g, a.batch), a.batch, |a.batch.metrics|, a.clock, RunOps(s, front));
      assert RunOps(s, front) + [] == RunOps(s, front);
      hide Follows, Filed, FirstMetrics, BatchOps;
    }
  }

  lemma NothingYet(s: Setup)
    requires GoodSetup(s)
    ensures Follows(s, Empty, [])
  {
  }

  lemma SameFollows(s: Setup, g: State, b: Batch, ops: seq<Op>)
    requires GoodSetup(s) && Follows(s, g, ops)
    ensures Follows(s, Filed(g, b), ops)
  {
  }

  // ---------------------------------------------------------------- what public alerts rest on

  // Every alerting batch is charged to at most one public alert of its stream.
  lemma PublicAlertsAreCovered(s: Setup, ts: seq<Arrival>, k: Key)
    requires GoodSetup(s)
    ensures var g := Gateway.Run(s, ts);
      Promoted(s.p, RunOps(s, ts), k) + |TableAt(g.scorer.agree, k)| <= PublicCount(g.localAlerts, k)
  {
    ScorerFollowsTrace(s, ts);
    PromotionsAreCovered(s.p, RunOps(s, ts), k);
    hide Gateway.Run, RunOps;
  }

  lemma {:induction false} AlertSource(p: Policy, ops: seq<Op>, n: nat) returns (i: nat)
    requires p.den > 0 && n < |AlertsOf(p, ops)|
    ensures i < |ops| && Output(p, ops, i) == Some(AlertsOf(p, ops)[n].orgs)
    ensures ops[i].key.model == AlertsOf(p, ops)[n].model && ops[i].key.metric == AlertsOf(p, ops)[n].metric
  {
    var m := |ops| - 1;
    hide Apply;
    if n < |AlertsOf(p, ops[..m])| {
      i := AlertSource(p, ops[..m], n);
      assert ops[..m][..i] == ops[..i];
    } else {
      i := m;
    }
  }

  // Every public alert counts that many distinct clients, each with an alerting batch on one stream
  // of the alert's model and metric that is in the window and was not used before, and they reach
  // the floor and the share of the stream's live observers.
  lemma PublicAlertIsAgreement(s: Setup, ts: seq<Arrival>, n: nat) returns (i: nat, clients: set<string>)
    requires GoodSetup(s) && n < |Gateway.Run(s, ts).publicAlerts|
    ensures var (alert, ops) := (Gateway.Run(s, ts).publicAlerts[n], RunOps(s, ts));
      && i < |ops| && ops[i].Promote? && ops[i].key.model == alert.model && ops[i].key.metric == alert.metric
      && alert.orgs == |clients| && |clients| >= s.p.floor
      && s.p.den * |clients| >= s.p.num * Population(After(s.p, ops[..i]), ops[i].key, ops[i].at, s.p.ttl)
      && forall client <- clients :: exists at ::
           ops[i].at - s.p.ttl <= at <= ops[i].at && Backed(s.p, ops[..i], ops[i].key, client, at)
  {
    ScorerFollowsTrace(s, ts);
    hide Gateway.Run, RunOps;
    i := AlertSource(s.p, RunOps(s, ts), n);
    hide AlertsOf, After;
    clients := PromotionIsAgreement(s.p, RunOps(s, ts), i);
  }

  // And none is held back: a local alert on the public path asks for the quorum with its own vote in,
  // is followed by a public alert exactly when it is met, and leaves no met quorum behind.
  lemma QuorumNeverWaits(s: Setup, g: State, b: Batch, i: nat, clock: nat -> int)
    requires GoodSetup(s) && i < |b.metrics| && b.fleet == None
    ensures var (k, h) := (Key(b.model, b.suite, b.metrics[i].name), PublicMetric(s, g, b, i, clock));
      var seen := Observed(g.scorer, k, b.client, clock(3 * i));
      var voted := Ingested(seen, k, [b.client], clock(3 * i + 1), true);
      if FeedAlert(s.c, g.detector, k, b.metrics[i].value).None?
      then h.scorer == seen && h.publicAlerts == g.publicAlerts
      else
        && (Met(s.p, voted, k, clock(3 * i + 2)) <==> |h.publicAlerts| == |g.publicAlerts| + 1)
        && (|h.publicAlerts| > |g.publicAlerts| ==> h.scorer == voted.(agree := voted.agree - {k}))
        && (|h.publicAlerts| <= |g.publicAlerts| ==> h.scorer == voted && h.publicAlerts == g.publicAlerts)
        && !Met(s.p, h.scorer, k, clock(3 * i + 2))
  {
    hide Observed, Ingested, Feed, FeedAlert, RequiredQuorum, Population, Sane;
  }
}
