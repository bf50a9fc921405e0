// The Redis scorer against the in-memory one, over whole runs.
module ScorerRefinement {
  import opened Common
  import opened Detector
  import opened AgreementScorer
  import opened RedisScorer

  // What an operation meets at the server: its clock, in milliseconds, and which idle keys it has
  // dropped by then.
  datatype Turn = Turn(clock: int, gone: set<string>)

  // ---------------------------------------------------------------- one table and its sorted set

  // z holds the millisecond of every entry of t, except that it may have lost entries that are
  // already out of the window at tau; no entry lies after tau.
  ghost predicate Linked(t: Table, z: ZSet, tau: int, ttl: int) {
    && (forall o <- z :: o in t && z[o] == t[o] / NS_PER_MS)
    && (forall o <- t :: o in z || t[o] < tau - ttl)
    && (forall o <- t :: 0 <= t[o] <= tau)
  }

  lemma LinkedLater(t: Table, z: ZSet, tau: int, at: int, ttl: int)
    requires Linked(t, z, tau, ttl) && tau <= at
    ensures Linked(t, z, at, ttl)
  {
  }

  lemma LinkedMark(t: Table, z: ZSet, org: string, at: int, ttl: int)
    requires Linked(t, z, at, ttl) && at >= 0
    ensures Linked(Mark(t, org, at), z[org := at / NS_PER_MS], at, ttl)
  {
  }

  function Kept(z: ZSet, cutoff: int): ZSet {
    map o | o in z && z[o] >= cutoff :: z[o]
  }

  lemma FloorOrder(x: int, y: int)
    ensures x <= y ==> x / NS_PER_MS <= y / NS_PER_MS
    ensures x / NS_PER_MS < y / NS_PER_MS ==> x < y
  {
  }

  // Pruning takes only what is out of the window.
  lemma LinkedPrune(t: Table, z: ZSet, at: int, ttl: int)
    requires Linked(t, z, at, ttl) && ttl % NS_PER_MS == 0
    ensures Linked(t, Kept(z, at / NS_PER_MS - ttl / NS_PER_MS), at, ttl)
  {
    forall o | o in z && z[o] < at / NS_PER_MS - ttl / NS_PER_MS
      ensures t[o] < at - ttl
    {
      assert (at - ttl) / NS_PER_MS == at / NS_PER_MS - ttl / NS_PER_MS;
      FloorOrder(t[o], at - ttl);
    }
  }

  // So does eviction, because the backstop outlasts the window by more than the clocks can differ.
  lemma LinkedEvict(t: Table, z: ZSet, at: int, ttl: int, deadline: int, skew: nat)
    requires Linked(t, z, at, ttl) && ttl % NS_PER_MS == 0
    requires 1000 * BackstopSeconds(ttl) > ttl / NS_PER_MS + 2 * skew
    requires deadline <= at / NS_PER_MS + skew
    requires forall o <- z :: z[o] + 1000 * BackstopSeconds(ttl) <= deadline + skew
    ensures Linked(t, map[], at, ttl)
  {
    forall o | o in z
      ensures t[o] < at - ttl
    {
      assert z[o] + ttl / NS_PER_MS < at / NS_PER_MS;
      assert (at - ttl) / NS_PER_MS == at / NS_PER_MS - ttl / NS_PER_MS;
      FloorOrder(t[o], at - ttl);
    }
  }

  // It always outlasts it for equal clocks, and for a skew of up to half the window less 500 ms.
  lemma BackstopOutlasts(ttl: int, skew: nat)
    requires ttl >= 0 && ttl % NS_PER_MS == 0
    requires skew == 0 || 2 * skew + 1000 <= ttl / NS_PER_MS
    ensures 1000 * BackstopSeconds(ttl) > ttl / NS_PER_MS + 2 * skew
  {
    var ms := ttl / NS_PER_MS;
    assert ttl == ms * 1_000_000;
    var q := 2 * ttl / 1_000_000_000;
    assert 2 * ttl == q * 1_000_000_000 + 2 * ttl % 1_000_000_000;
    assert 2 * ms < 1000 * (q + 1);
  }

  // It is twice the window, in whole seconds, and never less than one.
  lemma BackstopIsTwice(ttl: int)
    ensures BackstopSeconds(ttl) >= 1
    ensures BackstopSeconds(ttl) > 1 || ttl >= 500_000_000 ==>
              1_000_000_000 * BackstopSeconds(ttl) <= 2 * ttl < 1_000_000_000 * (BackstopSeconds(ttl) + 1)
  {
  }

  // What each side counts as live: memory's set lies within Redis's, which lies within memory's
  // with the window widened by less than a millisecond; on whole milliseconds they coincide.
  lemma LiveSandwich(t: Table, z: ZSet, tau: int, now: int, ttl: int)
    requires Linked(t, z, tau, ttl) && tau <= now && ttl % NS_PER_MS == 0
    ensures var counted := Range(z, now / NS_PER_MS - ttl / NS_PER_MS, now / NS_PER_MS);
            Live(t, now, ttl) <= counted <= Live(t, now, ttl + (NS_PER_MS - 1))
    ensures (forall o <- t :: t[o] % NS_PER_MS == 0) && now % NS_PER_MS == 0 ==>
              Live(t, now, ttl) == Range(z, now / NS_PER_MS - ttl / NS_PER_MS, now / NS_PER_MS)
  {
    assert (now - ttl) / NS_PER_MS == now / NS_PER_MS - ttl / NS_PER_MS;
    forall o | o in t
      ensures now - ttl <= t[o] <= now ==> (now - ttl) / NS_PER_MS <= t[o] / NS_PER_MS <= now / NS_PER_MS
      ensures (now - ttl) / NS_PER_MS <= t[o] / NS_PER_MS ==> now - ttl - (NS_PER_MS - 1) <= t[o]
      ensures t[o] % NS_PER_MS == 0 && now % NS_PER_MS == 0 && (now - ttl) / NS_PER_MS <= t[o] / NS_PER_MS
              ==> now - ttl <= t[o]
    {
      FloorOrder(now - ttl, t[o]);
      FloorOrder(t[o], now);
    }
  }

  // ---------------------------------------------------------------- the simulation

  // Observer tables are always linked; candidate tables too on the streams where both sides have
  // promoted alike.
  ghost predicate Tracks(p: Policy, b: Book, s: Server, tau: int, alike: set<Key>) {
    forall k :: Regular(k) ==>
      && Linked(TableAt(b.observers, k), ZAt(s, ObsKey(k)), tau, p.ttl)
      && (k in alike ==> Linked(TableAt(b.agree, k), ZAt(s, AgreeKey(k)), tau, p.ttl))
  }

  // Every score is at most tau, and a key's deadline is a full backstop after its scores, give or take
  // the skew.
  ghost predicate Aged(p: Policy, skew: nat, s: Server, tau: int) {
    forall key <- s.sets :: AgedAt(p, skew, s, key, tau)
  }

  ghost predicate AgedAt(p: Policy, skew: nat, s: Server, key: string, tau: int) {
    && (forall o <- ZAt(s, key) :: ZAt(s, key)[o] <= tau / NS_PER_MS)
    && (key in s.deadlines ==>
          forall o <- ZAt(s, key) :: ZAt(s, key)[o] + 1000 * BackstopSeconds(p.ttl) <= s.deadlines[key] + skew)
  }

  ghost predicate Simulates(p: Policy, skew: nat, b: Book, s: Server, tau: int, alike: set<Key>) {
    Tracks(p, b, s, tau, alike) && Aged(p, skew, s, tau)
  }

  // A window of whole milliseconds, and clocks that differ by less than half of what the backstop
  // has to spare.
  ghost predicate GoodTtl(p: Policy, skew: nat) {
    && p.den > 0 && p.ttl >= 0 && p.ttl % NS_PER_MS == 0
    && 1000 * BackstopSeconds(p.ttl) > p.ttl / NS_PER_MS + 2 * skew
  }

  predicate Close(clock: int, at: int, skew: nat) {
    clock - at / NS_PER_MS <= skew && at / NS_PER_MS - clock <= skew
  }

  lemma Later(p: Policy, skew: nat, b: Book, s: Server, tau: int, at: int, alike: set<Key>)
    requires Simulates(p, skew, b, s, tau, alike) && tau <= at
    ensures Simulates(p, skew, b, s, at, alike)
  {
    hide Linked;
    forall k: Key | Regular(k)
      ensures Linked(TableAt(b.observers, k), ZAt(s, ObsKey(k)), at, p.ttl)
      ensures k in alike ==> Linked(TableAt(b.agree, k), ZAt(s, AgreeKey(k)), at, p.ttl)
    {
      LinkedLater(TableAt(b.observers, k), ZAt(s, ObsKey(k)), tau, at, p.ttl);
      if k in alike { LinkedLater(TableAt(b.agree, k), ZAt(s, AgreeKey(k)), tau, at, p.ttl); }
    }
    FloorOrder(tau, at);
  }

  // Losing members or whole keys keeps the ages right.
  lemma AgedShrinks(p: Policy, skew: nat, s: Server, s': Server, tau: int)
    requires Aged(p, skew, s, tau)
    requires forall key <- s'.sets ::
               && key in s.sets
               && (forall o <- ZAt(s', key) :: o in ZAt(s, key) && ZAt(s', key)[o] == ZAt(s, key)[o])
               && (key in s'.deadlines ==> key in s.deadlines && s'.deadlines[key] == s.deadlines[key])
    ensures Aged(p, skew, s', tau)
  {
    forall key | key in s'.sets
      ensures AgedAt(p, skew, s', key, tau)
    {
      assert AgedAt(p, skew, s, key, tau);
      hide BackstopSeconds;
    }
  }

  lemma Evicting(p: Policy, skew: nat, b: Book, s: Server, at: int, turn: Turn, alike: set<Key>)
    requires GoodTtl(p, skew) && Simulates(p, skew, b, s, at, alike) && Close(turn.clock, at, skew)
    ensures Simulates(p, skew, b, Evict(s, turn.clock, turn.gone), at, alike)
  {
    hide Linked;
    var s' := Evict(s, turn.clock, turn.gone);
    forall k: Key | Regular(k)
      ensures Linked(TableAt(b.observers, k), ZAt(s', ObsKey(k)), at, p.ttl)
      ensures k in alike ==> Linked(TableAt(b.agree, k), ZAt(s', AgreeKey(k)), at, p.ttl)
    {
      EvictKey(p, skew, TableAt(b.observers, k), s, at, turn, ObsKey(k));
      if k in alike { EvictKey(p, skew, TableAt(b.agree, k), s, at, turn, AgreeKey(k)); }
    }
    AgedShrinks(p, skew, s, s', at);
  }

  lemma EvictKey(p: Policy, skew: nat, t: Table, s: Server, at: int, turn: Turn, key: string)
    requires GoodTtl(p, skew) && Close(turn.clock, at, skew)
    requires Aged(p, skew, s, at) && Linked(t, ZAt(s, key), at, p.ttl)
    ensures Linked(t, ZAt(Evict(s, turn.clock, turn.gone), key), at, p.ttl)
  {
    hide Linked;
    if key in s.sets && key in s.deadlines && s.deadlines[key] <= turn.clock && key in turn.gone {
      LinkedEvict(t, ZAt(s, key), at, p.ttl, s.deadlines[key], skew);
    }
  }

  // One org recorded on stream k, on both sides.
  lemma Signalling(p: Policy, b: Book, s: Server, k: Key, org: string, at: int, changed: bool, alike: set<Key>)
    requires Regular(k) && at >= 0 && Tracks(p, b, s, at, alike)
    ensures var seen := Zadd(s, ObsKey(k), org, at / NS_PER_MS);
            Tracks(p, Signalled(b, k, org, at, changed),
                   if changed then Zadd(seen, AgreeKey(k), org, at / NS_PER_MS) else seen, at, alike)
  {
    hide Linked, Mark, AgreeKey, ObsKey;
    var b' := Signalled(b, k, org, at, changed);
    var seen := Zadd(s, ObsKey(k), org, at / NS_PER_MS);
    var s' := if changed then Zadd(seen, AgreeKey(k), org, at / NS_PER_MS) else seen;
    forall k': Key | Regular(k')
      ensures Linked(TableAt(b'.observers, k'), ZAt(s', ObsKey(k')), at, p.ttl)
      ensures k' in alike ==> Linked(TableAt(b'.agree, k'), ZAt(s', AgreeKey(k')), at, p.ttl)
    {
      KeysInjective(k, k');
      KindsApart(k, k');
      KindsApart(k', k);
      LinkedMark(TableAt(b.observers, k'), ZAt(s, ObsKey(k')), org, at, p.ttl);
      if k' in alike { LinkedMark(TableAt(b.agree, k'), ZAt(s, AgreeKey(k')), org, at, p.ttl); }
    }
  }

  lemma {:induction false} AddingOrgs(p: Policy, b: Book, s: Server, k: Key, orgs: seq<string>, at: int,
                                      changed: bool, alike: set<Key>)
    requires Regular(k) && at >= 0 && Tracks(p, b, s, at, alike)
    ensures Tracks(p, Ingested(b, k, orgs, at, changed), AddOrgs(s, k, orgs, at / NS_PER_MS, changed), at, alike)
  {
    hide Tracks, Signalled, Zadd;
    if orgs != [] {
      var n := |orgs| - 1;
      AddingOrgs(p, b, s, k, orgs[..n], at, changed, alike);
      Signalling(p, Ingested(b, k, orgs[..n], at, changed), AddOrgs(s, k, orgs[..n], at / NS_PER_MS, changed),
                 k, orgs[n], at, changed, alike);
    }
  }

  // Adding orgs touches the stream's own two keys only, with scores of now.
  lemma {:induction false} AddOrgsLocal(s: Server, k: Key, orgs: seq<string>, tsMs: int, changed: bool, key: string)
    ensures var s' := AddOrgs(s, k, orgs, tsMs, changed);
            && s'.deadlines == s.deadlines && s.sets.Keys <= s'.sets.Keys
            && (key != ObsKey(k) && (key != AgreeKey(k) || !changed) ==>
                  (key in s'.sets <==> key in s.sets) && ZAt(s', key) == ZAt(s, key))
            && (forall o <- ZAt(s', key) ::
                  ZAt(s', key)[o] == tsMs || (o in ZAt(s, key) && ZAt(s', key)[o] == ZAt(s, key)[o]))
            && (orgs != [] ==> ObsKey(k) in s'.sets && (changed ==> AgreeKey(k) in s'.sets))
  {
    hide ObsKey, AgreeKey;
    if orgs != [] {
      AddOrgsLocal(s, k, orgs[..|orgs| - 1], tsMs, changed, key);
    }
  }

  lemma AgedWrite(p: Policy, skew: nat, s: Server, s': Server, key: string, at: int, rearmed: bool, clock: int)
    requires Close(clock, at, skew)
    requires key in s.sets ==> AgedAt(p, skew, s, key, at)
    requires forall o <- ZAt(s', key) ::
               ZAt(s', key)[o] == at / NS_PER_MS || (o in ZAt(s, key) && ZAt(s', key)[o] == ZAt(s, key)[o])
    requires if rearmed
             then key in s'.deadlines && s'.deadlines[key] == clock + 1000 * BackstopSeconds(p.ttl)
             else ZAt(s', key) == ZAt(s, key) && (key in s'.deadlines ==>
                    key in s.deadlines && s'.deadlines[key] == s.deadlines[key])
    ensures AgedAt(p, skew, s', key, at)
  {
  }

  lemma IngestAges(p: Policy, skew: nat, s: Server, k: Key, orgs: seq<string>, at: int, changed: bool, clock: int)
    requires Aged(p, skew, s, at) && Close(clock, at, skew)
    ensures Aged(p, skew, RedisIngest(p, s, k, orgs, at / NS_PER_MS, changed, clock), at)
  {
    if orgs != [] {
      KindsApart(k, k);
      var s' := RedisIngest(p, s, k, orgs, at / NS_PER_MS, changed, clock);
      hide AgedAt, BackstopSeconds, ObsKey, AgreeKey, AddOrgs;
      forall key | key in s'.sets
        ensures AgedAt(p, skew, s', key, at)
      {
        AddOrgsLocal(s, k, orgs, at / NS_PER_MS, changed, key);
        AgedWrite(p, skew, s, s', key, at, key == ObsKey(k) || (changed && key == AgreeKey(k)), clock);
      }
    }
  }

  lemma Ingesting(p: Policy, skew: nat, b: Book, s: Server, k: Key, orgs: seq<string>, at: int, changed: bool,
                  clock: int, alike: set<Key>)
    requires Close(clock, at, skew) && Regular(k) && at >= 0 && Simulates(p, skew, b, s, at, alike)
    ensures Simulates(p, skew, Ingested(b, k, orgs, at, changed),
                      RedisIngest(p, s, k, orgs, at / NS_PER_MS, changed, clock), at, alike)
  {
    AddingOrgs(p, b, s, k, orgs, at, changed, alike);
    IngestAges(p, skew, s, k, orgs, at, changed, clock);
    hide Linked, Aged, AddOrgs, Ingested, BackstopSeconds;
  }

  lemma Observing(p: Policy, skew: nat, b: Book, s: Server, k: Key, org: string, at: int, clock: int, alike: set<Key>)
    requires Close(clock, at, skew) && Regular(k) && at >= 0 && Simulates(p, skew, b, s, at, alike)
    ensures Simulates(p, skew, Observed(b, k, org, at),
                      RedisObserve(p, s, k, org, at / NS_PER_MS, clock), at, alike)
  {
    hide Simulates, ObsKey, AgreeKey, BackstopSeconds, Mark;
    Ingesting(p, skew, b, s, k, [org], at, false, clock, alike);
    assert [org][..0] == [];
    assert Ingested(b, k, [org], at, false) == Signalled(Ingested(b, k, [], at, false), k, org, at, false);
    assert AddOrgs(s, k, [org], at / NS_PER_MS, false)
        == Zadd(AddOrgs(s, k, [], at / NS_PER_MS, false), ObsKey(k), org, at / NS_PER_MS);
  }

  lemma Clearing(p: Policy, skew: nat, b: Book, s: Server, k: Key, at: int, alike: set<Key>)
    requires Regular(k) && at >= 0 && Simulates(p, skew, b, s, at, alike)
    ensures Simulates(p, skew, Cleared(b, k), Delete(s, AgreeKey(k)), at, alike)
  {
    hide Linked, AgreeKey, ObsKey;
    var b', s' := Cleared(b, k), Delete(s, AgreeKey(k));
    forall k': Key | Regular(k')
      ensures Linked(TableAt(b'.observers, k'), ZAt(s', ObsKey(k')), at, p.ttl)
      ensures k' in alike ==> Linked(TableAt(b'.agree, k'), ZAt(s', AgreeKey(k')), at, p.ttl)
    {
      KeysInjective(k, k');
      KindsApart(k, k');
      NothingLinked(at, p.ttl);
    }
    AgedShrinks(p, skew, s, s', at);
  }

  lemma NothingLinked(at: int, ttl: int)
    ensures Linked(map[], map[], at, ttl)
  {
  }

  // Pruning one key of any stream keeps the simulation.
  lemma Pruning(p: Policy, skew: nat, b: Book, s: Server, key: string, at: int, alike: set<Key>)
    requires GoodTtl(p, skew) && Simulates(p, skew, b, s, at, alike)
    ensures Simulates(p, skew, b, ZremBelow(s, key, at / NS_PER_MS - p.ttl / NS_PER_MS), at, alike)
  {
    hide Linked, AgreeKey, ObsKey, BackstopSeconds;
    var cutoff := at / NS_PER_MS - p.ttl / NS_PER_MS;
    var s' := ZremBelow(s, key, cutoff);
    forall k: Key | Regular(k)
      ensures Linked(TableAt(b.observers, k), ZAt(s', ObsKey(k)), at, p.ttl)
      ensures k in alike ==> Linked(TableAt(b.agree, k), ZAt(s', AgreeKey(k)), at, p.ttl)
    {
      PruneKey(p, skew, TableAt(b.observers, k), s, key, at, ObsKey(k));
      if k in alike { PruneKey(p, skew, TableAt(b.agree, k), s, key, at, AgreeKey(k)); }
    }
    AgedShrinks(p, skew, s, s', at);
  }

  lemma PruneKey(p: Policy, skew: nat, t: Table, s: Server, key: string, at: int, other: string)
    requires GoodTtl(p, skew) && Linked(t, ZAt(s, other), at, p.ttl)
    ensures Linked(t, ZAt(ZremBelow(s, key, at / NS_PER_MS - p.ttl / NS_PER_MS), other), at, p.ttl)
  {
    hide Linked;
    if key == other {
      LinkedPrune(t, ZAt(s, key), at, p.ttl);
      assert ZAt(ZremBelow(s, key, at / NS_PER_MS - p.ttl / NS_PER_MS), other)
          == Kept(ZAt(s, key), at / NS_PER_MS - p.ttl / NS_PER_MS);
    }
  }

  // The server state in which the script counts.
  function Pruned(p: Policy, s: Server, k: Key, nowMs: int): Server {
    ZremBelow(ZremBelow(s, AgreeKey(k), nowMs - p.ttl / NS_PER_MS), ObsKey(k), nowMs - p.ttl / NS_PER_MS)
  }

  function Counted(p: Policy, s: Server, key: string, nowMs: int): set<string> {
    Range(ZAt(s, key), nowMs - p.ttl / NS_PER_MS, nowMs)
  }

  lemma PromoteIs(p: Policy, s: Server, k: Key, nowMs: int)
    requires p.den > 0
    ensures var s2 := Pruned(p, s, k, nowMs);
            var agreeing, observing := |Counted(p, s2, AgreeKey(k), nowMs)|, |Counted(p, s2, ObsKey(k), nowMs)|;
            RedisPromote(p, s, k, nowMs)
            == (if agreeing > 0 && agreeing >= RequiredQuorum(Max(observing, agreeing), p.floor, p.num, p.den)
                then (Delete(s2, AgreeKey(k)), Some(agreeing)) else (s2, None))
  {
  }

  lemma Promoting(p: Policy, skew: nat, b: Book, s: Server, k: Key, at: int, alike: set<Key>)
    requires GoodTtl(p, skew) && Regular(k) && at >= 0 && Simulates(p, skew, b, s, at, alike)
    requires k in alike ==> RedisPromote(p, s, k, at / NS_PER_MS).1 == Promotion(p, b, k, at).1
    ensures Simulates(p, skew, Promotion(p, b, k, at).0, RedisPromote(p, s, k, at / NS_PER_MS).0, at, alike)
  {
    hide Simulates, ZremBelow, Counted, RequiredQuorum, AgreeKey, ObsKey, RedisPromote, Met;
    var cutoff := at / NS_PER_MS - p.ttl / NS_PER_MS;
    Pruning(p, skew, b, s, AgreeKey(k), at, alike);
    Pruning(p, skew, b, ZremBelow(s, AgreeKey(k), cutoff), ObsKey(k), at, alike);
    var s2 := Pruned(p, s, k, at / NS_PER_MS);
    PromoteIs(p, s, k, at / NS_PER_MS);
    Clearing(p, skew, b, s2, k, at, alike);
    if k !in alike {
      Unlike(p, skew, b, Cleared(b, k), s2, k, at, alike);
      Unlike(p, skew, Cleared(b, k), b, Delete(s2, AgreeKey(k)), k, at, alike);
    }
  }

  // Where the two sides have promoted differently, a stream's candidates no longer matter.
  lemma Unlike(p: Policy, skew: nat, b: Book, b': Book, s: Server, k: Key, at: int, alike: set<Key>)
    requires b.observers == b'.observers && k !in alike
    requires forall k' :: k' != k ==> TableAt(b.agree, k') == TableAt(b'.agree, k')
    ensures Simulates(p, skew, b, s, at, alike) ==> Simulates(p, skew, b', s, at, alike)
  {
    hide Linked, Aged, AgreeKey, ObsKey;
  }

  // ---------------------------------------------------------------- runs

  // One operation at the server, which may first have dropped idle keys whose deadline passed.
  function RedisApply(p: Policy, s: Server, op: Op, turn: Turn): (Server, Option<nat>)
    requires p.den > 0
  {
    var ms := op.at / NS_PER_MS;
    var s0 := Evict(s, turn.clock, turn.gone);
    match op
    case Observe(k, org, _) => (RedisObserve(p, s0, k, org, ms, turn.clock), None)
    case Ingest(k, orgs, changed, _) => (RedisIngest(p, s0, k, orgs, ms, changed, turn.clock), None)
    case Promote(k, _) => RedisPromote(p, s0, k, ms)
    case Clear(k, _) => (Delete(s0, AgreeKey(k)), None)
  }

  function RedisAfter(p: Policy, ops: seq<Op>, turns: seq<Turn>): Server
    requires p.den > 0 && |turns| == |ops|
  {
    if ops == [] then EmptyServer
    else
      var n := |ops| - 1;
      RedisApply(p, RedisAfter(p, ops[..n], turns[..n]), ops[n], turns[n]).0
  }

  function RedisOutput(p: Policy, ops: seq<Op>, turns: seq<Turn>, i: nat): Option<nat>
    requires p.den > 0 && |turns| == |ops| && i < |ops|
  {
    RedisApply(p, RedisAfter(p, ops[..i], turns[..i]), ops[i], turns[i]).1
  }

  // Event times do not decrease, and keys can be told apart.
  ghost predicate Orderly(ops: seq<Op>) {
    && (forall i :: 0 <= i < |ops| ==> Regular(ops[i].key) && ops[i].at >= 0)
    && (forall i, j :: 0 <= i <= j < |ops| ==> ops[i].at <= ops[j].at)
  }

  // The server's clock stays within the skew of the times the operations carry.
  ghost predicate InTime(ops: seq<Op>, turns: seq<Turn>, skew: nat)
    requires |turns| == |ops|
  {
    forall i :: 0 <= i < |ops| ==> Close(turns[i].clock, ops[i].at, skew)
  }

  ghost predicate Alike(p: Policy, ops: seq<Op>, turns: seq<Turn>)
    requires p.den > 0 && |turns| == |ops|
  {
    forall i :: 0 <= i < |ops| ==> RedisOutput(p, ops, turns, i) == Output(p, ops, i)
  }

  // Both sides have answered alike on the given streams.
  ghost predicate AlikeOn(p: Policy, ops: seq<Op>, turns: seq<Turn>, alike: set<Key>)
    requires p.den > 0 && |turns| == |ops|
  {
    forall i :: 0 <= i < |ops| && ops[i].key in alike ==> RedisOutput(p, ops, turns, i) == Output(p, ops, i)
  }

  function LastTime(ops: seq<Op>): int { if ops == [] then 0 else ops[|ops| - 1].at }

  lemma PrefixOutputs(p: Policy, ops: seq<Op>, turns: seq<Turn>, n: nat, i: nat)
    requires p.den > 0 && |turns| == |ops| && i < n <= |ops|
    ensures RedisOutput(p, ops[..n], turns[..n], i) == RedisOutput(p, ops, turns, i)
    ensures Output(p, ops[..n], i) == Output(p, ops, i)
  {
    assert ops[..n][..i] == ops[..i] && turns[..n][..i] == turns[..i];
  }

  lemma OneOperation(p: Policy, skew: nat, b: Book, s: Server, op: Op, turn: Turn, tau: int, alike: set<Key>)
    requires GoodTtl(p, skew) && Close(turn.clock, op.at, skew) && Regular(op.key)
    requires 0 <= tau <= op.at && Simulates(p, skew, b, s, tau, alike)
    requires op.key in alike ==> RedisApply(p, s, op, turn).1 == Apply(p, b, op).1
    ensures Simulates(p, skew, Apply(p, b, op).0, RedisApply(p, s, op, turn).0, op.at, alike)
  {
    hide Simulates, Evict;
    Later(p, skew, b, s, tau, op.at, alike);
    Evicting(p, skew, b, s, op.at, turn, alike);
    var s0 := Evict(s, turn.clock, turn.gone);
    match op {
      case Observe(k, org, at) => Observing(p, skew, b, s0, k, org, at, turn.clock, alike);
      case Ingest(k, orgs, changed, at) => Ingesting(p, skew, b, s0, k, orgs, at, changed, turn.clock, alike);
      case Promote(k, at) => Promoting(p, skew, b, s0, k, at, alike);
      case Clear(k, at) => Clearing(p, skew, b, s0, k, at, alike);
    }
  }

  lemma {:induction false} Simulation(p: Policy, skew: nat, ops: seq<Op>, turns: seq<Turn>, alike: set<Key>)
    requires GoodTtl(p, skew) && |turns| == |ops| && InTime(ops, turns, skew) && Orderly(ops)
    requires AlikeOn(p, ops, turns, alike)
    ensures Simulates(p, skew, After(p, ops), RedisAfter(p, ops, turns), LastTime(ops), alike)
  {
    if ops != [] {
      var n := |ops| - 1;
      forall i | 0 <= i < n && ops[..n][i].key in alike
        ensures RedisOutput(p, ops[..n], turns[..n], i) == Output(p, ops[..n], i)
      {
        PrefixOutputs(p, ops, turns, n, i);
      }
      Simulation(p, skew, ops[..n], turns[..n], alike);
      hide Simulates, Apply, RedisApply;
      assert ops[n].key in alike ==> RedisOutput(p, ops, turns, n) == Output(p, ops, n);
      OneOperation(p, skew, After(p, ops[..n]), RedisAfter(p, ops[..n], turns[..n]), ops[n], turns[n],
                   LastTime(ops[..n]), alike);
    }
  }

  // The sandwich, over whole runs with arbitrary nanosecond times: for observers always, and for
  // candidates as long as both sides have promoted this stream alike.
  lemma RunSandwich(p: Policy, skew: nat, ops: seq<Op>, turns: seq<Turn>, k: Key, now: int, turn: Turn)
    requires GoodTtl(p, skew) && |turns| == |ops| && InTime(ops, turns, skew) && Orderly(ops)
    requires Regular(k) && LastTime(ops) <= now && Close(turn.clock, now, skew)
    ensures var b := After(p, ops);
            var s := Pruned(p, Evict(RedisAfter(p, ops, turns), turn.clock, turn.gone), k, now / NS_PER_MS);
            && Live(TableAt(b.observers, k), now, p.ttl)
               <= Counted(p, s, ObsKey(k), now / NS_PER_MS)
               <= Live(TableAt(b.observers, k), now, p.ttl + (NS_PER_MS - 1))
            && (AlikeOn(p, ops, turns, {k}) ==>
                  Live(TableAt(b.agree, k), now, p.ttl)
                  <= Counted(p, s, AgreeKey(k), now / NS_PER_MS)
                  <= Live(TableAt(b.agree, k), now, p.ttl + (NS_PER_MS - 1)))
  {
    hide Simulates, After, RedisAfter, Evict, Pruned, Counted, Live, Orderly;
    var alike: set<Key> := if AlikeOn(p, ops, turns, {k}) then {k} else {};
    var s2 := BeforeCount(p, skew, ops, turns, k, now, turn, alike);
    SandwichNow(p, skew, After(p, ops), s2, k, now, alike);
  }

  lemma SandwichNow(p: Policy, skew: nat, b: Book, s: Server, k: Key, now: int, alike: set<Key>)
    requires GoodTtl(p, skew) && Simulates(p, skew, b, s, now, alike) && Regular(k)
    ensures Live(TableAt(b.observers, k), now, p.ttl)
         <= Counted(p, s, ObsKey(k), now / NS_PER_MS)
         <= Live(TableAt(b.observers, k), now, p.ttl + (NS_PER_MS - 1))
    ensures k in alike ==>
              Live(TableAt(b.agree, k), now, p.ttl)
              <= Counted(p, s, AgreeKey(k), now / NS_PER_MS)
              <= Live(TableAt(b.agree, k), now, p.ttl + (NS_PER_MS - 1))
  {
    hide Linked, Aged, Live, Range;
    LiveSandwich(TableAt(b.observers, k), ZAt(s, ObsKey(k)), now, now, p.ttl);
    if k in alike {
      LiveSandwich(TableAt(b.agree, k), ZAt(s, AgreeKey(k)), now, now, p.ttl);
    }
  }

  lemma BeforeCount(p: Policy, skew: nat, ops: seq<Op>, turns: seq<Turn>, k: Key, now: int, turn: Turn,
                    alike: set<Key>)
    returns (s2: Server)
    requires GoodTtl(p, skew) && |turns| == |ops| && InTime(ops, turns, skew) && Orderly(ops)
    requires Regular(k) && LastTime(ops) <= now && Close(turn.clock, now, skew)
    requires AlikeOn(p, ops, turns, alike)
    ensures s2 == Pruned(p, Evict(RedisAfter(p, ops, turns), turn.clock, turn.gone), k, now / NS_PER_MS)
    ensures Simulates(p, skew, After(p, ops), s2, now, alike)
  {
    hide Simulates, After, RedisAfter, AlikeOn, Evict, ZremBelow;
    var s := RedisAfter(p, ops, turns);
    Simulation(p, skew, ops, turns, alike);
    Later(p, skew, After(p, ops), s, LastTime(ops), now, alike);
    Evicting(p, skew, After(p, ops), s, now, turn, alike);
    var s0 := Evict(s, turn.clock, turn.gone);
    var cutoff := now / NS_PER_MS - p.ttl / NS_PER_MS;
    Pruning(p, skew, After(p, ops), s0, AgreeKey(k), now, alike);
    Pruning(p, skew, After(p, ops), ZremBelow(s0, AgreeKey(k), cutoff), ObsKey(k), now, alike);
    s2 := Pruned(p, s0, k, now / NS_PER_MS);
  }

  // ---------------------------------------------------------------- exact refinement

  ghost predicate WholeMs(ops: seq<Op>) {
    forall i :: 0 <= i < |ops| ==> ops[i].at % NS_PER_MS == 0
  }

  ghost predicate WholeTable(t: Table) { forall o <- t :: t[o] % NS_PER_MS == 0 }

  lemma {:induction false} IngestWhole(b: Book, k: Key, orgs: seq<string>, at: int, changed: bool, other: Key)
    requires at % NS_PER_MS == 0
    requires WholeTable(TableAt(b.agree, other)) && WholeTable(TableAt(b.observers, other))
    ensures WholeTable(TableAt(Ingested(b, k, orgs, at, changed).agree, other))
    ensures WholeTable(TableAt(Ingested(b, k, orgs, at, changed).observers, other))
  {
    if orgs != [] {
      IngestWhole(b, k, orgs[..|orgs| - 1], at, changed, other);
    }
  }

  lemma {:induction false} WholeTables(p: Policy, ops: seq<Op>, k: Key)
    requires p.den > 0 && WholeMs(ops)
    ensures WholeTable(TableAt(After(p, ops).agree, k)) && WholeTable(TableAt(After(p, ops).observers, k))
  {
    if ops != [] {
      var front, last := ops[..|ops| - 1], ops[|ops| - 1];
      WholeTables(p, front, k);
      if last.Ingest? {
        IngestWhole(After(p, front), last.key, last.orgs, last.at, last.changed, k);
      }
    }
  }

  lemma NextAlike(p: Policy, skew: nat, ops: seq<Op>, turns: seq<Turn>, op: Op, turn: Turn)
    requires GoodTtl(p, skew) && |turns| == |ops| && Orderly(ops + [op]) && WholeMs(ops + [op])
    requires Orderly(ops) && WholeMs(ops) && Alike(p, ops, turns)
    requires InTime(ops, turns, skew) && Close(turn.clock, op.at, skew)
    ensures RedisApply(p, RedisAfter(p, ops, turns), op, turn).1 == Apply(p, After(p, ops), op).1
  {
    if op.Promote? {
      var k, now := op.key, op.at;
      assert (ops + [op])[|ops|] == op && (ops != [] ==> (ops + [op])[|ops| - 1] == ops[|ops| - 1]);
      WholeTables(p, ops, k);
      hide Simulates, After, RedisAfter, Evict, Pruned, Counted, Live, WholeTable, RequiredQuorum, RedisPromote;
      hide InTime, Orderly, WholeMs, RedisOutput, Output, BackstopSeconds;
      var s2 := BeforeCount(p, skew, ops, turns, k, now, turn, {k});
      CountsAgree(p, skew, After(p, ops), s2, k, now, {k});
      var s0 := Evict(RedisAfter(p, ops, turns), turn.clock, turn.gone);
      PromoteIs(p, s0, k, now / NS_PER_MS);
      SomeLive(TableAt(After(p, ops).agree, k), now, p.ttl);
    }
  }

  lemma SomeLive(t: Table, now: int, ttl: int)
    ensures |Live(t, now, ttl)| > 0 <==> Live(t, now, ttl) != {}
  {
  }

  // On whole milliseconds both sides count the same orgs.
  lemma CountsAgree(p: Policy, skew: nat, b: Book, s: Server, k: Key, now: int, alike: set<Key>)
    requires GoodTtl(p, skew) && k in alike && Simulates(p, skew, b, s, now, alike)
    requires Regular(k) && now % NS_PER_MS == 0
    requires WholeTable(TableAt(b.agree, k)) && WholeTable(TableAt(b.observers, k))
    ensures Counted(p, s, AgreeKey(k), now / NS_PER_MS) == Live(TableAt(b.agree, k), now, p.ttl)
    ensures Counted(p, s, ObsKey(k), now / NS_PER_MS) == Live(TableAt(b.observers, k), now, p.ttl)
  {
    hide Linked, Aged, Live, Range;
    LiveSandwich(TableAt(b.observers, k), ZAt(s, ObsKey(k)), now, now, p.ttl);
    LiveSandwich(TableAt(b.agree, k), ZAt(s, AgreeKey(k)), now, now, p.ttl);
  }

  // On whole-millisecond times that do not decrease, every operation of every run answers the
  // same on both scorers, whatever the server has pruned or evicted meanwhile.
  lemma {:induction false} RedisRefinesMemory(p: Policy, skew: nat, ops: seq<Op>, turns: seq<Turn>)
    requires GoodTtl(p, skew) && |turns| == |ops| && InTime(ops, turns, skew) && Orderly(ops) && WholeMs(ops)
    ensures Alike(p, ops, turns)
  {
    if ops != [] {
      var n := |ops| - 1;
      RedisRefinesMemory(p, skew, ops[..n], turns[..n]);
      assert ops == ops[..n] + [ops[n]];
      NextAlike(p, skew, ops[..n], turns[..n], ops[n], turns[n]);
      hide Apply, RedisApply;
      forall i | 0 <= i < |ops|
        ensures RedisOutput(p, ops, turns, i) == Output(p, ops, i)
      {
        if i < n {
          PrefixOutputs(p, ops, turns, n, i);
          assert RedisOutput(p, ops[..n], turns[..n], i) == Output(p, ops[..n], i);
        }
      }
    }
  }

  // ---------------------------------------------------------------- late candidates

  // Memory keeps an org's latest time, Redis its last. A write at or before the latest time keeps
  // the two linked exactly when it does not turn the org's own clock back by a millisecond.
  lemma LateWriteExactly(t: Table, z: ZSet, org: string, at: int, tau: int, ttl: int)
    requires Linked(t, z, tau, ttl) && 0 <= at <= tau
    ensures Linked(Mark(t, org, at), z[org := at / NS_PER_MS], tau, ttl)
       <==> (org in t ==> t[org] / NS_PER_MS <= at / NS_PER_MS)
  {
    var t', z' := Mark(t, org, at), z[org := at / NS_PER_MS];
    assert org in z' && org in t';
    if org in t { FloorOrder(at, t[org]); }
  }

  // What that comes to for an answer: with one org, a candidate and a later-arriving older one, memory
  // promotes exactly when the newer time is in the window, and Redis exactly when the older one's
  // millisecond is. So Redis misses promotions when the older one has left the window, and makes
  // one memory does not when the newer one is still ahead of the clock.
  lemma {:induction false} LateCandidateExactly(p: Policy, k: Key, org: string, t1: int, t2: int, now: int,
                                                turns: seq<Turn>)
    requires p.floor <= 1 && 0 <= p.num <= p.den && p.den > 0 && 0 <= t2 <= t1
    requires |turns| == 3 && forall i :: 0 <= i < 3 ==> turns[i].gone == {}
    ensures var ops := [Ingest(k, [org], true, t1), Ingest(k, [org], true, t2), Promote(k, now)];
      && Output(p, ops, 2) == (if now - p.ttl <= t1 <= now then Some(1) else None)
      && RedisOutput(p, ops, turns, 2)
         == if now / NS_PER_MS - p.ttl / NS_PER_MS <= t2 / NS_PER_MS <= now / NS_PER_MS then Some(1) else None
  {
    var a, c := Ingest(k, [org], true, t1), Ingest(k, [org], true, t2);
    var ops := [a, c, Promote(k, now)];
    assert ops[..2] == [a, c] && [a, c][..1] == [a] && [a][..0] == [];
    assert turns[..2][..1] == turns[..1] && turns[..1][..0] == [];
    MemoryKeepsLatest(p, k, org, t1, t2);
    RedisKeepsLast(p, k, org, t1, t2, turns[..2]);
    hide After, RedisAfter, AgreeKey, ObsKey, RedisPromote, Promotion, Evict;
    StillAgreed(p, After(p, [a, c]), k, org, t1, now);
    Recounted(p, RedisAfter(p, [a, c], turns[..2]), k, org, t2 / NS_PER_MS, now / NS_PER_MS, turns[2]);
  }

  // One org is quorum enough under such a policy.
  lemma LoneQuorum(p: Policy)
    requires p.floor <= 1 && 0 <= p.num <= p.den && p.den > 0
    ensures RequiredQuorum(1, p.floor, p.num, p.den) <= 1
  {
    QuorumIsLeast(1, p.floor, p.num, p.den);
    assert p.den * 1 >= p.num * 1;
  }

  lemma StillAgreed(p: Policy, b: Book, k: Key, org: string, t1: int, now: int)
    requires p.floor <= 1 && 0 <= p.num <= p.den && p.den > 0
    requires TableAt(b.agree, k) == map[org := t1] == TableAt(b.observers, k)
    ensures Promotion(p, b, k, now).1 == if now - p.ttl <= t1 <= now then Some(1) else None
  {
    LoneQuorum(p);
    hide RequiredQuorum;
    assert Live(TableAt(b.agree, k), now, p.ttl) == if now - p.ttl <= t1 <= now then {org} else {};
  }

  lemma {:induction false} Recounted(p: Policy, s: Server, k: Key, org: string, ms: int, now: int, turn: Turn)
    requires p.floor <= 1 && 0 <= p.num <= p.den && p.den > 0 && turn.gone == {}
    requires ZAt(s, AgreeKey(k)) == map[org := ms] == ZAt(s, ObsKey(k))
    ensures RedisPromote(p, Evict(s, turn.clock, turn.gone), k, now).1
         == if now - p.ttl / NS_PER_MS <= ms <= now then Some(1) else None
  {
    NothingDropped(s, turn);
    PromoteIs(p, s, k, now);
    LoneQuorum(p);
    PrunedTable(p, s, k, now);
    OneKept(org, ms, now - p.ttl / NS_PER_MS, now);
    hide AgreeKey, ObsKey, RequiredQuorum, RedisPromote, Pruned, Evict, ZAt, Kept, Range;
  }

  lemma OneKept(org: string, ms: int, cutoff: int, now: int)
    ensures Range(Kept(map[org := ms], cutoff), cutoff, now) == if cutoff <= ms <= now then {org} else {}
  {
  }

  lemma PrunedTable(p: Policy, s: Server, k: Key, now: int)
    ensures var (s2, cutoff) := (Pruned(p, s, k, now), now - p.ttl / NS_PER_MS);
      && ZAt(s2, AgreeKey(k)) == Kept(ZAt(s, AgreeKey(k)), cutoff)
      && ZAt(s2, ObsKey(k)) == Kept(ZAt(s, ObsKey(k)), cutoff)
  {
    KindsApart(k, k);
    hide AgreeKey, ObsKey;
  }

  lemma {:induction false} MemoryKeepsLatest(p: Policy, k: Key, org: string, t1: int, t2: int)
    requires p.den > 0 && 0 <= t2 <= t1
    ensures var b := After(p, [Ingest(k, [org], true, t1), Ingest(k, [org], true, t2)]);
            TableAt(b.agree, k) == map[org := t1] == TableAt(b.observers, k)
  {
    var a, c := Ingest(k, [org], true, t1), Ingest(k, [org], true, t2);
    assert [a, c][..1] == [a] && [a][..0] == [] && [org][..0] == [];
    var b1 := Signalled(EmptyBook, k, org, t1, true);
    assert Ingested(EmptyBook, k, [org], t1, true) == b1;
    assert After(p, [a]) == b1;
    assert Ingested(b1, k, [org], t2, true) == Signalled(b1, k, org, t2, true);
  }

  lemma {:induction false} RedisKeepsLast(p: Policy, k: Key, org: string, t1: int, t2: int, turns: seq<Turn>)
    requires p.den > 0 && |turns| == 2 && turns[0].gone == {} && turns[1].gone == {}
    ensures var s := RedisAfter(p, [Ingest(k, [org], true, t1), Ingest(k, [org], true, t2)], turns);
            ZAt(s, AgreeKey(k)) == map[org := t2 / NS_PER_MS] == ZAt(s, ObsKey(k))
  {
    var a, c := Ingest(k, [org], true, t1), Ingest(k, [org], true, t2);
    var x, y := turns[0], turns[1];
    hide AgreeKey, ObsKey, BackstopSeconds, RedisIngest, RedisAfter;
    RedisAfterSnoc(p, [], [], a, x);
    RedisAfterSnoc(p, [a], [x], c, y);
    assert [] + [a] == [a] && [] + [x] == [x] && [a] + [c] == [a, c] && [x] + [y] == turns;
    NoOperations(p);
    var s1 := RedisAfter(p, [a], [x]);
    NothingDropped(EmptyServer, x);
    NothingDropped(s1, y);
    OneOrg(p, EmptyServer, k, org, t1 / NS_PER_MS, x.clock);
    OneOrg(p, s1, k, org, t2 / NS_PER_MS, y.clock);
  }

  lemma NoOperations(p: Policy)
    requires p.den > 0
    ensures RedisAfter(p, [], []) == EmptyServer
  {
  }

  lemma {:induction false} RedisAfterSnoc(p: Policy, ops: seq<Op>, turns: seq<Turn>, op: Op, turn: Turn)
    requires p.den > 0 && |turns| == |ops|
    ensures RedisAfter(p, ops + [op], turns + [turn]) == RedisApply(p, RedisAfter(p, ops, turns), op, turn).0
  {
    assert (ops + [op])[..|ops|] == ops && (turns + [turn])[..|ops|] == turns;
    hide RedisApply;
  }

  lemma NothingDropped(s: Server, turn: Turn)
    requires turn.gone == {}
    ensures Evict(s, turn.clock, turn.gone) == s
  {
  }

  lemma OneOrg(p: Policy, s: Server, k: Key, org: string, tsMs: int, clockMs: int)
    ensures var s' := RedisIngest(p, s, k, [org], tsMs, true, clockMs);
            && ZAt(s', AgreeKey(k)) == ZAt(s, AgreeKey(k))[org := tsMs]
            && ZAt(s', ObsKey(k)) == ZAt(s, ObsKey(k))[org := tsMs]
  {
    KindsApart(k, k);
    hide AgreeKey, ObsKey, BackstopSeconds;
    assert [org][..0] == [];
    assert AddOrgs(s, k, [org], tsMs, true)
        == Zadd(Zadd(AddOrgs(s, k, [], tsMs, true), ObsKey(k), org, tsMs), AgreeKey(k), org, tsMs);
  }
}
