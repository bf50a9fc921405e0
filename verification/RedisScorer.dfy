// engine/scorer_redis.py: the same gate over Redis sorted sets, in whole milliseconds, with
// destructive pruning and idle-key eviction.
module RedisScorer {
  import opened Common
  import opened Detector
  import opened AgreementScorer

  const NS_PER_MS := 1_000_000

  // ---------------------------------------------------------------- the server

  type ZSet = map<string, int>

  // Sorted sets, and the millisecond at which an idle key may go.
  datatype Server = Server(sets: map<string, ZSet>, deadlines: map<string, int>)

  const EmptyServer := Server(map[], map[])

  function ZAt(s: Server, key: string): ZSet {
    if key in s.sets then s.sets[key] else map[]
  }

  function Zadd(s: Server, key: string, member: string, score: int): Server {
    s.(sets := s.sets[key := ZAt(s, key)[member := score]])
  }

  function Expire(s: Server, key: string, seconds: int, clockMs: int): Server {
    if key in s.sets then s.(deadlines := s.deadlines[key := clockMs + 1000 * seconds]) else s
  }

  function Delete(s: Server, key: string): Server {
    Server(s.sets - {key}, s.deadlines - {key})
  }

  // A set that loses its last member loses its key, deadline included.
  function ZremBelow(s: Server, key: string, cutoff: int): Server {
    var kept := map o | o in ZAt(s, key) && ZAt(s, key)[o] >= cutoff :: ZAt(s, key)[o];
    if kept == map[] then Delete(s, key) else s.(sets := s.sets[key := kept])
  }

  function Range(z: ZSet, low: int, high: int): set<string> {
    set o | o in z && low <= z[o] <= high
  }

  // Of the keys whose deadline has passed, the server has dropped those in gone.
  function Evict(s: Server, clockMs: int, gone: set<string>): Server {
    var out := set key | key in s.deadlines && s.deadlines[key] <= clockMs && key in gone;
    Server(s.sets - out, s.deadlines - out)
  }

  // The promote script, one atomic step.
  function Script(s: Server, akey: string, okey: string, cutoff: int, now: int, floor: int, num: int, den: int)
    : (Server, nat)
    requires den > 0
  {
    var s1 := ZremBelow(s, akey, cutoff);
    var s2 := ZremBelow(s1, okey, cutoff);
    var agree := |Range(ZAt(s2, akey), cutoff, now)|;
    if agree == 0 then (s2, 0)
    else
      var observing := |Range(ZAt(s2, okey), cutoff, now)|;
      var pop := if agree > observing then agree else observing;
      var scaled := (num * pop + den - 1) / den;
      var q := if scaled > floor then scaled else floor;
      if agree >= q then (Delete(s2, akey), agree) else (s2, 0)
  }

  // ---------------------------------------------------------------- keys

  function AgreeKey(k: Key): string {
    "sg:quorum:" + k.model + ":" + k.suite + ":" + k.metric
  }

  function ObsKey(k: Key): string {
    "sg:observers:" + k.model + ":" + k.suite + ":" + k.metric
  }

  predicate ColonFree(s: string) { ':' !in s }

  predicate Regular(k: Key) { ColonFree(k.model) && ColonFree(k.metric) }

  // The text up to the first colon, and after the last one, can be read back.
  lemma HeadUnique(a: string, x: string, b: string, y: string)
    requires ColonFree(a) && ColonFree(b) && a + ":" + x == b + ":" + y
    ensures a == b && x == y
  {
    FirstColon(a, x);
    FirstColon(b, y);
    var s, t := a + ":" + x, b + ":" + y;
    assert |a| == |b|;
    assert s[..|a|] == a && t[..|b|] == b;
    assert s[|a| + 1..] == x && t[|b| + 1..] == y;
  }

  lemma FirstColon(a: string, x: string)
    requires ColonFree(a)
    ensures (a + ":" + x)[|a|] == ':'
    ensures forall i :: 0 <= i < |a| ==> (a + ":" + x)[i] != ':'
  {
    forall i | 0 <= i < |a|
      ensures (a + ":" + x)[i] != ':'
    {
      assert a[i] in a;
    }
  }

  lemma TailUnique(x: string, a: string, y: string, b: string)
    requires ColonFree(a) && ColonFree(b) && x + ":" + a == y + ":" + b
    ensures a == b && x == y
  {
    LastColon(x, a);
    LastColon(y, b);
    var s, t := x + ":" + a, y + ":" + b;
    assert |x| == |y|;
    assert s[..|x|] == x && t[..|y|] == y;
    assert s[|x| + 1..] == a && t[|y| + 1..] == b;
  }

  lemma LastColon(x: string, a: string)
    requires ColonFree(a)
    ensures (x + ":" + a)[|x|] == ':'
    ensures forall i :: |x| < i < |x + ":" + a| ==> (x + ":" + a)[i] != ':'
  {
    forall i | |x| < i < |x + ":" + a|
      ensures (x + ":" + a)[i] != ':'
    {
      assert a[i - |x| - 1] in a;
    }
  }

  // With a colon-free metric, two streams share a key exactly when the metric is the same and
  // model and suite join to the same text.
  lemma KeyCollision(k: Key, k': Key)
    requires ColonFree(k.metric) && ColonFree(k'.metric)
    ensures AgreeKey(k) == AgreeKey(k')
       <==> k.metric == k'.metric && k.model + ":" + k.suite == k'.model + ":" + k'.suite
    ensures ObsKey(k) == ObsKey(k')
       <==> k.metric == k'.metric && k.model + ":" + k.suite == k'.model + ":" + k'.suite
  {
    var p, q := "sg:quorum:", "sg:observers:";
    var j, j' := k.model + ":" + k.suite, k'.model + ":" + k'.suite;
    assert AgreeKey(k) == p + (j + ":" + k.metric) && AgreeKey(k') == p + (j' + ":" + k'.metric);
    assert ObsKey(k) == q + (j + ":" + k.metric) && ObsKey(k') == q + (j' + ":" + k'.metric);
    if AgreeKey(k) == AgreeKey(k') {
      assert AgreeKey(k)[|p|..] == j + ":" + k.metric && AgreeKey(k')[|p|..] == j' + ":" + k'.metric;
      TailUnique(j, k.metric, j', k'.metric);
    }
    if ObsKey(k) == ObsKey(k') {
      assert ObsKey(k)[|q|..] == j + ":" + k.metric && ObsKey(k')[|q|..] == j' + ":" + k'.metric;
      TailUnique(j, k.metric, j', k'.metric);
    }
  }

  // So with colon-free models too, no two streams share a key.
  lemma KeysInjective(k: Key, k': Key)
    requires Regular(k) && Regular(k')
    ensures AgreeKey(k) == AgreeKey(k') <==> k == k'
    ensures ObsKey(k) == ObsKey(k') <==> k == k'
  {
    KeyCollision(k, k');
    if AgreeKey(k) == AgreeKey(k') || ObsKey(k) == ObsKey(k') {
      HeadUnique(k.model, k.suite, k'.model, k'.suite);
    }
  }

  // A colon in the model breaks this: two different streams, one key.
  lemma ColonsCollide()
    ensures var k, k' := Key("a:b", "c", "m"), Key("a", "b:c", "m");
            k != k' && AgreeKey(k) == AgreeKey(k')
  {
  }

  lemma KindsApart(k: Key, k': Key)
    ensures AgreeKey(k) != ObsKey(k')
  {
    assert AgreeKey(k)[3] == 'q' && ObsKey(k')[3] == 'o';
  }

  // ---------------------------------------------------------------- one operation

  function BackstopSeconds(ttl: int): int { Max(1, 2 * ttl / 1_000_000_000) }

  function RedisObserve(p: Policy, s: Server, k: Key, org: string, tsMs: int, clockMs: int): Server {
    Expire(Zadd(s, ObsKey(k), org, tsMs), ObsKey(k), BackstopSeconds(p.ttl), clockMs)
  }

  function AddOrgs(s: Server, k: Key, orgs: seq<string>, tsMs: int, changed: bool): Server {
    if orgs == [] then s
    else
      var before := AddOrgs(s, k, orgs[..|orgs| - 1], tsMs, changed);
      var seen := Zadd(before, ObsKey(k), orgs[|orgs| - 1], tsMs);
      if changed then Zadd(seen, AgreeKey(k), orgs[|orgs| - 1], tsMs) else seen
  }

  function RedisIngest(p: Policy, s: Server, k: Key, orgs: seq<string>, tsMs: int, changed: bool, clockMs: int)
    : Server
  {
    if orgs == [] then s
    else
      var added := Expire(AddOrgs(s, k, orgs, tsMs, changed), ObsKey(k), BackstopSeconds(p.ttl), clockMs);
      if changed then Expire(added, AgreeKey(k), BackstopSeconds(p.ttl), clockMs) else added
  }

  function RedisPromote(p: Policy, s: Server, k: Key, nowMs: int): (Server, Option<nat>)
    requires p.den > 0
  {
    var (s', result) := Script(s, AgreeKey(k), ObsKey(k), nowMs - p.ttl / NS_PER_MS, nowMs, p.floor, p.num, p.den);
    (s', if result == 0 then None else Some(result))
  }

  // An observation leaves the org at its millisecond, and its set due for eviction one backstop later.
  lemma ObserveWrites(p: Policy, s: Server, k: Key, org: string, tsMs: int, clockMs: int)
    ensures var (s', key) := (RedisObserve(p, s, k, org, tsMs, clockMs), ObsKey(k));
      && s'.sets == s.sets[key := ZAt(s, key)[org := tsMs]]
      && s'.deadlines == s.deadlines[key := clockMs + 1000 * BackstopSeconds(p.ttl)]
  {
  }

  // So does an ingestion for every org it lists, among the candidates too when a change was detected.
  lemma IngestWrites(p: Policy, s: Server, k: Key, orgs: seq<string>, tsMs: int, changed: bool, clockMs: int)
    requires orgs != []
    ensures var s' := RedisIngest(p, s, k, orgs, tsMs, changed, clockMs);
      var (okey, akey, due) := (ObsKey(k), AgreeKey(k), clockMs + 1000 * BackstopSeconds(p.ttl));
      && okey in s'.deadlines && s'.deadlines[okey] == due && IsWritten(ZAt(s, okey), ZAt(s', okey), orgs, tsMs)
      && (if changed then akey in s'.deadlines && s'.deadlines[akey] == due
                          && IsWritten(ZAt(s, akey), ZAt(s', akey), orgs, tsMs)
          else ZAt(s', akey) == ZAt(s, akey))
      && forall key :: key != okey && key != akey ==> ZAt(s', key) == ZAt(s, key)
  {
    KindsApart(k, k);
    hide AgreeKey, ObsKey;
    AddsOrgs(s, k, orgs, tsMs, changed);
    hide AddOrgs, IsWritten, BackstopSeconds;
  }

  ghost predicate IsWritten(z: ZSet, z': ZSet, orgs: seq<string>, tsMs: int) {
    && (forall o :: o in z' <==> o in z || o in orgs)
    && (forall o <- z' :: z'[o] == if o in orgs then tsMs else z[o])
  }

  lemma {:induction false} AddsOrgs(s: Server, k: Key, orgs: seq<string>, tsMs: int, changed: bool)
    requires AgreeKey(k) != ObsKey(k)
    ensures var s' := AddOrgs(s, k, orgs, tsMs, changed);
      && (orgs != [] ==> ObsKey(k) in s'.sets && (changed ==> AgreeKey(k) in s'.sets))
      && IsWritten(ZAt(s, ObsKey(k)), ZAt(s', ObsKey(k)), orgs, tsMs)
      && (if changed then IsWritten(ZAt(s, AgreeKey(k)), ZAt(s', AgreeKey(k)), orgs, tsMs)
          else ZAt(s', AgreeKey(k)) == ZAt(s, AgreeKey(k)))
      && forall key :: key != ObsKey(k) && key != AgreeKey(k) ==> ZAt(s', key) == ZAt(s, key)
  {
    hide AgreeKey, ObsKey, IsWritten, Zadd, ZAt;
    if orgs == [] {
      NoneWritten(ZAt(s, ObsKey(k)), tsMs);
      NoneWritten(ZAt(s, AgreeKey(k)), tsMs);
    } else {
      var front, org := orgs[..|orgs| - 1], orgs[|orgs| - 1];
      var before := AddOrgs(s, k, front, tsMs, changed);
      AddsOrgs(s, k, front, tsMs, changed);
      assert orgs == front + [org];
      Zadds(before, ObsKey(k), org, tsMs);
      OneWritten(ZAt(s, ObsKey(k)), ZAt(before, ObsKey(k)), front, org, tsMs);
      if changed {
        Zadds(Zadd(before, ObsKey(k), org, tsMs), AgreeKey(k), org, tsMs);
        OneWritten(ZAt(s, AgreeKey(k)), ZAt(before, AgreeKey(k)), front, org, tsMs);
      }
    }
  }

  lemma Zadds(s: Server, key: string, member: string, score: int)
    ensures key in Zadd(s, key, member, score).sets
    ensures forall other :: other in s.sets ==> other in Zadd(s, key, member, score).sets
    ensures forall other :: ZAt(Zadd(s, key, member, score), other)
                         == if other == key then ZAt(s, key)[member := score] else ZAt(s, other)
  {
  }

  lemma NoneWritten(z: ZSet, tsMs: int)
    ensures IsWritten(z, z, [], tsMs)
  {
  }

  lemma OneWritten(z: ZSet, z': ZSet, orgs: seq<string>, org: string, tsMs: int)
    requires IsWritten(z, z', orgs, tsMs)
    ensures IsWritten(z, z'[org := tsMs], orgs + [org], tsMs)
  {
  }

  // ---------------------------------------------------------------- the object

  class RedisAgreementScorer {
    const p: Policy
    const ttlMs: int
    const backstop: int
    var server: Server  // the injected client's server

    constructor (server: Server, quorum: Option<int>, ttl: int, num: int, den: int)
      ensures p == Policy(if quorum.Some? then quorum.value else QUORUM_FLOOR, ttl, num, den)
      ensures this.server == server && Valid()
    {
      p := Policy(if quorum.Some? then quorum.value else QUORUM_FLOOR, ttl, num, den);
      ttlMs, backstop := ttl / NS_PER_MS, Max(1, 2 * ttl / 1_000_000_000);
      this.server := server;
    }

    predicate Valid() { ttlMs == p.ttl / NS_PER_MS && backstop == BackstopSeconds(p.ttl) }

    function StampMs(ts: Option<int>, clock: int): int {
      if ts.Some? && ts.value != 0 then ts.value / NS_PER_MS else clock / NS_PER_MS
    }

    method Observe(k: Key, org: string, ts: Option<int>, clock: int)
      requires Valid()
      modifies this
      ensures server == RedisObserve(p, old(server), k, org, Stamp(ts, clock) / NS_PER_MS, clock / NS_PER_MS)
    {
      var at := StampMs(ts, clock);
      server := Zadd(server, ObsKey(k), org, at);
      server := Expire(server, ObsKey(k), backstop, clock / NS_PER_MS);
    }

    method Ingest(k: Key, orgs: seq<string>, changed: bool, ts: Option<int>, clock: int)
      requires Valid()
      modifies this
      ensures server
           == RedisIngest(p, old(server), k, orgs, Stamp(ts, clock) / NS_PER_MS, changed, clock / NS_PER_MS)
    {
      if orgs == [] {
        return;
      }
      var at := StampMs(ts, clock);
      for i := 0 to |orgs|
        invariant server == AddOrgs(old(server), k, orgs[..i], at, changed)
      {
        assert orgs[..i + 1][..i] == orgs[..i];
        server := Zadd(server, ObsKey(k), orgs[i], at);
        if changed {
          server := Zadd(server, AgreeKey(k), orgs[i], at);
        }
      }
      assert orgs[..|orgs|] == orgs;
      server := Expire(server, ObsKey(k), backstop, clock / NS_PER_MS);
      if changed {
        server := Expire(server, AgreeKey(k), backstop, clock / NS_PER_MS);
      }
    }

    method PromoteToPublicAlert(k: Key, now: Option<int>, clock: int) returns (count: Option<nat>)
      requires Valid() && p.den > 0
      modifies this
      ensures (server, count)
           == RedisPromote(p, old(server), k, (if now.Some? then now.value else clock) / NS_PER_MS)
    {
      var nowMs := if now.None? then clock / NS_PER_MS else now.value / NS_PER_MS;
      var (s, result) := Script(server, AgreeKey(k), ObsKey(k), nowMs - ttlMs, nowMs, p.floor, p.num, p.den);
      server := s;
      count := if result != 0 then Some(result) else None;
    }

    method Clear(k: Key)
      modifies this
      ensures server == Delete(old(server), AgreeKey(k))
    {
      server := Delete(server, AgreeKey(k));
    }
  }
}
