// engine/correlation.py: the population-scaled quorum and the in-memory agreement scorer.
module AgreementScorer {
  import opened Common
  import opened Detector

  const QUORUM_FLOOR := 3
  const QUORUM_FRAC_NUM := 1
  const QUORUM_FRAC_DEN := 3

  // ---------------------------------------------------------------- q(M)

  function RequiredQuorum(networkSize: int, floor: int, num: int, den: int): int
    requires den > 0
  {
    var m := Max(0, networkSize);
    Max(floor, (num * m + den - 1) / den)
  }

  // q(M) is the least integer at or above the floor that is at least num/den of the population.
  lemma QuorumIsLeast(m: nat, floor: int, num: int, den: int)
    requires den > 0
    ensures var q := RequiredQuorum(m, floor, num, den);
            && q >= floor && den * q >= num * m
            && forall r :: r >= floor && den * r >= num * m ==> q <= r
  {
    var x := num * m;
    var c := (x + den - 1) / den;
    CeilingIsLeast(x, den);
    forall r | r >= floor && den * r >= x
      ensures c <= r
    {
    }
    var q := RequiredQuorum(m, floor, num, den);
    assert den * q >= den * c;
  }

  lemma CeilingIsLeast(x: int, den: int)
    requires den > 0
    ensures var c := (x + den - 1) / den; den * c >= x && forall r :: den * r >= x ==> c <= r
  {
    var c := (x + den - 1) / den;
    assert (x + den - 1) == den * c + (x + den - 1) % den;
    forall r | den * r >= x
      ensures c <= r
    {
      LessByProduct(den, c - 1, r);
    }
  }

  lemma LessByProduct(den: int, a: int, b: int)
    requires den > 0 && den * a < den * b
    ensures a < b
  {
  }

  // As shipped: three organisations, until more than nine are observing.
  lemma ShippedQuorum(m: nat)
    ensures RequiredQuorum(m, QUORUM_FLOOR, QUORUM_FRAC_NUM, QUORUM_FRAC_DEN) >= 3
    ensures RequiredQuorum(m, QUORUM_FLOOR, QUORUM_FRAC_NUM, QUORUM_FRAC_DEN) == 3 <==> m <= 9
  {
    QuorumIsLeast(m, QUORUM_FLOOR, QUORUM_FRAC_NUM, QUORUM_FRAC_DEN);
  }

  // One more observer raises the quorum by at most one, and never lowers it.
  lemma QuorumGrowsSlowly(m: nat, floor: int, num: int, den: int)
    requires 0 <= num <= den && den > 0
    ensures RequiredQuorum(m, floor, num, den) <= RequiredQuorum(m + 1, floor, num, den)
         <= RequiredQuorum(m, floor, num, den) + 1
  {
    hide RequiredQuorum;
    QuorumIsLeast(m, floor, num, den);
    QuorumIsLeast(m + 1, floor, num, den);
    var q := RequiredQuorum(m, floor, num, den);
    OneStep(m, num, den, q);
    OneStep(m, num, den, RequiredQuorum(m + 1, floor, num, den));
  }

  lemma OneStep(m: nat, num: int, den: int, q: int)
    requires 0 <= num <= den
    ensures den * q >= num * m ==> den * (q + 1) >= num * (m + 1)
    ensures den * q >= num * (m + 1) ==> den * q >= num * m
  {
    assert num * (m + 1) == num * m + num;
    assert den * (q + 1) == den * q + den;
  }

  lemma {:induction false} QuorumMonotone(m: nat, n: nat, floor: int, num: int, den: int)
    requires 0 <= num <= den && den > 0 && m <= n
    ensures RequiredQuorum(m, floor, num, den) <= RequiredQuorum(n, floor, num, den)
         <= RequiredQuorum(m, floor, num, den) + (n - m)
    decreases n - m
  {
    if m < n {
      QuorumGrowsSlowly(m, floor, num, den);
      QuorumMonotone(m + 1, n, floor, num, den);
    }
  }

  // ---------------------------------------------------------------- the tables, as values

  type Table = map<string, int>

  datatype Policy = Policy(floor: int, ttl: int, num: int, den: int)

  datatype Book = Book(agree: map<Key, Table>, observers: map<Key, Table>)

  const EmptyBook := Book(map[], map[])

  function TableAt(ts: map<Key, Table>, k: Key): Table {
    if k in ts then ts[k] else map[]
  }

  // An org's entry is the latest event time it was seen with.
  function Mark(t: Table, org: string, ts: int): Table {
    if ts >= (if org in t then t[org] else 0) then t[org := ts] else t
  }

  function Observed(b: Book, k: Key, org: string, ts: int): Book {
    b.(observers := b.observers[k := Mark(TableAt(b.observers, k), org, ts)])
  }

  function Signalled(b: Book, k: Key, org: string, ts: int, changed: bool): Book {
    var o := Observed(b, k, org, ts);
    if changed then o.(agree := o.agree[k := Mark(TableAt(o.agree, k), org, ts)]) else o
  }

  function Ingested(b: Book, k: Key, orgs: seq<string>, ts: int, changed: bool): Book {
    if orgs == [] then b
    else Signalled(Ingested(b, k, orgs[..|orgs| - 1], ts, changed), k, orgs[|orgs| - 1], ts, changed)
  }

  function Live(t: Table, now: int, ttl: int): set<string> {
    set o | o in t && now - ttl <= t[o] <= now
  }

  function Cleared(b: Book, k: Key): Book { b.(agree := b.agree - {k}) }

  function Population(b: Book, k: Key, now: int, ttl: int): nat {
    Max(|Live(TableAt(b.observers, k), now, ttl)|, |Live(TableAt(b.agree, k), now, ttl)|)
  }

  predicate Met(p: Policy, b: Book, k: Key, now: int)
    requires p.den > 0
  {
    var agreeing := Live(TableAt(b.agree, k), now, p.ttl);
    agreeing != {} && |agreeing| >= RequiredQuorum(Population(b, k, now, p.ttl), p.floor, p.num, p.den)
  }

  function Promotion(p: Policy, b: Book, k: Key, now: int): (r: (Book, Option<nat>))
    requires p.den > 0
  {
    if Met(p, b, k, now) then (Cleared(b, k), Some(|Live(TableAt(b.agree, k), now, p.ttl)|))
    else (b, None)
  }

  // An unset timestamp (None or 0) is stamped on arrival.
  function Stamp(ts: Option<int>, clock: int): int {
    if ts.Some? && ts.value != 0 then ts.value else clock
  }

  // ---------------------------------------------------------------- the object

  class Scorer {
    const p: Policy
    var agree: map<Key, Table>
    var observers: map<Key, Table>

    constructor (quorum: Option<int>, ttl: int, num: int, den: int)
      ensures p == Policy(if quorum.Some? then quorum.value else QUORUM_FLOOR, ttl, num, den)
      ensures Value() == EmptyBook
    {
      p := Policy(if quorum.Some? then quorum.value else QUORUM_FLOOR, ttl, num, den);
      agree, observers := map[], map[];
    }

    function Value(): Book
      reads this
    {
      Book(agree, observers)
    }

    method Observe(k: Key, org: string, ts: Option<int>, clock: int)
      modifies this`observers
      ensures Value() == Observed(old(Value()), k, org, Stamp(ts, clock))
    {
      var at := if ts.Some? && ts.value != 0 then ts.value else clock;
      var bucket := if k in observers then observers[k] else map[];
      var prev := if org in bucket then bucket[org] else 0;
      if at >= prev {
        bucket := bucket[org := at];
      }
      observers := observers[k := bucket];
    }

    method Ingest(k: Key, orgs: seq<string>, changed: bool, ts: Option<int>, clock: int)
      modifies this
      ensures Value() == Ingested(old(Value()), k, orgs, Stamp(ts, clock), changed)
    {
      if orgs == [] {
        return;
      }
      var at := Stamp(ts, clock);
      for i := 0 to |orgs|
        invariant Value() == Ingested(old(Value()), k, orgs[..i], at, changed)
      {
        assert orgs[..i + 1][..i] == orgs[..i];
        Observe(k, orgs[i], Some(at), at);
        if changed {
          var bucket := if k in agree then agree[k] else map[];
          var prev := if orgs[i] in bucket then bucket[orgs[i]] else 0;
          if at >= prev {
            bucket := bucket[orgs[i] := at];
          }
          agree := agree[k := bucket];
        }
      }
      assert orgs[..|orgs|] == orgs;
    }

    method PromoteToPublicAlert(k: Key, now: Option<int>, clock: int) returns (count: Option<nat>)
      requires p.den > 0
      modifies this`agree
      ensures (Value(), count) == Promotion(p, old(Value()), k, if now.Some? then now.value else clock)
    {
      var agreeTbl := if k in agree then agree[k] else map[];
      if agreeTbl == map[] {
        return None;
      }
      var at := if now.Some? then now.value else clock;
      var liveAgree := Live(agreeTbl, at, p.ttl);
      if liveAgree == {} {
        return None;
      }
      var liveObs := Live(if k in observers then observers[k] else map[], at, p.ttl);
      var population := Max(|liveObs|, |liveAgree|);
      var q := RequiredQuorum(population, p.floor, p.num, p.den);
      if |liveAgree| >= q {
        count := Some(|liveAgree|);
        Clear(k);
        return count;
      }
      return None;
    }

    method Clear(k: Key)
      modifies this`agree
      ensures Value() == Cleared(old(Value()), k)
    {
      agree := agree - {k};
    }
  }

  // ---------------------------------------------------------------- runs

  datatype Op =
    | Observe(key: Key, org: string, at: int)
    | Ingest(key: Key, orgs: seq<string>, changed: bool, at: int)
    | Promote(key: Key, at: int)
    | Clear(key: Key, at: int)

  function Apply(p: Policy, b: Book, op: Op): (Book, Option<nat>)
    requires p.den > 0
  {
    match op
    case Observe(k, org, at) => (Observed(b, k, org, at), None)
    case Ingest(k, orgs, changed, at) => (Ingested(b, k, orgs, at, changed), None)
    case Promote(k, at) => Promotion(p, b, k, at)
    case Clear(k, _) => (Cleared(b, k), None)
  }

  function After(p: Policy, ops: seq<Op>): Book
    requires p.den > 0
  {
    if ops == [] then EmptyBook else Apply(p, After(p, ops[..|ops| - 1]), ops[|ops| - 1]).0
  }

  // What the operation at position i answered.
  function Output(p: Policy, ops: seq<Op>, i: nat): Option<nat>
    requires p.den > 0 && i < |ops|
  {
    Apply(p, After(p, ops[..i]), ops[i]).1
  }

  // ---------------------------------------------------------------- accounting

  // The candidates ingested on stream k: one per org listed in a changed result.
  function Candidates(ops: seq<Op>, k: Key): nat {
    if ops == [] then 0
    else
      var last := ops[|ops| - 1];
      Candidates(ops[..|ops| - 1], k)
      + (if last.Ingest? && last.key == k && last.changed then |last.orgs| else 0)
  }

  // The counts promoted on stream k.
  function Promoted(p: Policy, ops: seq<Op>, k: Key): nat
    requires p.den > 0
  {
    if ops == [] then 0
    else
      var front, last := ops[..|ops| - 1], ops[|ops| - 1];
      var r := Apply(p, After(p, front), last).1;
      Promoted(p, front, k) + (if last.key == k && r.Some? then r.value else 0)
  }

  lemma MapGrowth(t: Table, org: string, ts: int)
    ensures |Mark(t, org, ts)| <= |t| + 1
  {
    if org in t {
      assert t[org := ts].Keys == t.Keys;
    } else {
      assert t[org := ts].Keys == t.Keys + {org};
    }
  }

  lemma LiveIsSmall(t: Table, now: int, ttl: int)
    ensures |Live(t, now, ttl)| <= |t|
  {
    SubsetSize(Live(t, now, ttl), t.Keys);
  }

  lemma {:induction false} IngestGrowth(b: Book, k: Key, orgs: seq<string>, ts: int, changed: bool, other: Key)
    ensures |TableAt(Ingested(b, k, orgs, ts, changed).agree, other)|
         <= |TableAt(b.agree, other)| + (if changed && k == other then |orgs| else 0)
  {
    if orgs != [] {
      var before := Ingested(b, k, orgs[..|orgs| - 1], ts, changed);
      IngestGrowth(b, k, orgs[..|orgs| - 1], ts, changed, other);
      MapGrowth(TableAt(before.agree, k), orgs[|orgs| - 1], ts);
    }
  }

  // Every candidate is charged to at most one promotion: what a stream has promoted, plus what
  // is still pending on it, is covered by the candidates ingested on that same stream.
  lemma {:induction false} PromotionsAreCovered(p: Policy, ops: seq<Op>, k: Key)
    requires p.den > 0
    ensures Promoted(p, ops, k) + |TableAt(After(p, ops).agree, k)| <= Candidates(ops, k)
  {
    if ops != [] {
      var front, last := ops[..|ops| - 1], ops[|ops| - 1];
      var b := After(p, front);
      PromotionsAreCovered(p, front, k);
      match last {
        case Observe(_, _, _) =>
        case Ingest(k', orgs, changed, at) => IngestGrowth(b, k', orgs, at, changed, k);
        case Promote(k', at) => LiveIsSmall(TableAt(b.agree, k), at, p.ttl);
        case Clear(_, _) =>
      }
    }
  }

  // ---------------------------------------------------------------- provenance

  predicate IsCandidate(op: Op, k: Key, org: string, at: int) {
    op.Ingest? && op.key == k && op.changed && org in op.orgs && op.at == at
  }

  // Nothing after position i has discarded stream k's candidates.
  predicate KeptSince(p: Policy, ops: seq<Op>, k: Key, i: nat)
    requires p.den > 0
  {
    forall j :: i < j < |ops| ==>
      !(ops[j].Clear? && ops[j].key == k) && !(ops[j].Promote? && ops[j].key == k && Output(p, ops, j).Some?)
  }

  ghost predicate Backed(p: Policy, ops: seq<Op>, k: Key, org: string, at: int)
    requires p.den > 0
  {
    exists i :: 0 <= i < |ops| && IsCandidate(ops[i], k, org, at) && KeptSince(p, ops, k, i)
  }

  lemma {:induction false} IngestSources(b: Book, k: Key, orgs: seq<string>, ts: int, changed: bool,
                                         other: Key, org: string)
    ensures var t := TableAt(Ingested(b, k, orgs, ts, changed).agree, other);
            org in t ==>
              || (org in TableAt(b.agree, other) && t[org] == TableAt(b.agree, other)[org])
              || (changed && other == k && org in orgs && t[org] == ts)
  {
    if orgs != [] {
      IngestSources(b, k, orgs[..|orgs| - 1], ts, changed, other, org);
    }
  }

  // Every pending entry stems from a candidate of exactly that org on exactly that stream, which
  // no later promotion or clear has used up.
  lemma {:induction false} EntriesAreBacked(p: Policy, ops: seq<Op>, k: Key, org: string)
    requires p.den > 0 && org in TableAt(After(p, ops).agree, k)
    ensures Backed(p, ops, k, org, TableAt(After(p, ops).agree, k)[org])
  {
    if ops != [] {
      var n := |ops| - 1;
      var front, last := ops[..n], ops[n];
      var b := After(p, front);
      var at := TableAt(After(p, ops).agree, k)[org];
      if last.Ingest? {
        IngestSources(b, last.key, last.orgs, last.at, last.changed, k, org);
      }
      if org in TableAt(b.agree, k) && TableAt(b.agree, k)[org] == at {
        EntriesAreBacked(p, front, k, org);
        var i :| 0 <= i < n && IsCandidate(front[i], k, org, at) && KeptSince(p, front, k, i);
        forall j | i < j < n
          ensures !(ops[j].Clear? && ops[j].key == k)
          ensures !(ops[j].Promote? && ops[j].key == k && Output(p, ops, j).Some?)
        {
          assert front[j] == ops[j] && front[..j] == ops[..j];
          assert Output(p, front, j) == Output(p, ops, j);
        }
        StillPending(p, ops, k, org);
        assert IsCandidate(ops[i], k, org, at);
        assert KeptSince(p, ops, k, i);
      } else {
        assert IsCandidate(ops[n], k, org, at) && KeptSince(p, ops, k, n);
      }
    }
  }

  lemma StillPending(p: Policy, ops: seq<Op>, k: Key, org: string)
    requires p.den > 0 && ops != [] && org in TableAt(After(p, ops).agree, k)
    ensures var n := |ops| - 1;
            && !(ops[n].Clear? && ops[n].key == k)
            && !(ops[n].Promote? && ops[n].key == k && Output(p, ops, n).Some?)
  {
  }

  // A promotion's count is the number of distinct orgs whose unused candidates on exactly this
  // stream fall in the window, and it reaches max(floor, ceil(num * M / den)).
  lemma PromotionIsAgreement(p: Policy, ops: seq<Op>, i: nat) returns (orgs: set<string>)
    requires p.den > 0 && i < |ops| && ops[i].Promote? && Output(p, ops, i).Some?
    ensures Output(p, ops, i).value == |orgs|
    ensures var k, now := ops[i].key, ops[i].at;
            && |orgs| >= p.floor
            && p.den * |orgs| >= p.num * Population(After(p, ops[..i]), k, now, p.ttl)
            && forall org <- orgs :: exists at ::
                 now - p.ttl <= at <= now && Backed(p, ops[..i], k, org, at)
  {
    var k, now, b := ops[i].key, ops[i].at, After(p, ops[..i]);
    orgs := Live(TableAt(b.agree, k), now, p.ttl);
    QuorumIsLeast(Population(b, k, now, p.ttl), p.floor, p.num, p.den);
    var q := RequiredQuorum(Population(b, k, now, p.ttl), p.floor, p.num, p.den);
    assert p.den * |orgs| >= p.den * q;
    forall org <- orgs
      ensures exists at :: now - p.ttl <= at <= now && Backed(p, ops[..i], k, org, at)
    {
      EntriesAreBacked(p, ops[..i], k, org);
    }
  }

  function OrgsOf(ops: seq<Op>): set<string> {
    if ops == [] then {}
    else
      OrgsOf(ops[..|ops| - 1])
      + (if ops[|ops| - 1].Ingest? then SetOf(ops[|ops| - 1].orgs) else {})
  }

  lemma {:induction false} OrgsInRun(ops: seq<Op>, i: nat)
    requires i < |ops| && ops[i].Ingest?
    ensures forall o <- ops[i].orgs :: o in OrgsOf(ops)
  {
    if i < |ops| - 1 {
      OrgsInRun(ops[..|ops| - 1], i);
    }
  }

  // A population of org ids smaller than the floor can never raise a public alert on any stream,
  // however it spreads its candidates.
  lemma TooFewOrgsNeverPromote(p: Policy, ops: seq<Op>, i: nat)
    requires p.den > 0 && i < |ops| && |OrgsOf(ops[..i])| < p.floor
    ensures Output(p, ops, i) == None
  {
    if Output(p, ops, i).Some? {
      var orgs := PromotionIsAgreement(p, ops, i);
      hide Backed, Output, Population;
      forall org <- orgs
        ensures org in OrgsOf(ops[..i])
      {
        var at :| ops[i].at - p.ttl <= at <= ops[i].at && Backed(p, ops[..i], ops[i].key, org, at);
        BackedIsKnown(p, ops[..i], ops[i].key, org, at);
      }
      SubsetSize(orgs, OrgsOf(ops[..i]));
    }
  }

  lemma BackedIsKnown(p: Policy, ops: seq<Op>, k: Key, org: string, at: int)
    requires p.den > 0 && Backed(p, ops, k, org, at)
    ensures org in OrgsOf(ops)
  {
    var j :| 0 <= j < |ops| && IsCandidate(ops[j], k, org, at) && KeptSince(p, ops, k, j);
    OrgsInRun(ops, j);
  }

  // ---------------------------------------------------------------- what the tables hold

  // Marking never turns an org's time back, and reaches the time marked unless that is negative.
  lemma MarkIsLatest(t: Table, org: string, ts: int)
    ensures forall o <- t :: o in Mark(t, org, ts) && (0 <= t[o] ==> t[o] <= Mark(t, org, ts)[o])
    ensures ts >= 0 ==> org in Mark(t, org, ts) && ts <= Mark(t, org, ts)[org]
  {
  }

  // b's entries on stream k are in c, at no earlier times.
  ghost predicate Kept(b: Table, c: Table) { forall o <- b :: o in c && (0 <= b[o] ==> 0 <= b[o] <= c[o]) }

  lemma {:induction false} IngestMarks(b: Book, k: Key, orgs: seq<string>, ts: int, changed: bool, other: Key)
    ensures var c := Ingested(b, k, orgs, ts, changed);
      && Kept(TableAt(b.agree, other), TableAt(c.agree, other))
      && Kept(TableAt(b.observers, other), TableAt(c.observers, other))
      && (ts >= 0 ==> forall o <- orgs :: o in TableAt(c.observers, k) && ts <= TableAt(c.observers, k)[o])
      && (ts >= 0 && changed ==> forall o <- orgs :: o in TableAt(c.agree, k) && ts <= TableAt(c.agree, k)[o])
  {
    if orgs != [] {
      var front, org := orgs[..|orgs| - 1], orgs[|orgs| - 1];
      var before := Ingested(b, k, front, ts, changed);
      IngestMarks(b, k, front, ts, changed, other);
      IngestMarks(b, k, front, ts, changed, k);
      assert orgs == front + [org];
      MarkIsLatest(TableAt(before.observers, k), org, ts);
      MarkIsLatest(TableAt(before.agree, k), org, ts);
      hide Mark;
    }
  }

  // A candidate that nothing has used up is in the table, at its own time or a later one.
  lemma {:induction false} CandidatesArePending(p: Policy, ops: seq<Op>, k: Key, org: string, j: nat)
    requires p.den > 0 && j < |ops| && IsCandidate(ops[j], k, org, ops[j].at) && ops[j].at >= 0
    requires KeptSince(p, ops, k, j)
    ensures var t := TableAt(After(p, ops).agree, k); org in t && ops[j].at <= t[org]
  {
    var n := |ops| - 1;
    var front, last := ops[..n], ops[n];
    var b := After(p, front);
    if last.Ingest? { IngestMarks(b, last.key, last.orgs, last.at, last.changed, k); }
    if j < n {
      forall i | j < i < n
        ensures !(front[i].Clear? && front[i].key == k)
        ensures !(front[i].Promote? && front[i].key == k && Output(p, front, i).Some?)
      {
        assert front[i] == ops[i] && front[..i] == ops[..i];
      }
      CandidatesArePending(p, front, k, org, j);
      assert !(last.Promote? && last.key == k && Output(p, ops, n).Some?);
    }
    hide Mark, Met;
  }

  predicate IsSighting(op: Op, k: Key, org: string) {
    || (op.Observe? && op.key == k && op.org == org)
    || (op.Ingest? && op.key == k && org in op.orgs)
  }

  // So is every sighting among the observers, where nothing is ever used up.
  lemma {:induction false} SightingsAreObserved(p: Policy, ops: seq<Op>, k: Key, org: string, j: nat)
    requires p.den > 0 && j < |ops| && IsSighting(ops[j], k, org) && ops[j].at >= 0
    ensures var t := TableAt(After(p, ops).observers, k); org in t && ops[j].at <= t[org]
  {
    var n := |ops| - 1;
    var front, last := ops[..n], ops[n];
    var b := After(p, front);
    if last.Ingest? { IngestMarks(b, last.key, last.orgs, last.at, last.changed, k); }
    if last.Observe? { MarkIsLatest(TableAt(b.observers, last.key), last.org, last.at); }
    if j < n { SightingsAreObserved(p, front, k, org, j); }
    hide Mark, Met;
  }

  lemma {:induction false} IngestSightings(b: Book, k: Key, orgs: seq<string>, ts: int, changed: bool,
                                           other: Key, org: string)
    ensures var t := TableAt(Ingested(b, k, orgs, ts, changed).observers, other);
            org in t ==>
              || (org in TableAt(b.observers, other) && t[org] == TableAt(b.observers, other)[org])
              || (other == k && org in orgs && t[org] == ts)
  {
    if orgs != [] {
      IngestSightings(b, k, orgs[..|orgs| - 1], ts, changed, other, org);
    }
  }

  lemma {:induction false} ObserversWereSeen(p: Policy, ops: seq<Op>, k: Key, org: string) returns (j: nat)
    requires p.den > 0 && org in TableAt(After(p, ops).observers, k)
    ensures j < |ops| && IsSighting(ops[j], k, org) && ops[j].at == TableAt(After(p, ops).observers, k)[org]
  {
    var n := |ops| - 1;
    var front, last := ops[..n], ops[n];
    var b := After(p, front);
    if last.Ingest? { IngestSightings(b, last.key, last.orgs, last.at, last.changed, k, org); }
    var t := TableAt(b.observers, k);
    if org in t && t[org] == TableAt(After(p, ops).observers, k)[org] {
      j := ObserversWereSeen(p, front, k, org);
    } else {
      j := n;
    }
  }

  // Orgs whose time in a table lies in the window that ends now.
  ghost function InWindow(t: Table, now: int, ttl: int): set<string> {
    set o | o in t && t[o] <= now && now <= t[o] + ttl
  }

  // A quorum check succeeds exactly when some org agrees within the window, and those that do reach
  // the floor and the given share of the orgs seen in it; it answers their number.
  lemma PromotesExactly(p: Policy, ops: seq<Op>, i: nat)
    requires p.den > 0 && i < |ops| && ops[i].Promote?
    ensures var (b, k, now) := (After(p, ops[..i]), ops[i].key, ops[i].at);
      var n := |InWindow(TableAt(b.agree, k), now, p.ttl)|;
      var seen := |InWindow(TableAt(b.observers, k), now, p.ttl)|;
      Output(p, ops, i)
      == if n > 0 && n >= p.floor && p.den * n >= p.num * Max(n, seen) then Some(n) else None
  {
    var b, k, now := After(p, ops[..i]), ops[i].key, ops[i].at;
    var agree, seen := TableAt(b.agree, k), TableAt(b.observers, k);
    WindowIsLive(agree, now, p.ttl);
    WindowIsLive(seen, now, p.ttl);
    hide Live, InWindow, After, TableAt, RequiredQuorum;
    QuorumReached(|Live(agree, now, p.ttl)|, |Live(seen, now, p.ttl)|, p);
  }

  lemma WindowIsLive(t: Table, now: int, ttl: int)
    ensures InWindow(t, now, ttl) == Live(t, now, ttl)
  {
  }

  lemma QuorumReached(n: nat, m: nat, p: Policy)
    requires p.den > 0
    ensures n >= RequiredQuorum(Max(m, n), p.floor, p.num, p.den)
       <==> n >= p.floor && p.den * n >= p.num * Max(n, m)
  {
    var pop := Max(m, n);
    QuorumIsLeast(pop, p.floor, p.num, p.den);
    hide RequiredQuorum;
    var q := RequiredQuorum(pop, p.floor, p.num, p.den);
    if n >= q { Reached(n, q, p.den); }
  }

  lemma Reached(n: int, q: int, den: int)
    requires den > 0 && n >= q
    ensures den * n >= den * q
  {
  }

  // An unset time, or a zero one, is the time of arrival.
  lemma StampsArrival(ts: int, clock: int)
    ensures Stamp(None, clock) == clock
    ensures Stamp(Some(ts), clock) == if ts == 0 then clock else ts
  {
  }

  // ---------------------------------------------------------------- monotonicity

  // An org's candidate is never later than its last observation; no entry is negative.
  ghost predicate Watched(b: Book, k: Key) { Covered(TableAt(b.agree, k), TableAt(b.observers, k)) }

  ghost predicate Covered(agree: Table, obs: Table) {
    && (forall org <- agree :: org in obs && 0 <= agree[org] <= obs[org])
    && (forall org <- obs :: 0 <= obs[org])
  }

  lemma MarkKeepsCovered(agree: Table, obs: Table, org: string, ts: int)
    requires Covered(agree, obs)
    ensures Covered(agree, Mark(obs, org, ts))
    ensures Covered(Mark(agree, org, ts), Mark(obs, org, ts))
  {
  }

  lemma {:induction false} IngestKeepsWatched(b: Book, k: Key, orgs: seq<string>, ts: int, changed: bool, other: Key)
    requires Watched(b, other)
    ensures Watched(Ingested(b, k, orgs, ts, changed), other)
  {
    if orgs != [] {
      IngestKeepsWatched(b, k, orgs[..|orgs| - 1], ts, changed, other);
      var before := Ingested(b, k, orgs[..|orgs| - 1], ts, changed);
      if k == other {
        MarkKeepsCovered(TableAt(before.agree, k), TableAt(before.observers, k), orgs[|orgs| - 1], ts);
      }
    }
  }

  lemma {:induction false} AlwaysWatched(p: Policy, ops: seq<Op>, k: Key)
    requires p.den > 0
    ensures Watched(After(p, ops), k)
  {
    if ops != [] {
      var front, last := ops[..|ops| - 1], ops[|ops| - 1];
      AlwaysWatched(p, front, k);
      if last.Observe? && last.key == k {
        MarkKeepsCovered(TableAt(After(p, front).agree, k), TableAt(After(p, front).observers, k), last.org, last.at);
      }
      if last.Ingest? {
        IngestKeepsWatched(After(p, front), last.key, last.orgs, last.at, last.changed, k);
      }
    }
  }

  // No event of stream k lies after now.
  ghost predicate NothingAhead(b: Book, k: Key, now: int) {
    && (forall org <- TableAt(b.agree, k) :: TableAt(b.agree, k)[org] <= now)
    && (forall org <- TableAt(b.observers, k) :: TableAt(b.observers, k)[org] <= now)
  }

  // Live candidates are live observers.
  lemma AgreeingAreObserving(p: Policy, ops: seq<Op>, k: Key, now: int)
    requires p.den > 0 && NothingAhead(After(p, ops), k, now)
    ensures var b := After(p, ops);
            Live(TableAt(b.agree, k), now, p.ttl) <= Live(TableAt(b.observers, k), now, p.ttl)
  {
    AlwaysWatched(p, ops, k);
  }

  lemma MarkedLive(t: Table, org: string, ts: int, now: int, ttl: int)
    requires forall o <- t :: t[o] <= now
    requires ts <= now
    ensures Live(t, now, ttl) <= Live(Mark(t, org, ts), now, ttl) <= Live(t, now, ttl) + {org}
  {
  }

  // Another observation can only make a quorum harder to reach.
  lemma ObservingNeverHelps(p: Policy, ops: seq<Op>, k: Key, org: string, ts: int, now: int)
    requires p.den > 0 && 0 <= p.num <= p.den && NothingAhead(After(p, ops), k, now) && ts <= now
    requires Met(p, Observed(After(p, ops), k, org, ts), k, now)
    ensures Met(p, After(p, ops), k, now)
  {
    var b := After(p, ops);
    var t := TableAt(b.observers, k);
    MarkedLive(t, org, ts, now, p.ttl);
    SubsetSize(Live(t, now, p.ttl), Live(Mark(t, org, ts), now, p.ttl));
    QuorumMonotone(Population(b, k, now, p.ttl), Population(Observed(b, k, org, ts), k, now, p.ttl),
                   p.floor, p.num, p.den);
  }

  // Another agreeing candidate can never undo a quorum.
  lemma AgreeingNeverHurts(p: Policy, ops: seq<Op>, k: Key, org: string, ts: int, now: int)
    requires p.den > 0 && 0 <= p.num <= p.den && NothingAhead(After(p, ops), k, now) && ts <= now
    requires Met(p, After(p, ops), k, now)
    ensures Met(p, Signalled(After(p, ops), k, org, ts, true), k, now)
  {
    var b := After(p, ops);
    var b' := Signalled(b, k, org, ts, true);
    var agree, obs := TableAt(b.agree, k), TableAt(b.observers, k);
    var a, o := Live(agree, now, p.ttl), Live(obs, now, p.ttl);
    var a', o' := Live(Mark(agree, org, ts), now, p.ttl), Live(Mark(obs, org, ts), now, p.ttl);
    assert TableAt(b'.agree, k) == Mark(agree, org, ts) && TableAt(b'.observers, k) == Mark(obs, org, ts);
    AgreeingAreObserving(p, ops, k, now);
    AlwaysWatched(p, ops, k);
    MarkedLive(agree, org, ts, now, p.ttl);
    MarkedLive(obs, org, ts, now, p.ttl);
    SubsetSize(a, a');
    SubsetSize(o, o');
    SubsetSize(a', o') by {
      assert a' <= o';
    }
    SubsetSize(a, o);
    assert |o'| <= |o| + (|a'| - |a|) by {
      if org in a || org !in a' {
        assert a' == a;
        assert o' == o;
      } else {
        assert a' == a + {org};
        SubsetSize(o', o + {org});
      }
    }
    QuorumMonotone(|o|, |o'|, p.floor, p.num, p.den);
  }
}
