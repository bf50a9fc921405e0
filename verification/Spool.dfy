// probe/spool.py: the on-disk buffer of signed batches and its delivery rules.
module Spool {
  import opened Common
  import opened SpoolNames
  import Gateway

  // A signed body. sound: it is a canonical, valid batch and both signing headers are well formed.
  datatype Parcel = Parcel(batch: Gateway.Batch, sound: bool)

  // What a file holds by now: what was written; bytes whose load raises ValueError; or bytes whose
  // load raises anything else, as JSON that is no object does.
  datatype Contents = AsWritten | Spoiled | Unloadable

  datatype File = File(parcel: Parcel, createdAt: real, contents: Contents)

  type Directory = map<string, File>

  datatype Store = Store(files: Directory, quarantine: Directory)

  // ---------------------------------------------------------------- put

  ghost function Excess(d: Directory, maxFiles: int): seq<string>
    requires maxFiles >= 1
  {
    ListingSize(d.Keys);
    Listing(d.Keys)[..Max(|d| - maxFiles, 0)]
  }

  ghost function Capped(d: Directory, maxFiles: int): Directory
    requires maxFiles >= 1
  {
    d - SetOf(Excess(d, maxFiles))
  }

  function Written(d: Directory, p: Parcel, now: Seconds): Directory {
    d[FileName(now, p.batch.id) := File(p, now, AsWritten)]
  }

  // The cap keeps at most maxFiles files, and they are the greatest names.
  lemma CapKeepsGreatest(d: Directory, maxFiles: int)
    requires maxFiles >= 1
    ensures var c := Capped(d, maxFiles);
            && |c| == Min(|d|, maxFiles)
            && (forall n <- c :: n in d && c[n] == d[n])
            && (forall n <- c, m <- d :: m !in c ==> Before(m, n))
  {
    hide Before;
    var s, x := Listing(d.Keys), Max(|d| - maxFiles, 0);
    ListingSize(d.Keys);
    var out := SetOf(s[..x]);
    SliceSize(s, x);
    assert out <= d.Keys by {
      forall n | n in out
        ensures n in d
      {
        assert n in s;
      }
    }
    assert Capped(d, maxFiles).Keys == d.Keys - out;
    SizeOfRest(d.Keys, out);
    assert |Capped(d, maxFiles).Keys| == |d.Keys| - x;
    forall n <- Capped(d, maxFiles), m <- d | m !in Capped(d, maxFiles)
      ensures Before(m, n)
    {
      assert m in s[..x] && n in s && n !in s[..x];
      FrontIsLess(s, x, m, n);
    }
  }

  lemma FrontIsLess(s: seq<string>, x: nat, m: string, n: string)
    requires Increasing(s) && x <= |s| && m in s[..x] && n in s && n !in s[..x]
    ensures Before(m, n)
  {
    hide Before;
    var i :| 0 <= i < x && s[i] == m;
    var j :| 0 <= j < |s| && s[j] == n;
    assert j >= x;
  }

  lemma {:induction false} SliceSize(s: seq<string>, x: nat)
    requires Increasing(s) && x <= |s|
    ensures |SetOf(s[..x])| == x
  {
    hide Before, SetOf;
    if x == 0 {
      NoNames();
    } else {
      SliceSize(s, x - 1);
      SetOfPush(s, x - 1);
      FreshName(s, x - 1);
    }
  }

  lemma NoNames()
    ensures SetOf<string>([]) == {}
  {
  }

  lemma SetOfPush(s: seq<string>, i: nat)
    requires i < |s|
    ensures SetOf(s[..i + 1]) == SetOf(s[..i]) + {s[i]}
    ensures s[i] in SetOf(s[..i]) <==> s[i] in s[..i]
  {
    assert s[..i + 1] == s[..i] + [s[i]];
  }

  // So the batch just put survives exactly when fewer than maxFiles of the waiting names come
  // after its own; with a clock that moved on, that is always.
  lemma PutSurvives(d: Directory, p: Parcel, now: Seconds, maxFiles: int)
    requires maxFiles >= 1
    ensures var name := FileName(now, p.batch.id);
            name in Capped(Written(d, p, now), maxFiles) <==> |Later(d, name)| < maxFiles
  {
    hide FileName, Capped, Before;
    var name, w := FileName(now, p.batch.id), Written(d, p, now);
    CapKeepsGreatest(w, maxFiles);
    LaterOf(d, w, name);
    SurvivesIff(w, Capped(w, maxFiles), name, maxFiles);
  }

  // What was put is found again as it was written, and is sent by any drain until its age is over.
  lemma PutIsSent(d: Directory, p: Parcel, now: Seconds, maxFiles: int, at: real, maxAge: real)
    requires maxFiles >= 1 && p.sound && |Later(d, FileName(now, p.batch.id))| < maxFiles
    ensures var (name, c) := (FileName(now, p.batch.id), Capped(Written(d, p, now), maxFiles));
      && name in c && c[name].parcel == p && c[name].contents == AsWritten && c[name].createdAt == now
      && (name in Entries(c, at, maxAge) <==> at <= now + maxAge)
  {
    PutSurvives(d, p, now, maxFiles);
    var c := Capped(Written(d, p, now), maxFiles);
    CapKeepsGreatest(Written(d, p, now), maxFiles);
    ListingSize(c.Keys);
    ReadyOfIs(Listing(c.Keys), c, at, maxAge);
    hide Capped, FileName, Later, Before, Increasing;
  }

  function Later(d: Directory, name: string): set<string> { set n | n in d && Before(name, n) }

  lemma LaterOf(d: Directory, w: Directory, name: string)
    requires w.Keys == d.Keys + {name}
    ensures Later(w, name) == Later(d, name)
  {
    BeforeIrreflexive(name);
  }

  lemma SurvivesIff(w: Directory, c: Directory, name: string, maxFiles: int)
    requires maxFiles >= 1 && name in w && c.Keys <= w.Keys && |c| == Min(|w|, maxFiles)
    requires forall n <- c, m <- w :: m !in c ==> Before(m, n)
    ensures name in c <==> |Later(w, name)| < maxFiles
  {
    var later := Later(w, name);
    if name in c {
      forall n | n in later
        ensures n in c
      {
        if n !in c { NotBoth(name, n); }
      }
      BeforeIrreflexive(name);
      assert later + {name} <= c.Keys;
      SubsetSize(later + {name}, c.Keys);
    } else {
      assert c.Keys <= later;
      SubsetSize(c.Keys, later);
      assert |c.Keys| == |c| && |w.Keys| == |w|;
      if |w| <= maxFiles { SameSize(c.Keys, w.Keys); }
    }
  }

  lemma NotBoth(a: string, b: string)
    ensures !(Before(a, b) && Before(b, a))
  {
    if Before(a, b) && Before(b, a) {
      BeforeTransitive(a, b, a);
      BeforeIrreflexive(a);
    }
  }

  lemma SameSize(a: set<string>, b: set<string>)
    requires a <= b && |a| == |b|
    ensures a == b
  {
    SizeOfRest(b, a);
  }

  // ---------------------------------------------------------------- scan

  // Blocking: nothing catches what the load raises, and the scan raises with it.
  datatype Kind = Damaged | Expired | Ready | Blocking

  function KindOf(f: File, now: real, maxAge: real): Kind {
    if f.contents.Unloadable? then Blocking
    else if f.contents.Spoiled? || !f.parcel.sound then Damaged
    else if now - f.createdAt > maxAge then Expired
    else Ready
  }

  function IdOf(d: Directory, name: string): string {
    if name in d then d[name].parcel.batch.id else ""
  }

  datatype Scanned = Scanned(store: Store, entries: seq<string>, quarantined: seq<string>, expired: seq<string>)

  function Moved(s: Store, name: string): Store {
    if name in s.files then Store(s.files - {name}, s.quarantine[name := s.files[name]]) else s
  }

  function Dropped(s: Store, name: string): Store { s.(files := s.files - {name}) }

  function ScanStep(x: Scanned, name: string, now: real, maxAge: real): Scanned {
    if name !in x.store.files then x
    else match KindOf(x.store.files[name], now, maxAge)
      case Damaged => x.(store := Moved(x.store, name), quarantined := x.quarantined + [name])
      case Expired => x.(store := Dropped(x.store, name), expired := x.expired + [IdOf(x.store.files, name)])
      case Ready => x.(entries := x.entries + [name])
      case Blocking => x
  }

  // No file stands in a scan's way.
  predicate Loadable(d: Directory) { forall n <- d :: !d[n].contents.Unloadable? }

  // How many of the listed files a scan gets through before one makes it raise; all if none does.
  function Reach(ns: seq<string>, d: Directory): (i: nat)
    ensures i <= |ns|
    ensures forall j :: 0 <= j < i ==> !(ns[j] in d && d[ns[j]].contents.Unloadable?)
    ensures i < |ns| ==> ns[i] in d && d[ns[i]].contents.Unloadable?
  {
    if ns == [] then 0
    else
      var n := |ns| - 1;
      var i := Reach(ns[..n], d);
      if i < n then i else if ns[n] in d && d[ns[n]].contents.Unloadable? then n else n + 1
  }

  function Scanning(s: Store, ns: seq<string>, now: real, maxAge: real): Scanned {
    if ns == [] then Scanned(s, [], [], [])
    else ScanStep(Scanning(s, ns[..|ns| - 1], now, maxAge), ns[|ns| - 1], now, maxAge)
  }

  // The deliverable names among ns, in order.
  function ReadyOf(ns: seq<string>, d: Directory, now: real, maxAge: real): seq<string> {
    if ns == [] then []
    else
      var last := ns[|ns| - 1];
      ReadyOf(ns[..|ns| - 1], d, now, maxAge)
      + (if last in d && KindOf(d[last], now, maxAge).Ready? then [last] else [])
  }

  // A scan looks at each listed file once: deliverable ones stay, in order; damaged ones are in
  // quarantine, and expired ones are gone.
  lemma {:induction false} ScanningIs(s: Store, ns: seq<string>, now: real, maxAge: real)
    requires Increasing(ns) && forall n <- ns :: n in s.files && !KindOf(s.files[n], now, maxAge).Blocking?
    ensures var x := Scanning(s, ns, now, maxAge);
            && x.entries == ReadyOf(ns, s.files, now, maxAge)
            && (forall n :: n in x.store.files <==>
                 n in s.files && (n in ns ==> KindOf(s.files[n], now, maxAge).Ready?))
            && (forall n <- x.store.files :: x.store.files[n] == s.files[n])
            && (forall n :: n in x.store.quarantine <==>
                 n in s.quarantine || (n in ns && KindOf(s.files[n], now, maxAge).Damaged?))
            && (forall n <- ns :: KindOf(s.files[n], now, maxAge).Damaged? ==>
                 n in x.store.quarantine && x.store.quarantine[n] == s.files[n])
            && |x.entries| + |x.quarantined| + |x.expired| == |ns|
  {
    hide KindOf, Before;
    if ns != [] {
      var n := |ns| - 1;
      FreshName(ns, n);
      assert ns == ns[..n] + [ns[n]];
      ScanningIs(s, ns[..n], now, maxAge);
    }
  }

  lemma {:induction false} ReadyOfIs(ns: seq<string>, d: Directory, now: real, maxAge: real)
    ensures forall n :: n in ReadyOf(ns, d, now, maxAge)
                   <==> n in ns && n in d && KindOf(d[n], now, maxAge).Ready?
    ensures Increasing(ns) ==> Increasing(ReadyOf(ns, d, now, maxAge))
  {
    hide KindOf, Before;
    if ns != [] {
      var front, last := ns[..|ns| - 1], ns[|ns| - 1];
      ReadyOfIs(front, d, now, maxAge);
      assert ns == front + [last];
      var kept := ReadyOf(front, d, now, maxAge);
      if Increasing(ns) {
        forall i | 0 <= i < |kept|
          ensures Before(kept[i], last)
        {
          assert kept[i] in front;
          var j :| 0 <= j < |front| && front[j] == kept[i];
          assert ns[j] == kept[i];
        }
      }
    }
  }

  // ---------------------------------------------------------------- drain

  // What the sender's i-th call does: a status, a transport error, or any other exception.
  datatype Answer = Status(code: int) | Raised | Broken

  datatype Verdict = Delivered | Duplicate | Rejected | Transient

  function Judge(a: Answer): Verdict {
    match a
    case Raised => Transient
    case Broken => Transient
    case Status(code) =>
      if code == 202 then Delivered
      else if code == 409 then Duplicate
      else if 400 <= code < 500 then Rejected
      else Transient
  }

  // The first of n sends that fails transiently; n if none does.
  function Stop(answers: nat -> Answer, n: nat): (i: nat)
    ensures i <= n
    ensures forall j :: 0 <= j < i ==> !Judge(answers(j)).Transient?
    ensures i < n ==> Judge(answers(i)).Transient?
  {
    if n == 0 then 0
    else
      var i := Stop(answers, n - 1);
      if i < n - 1 then i else if Judge(answers(n - 1)).Transient? then n - 1 else n
  }

  datatype Sending = Sending(store: Store, delivered: seq<string>, duplicate: seq<string>, rejected: seq<string>)

  function SendStep(x: Sending, name: string, v: Verdict): Sending {
    var id := IdOf(x.store.files, name);
    match v
    case Delivered => x.(store := Dropped(x.store, name), delivered := x.delivered + [id])
    case Duplicate => x.(store := Dropped(x.store, name), duplicate := x.duplicate + [id])
    case Rejected => x.(store := Moved(x.store, name), rejected := x.rejected + [id])
    case Transient => x
  }

  // The first n sends.
  function Sends(s: Store, ns: seq<string>, answers: nat -> Answer, n: nat): Sending
    requires n <= |ns|
  {
    if n == 0 then Sending(s, [], [], [])
    else SendStep(Sends(s, ns, answers, n - 1), ns[n - 1], Judge(answers(n - 1)))
  }

  // Sends that were answered for good take their file away: rejected ones into quarantine.
  lemma {:induction false} SendsAre(s: Store, ns: seq<string>, answers: nat -> Answer, n: nat)
    requires n <= |ns| && Increasing(ns) && (forall x <- ns :: x in s.files)
    requires forall j :: 0 <= j < n ==> !Judge(answers(j)).Transient?
    ensures var x := Sends(s, ns, answers, n);
            && (forall m :: m in x.store.files <==> m in s.files && m !in ns[..n])
            && (forall m <- x.store.files :: x.store.files[m] == s.files[m])
            && |x.delivered| + |x.duplicate| + |x.rejected| == n
  {
    hide Before, Judge;
    if n > 0 {
      SendsAre(s, ns, answers, n - 1);
      FreshName(ns, n - 1);
      assert ns[..n] == ns[..n - 1] + [ns[n - 1]];
      assert ns[n - 1] in ns;
    }
  }

  lemma {:induction false} SendsQuarantine(s: Store, ns: seq<string>, answers: nat -> Answer, n: nat)
    requires n <= |ns| && Increasing(ns) && (forall x <- ns :: x in s.files)
    requires forall j :: 0 <= j < n ==> !Judge(answers(j)).Transient?
    ensures forall m :: m in Sends(s, ns, answers, n).store.quarantine <==>
                        m in s.quarantine || RejectedBy(ns, answers, n, m)
  {
    hide Before, Judge, SendStep, Increasing;
    if n > 0 {
      SendsQuarantine(s, ns, answers, n - 1);
      SendsAre(s, ns, answers, n - 1);
      FreshName(ns, n - 1);
      assert ns[n - 1] in ns;
      StepQuarantine(Sends(s, ns, answers, n - 1), ns[n - 1], Judge(answers(n - 1)));
      forall m
        ensures RejectedBy(ns, answers, n, m)
           <==> RejectedBy(ns, answers, n - 1, m) || (ns[n - 1] == m && Judge(answers(n - 1)).Rejected?)
      {
        if RejectedBy(ns, answers, n - 1, m) { RejectedLater(ns, answers, n, m); }
      }
      hide RejectedBy, Sends;
    }
  }

  lemma StepQuarantine(x: Sending, name: string, v: Verdict)
    requires name in x.store.files
    ensures forall m :: m in SendStep(x, name, v).store.quarantine <==>
                        m in x.store.quarantine || (name == m && v.Rejected?)
  {
  }

  // The file m was sent among the first n and rejected.
  ghost predicate RejectedBy(ns: seq<string>, answers: nat -> Answer, n: nat, m: string)
    requires n <= |ns|
  {
    exists j :: 0 <= j < n && ns[j] == m && Judge(answers(j)).Rejected?
  }

  lemma RejectedLater(ns: seq<string>, answers: nat -> Answer, n: nat, m: string)
    requires 0 < n <= |ns| && RejectedBy(ns, answers, n - 1, m)
    ensures RejectedBy(ns, answers, n, m)
  {
  }

  datatype Report = Report(delivered: seq<string>, duplicate: seq<string>, quarantined: seq<string>,
                           expired: seq<string>, remaining: nat, stopped: bool)

  // The deliverable names, in the order they are sent.
  ghost function Entries(d: Directory, now: real, maxAge: real): seq<string> {
    ReadyOf(Listing(d.Keys), d, now, maxAge)
  }

  // None: the scan raised, after whatever it did to the files before the one it raised on.
  ghost function Drained(s: Store, now: real, maxAge: real, answers: nat -> Answer): (Store, Option<Report>) {
    var ns := Listing(s.files.Keys);
    var scanned := Scanning(s, ns[..Reach(ns, s.files)], now, maxAge);
    var stop := Stop(answers, |scanned.entries|);
    var sent := Sends(scanned.store, scanned.entries, answers, stop);
    if Reach(ns, s.files) < |ns| then (scanned.store, None)
    else
      (sent.store,
       Some(Report(sent.delivered, sent.duplicate, scanned.quarantined + sent.rejected, scanned.expired,
                   |scanned.entries| - stop, stop < |scanned.entries|)))
  }

  lemma ReachesAll(d: Directory)
    ensures Reach(Listing(d.Keys), d) == |Listing(d.Keys)| <==> Loadable(d)
  {
    var ns := Listing(d.Keys);
    hide Increasing;
    if Reach(ns, d) == |ns| {
      forall n | n in d
        ensures !d[n].contents.Unloadable?
      {
        assert n in ns;
      }
    } else {
      assert ns[Reach(ns, d)] in ns;
    }
  }

  // A drain reports exactly when every file can be loaded.
  lemma DrainReportsExactly(s: Store, now: real, maxAge: real, answers: nat -> Answer)
    ensures Drained(s, now, maxAge, answers).1.Some? <==> Loadable(s.files)
  {
    ReachesAll(s.files);
    hide Loadable, Scanning, Sends, Stop;
  }

  // Otherwise it sends nothing at all: the first file that cannot be loaded stays, with every file
  // listed after it and every deliverable one before, whatever their age; so the next drain fails too.
  lemma BlockedDrainKeeps(s: Store, now: real, maxAge: real, answers: nat -> Answer)
    requires !Loadable(s.files)
    ensures var (store, ns) := (Drained(s, now, maxAge, answers).0, Listing(s.files.Keys));
      var i := Reach(ns, s.files);
      && i < |ns| && !Loadable(store.files)
      && (forall n :: n in store.files <==> n in s.files && (n in ns[..i] ==> KindOf(s.files[n], now, maxAge).Ready?))
      && (forall n <- store.files :: store.files[n] == s.files[n])
      && (forall n <- ns[i..] :: n in store.files)
      && (forall n :: n in store.quarantine <==>
            n in s.quarantine || (n in ns[..i] && KindOf(s.files[n], now, maxAge).Damaged?))
  {
    var ns := Listing(s.files.Keys);
    var i := Reach(ns, s.files);
    ReachesAll(s.files);
    Splits(ns, i);
    forall n <- ns[..i]
      ensures n in s.files && !KindOf(s.files[n], now, maxAge).Blocking?
    {
      assert n in ns;
      var j :| 0 <= j < i && ns[j] == n;
    }
    assert Increasing(ns[..i]);
    assert ns[i] in ns[i..];
    ScanningIs(s, ns[..i], now, maxAge);
    hide Scanning, KindOf, Before;
  }

  // The scan a drain starts with.
  lemma ScanOfAll(s: Store, now: real, maxAge: real) returns (x: Scanned)
    requires Loadable(s.files)
    ensures Reach(Listing(s.files.Keys), s.files) == |Listing(s.files.Keys)|
    ensures x == Scanning(s, Listing(s.files.Keys), now, maxAge)
    ensures x.entries == Entries(s.files, now, maxAge) && Increasing(x.entries)
    ensures forall n :: n in x.store.files <==> n in x.entries
    ensures forall n :: n in x.entries <==> n in s.files && KindOf(s.files[n], now, maxAge).Ready?
    ensures forall n <- x.store.files :: x.store.files[n] == s.files[n]
    ensures forall n :: n in x.store.quarantine <==>
              n in s.quarantine || (n in s.files && KindOf(s.files[n], now, maxAge).Damaged?)
    ensures |x.entries| + |x.quarantined| + |x.expired| == |s.files|
  {
    ReachesAll(s.files);
    NoneBlocks(s.files, now, maxAge);
    hide KindOf, Before, Loadable;
    var ns := Listing(s.files.Keys);
    x := Scanning(s, ns, now, maxAge);
    ListingSize(s.files.Keys);
    ScanningIs(s, ns, now, maxAge);
    ReadyOfIs(ns, s.files, now, maxAge);
  }

  lemma WholeList(d: Directory)
    ensures Listing(d.Keys)[..|Listing(d.Keys)|] == Listing(d.Keys)
  {
  }

  lemma NoneBlocks(d: Directory, now: real, maxAge: real)
    requires Loadable(d)
    ensures forall n <- d :: !KindOf(d[n], now, maxAge).Blocking?
  {
  }

  // Every file is in exactly one bucket of the report.
  lemma DrainPartitions(s: Store, now: real, maxAge: real, answers: nat -> Answer)
    requires Loadable(s.files)
    ensures Drained(s, now, maxAge, answers).1.Some?
    ensures var r := Drained(s, now, maxAge, answers).1.value;
            |r.delivered| + |r.duplicate| + |r.quarantined| + |r.expired| + r.remaining == |s.files|
  {
    var x := ScanOfAll(s, now, maxAge);
    WholeList(s.files);
    SendsAre(x.store, x.entries, answers, Stop(answers, |x.entries|));
    hide Scanning, Sends, Stop;
  }

  // Quarantine gains the damaged files and the rejected ones, and loses nothing.
  lemma DrainQuarantines(s: Store, now: real, maxAge: real, answers: nat -> Answer)
    requires Loadable(s.files)
    ensures var ready := Entries(s.files, now, maxAge);
      forall n :: n in Drained(s, now, maxAge, answers).0.quarantine <==>
        || n in s.quarantine
        || (n in s.files && KindOf(s.files[n], now, maxAge).Damaged?)
        || RejectedBy(ready, answers, Stop(answers, |ready|), n)
  {
    var x := ScanOfAll(s, now, maxAge);
    WholeList(s.files);
    SendsQuarantine(x.store, x.entries, answers, Stop(answers, |x.entries|));
    hide Scanning, Sends, Stop, KindOf, RejectedBy, Increasing;
  }

  // Sends go in name order; what stays is the tail of the deliverable files from the first one
  // whose send failed transiently, byte for byte, and nothing else.
  lemma DrainKeepsSuffix(s: Store, now: real, maxAge: real, answers: nat -> Answer)
    requires Loadable(s.files)
    ensures var ready := Entries(s.files, now, maxAge);
            var stop := Stop(answers, |ready|);
            var left := Drained(s, now, maxAge, answers).0.files;
            && Increasing(ready)
            && (forall n :: n in left <==> n in ready[stop..])
            && (forall n <- left :: n in s.files && left[n] == s.files[n])
            && |left| == |ready| - stop
  {
    var x := ScanOfAll(s, now, maxAge);
    WholeList(s.files);
    var ready, stop := x.entries, Stop(answers, |x.entries|);
    SendsAre(x.store, ready, answers, stop);
    hide Scanning, Sends, Stop, KindOf, Before;
    var left := Drained(s, now, maxAge, answers).0.files;
    Splits(ready, stop);
    assert IsListing(left.Keys, ready[stop..]) by {
      assert Increasing(ready[stop..]);
    }
    ListedSize(left.Keys, ready[stop..]);
  }

  lemma Splits(ns: seq<string>, i: nat)
    requires Increasing(ns) && i <= |ns|
    ensures forall n :: n in ns[i..] <==> n in ns && n !in ns[..i]
  {
    assert ns == ns[..i] + ns[i..];
    forall n | n in ns[i..]
      ensures n !in ns[..i]
    {
      BeforeIrreflexive(n);
    }
  }

  // A gateway that answers every send empties the spool exactly when every file can be loaded.
  lemma AnsweredDrainEmpties(s: Store, now: real, maxAge: real, answers: nat -> Answer)
    requires forall i :: !Judge(answers(i)).Transient?
    ensures Drained(s, now, maxAge, answers).0.files == map[] <==> Loadable(s.files)
  {
    if Loadable(s.files) {
      DrainKeepsSuffix(s, now, maxAge, answers);
    } else {
      BlockedDrainKeeps(s, now, maxAge, answers);
    }
    hide Drained;
  }

  // ---------------------------------------------------------------- what a drain does, by status

  predicate Taken(code: int) { code == 202 }

  predicate Known(code: int) { code == 409 }

  predicate Refusal(code: int) { 400 <= code < 500 && code != 409 }

  predicate Settles(a: Answer) { a.Status? && (Taken(a.code) || Known(a.code) || Refusal(a.code)) }

  // The ids of the first n entries that got a status among the wanted ones, in order.
  function IdsWith(d: Directory, ns: seq<string>, answers: nat -> Answer, n: nat, wanted: int -> bool): seq<string>
    requires n <= |ns|
  {
    if n == 0 then []
    else
      var a := answers(n - 1);
      IdsWith(d, ns, answers, n - 1, wanted)
      + (if a.Status? && wanted(a.code) && ns[n - 1] in d then [d[ns[n - 1]].parcel.batch.id] else [])
  }

  predicate EndsWith(xs: seq<string>, ys: seq<string>) { |ys| <= |xs| && xs[|xs| - |ys|..] == ys }

  // One of the first n entries, with a status that refuses it for good.
  ghost predicate Refused(ns: seq<string>, answers: nat -> Answer, n: nat, name: string)
    requires n <= |ns|
  {
    exists j :: 0 <= j < n && ns[j] == name
                && answers(j).Status? && Refusal(answers(j).code)
  }

  lemma JudgedByStatus(a: Answer)
    ensures Judge(a).Transient? <==> !Settles(a)
    ensures Judge(a).Rejected? <==> a.Status? && Refusal(a.code)
    ensures Judge(a).Delivered? <==> a == Status(202)
    ensures Judge(a).Duplicate? <==> a == Status(409)
  {
  }

  // What the answers make of the deliverable files ready: the store after, and the report.
  ghost predicate ByStatus(s: Store, ready: seq<string>, answers: nat -> Answer, after: Store, r: Report) {
    var sent := |ready| - r.remaining;
    && 0 <= sent <= |ready|
    && (forall j :: 0 <= j < sent ==> Settles(answers(j)))
    && (sent < |ready| ==> !Settles(answers(sent)))
    && (r.stopped <==> sent < |ready|)
    && (forall n :: n in after.files <==> n in ready[sent..])
    && r.delivered == IdsWith(s.files, ready, answers, sent, Taken)
    && r.duplicate == IdsWith(s.files, ready, answers, sent, Known)
    && EndsWith(r.quarantined, IdsWith(s.files, ready, answers, sent, Refusal))
    && (forall n :: n in after.quarantine <==>
          n in s.quarantine || IsDamaged(s.files, n) || Refused(ready, answers, sent, n))
  }

  lemma {:induction false} SendsReport(s: Store, ns: seq<string>, answers: nat -> Answer, n: nat)
    requires n <= |ns| && Increasing(ns) && (forall x <- ns :: x in s.files)
    requires forall j :: 0 <= j < n ==> !Judge(answers(j)).Transient?
    ensures var x := Sends(s, ns, answers, n);
      && x.delivered == IdsWith(s.files, ns, answers, n, Taken)
      && x.duplicate == IdsWith(s.files, ns, answers, n, Known)
      && x.rejected == IdsWith(s.files, ns, answers, n, Refusal)
  {
    hide Before, Increasing, Judge, IdOf, SendStep, Taken, Known, Refusal;
    if n > 0 {
      SendsReport(s, ns, answers, n - 1);
      SendsAre(s, ns, answers, n - 1);
      FreshName(ns, n - 1);
      assert ns[n - 1] in ns;
      var x := Sends(s, ns, answers, n - 1);
      SameId(x.store.files, s.files, ns[n - 1]);
      StepReports(x, ns[n - 1], answers(n - 1));
    }
  }

  lemma StepReports(x: Sending, name: string, a: Answer)
    ensures var (y, id) := (SendStep(x, name, Judge(a)), IdOf(x.store.files, name));
      && y.delivered == x.delivered + (if a.Status? && Taken(a.code) then [id] else [])
      && y.duplicate == x.duplicate + (if a.Status? && Known(a.code) then [id] else [])
      && y.rejected == x.rejected + (if a.Status? && Refusal(a.code) then [id] else [])
  {
  }

  lemma SameId(d: Directory, e: Directory, name: string)
    requires name in d && name in e && d[name] == e[name]
    ensures IdOf(d, name) == e[name].parcel.batch.id
  {
  }

  lemma RefusedIsRejected(ns: seq<string>, answers: nat -> Answer, n: nat, name: string)
    requires n <= |ns|
    ensures Refused(ns, answers, n, name) <==> RejectedBy(ns, answers, n, name)
  {
    forall j: nat
      ensures Judge(answers(j)).Rejected?
         <==> answers(j).Status? && Refusal(answers(j).code)
    {
      JudgedByStatus(answers(j));
    }
    hide Judge;
  }

  // A drain sends the deliverable files in name order until the first answer that is an exception or a
  // status outside 202, 409 and the 400s, and keeps that file and all behind it. Of the files sent it
  // reports as delivered exactly those answered 202 and as duplicate exactly those answered 409, and
  // quarantines exactly those answered with another status of the 400s.
  lemma DrainByStatus(s: Store, now: real, maxAge: real, answers: nat -> Answer)
    requires Loadable(s.files)
    ensures Drained(s, now, maxAge, answers).1.Some?
    ensures ByStatus(s, Entries(s.files, now, maxAge), answers,
                     Drained(s, now, maxAge, answers).0, Drained(s, now, maxAge, answers).1.value)
  {
    var ready := Entries(s.files, now, maxAge);
    var stop := Stop(answers, |ready|);
    ReportIs(s, now, maxAge, answers);
    StopsByStatus(answers, |ready|);
    QuarantinesByStatus(s, now, maxAge, answers);
    DrainKeepsSuffix(s, now, maxAge, answers);
    hide *;
    AllByStatus(s, ready, answers, Drained(s, now, maxAge, answers).0, Drained(s, now, maxAge, answers).1.value, stop);
  }

  lemma AllByStatus(s: Store, ready: seq<string>, answers: nat -> Answer, after: Store, r: Report, stop: nat)
    requires stop <= |ready| && r.remaining == |ready| - stop && (r.stopped <==> stop < |ready|)
    requires (forall j :: 0 <= j < stop ==> Settles(answers(j))) && (stop < |ready| ==> !Settles(answers(stop)))
    requires forall n :: n in after.files <==> n in ready[stop..]
    requires r.delivered == IdsWith(s.files, ready, answers, stop, Taken)
    requires r.duplicate == IdsWith(s.files, ready, answers, stop, Known)
    requires EndsWith(r.quarantined, IdsWith(s.files, ready, answers, stop, Refusal))
    requires forall n :: n in after.quarantine <==>
                           n in s.quarantine || IsDamaged(s.files, n) || Refused(ready, answers, stop, n)
    ensures ByStatus(s, ready, answers, after, r)
  {
    hide Settles, IdsWith, EndsWith, IsDamaged, Refused;
  }

  // None: the scan raised, and nothing was sent.
  lemma DrainStates(s: Store, now: real, maxAge: real, answers: nat -> Answer)
    ensures Drained(s, now, maxAge, answers).1.Some? <==> Loadable(s.files)
    ensures var (after, report) := Drained(s, now, maxAge, answers);
      report.Some? ==> ByStatus(s, Entries(s.files, now, maxAge), answers, after, report.value)
  {
    hide *;
    DrainReportsExactly(s, now, maxAge, answers);
    if Loadable(s.files) { DrainByStatus(s, now, maxAge, answers); }
  }

  lemma QuarantinesByStatus(s: Store, now: real, maxAge: real, answers: nat -> Answer)
    requires Loadable(s.files)
    ensures var ready := Entries(s.files, now, maxAge);
      forall n :: n in Drained(s, now, maxAge, answers).0.quarantine <==>
        n in s.quarantine || IsDamaged(s.files, n) || Refused(ready, answers, Stop(answers, |ready|), n)
  {
    var ready := Entries(s.files, now, maxAge);
    var stop := Stop(answers, |ready|);
    DamagedIs(s.files, now, maxAge);
    DrainQuarantines(s, now, maxAge, answers);
    DamagedIsThere(s.files);
    hide Drained, Stop, Refused, RejectedBy, KindOf, IsDamaged, Increasing, Entries, Loadable;
    forall n
      ensures Refused(ready, answers, stop, n) <==> RejectedBy(ready, answers, stop, n)
    {
      RefusedIsRejected(ready, answers, stop, n);
    }
  }

  lemma DamagedIsThere(d: Directory)
    ensures forall n :: IsDamaged(d, n) ==> n in d
  {
  }

  lemma StopsByStatus(answers: nat -> Answer, n: nat)
    ensures var i := Stop(answers, n);
      (forall j :: 0 <= j < i ==> Settles(answers(j))) && (i < n ==> !Settles(answers(i)))
  {
    forall j: nat
      ensures Judge(answers(j)).Transient? <==> !Settles(answers(j))
    {
      JudgedByStatus(answers(j));
    }
    hide Judge, Settles;
  }

  lemma ReportIs(s: Store, now: real, maxAge: real, answers: nat -> Answer)
    requires Loadable(s.files)
    ensures Drained(s, now, maxAge, answers).1.Some?
    ensures var (ready, r) := (Entries(s.files, now, maxAge), Drained(s, now, maxAge, answers).1.value);
      var stop := Stop(answers, |ready|);
      && r.remaining == |ready| - stop && (r.stopped <==> stop < |ready|)
      && r.delivered == IdsWith(s.files, ready, answers, stop, Taken)
      && r.duplicate == IdsWith(s.files, ready, answers, stop, Known)
      && EndsWith(r.quarantined,
                  IdsWith(s.files, ready, answers, stop, Refusal))
  {
    var x := ScanOfAll(s, now, maxAge);
    DrainedIs(s, now, maxAge, answers, x);
    var ready, stop := x.entries, Stop(answers, |x.entries|);
    hide *;
    SendsReport(x.store, ready, answers, stop);
    SameIds(x.store.files, s.files, ready, answers, stop, Taken);
    SameIds(x.store.files, s.files, ready, answers, stop, Known);
    SameIds(x.store.files, s.files, ready, answers, stop, Refusal);
    EndsWithLast(x.quarantined, Sends(x.store, ready, answers, stop).rejected);
  }

  lemma DrainedIs(s: Store, now: real, maxAge: real, answers: nat -> Answer, x: Scanned)
    requires var ns := Listing(s.files.Keys);
      Reach(ns, s.files) == |ns| && x == Scanning(s, ns, now, maxAge)
    ensures var (stop, r) := (Stop(answers, |x.entries|), Drained(s, now, maxAge, answers).1);
      var sent := Sends(x.store, x.entries, answers, stop);
      r == Some(Report(sent.delivered, sent.duplicate, x.quarantined + sent.rejected, x.expired,
                       |x.entries| - stop, stop < |x.entries|))
  {
    WholeList(s.files);
    hide Scanning, Sends, Stop, Reach;
  }

  lemma EndsWithLast(xs: seq<string>, ys: seq<string>)
    ensures EndsWith(xs + ys, ys)
  {
  }

  lemma {:induction false} SameIds(d: Directory, e: Directory, ns: seq<string>, answers: nat -> Answer, n: nat,
                                   wanted: int -> bool)
    requires n <= |ns| && (forall x <- ns :: x in d && x in e && d[x] == e[x])
    ensures IdsWith(d, ns, answers, n, wanted) == IdsWith(e, ns, answers, n, wanted)
  {
    if n > 0 {
      SameIds(d, e, ns, answers, n - 1, wanted);
      assert ns[n - 1] in ns;
    }
  }

  // Bytes that fail to load, or do not hold a sound batch.
  predicate IsDamaged(d: Directory, name: string) {
    name in d && (d[name].contents == Spoiled || (d[name].contents == AsWritten && !d[name].parcel.sound))
  }

  lemma DamagedIs(d: Directory, now: real, maxAge: real)
    ensures forall n <- d :: KindOf(d[n], now, maxAge).Damaged? <==> IsDamaged(d, n)
  {
  }

  // What a drain finds: it sends exactly the sound files not older than the maximum age, and deletes
  // exactly the sound older ones, unsent.
  lemma DrainByAge(s: Store, now: real, maxAge: real, answers: nat -> Answer)
    requires Loadable(s.files)
    ensures var (ready, after) := (Entries(s.files, now, maxAge), Drained(s, now, maxAge, answers).0);
      && (forall n :: n in ready <==>
            n in s.files && !IsDamaged(s.files, n) && now <= s.files[n].createdAt + maxAge)
      && (forall n <- s.files :: !IsDamaged(s.files, n) && now > s.files[n].createdAt + maxAge ==>
            n !in after.files && (n in after.quarantine <==> n in s.quarantine))
  {
    var x := ScanOfAll(s, now, maxAge);
    DamagedIs(s.files, now, maxAge);
    forall n | n in s.files
      ensures KindOf(s.files[n], now, maxAge).Ready?
         <==> !IsDamaged(s.files, n) && now <= s.files[n].createdAt + maxAge
    {
      assert !s.files[n].contents.Unloadable?;
    }
    var stop := Stop(answers, |x.entries|);
    DrainKeepsSuffix(s, now, maxAge, answers);
    DrainQuarantines(s, now, maxAge, answers);
    hide Drained, KindOf, IsDamaged, Stop, Entries, Increasing;
    Splits(x.entries, stop);
    forall n | RejectedBy(x.entries, answers, stop, n)
      ensures n in x.entries
    {
    }
  }

  // ---------------------------------------------------------------- the object

  class Spool {
    const maxAge: real
    const maxFiles: int
    var files: Directory
    var quarantine: Directory

    static predicate ValidArguments(maxAgeHours: real, maxFiles: int) {
      maxAgeHours > 0.0 && maxFiles >= 1
    }

    constructor (files: Directory, quarantine: Directory, maxAgeHours: real, maxFiles: int)
      requires ValidArguments(maxAgeHours, maxFiles)
      ensures this.files == files && this.quarantine == quarantine
      ensures maxAge == maxAgeHours * 3600.0 && this.maxFiles == maxFiles && Valid()
    {
      this.files, this.quarantine := files, quarantine;
      maxAge, this.maxFiles := maxAgeHours * 3600.0, maxFiles;
    }

    predicate Valid() { maxFiles >= 1 }

    function Value(): Store
      reads this
    {
      Store(files, quarantine)
    }

    // None stands for the ValueError of a malformed body or header: nothing is written.
    method Put(p: Parcel, now: Seconds) returns (name: Option<string>)
      requires Valid()
      modifies this`files
      ensures !p.sound ==> name == None && files == old(files)
      ensures p.sound ==> name == Some(FileName(now, p.batch.id))
      ensures p.sound ==> files == Capped(Written(old(files), p, now), maxFiles)
    {
      if !p.sound {
        return None;
      }
      var final := FileName(now, p.batch.id);
      files := files[final := File(p, now, AsWritten)];
      EnforceCap();
      name := Some(final);
    }

    method EnforceCap()
      requires Valid()
      modifies this`files
      ensures files == Capped(old(files), maxFiles)
    {
      hide Before, Increasing, IsListing, SetOf;
      var names := Sorted(files.Keys);
      ListingSize(files.Keys);
      NoNames();
      var excess := Max(|names| - maxFiles, 0);
      for i := 0 to excess
        invariant files == old(files) - SetOf(names[..i])
      {
        SetOfPush(names, i);
        files := files - {names[i]};
      }
    }

    // Removes expired files, quarantines damaged ones, and returns the rest in order; or raises on
    // the first file that cannot be loaded.
    method Scan(now: real)
      returns (entries: seq<string>, quarantined: seq<string>, expired: seq<string>, raised: bool)
      modifies this
      ensures var (ns, i) := (Listing(old(files).Keys), Reach(Listing(old(files).Keys), old(files)));
        && Scanned(Value(), entries, quarantined, expired) == Scanning(old(Value()), ns[..i], now, maxAge)
        && (raised <==> i < |ns|)
    {
      hide KindOf, Before, IsListing;
      ghost var s := Value();
      var names := Sorted(files.Keys);
      ListedNames(files);
      entries, quarantined, expired, raised := [], [], [], false;
      for i := 0 to |names|
        invariant Scanned(Value(), entries, quarantined, expired) == Scanning(s, names[..i], now, maxAge)
        invariant forall j :: i <= j < |names| ==> names[j] in files && files[names[j]] == s.files[names[j]]
        invariant forall j :: 0 <= j < i ==> !(names[j] in s.files && s.files[names[j]].contents.Unloadable?)
      {
        var name := names[i];
        assert names[..i + 1][..i] == names[..i];
        if name in files {
          if files[name].contents.Unloadable? {
            ReachIs(names, s.files, i);
            raised := true;
            return;
          }
          LaterNames(names, i);
          match KindOf(files[name], now, maxAge) {
            case Damaged =>
              quarantine := quarantine[name := files[name]];
              files := files - {name};
              quarantined := quarantined + [name];
            case Expired =>
              expired := expired + [files[name].parcel.batch.id];
              files := files - {name};
            case Ready =>
              entries := entries + [name];
            case Blocking =>
          }
        }
      }
      ReachIs(names, s.files, |names|);
    }

    // None: the scan raised, before anything was sent.
    method Drain(now: real, answers: nat -> Answer) returns (report: Option<Report>)
      modifies this
      ensures (Value(), report) == Drained(old(Value()), now, maxAge, answers)
      ensures report.Some? <==> Loadable(old(files))
      ensures report.Some? ==>
                ByStatus(old(Value()), Entries(old(files), now, maxAge), answers, Value(), report.value)
    {
      DrainStates(Value(), now, maxAge, answers);
      hide ByStatus, Entries, Loadable, KindOf, Before, IsListing, Judge, Scanning, Reach;
      ghost var s := Value();
      var entries, quarantined, expired, raised := Scan(now);
      if raised {
        return None;
      }
      ghost var scanned := Value();
      var delivered, duplicate, rejected := [], [], [];
      var index := 0;
      while index < |entries| && !Judge(answers(index)).Transient?
        invariant index <= |entries|
        invariant forall j :: 0 <= j < index ==> !Judge(answers(j)).Transient?
        invariant Sending(Value(), delivered, duplicate, rejected) == Sends(scanned, entries, answers, index)
      {
        var name := entries[index];
        var id := if name in files then files[name].parcel.batch.id else "";
        match Judge(answers(index)) {
          case Delivered => delivered := delivered + [id];
          case Duplicate => duplicate := duplicate + [id];
          case Rejected =>
            if name in files { quarantine := quarantine[name := files[name]]; }
            rejected := rejected + [id];
          case Transient => assert false;
        }
        files := files - {name};
        index := index + 1;
      }
      StopIs(answers, |entries|, index);
      report := Some(Report(delivered, duplicate, quarantined + rejected, expired, |entries| - index,
                            index < |entries|));
    }
  }

  // null stands for the ValueError of a non-positive age or cap.
  method NewSpool(files: Directory, quarantine: Directory, maxAgeHours: real, maxFiles: int) returns (s: Spool?)
    ensures s == null <==> maxAgeHours <= 0.0 || maxFiles < 1
    ensures s != null ==>
              && fresh(s) && s.Valid() && s.Value() == Store(files, quarantine)
              && s.maxAge == maxAgeHours * 3600.0 && s.maxFiles == maxFiles
  {
    if maxAgeHours <= 0.0 || maxFiles < 1 {
      return null;
    }
    s := new Spool(files, quarantine, maxAgeHours, maxFiles);
  }

  lemma ReachIs(ns: seq<string>, d: Directory, i: nat)
    requires i <= |ns| && (forall j :: 0 <= j < i ==> !(ns[j] in d && d[ns[j]].contents.Unloadable?))
    requires i < |ns| ==> ns[i] in d && d[ns[i]].contents.Unloadable?
    ensures Reach(ns, d) == i && ns[..|ns|] == ns
  {
  }

  lemma ListedNames(d: Directory)
    ensures var ns := Listing(d.Keys); Increasing(ns) && forall j :: 0 <= j < |ns| ==> ns[j] in d
  {
    hide Increasing;
    var ns := Listing(d.Keys);
    assert forall j :: 0 <= j < |ns| ==> ns[j] in ns;
  }

  lemma LaterNames(ns: seq<string>, i: nat)
    requires Increasing(ns) && i < |ns|
    ensures forall j :: i < j < |ns| ==> ns[j] != ns[i]
  {
    BeforeIrreflexive(ns[i]);
  }

  lemma StopIs(answers: nat -> Answer, n: nat, i: nat)
    requires i <= n && (forall j :: 0 <= j < i ==> !Judge(answers(j)).Transient?)
    requires i < n ==> Judge(answers(i)).Transient?
    ensures Stop(answers, n) == i
  {
  }

  lemma FreshName(names: seq<string>, i: nat)
    requires Increasing(names) && i < |names|
    ensures names[i] !in names[..i]
  {
    BeforeIrreflexive(names[i]);
  }
}
