// The delivery protocol: probe/sdk.py and probe/spool.py against gateway/main.py over a network
// that loses requests and replies, with crashes, expiry, eviction and replays.
module Delivery {
  import opened Common
  import opened SpoolNames
  import opened Spool
  import G = Gateway
  import B = Bootstrap

  // ---------------------------------------------------------------- one exchange

  // What the sender sees of a request that was sent: the gateway's own answer, nothing, a status
  // some intermediary made up, or an exception of the client's own. Only the gateway says 202 or 409.
  datatype Reply = Genuine | Lost | Other(code: int) | Failing

  datatype Fate =
    | Reached(signed: bool, valid: bool, clock: nat -> int, reply: Reply)
    | Unreached(reply: Reply)

  predicate Possible(f: Fate) {
    && (f.reply.Other? ==> f.reply.code != 202 && f.reply.code != 409)
    && (f.Unreached? ==> !f.reply.Genuine?)
  }

  function ArrivalOf(b: G.Batch, f: Fate): G.Arrival
    requires f.Reached?
  {
    G.Arrival(b, f.signed, f.valid, f.clock)
  }

  // The requests the gateway sees: none, or this one.
  function Seen(b: G.Batch, f: Fate): seq<B.Event> {
    if f.Reached? then [B.Arrive(ArrivalOf(b, f))] else []
  }

  function Posted(s: G.Setup, g: G.State, b: G.Batch, f: Fate): G.State
    requires G.GoodSetup(s)
  {
    if f.Reached? then G.Receive(s, g, ArrivalOf(b, f)).0 else g
  }

  function Answered(s: G.Setup, g: G.State, b: G.Batch, f: Fate): Answer
    requires G.GoodSetup(s)
  {
    match f.reply
    case Lost => Raised
    case Failing => Broken
    case Other(code) => Status(code)
    case Genuine => if f.Reached? then Status(G.Receive(s, g, ArrivalOf(b, f)).1) else Raised
  }

  predicate Acknowledged(a: Answer) { Judge(a).Delivered? || Judge(a).Duplicate? }

  // An acknowledgement is only ever given for a batch that is in the store.
  lemma AcknowledgedIsStored(s: G.Setup, g: G.State, b: G.Batch, f: Fate)
    requires G.GoodSetup(s) && Possible(f) && Acknowledged(Answered(s, g, b, f))
    ensures G.HasBatch(Posted(s, g, b, f), b.id)
  {
    G.AcceptStores(s, g, ArrivalOf(b, f));
    hide G.Accept;
    var g' := Posted(s, g, b, f);
    if !G.HasBatch(g, b.id) {
      assert g'.rows[|g.rows|].id == b.id;
    }
  }

  // ---------------------------------------------------------------- a drain against the gateway

  type Fates = nat -> Fate

  // The gateway after the first n sends of bs.
  function ServerAfter(s: G.Setup, g: G.State, bs: seq<G.Batch>, fates: Fates, n: nat): G.State
    requires G.GoodSetup(s) && n <= |bs|
  {
    if n == 0 then g else Posted(s, ServerAfter(s, g, bs, fates, n - 1), bs[n - 1], fates(n - 1))
  }

  function SeenBy(bs: seq<G.Batch>, fates: Fates, n: nat): seq<B.Event>
    requires n <= |bs|
  {
    if n == 0 then [] else SeenBy(bs, fates, n - 1) + Seen(bs[n - 1], fates(n - 1))
  }

  function AnswersOf(s: G.Setup, g: G.State, bs: seq<G.Batch>, fates: Fates): nat -> Answer
    requires G.GoodSetup(s)
  {
    (i: nat) => if i < |bs| then Answered(s, ServerAfter(s, g, bs, fates, i), bs[i], fates(i)) else Status(202)
  }

  lemma {:induction false} ServerKeeps(s: G.Setup, g: G.State, bs: seq<G.Batch>, fates: Fates, n: nat, id: string)
    requires G.GoodSetup(s) && n <= |bs| && G.HasBatch(g, id)
    ensures G.HasBatch(ServerAfter(s, g, bs, fates, n), id)
  {
    if n > 0 {
      ServerKeeps(s, g, bs, fates, n - 1, id);
      var before := ServerAfter(s, g, bs, fates, n - 1);
      if fates(n - 1).Reached? {
        G.RowsStay(s, before, ArrivalOf(bs[n - 1], fates(n - 1)), id);
      }
    }
  }

  lemma {:induction false} ServerStores(s: G.Setup, g: G.State, bs: seq<G.Batch>, fates: Fates, n: nat, i: nat)
    requires G.GoodSetup(s) && i < n <= |bs| && Possible(fates(i))
    requires Acknowledged(Answered(s, ServerAfter(s, g, bs, fates, i), bs[i], fates(i)))
    ensures G.HasBatch(ServerAfter(s, g, bs, fates, n), bs[i].id)
  {
    hide Judge, G.HasBatch, Posted, Possible, Answered, Acknowledged;
    if i == n - 1 {
      AcknowledgedIsStored(s, ServerAfter(s, g, bs, fates, i), bs[i], fates(i));
    } else {
      ServerStores(s, g, bs, fates, n - 1, i);
      PostedKeeps(s, ServerAfter(s, g, bs, fates, n - 1), bs[n - 1], fates(n - 1), bs[i].id);
    }
  }

  lemma PostedKeeps(s: G.Setup, g: G.State, b: G.Batch, f: Fate, id: string)
    requires G.GoodSetup(s) && G.HasBatch(g, id)
    ensures G.HasBatch(Posted(s, g, b, f), id)
  {
    if f.Reached? { G.RowsStay(s, g, ArrivalOf(b, f), id); }
  }

  // ---------------------------------------------------------------- the system

  // The spool, the gateway, and what has become of every batch id so far.
  datatype System = System(store: Store, server: G.State, spooled: set<string>, acked: set<string>,
                           expired: set<string>, evicted: set<string>, quarantined: set<string>)

  const Initial := System(Store(map[], map[]), G.Empty, {}, {}, {}, {}, {})

  datatype Limits = Limits(s: G.Setup, maxAge: real, maxFiles: int)

  predicate GoodLimits(l: Limits) { G.GoodSetup(l.s) && l.maxFiles >= 1 }

  datatype Step =
    | SendNew(parcel: Parcel, fate: Fate, sentAt: Seconds)  // flush posts a fresh batch
    | Drain(fates: Fates, at: real)                         // flush delivers the backlog
    | ScanOnly(at: real, k: nat)                            // a scan, perhaps cut short by a crash
    | WriteOnly(parcel: Parcel, wroteAt: Seconds)           // a put cut short before its cap check
    | Corrupt(name: string, contents: Contents)             // a file's bytes change on disk
    | Foreign(arrival: G.Arrival)                           // anybody else's request, replays included
    | GatewayRestart(models: seq<string>)                   // the gateway restarts from its rows

  function BatchesOf(d: Directory, ns: seq<string>): seq<G.Batch>
    requires forall n <- ns :: n in d
  {
    seq(|ns|, i requires 0 <= i < |ns| => assert ns[i] in ns; d[ns[i]].parcel.batch)
  }

  function IdsWhere(d: Directory, p: string -> bool): set<string> {
    set n | n in d && p(n) :: d[n].parcel.batch.id
  }

  ghost function Spooling(l: Limits, y: System, p: Parcel, now: Seconds, capped: bool): System
    requires GoodLimits(l)
  {
    if !p.sound then y
    else
      var w := Written(y.store.files, p, now);
      var files := if capped then Capped(w, l.maxFiles) else w;
      y.(store := y.store.(files := files),
         spooled := y.spooled + {p.batch.id},
         evicted := y.evicted + IdsWhere(w, n => n !in files))
  }

  ghost function EntriesNow(l: Limits, y: System, now: real): (ns: seq<string>)
    ensures forall n <- ns :: n in y.store.files
  {
    ReadyOfIs(Listing(y.store.files.Keys), y.store.files, now, l.maxAge);
    Entries(y.store.files, now, l.maxAge)
  }

  ghost function DrainAnswers(l: Limits, y: System, fates: Fates, now: real): nat -> Answer
    requires GoodLimits(l)
  {
    AnswersOf(l.s, y.server, BatchesOf(y.store.files, EntriesNow(l, y, now)), fates)
  }

  // Sends made: up to and including the first that fails transiently.
  ghost function SendCount(l: Limits, y: System, fates: Fates, now: real): (n: nat)
    requires GoodLimits(l)
    ensures n <= |EntriesNow(l, y, now)|
  {
    var n := |EntriesNow(l, y, now)|;
    Min(Stop(DrainAnswers(l, y, fates, now), n) + 1, n)
  }

  // Entry n was answered for good with a verdict in vs.
  ghost predicate SettledAs(l: Limits, y: System, fates: Fates, now: real, name: string, vs: set<Verdict>)
    requires GoodLimits(l)
  {
    var ns, answers := EntriesNow(l, y, now), DrainAnswers(l, y, fates, now);
    exists i :: 0 <= i < Stop(answers, |ns|) && ns[i] == name && Judge(answers(i)) in vs
  }

  // The ids of the files of one kind among the scanned names.
  ghost function KindIds(l: Limits, y: System, now: real, k: Kind, scanned: seq<string>): set<string> {
    set n | n in y.store.files && n in scanned && KindOf(y.store.files[n], now, l.maxAge) == k
      :: y.store.files[n].parcel.batch.id
  }

  // The names a scan cut short after k files has dealt with: none from the first on that cannot be
  // loaded.
  ghost function FirstNames(y: System, k: nat): seq<string> {
    var ns := Listing(y.store.files.Keys);
    ns[..Min(k, Reach(ns, y.store.files))]
  }

  ghost function Scanning1(l: Limits, y: System, now: real, k: nat): System {
    var ns := FirstNames(y, k);
    y.(store := Scanning(y.store, ns, now, l.maxAge).store,
       expired := y.expired + KindIds(l, y, now, Kind.Expired, ns),
       quarantined := y.quarantined + KindIds(l, y, now, Kind.Damaged, ns))
  }

  ghost function SettledIds(l: Limits, y: System, fates: Fates, now: real, vs: set<Verdict>): set<string>
    requires GoodLimits(l)
  {
    set n | n in y.store.files && SettledAs(l, y, fates, now, n, vs) :: y.store.files[n].parcel.batch.id
  }

  // A file that cannot be loaded makes the drain raise in its scan.
  ghost function Draining(l: Limits, y: System, fates: Fates, now: real): System
    requires GoodLimits(l)
  {
    if Loadable(y.store.files) then Delivering(l, y, fates, now) else Scanning1(l, y, now, |y.store.files|)
  }

  ghost function Delivering(l: Limits, y: System, fates: Fates, now: real): System
    requires GoodLimits(l)
  {
    var bs := BatchesOf(y.store.files, EntriesNow(l, y, now));
    y.(store := Drained(y.store, now, l.maxAge, DrainAnswers(l, y, fates, now)).0,
       server := ServerAfter(l.s, y.server, bs, fates, SendCount(l, y, fates, now)),
       acked := y.acked + SettledIds(l, y, fates, now, {Verdict.Delivered, Verdict.Duplicate}),
       expired := y.expired + KindIds(l, y, now, Kind.Expired, Listing(y.store.files.Keys)),
       quarantined := y.quarantined + KindIds(l, y, now, Kind.Damaged, Listing(y.store.files.Keys))
                      + SettledIds(l, y, fates, now, {Verdict.Rejected}))
  }

  // One fresh batch: lost or 5xx goes to the spool, 202 and 409 are done, any other answer raises.
  ghost function Sending1(l: Limits, y: System, p: Parcel, f: Fate, now: Seconds): System
    requires GoodLimits(l)
  {
    var a := Answered(l.s, y.server, p.batch, f);
    var sent := y.(server := Posted(l.s, y.server, p.batch, f));
    match a
    case Raised => Spooling(l, sent, p, now, true)
    case Broken => sent
    case Status(code) =>
      if code == 202 || code == 409 then sent.(acked := sent.acked + {p.batch.id})
      else if code >= 500 then Spooling(l, sent, p, now, true)
      else sent
  }

  ghost function Take(l: Limits, y: System, step: Step): System
    requires GoodLimits(l)
  {
    match step
    case SendNew(p, f, now) => Sending1(l, y, p, f, now)
    case Drain(fates, now) => Draining(l, y, fates, now)
    case ScanOnly(now, k) => Scanning1(l, y, now, k)
    case WriteOnly(p, now) => Spooling(l, y, p, now, false)
    case Corrupt(name, contents) =>
      if name in y.store.files
      then y.(store := y.store.(files := y.store.files[name := y.store.files[name].(contents := contents)]))
      else y
    case Foreign(a) => y.(server := G.Receive(l.s, y.server, a).0)
    case GatewayRestart(models) => y.(server := B.Restarted(l.s, y.server, models))
  }

  ghost function After(l: Limits, steps: seq<Step>): System
    requires GoodLimits(l)
  {
    if steps == [] then Initial else Take(l, After(l, steps[..|steps| - 1]), steps[|steps| - 1])
  }

  ghost predicate Realistic(step: Step) {
    match step
    case SendNew(_, f, _) => Possible(f)
    case Drain(fates, _) => forall i: nat :: Possible(fates(i))
    case _ => true
  }

  // ---------------------------------------------------------------- what the gateway lived through

  ghost function Events(l: Limits, y: System, step: Step): seq<B.Event>
    requires GoodLimits(l)
  {
    match step
    case SendNew(p, f, _) => Seen(p.batch, f)
    case Drain(fates, now) =>
      if Loadable(y.store.files)
      then SeenBy(BatchesOf(y.store.files, EntriesNow(l, y, now)), fates, SendCount(l, y, fates, now)) else []
    case Foreign(a) => [B.Arrive(a)]
    case GatewayRestart(models) => [B.Restart(models)]
    case _ => []
  }

  ghost function Log(l: Limits, steps: seq<Step>): seq<B.Event>
    requires GoodLimits(l)
  {
    if steps == [] then []
    else
      var n := |steps| - 1;
      Log(l, steps[..n]) + Events(l, After(l, steps[..n]), steps[n])
  }

  lemma PostedRun(s: G.Setup, es: seq<B.Event>, b: G.Batch, f: Fate)
    requires G.GoodSetup(s)
    ensures Posted(s, B.Live(s, es), b, f) == B.Live(s, es + Seen(b, f))
  {
    hide G.Receive;
    if f.Reached? {
      assert (es + [B.Arrive(ArrivalOf(b, f))])[..|es|] == es;
    } else {
      assert es + [] == es;
    }
  }

  lemma {:induction false} ServerRun(s: G.Setup, es: seq<B.Event>, bs: seq<G.Batch>, fates: Fates, n: nat)
    requires G.GoodSetup(s) && n <= |bs|
    ensures ServerAfter(s, B.Live(s, es), bs, fates, n) == B.Live(s, es + SeenBy(bs, fates, n))
  {
    hide B.Live, G.Receive, Posted;
    if n == 0 {
      assert es + [] == es;
    } else {
      ServerRun(s, es, bs, fates, n - 1);
      PostedRun(s, es + SeenBy(bs, fates, n - 1), bs[n - 1], fates(n - 1));
      assert es + SeenBy(bs, fates, n - 1) + Seen(bs[n - 1], fates(n - 1))
          == es + (SeenBy(bs, fates, n - 1) + Seen(bs[n - 1], fates(n - 1)));
    }
  }

  // However requests and replies were lost and processes crashed, the gateway is in the state its
  // own log of requests and restarts puts it in.
  lemma {:induction false} ServerIsItsLog(l: Limits, steps: seq<Step>)
    requires GoodLimits(l)
    ensures After(l, steps).server == B.Live(l.s, Log(l, steps))
  {
    if steps != [] {
      var n := |steps| - 1;
      ServerIsItsLog(l, steps[..n]);
      hide Take, Events, B.Live;
      StepEvents(l, After(l, steps[..n]), Log(l, steps[..n]), steps[n]);
    }
  }

  lemma StepEvents(l: Limits, y: System, es: seq<B.Event>, step: Step)
    requires GoodLimits(l) && y.server == B.Live(l.s, es)
    ensures Take(l, y, step).server == B.Live(l.s, es + Events(l, y, step))
  {
    hide B.Live, B.Restarted, G.Receive, Posted, ServerAfter, Scanning, Drained, Loadable, Spooling, Answered,
         SendCount, EntriesNow, KindIds, SettledIds, SeenBy;
    match step {
      case SendNew(p, f, now) =>
        PostedRun(l.s, es, p.batch, f);
        SpoolingKeepsServer(l, y.(server := Posted(l.s, y.server, p.batch, f)), p, now, true);
      case Drain(fates, now) =>
        ServerRun(l.s, es, BatchesOf(y.store.files, EntriesNow(l, y, now)), fates, SendCount(l, y, fates, now));
        assert es + [] == es;
      case WriteOnly(p, now) =>
        SpoolingKeepsServer(l, y, p, now, false);
        assert es + [] == es;
      case Foreign(a) => OneMore(l.s, es, B.Arrive(a));
      case GatewayRestart(models) => OneMore(l.s, es, B.Restart(models));
      case _ => assert es + [] == es;
    }
  }

  lemma SpoolingKeepsServer(l: Limits, y: System, p: Parcel, now: Seconds, capped: bool)
    requires GoodLimits(l)
    ensures Spooling(l, y, p, now, capped).server == y.server
  {
  }

  lemma {:induction false} OneMore(s: G.Setup, es: seq<B.Event>, e: B.Event)
    requires G.GoodSetup(s)
    ensures B.Live(s, es + [e])
         == match e
            case Arrive(a) => G.Receive(s, B.Live(s, es), a).0
            case Restart(models) => B.Restarted(s, B.Live(s, es), models)
  {
    hide G.Receive, B.Restarted;
    assert (es + [e])[..|es|] == es;
  }

  // So each batch is stored at most once, at its first acceptance, and no restart of the gateway
  // stores one again.
  lemma DeliveredOnce(l: Limits, steps: seq<Step>)
    requires GoodLimits(l)
    ensures var (g, ts) := (After(l, steps).server, B.Arrivals(Log(l, steps)));
      G.DistinctIds(g.rows) && g.rows == G.Run(l.s, G.Firsts(ts)).rows
  {
    ServerIsItsLog(l, steps);
    B.StoredOnceAcrossRestarts(l.s, Log(l, steps));
  }

  predicate NoRestart(steps: seq<Step>) { forall i :: 0 <= i < |steps| ==> !steps[i].GatewayRestart? }

  // Within one lifetime of the gateway, each batch is also fed to its lane's detector exactly once,
  // in the order of first acceptance.
  lemma FedOnce(l: Limits, steps: seq<Step>)
    requires GoodLimits(l) && NoRestart(steps)
    ensures var (g, accepted) := (After(l, steps).server, G.Firsts(B.Arrivals(Log(l, steps))));
      && g == G.Run(l.s, accepted)
      && (forall lane :: G.LaneStreams(g, lane)
            == G.DetectorStreams.FeedAll(l.s.c, map[], G.LaneSamples(accepted, lane)))
  {
    ServerIsItsLog(l, steps);
    LogArrives(l, steps);
    var es := Log(l, steps);
    B.LiveRows(l.s, es);
    hide G.Run, Log, After, G.LaneStreams, G.LaneSamples, G.Firsts, B.Live;
    var ts := B.Arrivals(es);
    G.ExactlyOnce(l.s, ts);
    forall lane
      ensures G.LaneStreams(After(l, steps).server, lane)
           == G.DetectorStreams.FeedAll(l.s.c, map[], G.LaneSamples(G.Firsts(ts), lane))
    {
      G.LaneIsFedStored(l.s, ts, lane);
    }
  }

  lemma {:induction false} SeenArrives(bs: seq<G.Batch>, fates: Fates, n: nat)
    requires n <= |bs|
    ensures forall i :: 0 <= i < |SeenBy(bs, fates, n)| ==> SeenBy(bs, fates, n)[i].Arrive?
  {
    if n > 0 { SeenArrives(bs, fates, n - 1); }
  }

  lemma {:induction false} LogArrives(l: Limits, steps: seq<Step>)
    requires GoodLimits(l) && NoRestart(steps)
    ensures forall i :: 0 <= i < |Log(l, steps)| ==> Log(l, steps)[i].Arrive?
  {
    if steps != [] {
      var n := |steps| - 1;
      LogArrives(l, steps[..n]);
      hide SeenBy, EntriesNow, SendCount, After;
      var y := After(l, steps[..n]);
      if steps[n].Drain? {
        var fates, now := steps[n].fates, steps[n].at;
        SeenArrives(BatchesOf(y.store.files, EntriesNow(l, y, now)), fates, SendCount(l, y, fates, now));
      }
    }
  }

  // ---------------------------------------------------------------- nothing is lost silently

  ghost predicate Waiting(d: Directory, id: string) {
    exists n :: n in d && d[n].parcel.batch.id == id
  }

  ghost predicate Accounted(y: System, id: string) {
    || Waiting(y.store.files, id)
    || G.HasBatch(y.server, id)
    || id in y.expired || id in y.evicted || id in y.quarantined
  }

  // A file's name was made from its batch id.
  ghost predicate Named(d: Directory) {
    forall n <- d :: exists t: Seconds :: n == FileName(t, d[n].parcel.batch.id)
  }

  ghost predicate Safe(y: System) {
    && Named(y.store.files)
    && (forall id <- y.spooled :: Accounted(y, id))
    && (forall id <- y.acked :: G.HasBatch(y.server, id))
  }

  lemma SubdirectoryNamed(d: Directory, e: Directory)
    requires Named(d) && forall n <- e :: n in d && e[n].parcel == d[n].parcel
    ensures Named(e)
  {
  }

  lemma SpoolingIsSafe(l: Limits, y: System, p: Parcel, now: Seconds, capped: bool)
    requires GoodLimits(l) && Safe(y)
    ensures Safe(Spooling(l, y, p, now, capped))
  {
    if p.sound {
      var d := y.store.files;
      var name := FileName(now, p.batch.id);
      var w := Written(d, p, now);
      var y' := Spooling(l, y, p, now, capped);
      if capped { CapKeepsGreatest(w, l.maxFiles); }
      hide FileName, Capped;
      assert Named(w);
      SubdirectoryNamed(w, y'.store.files);
      forall id | id in y'.spooled
        ensures Accounted(y', id)
      {
        assert Waiting(w, id) || !Waiting(d, id) by {
          assert w[name].parcel.batch.id == p.batch.id;
          if Waiting(d, id) {
            var n :| n in d && d[n].parcel.batch.id == id;
            if n == name {
              var t: Seconds :| n == FileName(t, id);
              NameTellsId(t, id, now, p.batch.id);
            } else {
              assert w[n] == d[n];
            }
          }
        }
        if Waiting(w, id) || id == p.batch.id {
          assert w[name].parcel.batch.id == p.batch.id;
          var n :| n in w && w[n].parcel.batch.id == id;
          if n in y'.store.files {
            assert y'.store.files[n].parcel.batch.id == id;
          } else {
            assert id in IdsWhere(w, n => n !in y'.store.files);
          }
        } else {
          assert Accounted(y, id);
        }
      }
    }
  }

  // A server that only gained batches keeps the rest of the system safe.
  lemma GrowingServerIsSafe(y: System, g: G.State)
    requires Safe(y) && forall id :: G.HasBatch(y.server, id) ==> G.HasBatch(g, id)
    ensures Safe(y.(server := g))
  {
    forall id | id in y.spooled
      ensures Accounted(y.(server := g), id)
    {
      assert Accounted(y, id);
    }
  }

  lemma SendNewIsSafe(l: Limits, y: System, p: Parcel, f: Fate, now: Seconds)
    requires GoodLimits(l) && Safe(y) && Possible(f)
    ensures Safe(Sending1(l, y, p, f, now))
  {
    var g := Posted(l.s, y.server, p.batch, f);
    forall id | G.HasBatch(y.server, id)
      ensures G.HasBatch(g, id)
    {
      if f.Reached? { G.RowsStay(l.s, y.server, ArrivalOf(p.batch, f), id); }
    }
    GrowingServerIsSafe(y, g);
    var sent := y.(server := g);
    SpoolingIsSafe(l, sent, p, now, true);
    var a := Answered(l.s, y.server, p.batch, f);
    if Acknowledged(a) { AcknowledgedIsStored(l.s, y.server, p.batch, f); }
    hide Posted, Answered, Spooling;
    if a.Status? && (a.code == 202 || a.code == 409) {
      var y' := sent.(acked := sent.acked + {p.batch.id});
      forall id | id in y'.spooled
        ensures Accounted(y', id)
      {
        assert Accounted(sent, id);
      }
    }
  }

  lemma ScanIsSafe(l: Limits, y: System, now: real, k: nat)
    requires GoodLimits(l) && Safe(y)
    ensures Safe(Scanning1(l, y, now, k))
  {
    var ns := FirstNames(y, k);
    ScannedNames(l, y, now, k);
    ScanningIs(y.store, ns, now, l.maxAge);
    var y' := Scanning1(l, y, now, k);
    hide Scanning, KindOf;
    SubdirectoryNamed(y.store.files, y'.store.files);
    forall id | id in y'.spooled
      ensures Accounted(y', id)
    {
      assert Accounted(y, id);
      if Waiting(y.store.files, id) {
        var n :| n in y.store.files && y.store.files[n].parcel.batch.id == id;
        if n in y'.store.files {
          assert y'.store.files[n].parcel.batch.id == id;
        } else if KindOf(y.store.files[n], now, l.maxAge).Expired? {
          assert id in KindIds(l, y, now, Kind.Expired, ns);
        } else {
          assert id in KindIds(l, y, now, Kind.Damaged, ns);
        }
      }
    }
  }

  lemma ScannedNames(l: Limits, y: System, now: real, k: nat)
    ensures var ns := FirstNames(y, k);
      Increasing(ns) && forall n <- ns :: n in y.store.files && !KindOf(y.store.files[n], now, l.maxAge).Blocking?
  {
    var all := Listing(y.store.files.Keys);
    var ns := FirstNames(y, k);
    forall n <- ns
      ensures n in y.store.files && !KindOf(y.store.files[n], now, l.maxAge).Blocking?
    {
      var i :| 0 <= i < |ns| && ns[i] == n;
      assert all[i] in all;
    }
  }

  // Where each file of the directory goes in a drain.
  lemma DrainFates(l: Limits, y: System, fates: Fates, now: real, n: string)
    requires GoodLimits(l) && Loadable(y.store.files) && n in y.store.files
    ensures var id, y' := y.store.files[n].parcel.batch.id, Delivering(l, y, fates, now);
            || (n in y'.store.files && y'.store.files[n] == y.store.files[n])
            || id in y'.acked || id in y'.expired || id in y'.quarantined
  {
    hide DrainAnswers, Drained, KindOf, EntriesNow, Entries, Judge, Before, IsListing, Stop;
    var id, all := y.store.files[n].parcel.batch.id, Listing(y.store.files.Keys);
    InListing(y.store.files, n);
    NoneBlocks(y.store.files, now, l.maxAge);
    match KindOf(y.store.files[n], now, l.maxAge) {
      case Expired => assert id in KindIds(l, y, now, Kind.Expired, all);
      case Damaged => assert id in KindIds(l, y, now, Kind.Damaged, all);
      case Ready => ReadyFate(l, y, fates, now, n);
      case Blocking => assert false;
    }
  }

  lemma InListing(d: Directory, n: string)
    requires n in d
    ensures n in Listing(d.Keys)
  {
  }

  lemma ReadyFate(l: Limits, y: System, fates: Fates, now: real, n: string)
    requires GoodLimits(l) && Loadable(y.store.files)
    requires n in y.store.files && KindOf(y.store.files[n], now, l.maxAge).Ready?
    ensures var id := y.store.files[n].parcel.batch.id;
            var left := Drained(y.store, now, l.maxAge, DrainAnswers(l, y, fates, now)).0.files;
            || (n in left && left[n] == y.store.files[n])
            || id in SettledIds(l, y, fates, now, {Verdict.Rejected})
            || id in SettledIds(l, y, fates, now, {Verdict.Delivered, Verdict.Duplicate})
  {
    var id, answers, ns := y.store.files[n].parcel.batch.id, DrainAnswers(l, y, fates, now), EntriesNow(l, y, now);
    assert n in ns by { ReadyOfIs(Listing(y.store.files.Keys), y.store.files, now, l.maxAge); }
    var i :| 0 <= i < |ns| && ns[i] == n;
    if i >= Stop(answers, |ns|) {
      UnsentStays(y.store, now, l.maxAge, answers, i);
    } else {
      hide Drained, DrainAnswers, EntriesNow, Stop;
      if Judge(answers(i)).Rejected? {
        assert SettledAs(l, y, fates, now, n, {Verdict.Rejected});
      } else {
        assert SettledAs(l, y, fates, now, n, {Verdict.Delivered, Verdict.Duplicate});
      }
    }
  }

  lemma UnsentStays(s: Store, now: real, maxAge: real, answers: nat -> Answer, i: nat)
    requires Loadable(s.files)
    requires var ready := Entries(s.files, now, maxAge); Stop(answers, |ready|) <= i < |ready| && ready[i] in s.files
    ensures var ready := Entries(s.files, now, maxAge);
            var left := Drained(s, now, maxAge, answers).0.files;
            ready[i] in left && left[ready[i]] == s.files[ready[i]]
  {
    DrainKeepsSuffix(s, now, maxAge, answers);
    hide Drained, Entries, Stop, Increasing;
    var ready := Entries(s.files, now, maxAge);
    var stop := Stop(answers, |ready|);
    assert ready[stop..][i - stop] == ready[i];
  }

  lemma DrainAcksAreStored(l: Limits, y: System, fates: Fates, now: real, id: string)
    requires GoodLimits(l) && forall i: nat :: Possible(fates(i))
    requires id in SettledIds(l, y, fates, now, {Verdict.Delivered, Verdict.Duplicate})
    ensures G.HasBatch(Delivering(l, y, fates, now).server, id)
  {
    hide EntriesNow, DrainAnswers, ServerAfter, Judge, G.HasBatch, Possible, Stop, SettledIds, Answered;
    var i := SettledEntry(l, y, fates, now, id);
    AnswerOfEntry(l, y, fates, now, i);
    ServerStores(l.s, y.server, BatchesOf(y.store.files, EntriesNow(l, y, now)), fates, SendCount(l, y, fates, now), i);
  }

  // An acknowledged id is that of some entry whose send was acknowledged.
  lemma SettledEntry(l: Limits, y: System, fates: Fates, now: real, id: string) returns (i: nat)
    requires GoodLimits(l) && id in SettledIds(l, y, fates, now, {Verdict.Delivered, Verdict.Duplicate})
    ensures i < |EntriesNow(l, y, now)| && i < SendCount(l, y, fates, now)
    ensures BatchesOf(y.store.files, EntriesNow(l, y, now))[i].id == id
    ensures Acknowledged(DrainAnswers(l, y, fates, now)(i))
  {
    hide EntriesNow, DrainAnswers, Judge;
    var vs := {Verdict.Delivered, Verdict.Duplicate};
    var n :| n in y.store.files && SettledAs(l, y, fates, now, n, vs) && y.store.files[n].parcel.batch.id == id;
    var ns, answers := EntriesNow(l, y, now), DrainAnswers(l, y, fates, now);
    i :| 0 <= i < Stop(answers, |ns|) && ns[i] == n && Judge(answers(i)) in vs;
  }

  lemma AnswerOfEntry(l: Limits, y: System, fates: Fates, now: real, i: nat)
    requires GoodLimits(l) && i < |EntriesNow(l, y, now)|
    ensures var bs := BatchesOf(y.store.files, EntriesNow(l, y, now));
            DrainAnswers(l, y, fates, now)(i)
            == Answered(l.s, ServerAfter(l.s, y.server, bs, fates, i), bs[i], fates(i))
  {
    hide EntriesNow, ServerAfter, Answered;
  }

  lemma DrainIsSafe(l: Limits, y: System, fates: Fates, now: real)
    requires GoodLimits(l) && Safe(y) && forall i: nat :: Possible(fates(i))
    ensures Safe(Draining(l, y, fates, now))
  {
    hide Safe, Delivering, Scanning1, Loadable;
    if Loadable(y.store.files) {
      DeliveringIsSafe(l, y, fates, now);
    } else {
      ScanIsSafe(l, y, now, |y.store.files|);
    }
  }

  lemma DeliveringIsSafe(l: Limits, y: System, fates: Fates, now: real)
    requires GoodLimits(l) && Safe(y) && Loadable(y.store.files) && forall i: nat :: Possible(fates(i))
    ensures Safe(Delivering(l, y, fates, now))
  {
    var y' := Delivering(l, y, fates, now);
    var bs := BatchesOf(y.store.files, EntriesNow(l, y, now));
    DrainKeepsSuffix(y.store, now, l.maxAge, DrainAnswers(l, y, fates, now));
    hide Drained, DrainAnswers, EntriesNow, KindIds, SettledIds, ServerAfter, SendCount, Stop, Entries, Before;
    SubdirectoryNamed(y.store.files, y'.store.files);
    forall id
      ensures G.HasBatch(y.server, id) ==> G.HasBatch(y'.server, id)
      ensures id in y'.acked ==> G.HasBatch(y'.server, id)
    {
      if G.HasBatch(y.server, id) {
        ServerKeeps(l.s, y.server, bs, fates, SendCount(l, y, fates, now), id);
      }
      if id in SettledIds(l, y, fates, now, {Verdict.Delivered, Verdict.Duplicate}) {
        DrainAcksAreStored(l, y, fates, now, id);
      }
    }
    forall id | id in y'.spooled
      ensures Accounted(y', id)
    {
      assert Accounted(y, id);
      if Waiting(y.store.files, id) {
        var n :| n in y.store.files && y.store.files[n].parcel.batch.id == id;
        DrainFates(l, y, fates, now, n);
      }
    }
  }

  lemma CorruptIsSafe(l: Limits, y: System, name: string, contents: Contents)
    requires GoodLimits(l) && Safe(y)
    ensures Safe(Take(l, y, Corrupt(name, contents)))
  {
    var y' := Take(l, y, Corrupt(name, contents));
    SubdirectoryNamed(y.store.files, y'.store.files);
    forall id | id in y'.spooled
      ensures Accounted(y', id)
    {
      assert Accounted(y, id);
      if Waiting(y.store.files, id) {
        var n :| n in y.store.files && y.store.files[n].parcel.batch.id == id;
        assert y'.store.files[n].parcel.batch.id == id;
      }
    }
  }

  lemma StepIsSafe(l: Limits, y: System, step: Step)
    requires GoodLimits(l) && Safe(y) && Realistic(step)
    ensures Safe(Take(l, y, step))
  {
    hide Safe, Sending1, Draining, Spooling, Scanning1;
    match step {
      case SendNew(p, f, now) => SendNewIsSafe(l, y, p, f, now);
      case Drain(fates, now) => DrainIsSafe(l, y, fates, now);
      case ScanOnly(now, k) => ScanIsSafe(l, y, now, k);
      case WriteOnly(p, now) => SpoolingIsSafe(l, y, p, now, false);
      case Corrupt(name, contents) => CorruptIsSafe(l, y, name, contents);
      case Foreign(a) => ForeignIsSafe(l, y, a);
      case GatewayRestart(models) => RestartIsSafe(l, y, models);
    }
  }

  // Over any run: a batch removed from the spool on 202 or 409 is in the store, and a batch that
  // was ever spooled is still waiting or stored, unless it expired, was evicted by the cap or was
  // quarantined.
  lemma {:induction false} AlwaysSafe(l: Limits, steps: seq<Step>)
    requires GoodLimits(l) && forall step <- steps :: Realistic(step)
    ensures Safe(After(l, steps))
  {
    if steps == [] {
      InitialIsSafe();
    } else {
      var n := |steps| - 1;
      assert forall step <- steps[..n] :: step in steps;
      AlwaysSafe(l, steps[..n]);
      assert steps[n] in steps;
      hide Safe, Take, Realistic;
      StepIsSafe(l, After(l, steps[..n]), steps[n]);
    }
  }

  lemma InitialIsSafe()
    ensures Safe(Initial)
  {
  }

  lemma ForeignIsSafe(l: Limits, y: System, a: G.Arrival)
    requires GoodLimits(l) && Safe(y)
    ensures Safe(y.(server := G.Receive(l.s, y.server, a).0))
  {
    forall id | G.HasBatch(y.server, id)
      ensures G.HasBatch(G.Receive(l.s, y.server, a).0, id)
    {
      G.RowsStay(l.s, y.server, a, id);
    }
    hide G.Receive;
    GrowingServerIsSafe(y, G.Receive(l.s, y.server, a).0);
  }

  lemma RestartIsSafe(l: Limits, y: System, models: seq<string>)
    requires GoodLimits(l) && Safe(y)
    ensures Safe(y.(server := B.Restarted(l.s, y.server, models)))
  {
    GrowingServerIsSafe(y, B.Restarted(l.s, y.server, models));
  }

  // ---------------------------------------------------------------- and everything arrives

  // One drain over a working network empties the spool exactly when every file can be loaded, and
  // then every deliverable batch is in the store.
  lemma HealthyDrainDelivers(l: Limits, y: System, fates: Fates, now: real)
    requires GoodLimits(l)
    requires forall i: nat :: fates(i).Reached? && fates(i).signed && fates(i).valid && fates(i).reply.Genuine?
    ensures Draining(l, y, fates, now).store.files == map[] <==> Loadable(y.store.files)
    ensures Loadable(y.store.files) ==>
              forall n <- y.store.files :: KindOf(y.store.files[n], now, l.maxAge).Ready? ==>
                G.HasBatch(Draining(l, y, fates, now).server, y.store.files[n].parcel.batch.id)
  {
    if Loadable(y.store.files) {
      var answers := DrainAnswers(l, y, fates, now);
      forall i: nat
        ensures Acknowledged(answers(i))
      {
      }
      AnsweredDrainEmpties(y.store, now, l.maxAge, answers);
      forall n <- y.store.files | KindOf(y.store.files[n], now, l.maxAge).Ready?
        ensures G.HasBatch(Delivering(l, y, fates, now).server, y.store.files[n].parcel.batch.id)
      {
        HealthySendStores(l, y, fates, now, n);
      }
    } else {
      BlockedScanKeeps(l, y, now);
    }
    hide Delivering, Scanning1;
  }

  lemma HealthySendStores(l: Limits, y: System, fates: Fates, now: real, n: string)
    requires GoodLimits(l) && Loadable(y.store.files)
    requires forall i: nat :: fates(i).Reached? && fates(i).signed && fates(i).valid && fates(i).reply.Genuine?
    requires n in y.store.files && KindOf(y.store.files[n], now, l.maxAge).Ready?
    ensures G.HasBatch(Delivering(l, y, fates, now).server, y.store.files[n].parcel.batch.id)
  {
    var ns, answers := EntriesNow(l, y, now), DrainAnswers(l, y, fates, now);
    var bs := BatchesOf(y.store.files, ns);
    ReadyOfIs(Listing(y.store.files.Keys), y.store.files, now, l.maxAge);
    forall i: nat
      ensures Acknowledged(answers(i))
    {
    }
    var i :| 0 <= i < |ns| && ns[i] == n;
    assert Acknowledged(answers(i));
    hide Stop, EntriesNow, ServerAfter, Judge, Drained, KindOf, Entries, Answered, Acknowledged, G.HasBatch;
    ServerStores(l.s, y.server, bs, fates, SendCount(l, y, fates, now), i);
  }

  // A file that cannot be loaded outlives the scan it stops.
  lemma BlockedScanKeeps(l: Limits, y: System, now: real)
    requires !Loadable(y.store.files)
    ensures !Loadable(Scanning1(l, y, now, |y.store.files|).store.files)
  {
    var ns := Listing(y.store.files.Keys);
    ListingSize(y.store.files.Keys);
    ReachesAll(y.store.files);
    BlockedDrainKeeps(y.store, now, l.maxAge, i => Status(202));
    hide Loadable, KindOf, Scanning;
    assert FirstNames(y, |y.store.files|) == ns[..Reach(ns, y.store.files)];
  }
}
