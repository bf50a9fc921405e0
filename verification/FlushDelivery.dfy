// probe/sdk.py flush, whole: the backlog delivery it begins with, its gates, and its posts, against the
// spool, the network and the gateway. ProbeSdk has the gates and Delivery the wire; here a run of one
// is a run of the other.
module FlushDelivery {
  import opened Common
  import opened CanaryResults
  import opened Aggregation
  import opened PrivacyBudget
  import opened SpoolNames
  import opened Spool
  import P = ProbeSdk
  import D = Delivery
  import G = Gateway

  // What one flush meets: its clocks, the fates of the backlog's sends, and for each fresh batch its
  // signed body (noise included), the fate of its post and the spool's clock after it.
  datatype Round = Round(wall: real, mono: real, committed: real, at: real, backlog: D.Fates,
                         parcels: nat -> Parcel, fates: D.Fates, stamps: nat -> Seconds)

  // log, ids and replies: every release so far with the id of its batch and what its post came to;
  // discarded: what refusals and restarts of the probe threw away.
  datatype World = World(probe: P.Probe, sys: D.System, log: seq<P.Release>, ids: seq<string>,
                         replies: seq<Answer>, discarded: multiset<CanaryResult>)

  // A probe that delivers, with a spool.
  predicate Live(c: P.Config) { !c.dryRun && c.hasSpool }

  // ---------------------------------------------------------------- one flush

  ghost function Posts(l: D.Limits, y: D.System, r: Round, n: nat): D.System
    requires D.GoodLimits(l)
  {
    if n == 0 then y
    else D.Sending1(l, Posts(l, y, r, n - 1), r.parcels(n - 1), r.fates(n - 1), r.stamps(n - 1))
  }

  ghost function Replies(l: D.Limits, y: D.System, r: Round): nat -> Answer
    requires D.GoodLimits(l)
  {
    (i: nat) => D.Answered(l.s, Posts(l, y, r, i).server, r.parcels(i).batch, r.fates(i))
  }

  ghost function CallOf(l: D.Limits, y: D.System, r: Round): P.Call
    requires D.GoodLimits(l)
  {
    P.Call(r.wall, r.mono, r.committed, Replies(l, y, r))
  }

  function IdsOf(r: Round, n: nat): seq<string> { seq(n, i requires 0 <= i < n => r.parcels(i).batch.id) }

  ghost function FirstReplies(l: D.Limits, y: D.System, r: Round, n: nat): seq<Answer>
    requires D.GoodLimits(l)
  {
    seq(n, i requires 0 <= i < n => Replies(l, y, r)(i))
  }

  // None: the backlog's drain raised, and the flush with it.
  ghost function Flush(l: D.Limits, c: P.Config, w: World, r: Round): (World, Option<P.Status>)
    requires D.GoodLimits(l)
  {
    var y := D.Draining(l, w.sys, r.backlog, r.at);
    if !Loadable(w.sys.store.files) then (w.(sys := y), None)
    else
      var (p, status, out) := P.Flushed(c, w.probe, CallOf(l, y, r));
      (World(p, Posts(l, y, r, |out|), w.log + out, w.ids + IdsOf(r, |out|), w.replies + FirstReplies(l, y, r, |out|),
             if status.BudgetExceeded? then w.discarded + Staged(w.probe.queue) else w.discarded),
       Some(status))
  }

  // ---------------------------------------------------------------- a file that cannot be loaded

  // One such file stops every flush: nothing is sent, staged results and budget stay as they are, and
  // the file is still there for the next one.
  lemma BlockedFlush(l: D.Limits, c: P.Config, w: World, r: Round)
    requires D.GoodLimits(l)
    ensures Flush(l, c, w, r).1 == None <==> !Loadable(w.sys.store.files)
    ensures !Loadable(w.sys.store.files) ==>
              var w' := Flush(l, c, w, r).0;
              w' == w.(sys := w'.sys) && w'.sys.server == w.sys.server && !Loadable(w'.sys.store.files)
  {
    if !Loadable(w.sys.store.files) { D.BlockedScanKeeps(l, w.sys, r.at); }
    hide Loadable, D.Delivering;
  }

  // NewProcess: the probe restarts, and what was staged in memory goes.
  datatype Act = Stage(result: CanaryResult) | FlushNow(round: Round) | NewProcess | Meanwhile(step: D.Step)

  ghost function Do(l: D.Limits, c: P.Config, w: World, a: Act): World
    requires D.GoodLimits(l)
  {
    match a
    case Stage(x) => w.(probe := w.probe.(queue := Added(w.probe.queue, x)))
    case FlushNow(r) => Flush(l, c, w, r).0
    case NewProcess =>
      w.(probe := P.Probe([], w.probe.budget, None), discarded := w.discarded + Staged(w.probe.queue))
    case Meanwhile(step) => w.(sys := D.Take(l, w.sys, step))
  }

  ghost function After(l: D.Limits, c: P.Config, w: World, acts: seq<Act>): World
    requires D.GoodLimits(l)
  {
    if acts == [] then w else Do(l, c, After(l, c, w, acts[..|acts| - 1]), acts[|acts| - 1])
  }

  predicate OnlyProbe(acts: seq<Act>) { forall i :: 0 <= i < |acts| ==> !acts[i].Meanwhile? }

  // It never gets better on its own: however often such a probe stages, flushes and restarts, its file
  // never expires, no put ever reaches the cap, no batch leaves, and the gateway hears nothing.
  lemma {:induction false} BlockedForever(l: D.Limits, c: P.Config, w: World, acts: seq<Act>)
    requires D.GoodLimits(l) && !Loadable(w.sys.store.files) && OnlyProbe(acts)
    ensures var w' := After(l, c, w, acts);
      && !Loadable(w'.sys.store.files) && w'.sys.server == w.sys.server
      && w'.log == w.log && w'.probe.budget == w.probe.budget
  {
    if acts != [] {
      var n := |acts| - 1;
      BlockedForever(l, c, w, acts[..n]);
      hide Loadable, Flush;
      if acts[n].FlushNow? { BlockedFlush(l, c, After(l, c, w, acts[..n]), acts[n].round); }
    }
  }

  // ---------------------------------------------------------------- what a release comes to

  // A batch answered 202 or 409 is in acked; one whose post was lost, or got a status from 500 on, in
  // spooled; and only on another exception, or another status below 500, has its post failed for good.
  predicate Entered(outcome: P.Outcome, id: string, a: Answer, y: D.System) {
    match outcome
    case Accepted => a == Status(202) && id in y.acked
    case Duplicate => a == Status(409) && id in y.acked
    case Spooled => (a.Raised? || (a.Status? && a.code >= 500)) && id in y.spooled
    case Failed => a.Broken? || (a.Status? && a.code < 500 && a.code != 202 && a.code != 409)
    case DryRun => false
  }

  ghost predicate Logged(w: World) {
    && |w.log| == |w.ids| == |w.replies|
    && forall i :: 0 <= i < |w.log| ==> Entered(w.log[i].outcome, w.ids[i], w.replies[i], w.sys)
  }

  // Nothing that entered is ever forgotten.
  predicate Remembers(x: D.System, y: D.System) { x.acked <= y.acked && x.spooled <= y.spooled }

  lemma SendRemembers(l: D.Limits, y: D.System, p: Parcel, f: D.Fate, now: Seconds)
    requires D.GoodLimits(l)
    ensures Remembers(y, D.Sending1(l, y, p, f, now))
    ensures p.sound ==>
              forall c: P.Config :: Live(c) ==>
                var a := D.Answered(l.s, y.server, p.batch, f);
                Entered(P.Comes(c, a), p.batch.id, a, D.Sending1(l, y, p, f, now))
  {
    hide D.Answered, D.Posted, Capped, Written, D.IdsWhere;
  }

  lemma {:induction false} PostsRemember(l: D.Limits, y: D.System, r: Round, m: nat, n: nat)
    requires D.GoodLimits(l) && m <= n
    ensures Remembers(Posts(l, y, r, m), Posts(l, y, r, n))
    decreases n - m
  {
    hide D.Sending1;
    if m < n {
      PostsRemember(l, y, r, m, n - 1);
      SendRemembers(l, Posts(l, y, r, n - 1), r.parcels(n - 1), r.fates(n - 1), r.stamps(n - 1));
    }
  }

  lemma StepRemembers(l: D.Limits, y: D.System, step: D.Step)
    requires D.GoodLimits(l)
    ensures Remembers(y, D.Take(l, y, step))
  {
    if step.SendNew? { SendRemembers(l, y, step.parcel, step.fate, step.sentAt); }
    hide D.Sending1, D.SettledIds, D.KindIds, D.ServerAfter, Drained, Scanning, Capped, D.IdsWhere, Loadable;
  }

  lemma EnteredStays(outcome: P.Outcome, id: string, a: Answer, x: D.System, y: D.System)
    requires Entered(outcome, id, a, x) && Remembers(x, y)
    ensures Entered(outcome, id, a, y)
  {
  }

  lemma LogStays(w: World, y: D.System)
    requires Logged(w) && Remembers(w.sys, y)
    ensures Logged(w.(sys := y))
  {
    forall i | 0 <= i < |w.log|
      ensures Entered(w.log[i].outcome, w.ids[i], w.replies[i], y)
    {
      EnteredStays(w.log[i].outcome, w.ids[i], w.replies[i], w.sys, y);
    }
  }

  // Every body a probe signs is a sound one.
  ghost predicate Sound(r: Round) { forall i: nat :: r.parcels(i).sound }

  lemma PostEnters(l: D.Limits, c: P.Config, y: D.System, r: Round, i: nat, n: nat)
    requires D.GoodLimits(l) && Live(c) && Sound(r) && i < n
    ensures var a := Replies(l, y, r)(i); Entered(P.Comes(c, a), r.parcels(i).batch.id, a, Posts(l, y, r, n))
  {
    var before, after := Posts(l, y, r, i), Posts(l, y, r, i + 1);
    SendRemembers(l, before, r.parcels(i), r.fates(i), r.stamps(i));
    PostsRemember(l, y, r, i + 1, n);
    var a := Replies(l, y, r)(i);
    hide P.Comes, D.Sending1, D.Answered, Entered, Remembers, Live;
    EnteredStays(P.Comes(c, a), r.parcels(i).batch.id, a, after, Posts(l, y, r, n));
  }

  lemma FlushLogged(l: D.Limits, c: P.Config, w: World, r: Round)
    requires D.GoodLimits(l) && Live(c) && Sound(r) && Logged(w)
    ensures Logged(Flush(l, c, w, r).0)
  {
    var y := D.Draining(l, w.sys, r.backlog, r.at);
    StepRemembers(l, w.sys, D.Step.Drain(r.backlog, r.at));
    LogStays(w, y);
    hide D.Draining, P.Flushed, Loadable, Logged;
    if Loadable(w.sys.store.files) { PostsLogged(l, c, w.(sys := y), r); }
    var w' := Flush(l, c, w, r).0;
    LogOnly(w', w'.(probe := w.probe, discarded := w.discarded));
  }

  lemma LogOnly(w: World, x: World)
    requires w.log == x.log && w.ids == x.ids && w.replies == x.replies && w.sys == x.sys
    ensures Logged(w) <==> Logged(x)
  {
  }

  lemma PostsLogged(l: D.Limits, c: P.Config, w: World, r: Round)
    requires D.GoodLimits(l) && Live(c) && Sound(r) && Logged(w)
    ensures var out := P.Flushed(c, w.probe, CallOf(l, w.sys, r)).2;
      Logged(w.(sys := Posts(l, w.sys, r, |out|), log := w.log + out, ids := w.ids + IdsOf(r, |out|),
                replies := w.replies + FirstReplies(l, w.sys, r, |out|)))
  {
    var call := CallOf(l, w.sys, r);
    var out := P.Flushed(c, w.probe, call).2;
    var y := Posts(l, w.sys, r, |out|);
    PostsRemember(l, w.sys, r, 0, |out|);
    hide P.Flushed, P.Comes, Entered, Logged, Live, Remembers, Sound, D.Answered;
    LogStays(w, y);
    NotDry(c);
    P.OutcomesByAnswer(c, w.probe, call);
    hide P.Warranted;
    forall i | 0 <= i < |out|
      ensures Entered(out[i].outcome, IdsOf(r, |out|)[i], FirstReplies(l, w.sys, r, |out|)[i], y)
    {
      PostEnters(l, c, w.sys, r, i, |out|);
    }
    hide Posts;
    JoinLogs(w.(sys := y), out, IdsOf(r, |out|), FirstReplies(l, w.sys, r, |out|));
  }

  lemma NotDry(c: P.Config)
    requires Live(c)
    ensures !c.dryRun
  {
  }

  lemma JoinLogs(w: World, out: seq<P.Release>, ids: seq<string>, replies: seq<Answer>)
    requires Logged(w) && |out| == |ids| == |replies|
    requires forall i :: 0 <= i < |out| ==> Entered(out[i].outcome, ids[i], replies[i], w.sys)
    ensures Logged(w.(log := w.log + out, ids := w.ids + ids, replies := w.replies + replies))
  {
    hide Entered;
  }

  // ---------------------------------------------------------------- nothing entered is lost

  lemma {:induction false} PostsAreSafe(l: D.Limits, y: D.System, r: Round, n: nat)
    requires D.GoodLimits(l) && D.Safe(y) && forall i: nat :: D.Possible(r.fates(i))
    ensures D.Safe(Posts(l, y, r, n))
  {
    hide D.Safe, D.Sending1, D.Possible;
    if n > 0 {
      PostsAreSafe(l, y, r, n - 1);
      D.SendNewIsSafe(l, Posts(l, y, r, n - 1), r.parcels(n - 1), r.fates(n - 1), r.stamps(n - 1));
    }
  }

  ghost predicate Possible(r: Round) {
    Sound(r) && (forall i: nat :: D.Possible(r.fates(i))) && (forall i: nat :: D.Possible(r.backlog(i)))
  }

  lemma FlushIsSafe(l: D.Limits, c: P.Config, w: World, r: Round)
    requires D.GoodLimits(l) && Possible(r) && D.Safe(w.sys)
    ensures D.Safe(Flush(l, c, w, r).0.sys)
  {
    var y := D.Draining(l, w.sys, r.backlog, r.at);
    D.DrainIsSafe(l, w.sys, r.backlog, r.at);
    PostsAreSafe(l, y, r, |P.Flushed(c, w.probe, CallOf(l, y, r)).2|);
    hide D.Safe, D.Draining, Posts, P.Flushed, Loadable, Replies;
  }

  // ---------------------------------------------------------------- conservation

  // All results a world answers for.
  function Ledger(w: World): multiset<CanaryResult> {
    Staged(w.probe.queue) + P.Results(w.log) + w.discarded
  }

  lemma {:induction false} ResultsAppend(a: seq<P.Release>, b: seq<P.Release>)
    ensures P.Results(a + b) == P.Results(a) + P.Results(b)
  {
    if b == [] {
      assert a + b == a;
    } else {
      assert (a + b)[..|a + b| - 1] == a + b[..|b| - 1];
      ResultsAppend(a, b[..|b| - 1]);
    }
  }

  lemma FlushBalances(l: D.Limits, c: P.Config, w: World, r: Round)
    requires D.GoodLimits(l)
    ensures Ledger(Flush(l, c, w, r).0) == Ledger(w)
  {
    if Loadable(w.sys.store.files) {
      var y := D.Draining(l, w.sys, r.backlog, r.at);
      var (p, status, out) := P.Flushed(c, w.probe, CallOf(l, y, r));
      P.FlushConserves(c, w.probe, CallOf(l, y, r));
      hide D.Draining, Posts, P.Flushed, Loadable, Replies, Staged, P.Results;
      ResultsAppend(w.log, out);
      if status.BudgetExceeded? {
        assert w.log + [] == w.log;
        NothingStaged();
      }
    }
  }

  lemma NothingStaged()
    ensures Staged([]) == multiset{}
  {
  }

  // What a run staged.
  function StagedBy(acts: seq<Act>): multiset<CanaryResult> {
    if acts == [] then multiset{}
    else
      var a := acts[|acts| - 1];
      StagedBy(acts[..|acts| - 1]) + (if a.Stage? then multiset{a.result} else multiset{})
  }

  ghost predicate Realistic(a: Act) {
    match a
    case Stage(_) => true
    case FlushNow(r) => Possible(r)
    case NewProcess => true
    case Meanwhile(step) => D.Realistic(step)
  }

  ghost predicate Kept(w: World) { D.Safe(w.sys) && Logged(w) }

  lemma ActKeeps(l: D.Limits, c: P.Config, w: World, a: Act)
    requires D.GoodLimits(l) && Live(c) && Kept(w) && Realistic(a)
    ensures Kept(Do(l, c, w, a))
    ensures Ledger(Do(l, c, w, a)) == Ledger(w) + (if a.Stage? then multiset{a.result} else multiset{})
  {
    hide D.Safe, D.Take, Flush, Staged, P.Results;
    match a {
      case Stage(x) => AddedStages(w.probe.queue, x);
      case FlushNow(r) =>
        FlushIsSafe(l, c, w, r);
        FlushLogged(l, c, w, r);
        FlushBalances(l, c, w, r);
      case NewProcess =>
        NothingStaged();
        LogOnly(Do(l, c, w, a), w);
      case Meanwhile(step) =>
        D.StepIsSafe(l, w.sys, step);
        StepRemembers(l, w.sys, step);
        LogStays(w, D.Take(l, w.sys, step));
    }
  }

  // A batch answered 202 or 409 is stored; one whose post was lost, or got a status from 500 on, is
  // accounted for; and no other post has failed than those that say so.
  ghost predicate AccountedAs(outcome: P.Outcome, id: string, a: Answer, y: D.System) {
    match outcome
    case Accepted => a == Status(202) && G.HasBatch(y.server, id)
    case Duplicate => a == Status(409) && G.HasBatch(y.server, id)
    case Spooled => (a.Raised? || (a.Status? && a.code >= 500)) && D.Accounted(y, id)
    case Failed => a.Broken? || (a.Status? && a.code < 500 && a.code != 202 && a.code != 409)
    case DryRun => false
  }

  const NOTHING: multiset<CanaryResult> := multiset{}

  function Start(budget: Budget): World { World(P.Probe([], budget, None), D.Initial, [], [], [], NOTHING) }

  // Over any run of a probe that stages and flushes while the network loses what it likes, files rot
  // and the gateway restarts: every result ever staged is still staged, was discarded with a refusal
  // or a restart of the probe, or is in exactly one batch; and every batch whose post did not fail for
  // good is in the store or accounted for: acknowledged ones are stored, spooled ones waiting, stored,
  // expired, evicted or quarantined.
  lemma {:induction false} EveryResultAccounted(l: D.Limits, c: P.Config, budget: Budget, acts: seq<Act>)
    requires D.GoodLimits(l) && Live(c) && forall i :: 0 <= i < |acts| ==> Realistic(acts[i])
    ensures var w := After(l, c, Start(budget), acts);
      && Kept(w) && Ledger(w) == StagedBy(acts)
      && forall i :: 0 <= i < |w.log| ==> AccountedAs(w.log[i].outcome, w.ids[i], w.replies[i], w.sys)
  {
    hide Do, Ledger, Realistic, Live;
    if acts == [] {
      StartIsKept(budget);
    } else {
      var n := |acts| - 1;
      EveryResultAccounted(l, c, budget, acts[..n]);
      ActKeeps(l, c, After(l, c, Start(budget), acts[..n]), acts[n]);
    }
    AllAccounted(After(l, c, Start(budget), acts));
    hide Kept, D.Safe, D.Accounted, G.HasBatch;
  }

  lemma StartIsKept(budget: Budget)
    ensures Kept(Start(budget)) && Ledger(Start(budget)) == NOTHING
  {
    D.InitialIsSafe();
    hide D.Safe;
  }

  lemma AllAccounted(w: World)
    requires Kept(w)
    ensures |w.log| == |w.ids| == |w.replies|
    ensures forall i :: 0 <= i < |w.log| ==> AccountedAs(w.log[i].outcome, w.ids[i], w.replies[i], w.sys)
  {
    hide D.Accounted, G.HasBatch, D.Named;
  }
}
