// engine/detector.py: the per-stream object, and the detector that owns one per Key.
module DetectorStreams {
  import opened Common
  import opened Detector

  // ---------------------------------------------------------------- all streams, as a value

  type Streams = s: map<Key, Stream> | forall k <- s :: Sane(s[k])

  function StreamAt(s: Streams, k: Key): (r: Stream)
    ensures Sane(r)
  {
    if k in s then s[k] else Fresh
  }

  function Feed(c: Config, s: Streams, k: Key, x: real): Streams {
    s[k := Advance(c, StreamAt(s, k), x)]
  }

  function FeedAlert(c: Config, s: Streams, k: Key, x: real): Option<Fired> {
    AlertOf(c, StreamAt(s, k), x)
  }

  datatype Sample = Sample(key: Key, value: real)

  function FeedAll(c: Config, s: Streams, xs: seq<Sample>): Streams {
    if xs == [] then s
    else Feed(c, FeedAll(c, s, xs[..|xs| - 1]), xs[|xs| - 1].key, xs[|xs| - 1].value)
  }

  // The values of one stream, in order.
  function ValuesOf(xs: seq<Sample>, k: Key): seq<real> {
    if xs == [] then []
    else ValuesOf(xs[..|xs| - 1], k) + (if xs[|xs| - 1].key == k then [xs[|xs| - 1].value] else [])
  }

  lemma {:induction false} FeedAllAppend(c: Config, s: Streams, xs: seq<Sample>, ys: seq<Sample>)
    ensures FeedAll(c, s, xs + ys) == FeedAll(c, FeedAll(c, s, xs), ys)
  {
    if ys == [] {
      assert xs + ys == xs;
    } else {
      assert (xs + ys)[..|xs + ys| - 1] == xs + ys[..|ys| - 1];
      FeedAllAppend(c, s, xs, ys[..|ys| - 1]);
    }
  }

  lemma {:induction false} ValuesOfAppend(xs: seq<Sample>, ys: seq<Sample>, k: Key)
    ensures ValuesOf(xs + ys, k) == ValuesOf(xs, k) + ValuesOf(ys, k)
  {
    if ys == [] {
      assert xs + ys == xs;
    } else {
      assert (xs + ys)[..|xs + ys| - 1] == xs + ys[..|ys| - 1];
      ValuesOfAppend(xs, ys[..|ys| - 1], k);
    }
  }

  // Streams do not interfere: however samples are interleaved, each stream ends where its own
  // samples, alone and in order, would have taken it; and no other stream comes into being.
  lemma {:induction false} StreamsAreIndependent(c: Config, s: Streams, xs: seq<Sample>, k: Key)
    ensures StreamAt(FeedAll(c, s, xs), k) == Run(c, StreamAt(s, k), ValuesOf(xs, k))
    ensures k in FeedAll(c, s, xs) <==> k in s || ValuesOf(xs, k) != []
  {
    if xs != [] {
      var front, last := xs[..|xs| - 1], xs[|xs| - 1];
      StreamsAreIndependent(c, s, front, k);
      if last.key == k {
        var vs := ValuesOf(front, k);
        assert (vs + [last.value])[..|vs|] == vs;
      } else {
        assert ValuesOf(front, k) + [] == ValuesOf(front, k);
      }
    }
  }

  // Which streams a reset drops; an absent metric or suite selects all of them.
  predicate Selected(k: Key, model: string, metric: Option<string>, suite: Option<string>) {
    && k.model == model
    && (suite == None || suite == Some(k.suite))
    && (metric == None || metric == Some(k.metric))
  }

  function AfterReset(s: Streams, model: string, metric: Option<string>, suite: Option<string>): Streams {
    map k | k in s && !Selected(k, model, metric, suite) :: s[k]
  }

  // A reset stream starts again from nothing, and the others run on as if there had been no
  // reset: feeding commutes with resetting other streams.
  lemma ResetIsLocal(c: Config, s: Streams, xs: seq<Sample>, k: Key,
                     model: string, metric: Option<string>, suite: Option<string>)
    ensures StreamAt(FeedAll(c, AfterReset(s, model, metric, suite), xs), k)
         == Run(c, if k.model == model && (suite.Some? ==> k.suite == suite.value)
                      && (metric.Some? ==> k.metric == metric.value)
                   then Fresh else StreamAt(s, k),
                ValuesOf(xs, k))
  {
    StreamsAreIndependent(c, AfterReset(s, model, metric, suite), xs, k);
  }

  // ---------------------------------------------------------------- objects

  class MetricState {
    const c: Config
    ghost const key: Key  // the one stream this object serves
    var buf: seq<real>
    var mu0: Option<real>
    var sigma0: Option<real>
    var sPos: real
    var sNeg: real
    var n: nat

    constructor (c: Config, ghost key: Key)
      ensures Valid() && this.c == c && this.key == key && Value() == Fresh
    {
      this.c, this.key := c, key;
      buf, mu0, sigma0, sPos, sNeg, n := [], None, None, 0.0, 0.0, 0;
    }

    ghost predicate Valid()
      reads this
    {
      && (mu0.Some? <==> sigma0.Some?)
      && (sigma0.Some? ==> sigma0.value >= SIGMA_CLAMP)
    }

    ghost function Value(): (s: Stream)
      requires Valid()
      reads this
      ensures Sane(s)
    {
      Stream(n, buf, if mu0.Some? then Ready(mu0.value, sigma0.value) else Warming, sPos, sNeg)
    }

    method FinalizeBaseline()
      requires Valid() && buf != []
      modifies this`mu0, this`sigma0
      ensures Valid() && mu0.Some?
      ensures Ready(mu0.value, sigma0.value) == Estimate(buf, c.root)
      ensures IsSquareRoot(c.root) ==> IsBaselineOf(Ready(mu0.value, sigma0.value), buf)
    {
      if IsSquareRoot(c.root) { EstimateFits(buf, c.root); }
      hide IsBaselineOf, IsSquareRoot, Mean, Variance;
      var sigma := c.root(Variance(buf));
      if sigma < SIGMA_CLAMP { sigma := 1.0; }
      mu0, sigma0 := Some(Mean(buf)), Some(sigma);
    }

    method Update(value: real) returns (alert: Option<Fired>)
      requires Valid()
      modifies this
      ensures Valid()
      ensures Value() == Advance(c, old(Value()), value)
      ensures alert == AlertOf(c, old(Value()), value)
    {
      n := n + 1;
      if mu0.None? {
        buf := buf + [value];
        if |buf| >= c.samples {
          FinalizeBaseline();
        }
        return None;
      }
      var z := (value - mu0.value) / sigma0.value;
      sPos := RMax(0.0, sPos + z - c.k);
      sNeg := RMax(0.0, sNeg - z - c.k);
      if sPos > c.h {
        return Some(Fired(Positive, sPos, c.h, n));
      }
      if sNeg > c.h {
        return Some(Fired(Negative, sNeg, c.h, n));
      }
      return None;
    }
  }

  class CusumDetector {
    const c: Config
    var states: map<Key, MetricState>
    ghost var streams: Streams  // what the objects in states amount to

    constructor (c: Config)
      ensures Valid() && this.c == c && streams == map[]
    {
      this.c := c;
      states := map[];
      streams := map[];
    }

    ghost predicate Valid()
      reads this, states.Values
    {
      && streams.Keys == states.Keys
      && (forall k <- states :: Tracks(states[k], k, streams[k]))
    }

    ghost predicate Tracks(m: MetricState, k: Key, s: Stream)
      reads m
    {
      m.c == c && m.key == k && m.Valid() && m.Value() == s
    }

    // An unknown key gets a fresh stream; every known stream keeps its value.
    method EnsureStream(key: Key)
      requires Valid()
      modifies this
      ensures Valid() && fresh(states.Values - old(states.Values))
      ensures key in states
      ensures streams == old(streams)[key := StreamAt(old(streams), key)]
    {
      hide Sane, MetricState.Valid, MetricState.Value;
      if key !in states {
        var state := new MetricState(c, key);
        states := states[key := state];
        streams := streams[key := Fresh];
      }
    }

    method Update(key: Key, value: real) returns (alert: Option<Fired>)
      requires Valid()
      modifies this, states.Values
      ensures Valid() && fresh(states.Values - old(states.Values))
      ensures streams == Feed(c, old(streams), key, value)
      ensures alert == FeedAlert(c, old(streams), key, value)
    {
      hide Valid, Advance, AlertOf;
      EnsureStream(key);
      alert := FeedKnown(key, value);
    }

    method FeedKnown(key: Key, value: real) returns (alert: Option<Fired>)
      requires Valid() && key in states
      modifies this`streams, states[key]
      ensures Valid() && states == old(states)
      ensures key in old(streams) && streams == old(streams)[key := Advance(c, old(streams)[key], value)]
      ensures alert == AlertOf(c, old(streams)[key], value)
    {
      StreamsApart(key);
      TracksOne(key);
      hide Valid, Tracks, Advance, AlertOf, MetricState.Valid, MetricState.Value;
      alert := states[key].Update(value);
      Tracked(states[key], key, Advance(c, streams[key], value));
      OthersKeep(key);
      streams := streams[key := Advance(c, streams[key], value)];
      AllTracked();
    }

    lemma AllTracked()
      requires streams.Keys == states.Keys && forall k <- states :: Tracks(states[k], k, streams[k])
      ensures Valid()
    {
    }

    lemma StreamsApart(key: Key)
      requires Valid() && key in states
      ensures streams.Keys == states.Keys
      ensures forall k <- states :: k != key ==> states[k] != states[key]
    {
      hide MetricState.Valid, MetricState.Value;
    }

    lemma TracksOne(key: Key)
      requires Valid() && key in states
      ensures states[key].Valid() && states[key].c == c && states[key].key == key
      ensures states[key].Value() == streams[key]
    {
      hide MetricState.Valid, MetricState.Value;
    }

    // The stream objects that were not touched still hold what they held.
    twostate lemma OthersKeep(key: Key)
      requires old(Valid()) && states == old(states) && streams == old(streams)
      requires forall k <- states :: k != key ==> unchanged(states[k])
      ensures forall k <- states :: k != key ==> Tracks(states[k], k, streams[k])
    {
      hide MetricState.Valid, MetricState.Value;
    }

    lemma Tracked(m: MetricState, k: Key, s: Stream)
      requires m.c == c && m.key == k && m.Valid() && m.Value() == s
      ensures Tracks(m, k, s)
    {
    }

    method Reset(model: string, metric: Option<string>, suite: Option<string>)
      requires Valid()
      modifies this
      ensures Valid() && states.Values <= old(states.Values)
      ensures streams == AfterReset(old(streams), model, metric, suite)
    {
      hide Sane, Selected, MetricState.Valid, MetricState.Value;
      states := map k | k in states && !Selected(k, model, metric, suite) :: states[k];
      streams := AfterReset(streams, model, metric, suite);
    }
  }
}
