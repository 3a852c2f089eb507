/**
 * The receiver and the streamer together (entertainment/receiver.go handle;
 * entertainment/streamer.go Start, Stop, run): the receiver's callbacks are the streamer's
 * Start and Stop, and everything else of either interleaves with everything of the other.
 */
module Streaming {
  import opened Common
  import R = Receiver
  import S = StreamRun

  /** A step of the receiver, or one of the streamer that is no callback's begin or return. */
  datatype Action = ByReceiver(r: R.Action) | ByStreamer(s: S.Action)

  datatype Trace = Begin | Then(before: Trace, a: Action)

  /** The callback a receiver step begins or returns from. */
  function Callback(a: R.Action): Option<R.Event> {
    if !a.By? then None
    else
      match a.m
      case BeginStart => Some(R.StartBegan(a.n))
      case EndStart => Some(R.StartEnded(a.n))
      case BeginStop => Some(R.StopBegan(a.n))
      case EndStop => Some(R.StopEnded(a.n))
      case _ => None
  }

  /** What the receiver does in it. */
  function OfReceiver(t: Trace): R.Trace {
    match t
    case Begin => R.Start
    case Then(before, ByReceiver(a)) => R.Then(OfReceiver(before), a)
    case Then(before, ByStreamer(_)) => OfReceiver(before)
  }

  /** What the streamer does in it; a callback is a step of both. */
  function OfStreamer(t: Trace): S.Trace {
    match t
    case Begin => S.Begin
    case Then(before, ByReceiver(a)) =>
      if Callback(a).Some? then S.Then(OfStreamer(before), S.Callback(Callback(a).value)) else OfStreamer(before)
    case Then(before, ByStreamer(a)) => S.Then(OfStreamer(before), a)
  }

  /** A callback returns when the streamer is through with it; it may begin whenever the receiver says so. */
  predicate Returns(e: R.Event) {
    e.StartEnded? || e.StopEnded?
  }

  predicate MayStep(r: R.Trace, s: S.Trace, a: Action)
    requires R.Legal(r) && S.Legal(s)
  {
    match a
    case ByReceiver(b) =>
      && R.Enabled(R.End(r), b)
      && (Callback(b).Some? && Returns(Callback(b).value) ==> S.End(s).call.Returning?)
    case ByStreamer(b) => !b.Callback? && S.Enabled(S.End(s), b)
  }

  /**
   * A joint run. Beginning a callback asks nothing of the streamer: that the streamer can
   * always take it is proved, not required.
   */
  predicate Legal(t: Trace) {
    t.Then? ==>
      && Legal(t.before)
      && (R.Legal(OfReceiver(t.before)) && S.Legal(OfStreamer(t.before)) ==>
            MayStep(OfReceiver(t.before), OfStreamer(t.before), t.a))
  }

  /** A step logs its callback, a frame, or nothing. */
  lemma StepLogs(s: R.State, a: R.Action)
    requires R.Enabled(s, a)
    ensures Callback(a).Some? ==> R.Apply(s, a).log == R.Add(s.log, Callback(a).value) && !Callback(a).value.Frame?
    ensures Callback(a).None? ==> R.After(R.Apply(s, a).log) == R.After(s.log)
  {
  }

  lemma OtherStepLogs(s: S.State, a: S.Action)
    requires S.Enabled(s, a) && !a.Callback?
    ensures S.Apply(s, a).log == s.log
  {
  }

  /**
   * Whatever the receiver does, the streamer takes part: both projections of a joint run
   * are runs of their own, and agree on the callbacks.
   */
  lemma {:induction false} BothLegal(t: Trace)
    requires Legal(t)
    ensures R.Legal(OfReceiver(t)) && S.Legal(OfStreamer(t))
    ensures R.After(R.End(OfReceiver(t)).log) == R.After(S.End(OfStreamer(t)).log)
  {
    if t.Then? {
      BothLegal(t.before);
      var r, s := OfReceiver(t.before), OfStreamer(t.before);
      match t.a
      case ByReceiver(b) =>
        StepLogs(R.End(r), b);
        if Callback(b).Some? {
          S.ReceiverIsServed(r, b, Callback(b).value, s);
        }
      case ByStreamer(b) =>
        OtherStepLogs(S.End(s), b);
    }
  }

  /** A callback begins with no other under way, for any number of overlapping connections. */
  lemma OneCallAtATime(t: Trace)
    requires Legal(t) && t.Then? && t.a.ByReceiver? && Callback(t.a.r).Some? && !Returns(Callback(t.a.r).value)
    ensures S.Legal(OfStreamer(t.before)) && S.End(OfStreamer(t.before)).call.NoCall?
  {
    BothLegal(t.before);
    BothLegal(t);
    StepLogs(R.End(OfReceiver(t.before)), t.a.r);
    S.ReceiverIsServed(OfReceiver(t.before), t.a.r, Callback(t.a.r).value, OfStreamer(t.before));
  }

  /**
   * Whenever a session's Stop returns, however many connections come and go, the streamer
   * holds no connection, has no run left, and leaves no named stream active on the Pro.
   */
  lemma EveryStopSettles(t: Trace)
    requires Legal(t) && t.Then? && t.a.ByReceiver? && t.a.r.By? && t.a.r.m.EndStop?
    ensures S.Legal(OfStreamer(t))
    ensures var s := S.End(OfStreamer(t));
            && s.pc.Off? && s.open == {} && !s.live.path.Dtls?
            && (forall x :: x in s.owed ==> !S.Named(x.id))
            && (S.IdsNamed(OfStreamer(t)) ==> s.owed == {})
  {
    BothLegal(t);
    BothLegal(t.before);
    R.CallbacksAlternate(OfReceiver(t));
    assert Callback(t.a.r) == Some(R.StopEnded(t.a.r.n));
    StepLogs(R.End(OfReceiver(t.before)), t.a.r);
    S.StopSettles(OfStreamer(t));
    if S.IdsNamed(OfStreamer(t)) {
      S.NothingLeftActive(OfStreamer(t));
    }
  }

  /** A session may only start with the last one's stream settled. */
  lemma StartsSettled(t: Trace)
    requires Legal(t) && t.Then? && t.a.ByReceiver? && t.a.r.By? && t.a.r.m.BeginStart?
    ensures S.Legal(OfStreamer(t.before))
    ensures var s := S.End(OfStreamer(t.before)); s.pc.Off? && s.open == {} && !s.live.path.Dtls?
  {
    BothLegal(t.before);
    BothLegal(t);
    R.CallbacksAlternate(OfReceiver(t));
    StepLogs(R.End(OfReceiver(t.before)), t.a.r);
    S.StopSettles(OfStreamer(t.before));
  }

  // Neither holds the other up.

  /** `u` goes on from `t` by steps of the streamer alone. */
  predicate StreamerOnly(t: Trace, u: Trace) {
    u == t || (u.Then? && u.a.ByStreamer? && StreamerOnly(t, u.before))
  }

  /** The joint run in which the streamer alone goes on as in `s`. */
  lemma {:induction false} StreamerGoesOn(t: Trace, s: S.Trace) returns (u: Trace)
    requires Legal(t) && S.Legal(s) && S.Continues(s, OfStreamer(t))
    ensures Legal(u) && StreamerOnly(t, u) && OfReceiver(u) == OfReceiver(t) && OfStreamer(u) == s
  {
    BothLegal(t);
    if s == OfStreamer(t) {
      u := t;
    } else {
      var before := StreamerGoesOn(t, s.before);
      BothLegal(before);
      u := Then(before, ByStreamer(s.a));
    }
  }

  /** In a callback the streamer can always get to its return, on its own. */
  lemma CallbackCanReturn(t: Trace) returns (u: Trace)
    requires Legal(t) && R.Legal(OfReceiver(t))
    requires R.After(R.End(OfReceiver(t)).log).Starting? || R.After(R.End(OfReceiver(t)).log).Stopping?
    ensures Legal(u) && StreamerOnly(t, u) && OfReceiver(u) == OfReceiver(t)
    ensures S.Legal(OfStreamer(u)) && S.End(OfStreamer(u)).call.Returning?
  {
    BothLegal(t);
    var s := OfStreamer(t);
    S.AlwaysInv(s);
    if S.End(s).call.InStart? {
      s := S.Then(s, S.StartBody(false));
    } else if !S.End(s).call.Returning? {
      if S.End(s).call.InStop? {
        s := S.Then(s, S.Cancel);
      }
      var first := s;
      s := S.StopReturns(first);
      if first != OfStreamer(t) {
        S.ContinuesOn(s, OfStreamer(t), S.Cancel);
      }
    }
    u := StreamerGoesOn(t, s);
  }

  /** `u` goes on from `t` with no new connection and nothing from the TV. */
  predicate InternalOnly(t: Trace, u: Trace) {
    u == t || (u.Then? && (u.a.ByStreamer? || R.Internal(u.a.r)) && InternalOnly(t, u.before))
  }

  lemma {:induction false} StreamerIsInternal(t: Trace, u: Trace, v: Trace)
    requires InternalOnly(t, u) && StreamerOnly(u, v)
    ensures InternalOnly(t, v)
  {
    if v != u {
      StreamerIsInternal(t, u, v.before);
    }
  }

  /** A handler inside a callback has it logged as the one under way. */
  lemma InCallback(pcs: map<nat, R.Pc>, sink: R.Sink, n: nat)
    requires R.Bracketed(pcs, sink) && n in pcs && (pcs[n].InStart? || pcs[n].InStop?)
    ensures sink.Starting? || sink.Stopping?
  {
    assert R.HeldBy(pcs, sink, n);
  }

  lemma ReturnsFrom(s: R.State, a: R.Action)
    requires R.Enabled(s, a) && Callback(a).Some? && Returns(Callback(a).value)
    ensures a.n in s.pcs && (s.pcs[a.n].InStart? || s.pcs[a.n].InStop?)
  {
  }

  lemma {:induction false} AlwaysBracketed(r: R.Trace)
    requires R.Legal(r)
    ensures R.Bracketed(R.End(r).pcs, R.After(R.End(r).log))
  {
    R.AlwaysInv(r);
  }

  /** Whatever the receiver can do by itself, it can do with the streamer at its side. */
  lemma {:induction false} ReceiverGoesOn(t: Trace, r: R.Trace) returns (u: Trace)
    requires Legal(t) && R.Legal(r) && R.InternalOnly(OfReceiver(t), r)
    ensures Legal(u) && InternalOnly(t, u) && OfReceiver(u) == r
  {
    BothLegal(t);
    if r == OfReceiver(t) {
      u := t;
    } else {
      var before := ReceiverGoesOn(t, r.before);
      if Callback(r.a).Some? && Returns(Callback(r.a).value) {
        ReturnsFrom(R.End(r.before), r.a);
        AlwaysBracketed(r.before);
        InCallback(R.End(r.before).pcs, R.After(R.End(r.before).log), r.a.n);
        var back := CallbackCanReturn(before);
        StreamerIsInternal(t, before, back);
        before := back;
      }
      BothLegal(before);
      u := Then(before, ByReceiver(r.a));
    }
  }

  /**
   * From every point of every joint run, the waiting sessions get past their waiting with
   * nothing more from the TV, through whatever the streamer has to tear down.
   */
  lemma ReplacementCompletes(t: Trace) returns (u: Trace)
    requires Legal(t)
    ensures Legal(u) && InternalOnly(t, u) && R.Legal(OfReceiver(u))
    ensures forall n :: n in R.End(OfReceiver(u)).pcs ==> !R.End(OfReceiver(u)).pcs[n].Held()
  {
    BothLegal(t);
    var r := R.ReplacementCompletes(OfReceiver(t));
    u := ReceiverGoesOn(t, r);
  }
}
