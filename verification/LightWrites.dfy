/**
 * The server's light write path (clipv1/server.go: SetLightProvider, CloseLightWrites):
 * any number of providers, each a WriteQueue state stepping on its own, installed and
 * fenced by the server. A TV write may still reach a provider that was replaced after it
 * was looked up, so every provider ever installed keeps taking steps.
 */
module LightWrites {
  import opened Common
  import Q = WriteQueue

  class Server {
    var lights: Option<Q.Provider>
    var lightsClosed: bool

    constructor ()
      ensures lights.None? && !lightsClosed
    {
      lights, lightsClosed := None, false;
    }

    /** A provider set after the fence is closed before it is visible. */
    method SetLightProvider(p: Q.Provider)
      modifies this, p
      ensures lights == Some(p) && lightsClosed == old(lightsClosed)
      ensures p.View() == if lightsClosed then old(p.View()).Close() else old(p.View())
    {
      if lightsClosed {
        var _ := p.BeginClose();
      }
      lights := Some(p);
    }

    /** The critical section of CloseLightWrites: the provider to close, if there is one. */
    method RaiseFence() returns (p: Option<Q.Provider>)
      modifies this
      ensures lightsClosed && lights == old(lights) && p == lights
    {
      lightsClosed := true;
      p := lights;
    }
  }

  /** One call of CloseLightWrites; `count` providers were installed when it raised the fence. */
  datatype Call =
    | Captured(p: nat, count: nat)
    | Closing(p: nat, count: nat, c: nat)
    | Done(current: Option<nat>, count: nat, ok: bool)
  {
    /** The provider current at the fence. */
    function Current(): Option<nat> {
      if Done? then current else Some(p)
    }
  }

  /** Providers are named by the order of their installation. */
  datatype State = State(
    providers: seq<Q.State>,
    lights: Option<nat>,
    lightsClosed: bool,
    calls: map<nat, Call>)

  datatype Action =
    | Install
    | Step(p: nat, a: Q.Action)
    | Fence(k: nat)
    | BeginClose(k: nat, c: nat)
    | Finish(k: nat)

  const INIT: State := State([], None, false, map[])

  /** A newly built provider as SetLightProvider makes it visible. */
  function Fresh(closed: bool): Q.State {
    if closed then Q.Apply(Q.INIT, Q.Close(0)) else Q.INIT
  }

  predicate Enabled(s: State, a: Action) {
    match a
    case Install => true
    case Step(p, b) => p < |s.providers| && Q.Enabled(s.providers[p], b)
    case Fence(k) => k !in s.calls
    case BeginClose(k, c) =>
      k in s.calls && s.calls[k].Captured? && s.calls[k].p < |s.providers|
      && Q.Enabled(s.providers[s.calls[k].p], Q.Close(c))
    case Finish(k) =>
      k in s.calls && s.calls[k].Closing? && s.calls[k].p < |s.providers|
      && s.calls[k].c in s.providers[s.calls[k].p].closers
      && s.providers[s.calls[k].p].closers[s.calls[k].c].Returned?
  }

  function Apply(s: State, a: Action): State
    requires Enabled(s, a)
  {
    match a
    case Install =>
      s.(providers := s.providers + [Fresh(s.lightsClosed)], lights := Some(|s.providers|))
    case Step(p, b) =>
      s.(providers := s.providers[p := Q.Apply(s.providers[p], b)])
    case Fence(k) =>
      var n := |s.providers|;
      s.(lightsClosed := true,
         calls := s.calls[k := if s.lights.Some? then Captured(s.lights.value, n) else Done(None, n, true)])
    case BeginClose(k, c) =>
      var p := s.calls[k].p;
      s.(providers := s.providers[p := Q.Apply(s.providers[p], Q.Close(c))],
         calls := s.calls[k := Closing(p, s.calls[k].count, c)])
    case Finish(k) =>
      var p := s.calls[k].p;
      s.(calls := s.calls[k := Done(Some(p), s.calls[k].count, s.providers[p].closers[s.calls[k].c].ok)])
  }

  datatype Trace = Start | Then(before: Trace, a: Action)

  predicate Legal(t: Trace)
    decreases t, 0
  {
    t.Then? ==> Legal(t.before) && Enabled(End(t.before), t.a)
  }

  function End(t: Trace): State
    requires Legal(t)
    decreases t, 1
  {
    if t.Start? then INIT else Apply(End(t.before), t.a)
  }

  predicate Extends(t: Trace, u: Trace) {
    u == t || (u.Then? && Extends(t, u.before))
  }

  /** Closed, and no drain left that could write. */
  predicate Silent(s: Q.State) {
    s.q.closed && s.q.drained.None?
  }

  /** Silent from birth. */
  predicate NeverWrote(s: Q.State) {
    Silent(s) && s.started == [] && s.submitted == []
  }

  ghost predicate CallInv(s: State, call: Call) {
    && call.count <= |s.providers|
    && (call.Current().Some? ==> call.Current().value < call.count)
    && (forall p :: call.count <= p < |s.providers| ==> NeverWrote(s.providers[p]))
    && (call.Done? && call.ok && call.current.Some? ==> Silent(s.providers[call.current.value]))
  }

  ghost predicate Inv(s: State) {
    && (forall p :: 0 <= p < |s.providers| ==> Q.Inv(s.providers[p]))
    && (s.lights.Some? ==> s.lights.value < |s.providers|)
    && (s.calls != map[] ==> s.lightsClosed)
    && (forall k :: k in s.calls ==> CallInv(s, s.calls[k]))
  }

  lemma FreshInv(closed: bool)
    ensures Q.Inv(Fresh(closed)) && (closed ==> NeverWrote(Fresh(closed)))
  {
    Q.AlwaysInv(Q.Start);
    if closed {
      Q.InvKept(Q.INIT, Q.Close(0));
    }
  }

  /** What a call relies on of one provider. */
  predicate Relied(call: Call, p: nat, s: Q.State) {
    && (call.count <= p ==> NeverWrote(s))
    && (call.Done? && call.ok && call.current == Some(p) ==> Silent(s))
  }

  lemma ReliedKept(call: Call, p: nat, s: Q.State, a: Q.Action)
    requires Q.Inv(s) && Q.Enabled(s, a) && Relied(call, p, s)
    ensures Relied(call, p, Q.Apply(s, a))
  {
    if Silent(s) {
      Q.ClosedIdleStaysIdle(s, a);
    }
  }

  /** A step of one provider keeps what every call relies on. */
  lemma ProviderStepKept(s: State, p: nat, a: Q.Action, call: Call)
    requires p < |s.providers| && Q.Inv(s.providers[p]) && Q.Enabled(s.providers[p], a) && CallInv(s, call)
    ensures CallInv(s.(providers := s.providers[p := Q.Apply(s.providers[p], a)]), call)
  {
    var next := Q.Apply(s.providers[p], a);
    assert Relied(call, p, s.providers[p]);
    ReliedKept(call, p, s.providers[p], a);
    assert Relied(call, p, next);
  }

  lemma StepsKept(s: State, p: nat, a: Q.Action)
    requires Inv(s) && p < |s.providers| && Q.Enabled(s.providers[p], a)
    ensures Inv(s.(providers := s.providers[p := Q.Apply(s.providers[p], a)]))
  {
    Q.InvKept(s.providers[p], a);
    forall k | k in s.calls
      ensures CallInv(s.(providers := s.providers[p := Q.Apply(s.providers[p], a)]), s.calls[k])
    {
      ProviderStepKept(s, p, a, s.calls[k]);
    }
  }

  /** A call moving on keeps the rest. */
  lemma CallMoves(s: State, k: nat, call: Call)
    requires Inv(s) && s.lightsClosed && CallInv(s, call)
    ensures Inv(s.(calls := s.calls[k := call]))
  {
  }

  lemma InstallKept(s: State)
    requires Inv(s)
    ensures Inv(Apply(s, Install))
  {
    var n := Apply(s, Install);
    FreshInv(s.lightsClosed);
    forall k | k in n.calls ensures CallInv(n, n.calls[k]) {
      assert CallInv(s, s.calls[k]);
    }
  }

  lemma FenceKept(s: State, k: nat)
    requires Inv(s) && Enabled(s, Fence(k))
    ensures Inv(Apply(s, Fence(k)))
  {
  }

  lemma BeginCloseKept(s: State, k: nat, c: nat)
    requires Inv(s) && Enabled(s, BeginClose(k, c))
    ensures Inv(Apply(s, BeginClose(k, c)))
  {
    var p := s.calls[k].p;
    StepsKept(s, p, Q.Close(c));
    var t := s.(providers := s.providers[p := Q.Apply(s.providers[p], Q.Close(c))]);
    assert CallInv(t, t.calls[k]);
    CallMoves(t, k, Closing(p, s.calls[k].count, c));
  }

  lemma FinishKept(s: State, k: nat)
    requires Inv(s) && Enabled(s, Finish(k))
    ensures Inv(Apply(s, Finish(k)))
  {
    var p := s.calls[k].p;
    assert CallInv(s, s.calls[k]);
    assert Q.Inv(s.providers[p]);
    CallMoves(s, k, Done(Some(p), s.calls[k].count, s.providers[p].closers[s.calls[k].c].ok));
  }

  lemma InvKept(s: State, a: Action)
    requires Inv(s) && Enabled(s, a)
    ensures Inv(Apply(s, a))
  {
    match a
    case Install => InstallKept(s);
    case Step(p, b) => StepsKept(s, p, b);
    case Fence(k) => FenceKept(s, k);
    case BeginClose(k, c) => BeginCloseKept(s, k, c);
    case Finish(k) => FinishKept(s, k);
  }

  lemma {:induction false} AlwaysInv(t: Trace)
    requires Legal(t)
    ensures Inv(End(t))
  {
    if t.Then? {
      AlwaysInv(t.before);
      InvKept(End(t.before), t.a);
    }
  }

  // The provider current at the fence, once CloseLightWrites has returned true.

  lemma CurrentStep(s: State, a: Action, k: nat, p: nat)
    requires Inv(s) && Enabled(s, a) && k in s.calls && s.calls[k] == Done(Some(p), s.calls[k].count, true)
    ensures p < |s.providers| <= |Apply(s, a).providers|
    ensures Apply(s, a).providers[p].started == s.providers[p].started
    ensures k in Apply(s, a).calls && Apply(s, a).calls[k] == s.calls[k]
  {
    assert CallInv(s, s.calls[k]) && Q.Inv(s.providers[p]);
    match a
    case Step(r, b) => if r == p { Q.ClosedIdleStaysIdle(s.providers[p], b); }
    case BeginClose(j, c) => if s.calls[j].p == p { Q.ClosedIdleStaysIdle(s.providers[p], Q.Close(c)); }
    case _ =>
  }

  lemma {:induction false} CurrentStaysSilent(t: Trace, u: Trace, k: nat, p: nat)
    requires Legal(t) && Legal(u) && Extends(t, u)
    requires k in End(t).calls && End(t).calls[k] == Done(Some(p), End(t).calls[k].count, true)
    ensures k in End(u).calls && End(u).calls[k] == End(t).calls[k]
    ensures p < |End(t).providers| <= |End(u).providers|
    ensures End(u).providers[p].started == End(t).providers[p].started
  {
    if u == t {
      AlwaysInv(t);
      assert CallInv(End(t), End(t).calls[k]);
    } else {
      CurrentStaysSilent(t, u.before, k, p);
      AlwaysInv(u.before);
      CurrentStep(End(u.before), u.a, k, p);
    }
  }

  /**
   * After a CloseLightWrites that returned true, only a provider replaced before it may
   * still write: the one current at its fence has no Pro call under way and starts none,
   * and no later one ever made or makes one.
   */
  lemma {:induction false} FenceHolds(t: Trace, u: Trace, k: nat, p: nat)
    requires Legal(t) && Legal(u) && Extends(t, u)
    requires k in End(t).calls && End(t).calls[k] == Done(Some(p), End(t).calls[k].count, true)
    ensures p < |End(t).providers| <= |End(u).providers|
    ensures End(u).providers[p].started == End(t).providers[p].started
    ensures forall d :: d in End(u).providers[p].drains ==> !Q.Touching(End(u).providers[p], d)
    ensures forall q :: End(t).calls[k].count <= q < |End(u).providers| ==> NeverWrote(End(u).providers[q])
  {
    CurrentStaysSilent(t, u, k, p);
    AlwaysInv(u);
    assert CallInv(End(u), End(u).calls[k]);
    assert Q.Inv(End(u).providers[p]);
  }

  // Providers installed behind the fence, whatever became of the call that raised it.

  lemma FenceStaysUp(s: State, a: Action)
    requires Enabled(s, a) && s.lightsClosed
    ensures Apply(s, a).lightsClosed && |s.providers| <= |Apply(s, a).providers|
  {
  }

  /** A step leaves a provider that never wrote as it is; one installed now starts closed. */
  lemma NeverWroteKept(s: State, a: Action, p: nat)
    requires Inv(s) && Enabled(s, a) && s.lightsClosed && p < |Apply(s, a).providers|
    requires p < |s.providers| ==> NeverWrote(s.providers[p])
    ensures NeverWrote(Apply(s, a).providers[p])
  {
    match a
    case Install => FreshInv(true);
    case Step(r, b) => if r == p { Q.ClosedIdleStaysIdle(s.providers[p], b); }
    case BeginClose(j, c) => if s.calls[j].p == p { Q.ClosedIdleStaysIdle(s.providers[p], Q.Close(c)); }
    case _ =>
  }

  lemma {:induction false} LaterStaysClosed(t: Trace, u: Trace, p: nat)
    requires Legal(t) && Legal(u) && Extends(t, u) && End(t).lightsClosed
    ensures End(u).lightsClosed && |End(t).providers| <= |End(u).providers|
    ensures |End(t).providers| <= p < |End(u).providers| ==> NeverWrote(End(u).providers[p])
  {
    if u != t {
      LaterStaysClosed(t, u.before, p);
      AlwaysInv(u.before);
      FenceStaysUp(End(u.before), u.a);
      if |End(t).providers| <= p < |End(u).providers| {
        NeverWroteKept(End(u.before), u.a, p);
      }
    }
  }

  /**
   * A provider installed while the fence is up never accepts a write and never makes a Pro
   * call, whether CloseLightWrites is still waiting, timed out or returned true.
   */
  lemma {:induction false} LaterNeverWrites(t: Trace, u: Trace, p: nat)
    requires Legal(t) && Legal(u) && Extends(t, u) && End(t).lightsClosed
    requires |End(t).providers| <= p < |End(u).providers|
    ensures End(u).providers[p].started == [] && End(u).providers[p].submitted == []
    ensures forall d :: d in End(u).providers[p].drains ==> !Q.Touching(End(u).providers[p], d)
  {
    LaterStaysClosed(t, u, p);
    AlwaysInv(u);
    assert Q.Inv(End(u).providers[p]);
  }

  /** In particular every provider installed after some call raised the fence, from then on. */
  lemma BehindEveryFence(t: Trace, k: nat, p: nat)
    requires Legal(t) && k in End(t).calls && End(t).calls[k].count <= p < |End(t).providers|
    ensures End(t).providers[p].started == [] && End(t).providers[p].submitted == []
    ensures forall d :: d in End(t).providers[p].drains ==> !Q.Touching(End(t).providers[p], d)
  {
    AlwaysInv(t);
    assert CallInv(End(t), End(t).calls[k]);
    assert Q.Inv(End(t).providers[p]);
  }

  // What is let through, and what CloseLightWrites answers.

  /** A provider installed with the fence down is the current one, open and empty; with the fence up, closed. */
  lemma InstallTells(t: Trace)
    requires Legal(t) && t.Then? && t.a.Install?
    ensures var n := |End(t.before).providers|;
            && |End(t).providers| == n + 1 && End(t).lights == Some(n)
            && (forall p :: 0 <= p < n ==> End(t).providers[p] == End(t.before).providers[p])
            && End(t).providers[n].started == [] && End(t).providers[n].submitted == []
            && (End(t).providers[n].q.closed <==> End(t.before).lightsClosed)
  {
  }

  /** The fence goes up with the first CloseLightWrites and not before. */
  lemma {:induction false} FenceIffCalled(t: Trace)
    requires Legal(t)
    ensures End(t).lightsClosed <==> End(t).calls != map[]
  {
    if t.Then? {
      FenceIffCalled(t.before);
      if t.a.Fence? {
        assert t.a.k in End(t).calls;
      } else if End(t.before).calls != map[] {
        var k :| k in End(t.before).calls;
        assert k in End(t).calls;
      }
    }
  }

  /** CloseLightWrites answers what the Close of the provider current at its fence answered, true if there was none. */
  lemma AnswerTellsClose(t: Trace, k: nat)
    requires Legal(t) && t.Then? && k in End(t).calls && End(t).calls[k].Done?
    requires k in End(t.before).calls ==> !End(t.before).calls[k].Done?
    ensures k !in End(t.before).calls ==> End(t).calls[k].ok && End(t.before).lights.None? && End(t).calls[k].current.None?
    ensures k in End(t.before).calls ==>
              var call := End(t.before).calls[k];
              && call.Closing? && call.p < |End(t).providers| && call.c in End(t).providers[call.p].closers
              && End(t).calls[k].current == Some(call.p)
              && End(t).providers[call.p].closers[call.c] == Q.Returned(End(t).calls[k].ok)
  {
  }

  /** Every call is about the provider current when it raised the fence. */
  lemma FenceCaptures(t: Trace, k: nat)
    requires Legal(t) && t.Then? && t.a == Fence(k)
    ensures End(t).lightsClosed && k in End(t).calls
    ensures End(t).calls[k].Current() == End(t.before).lights && End(t).calls[k].count == |End(t.before).providers|
  {
  }

  // Each provider by itself.

  /** What one provider does in the run: it is born, open or closed, and takes its own steps and the Close of every fence that captured it. */
  function OfProvider(t: Trace, p: nat): Q.Trace
    requires Legal(t)
  {
    if t.Start? then Q.Start
    else if t.a.Install? && p == |End(t.before).providers| then
      if End(t.before).lightsClosed then Q.Then(Q.Start, Q.Close(0)) else Q.Start
    else if t.a.Step? && t.a.p == p then Q.Then(OfProvider(t.before, p), t.a.a)
    else if t.a.BeginClose? && End(t.before).calls[t.a.k].p == p then Q.Then(OfProvider(t.before, p), Q.Close(t.a.c))
    else OfProvider(t.before, p)
  }

  /** Every provider of every run is a run of the write queue, with all that is proved of those. */
  lemma {:induction false} EachProviderIsQueue(t: Trace, p: nat)
    requires Legal(t) && p < |End(t).providers|
    ensures Q.Legal(OfProvider(t, p)) && Q.End(OfProvider(t, p)) == End(t).providers[p]
  {
    if t.a.Install? && p == |End(t.before).providers| {
      assert Q.Legal(Q.Start) && Q.End(Q.Start) == Q.INIT;
    } else {
      EachProviderIsQueue(t.before, p);
    }
  }
}
