/**
 * What becomes of the TV's writes (bridge/provider.go: SetLightV1, forward, Close): which
 * of them reach the Pro, and that a shutdown is answered.
 */
module Delivery {
  import opened Common
  import opened WriteQueue

  // ------------------------------------------------------- accepted or refused

  /** A state is accepted, and queued for its light, exactly while the fence is down. */
  lemma AcceptedIffOpen(t: Trace)
    requires Legal(t) && t.Then? && t.a.SetLight?
    ensures !End(t.before).q.closed ==>
              && End(t).submitted == End(t.before).submitted + [Write(t.a.l, t.a.empty)]
              && t.a.l in End(t).q.pending && End(t).q.pending[t.a.l] == |End(t.before).submitted|
    ensures End(t.before).q.closed ==> End(t) == End(t.before)
  {
  }

  // ------------------------------------------------------ the fate of attempts

  /** The running drain is forwarding state `n`. */
  predicate UnderWay(s: State, n: nat) {
    && s.q.drained.Some? && s.q.drained.value in s.drains
    && s.drains[s.q.drained.value].Forwarding? && s.drains[s.q.drained.value].n == n
  }

  /** Its Pro call has started. */
  predicate Calling(s: State) {
    s.q.drained.Some? && IsAt(s, s.q.drained.value, InFlight)
  }

  /** A state that translates to nothing the Pro could be sent. */
  predicate IsEmpty(s: State, n: nat) {
    n < |s.submitted| && s.submitted[n].empty
  }

  /** Its light was not found, not even after the fetch. */
  predicate Unfound(t: Trace, n: nat)
    requires Legal(t)
  {
    t.Then? && (Unfound(t.before, n) || (t.a.Fetched? && !t.a.known && UnderWay(End(t.before), n)))
  }

  /** Its forward found the fence up. */
  predicate FencedOff(t: Trace, n: nat)
    requires Legal(t)
  {
    t.Then? &&
      (FencedOff(t.before, n)
       || ((t.a.CheckEarly? || t.a.CheckLast?) && End(t.before).q.closed && UnderWay(End(t.before), n)))
  }

  /** How an attempt may end; `lost` when it was not found or fenced off. */
  predicate Fate(s: State, n: nat, lost: bool) {
    && (n in s.attempted ==> n in s.started || UnderWay(s, n) || IsEmpty(s, n) || lost)
    && (UnderWay(s, n) ==> n in s.attempted && !IsEmpty(s, n) && !lost && (Calling(s) <==> n in s.started))
    && (n in s.started ==> n in s.attempted && !IsEmpty(s, n) && !lost)
    && (lost ==> n in s.attempted && !IsEmpty(s, n))
  }

  /** A step that ends the forward without a Pro call. */
  predicate Loses(s: State, a: Action, n: nat) {
    UnderWay(s, n) && ((a.Fetched? && !a.known) || ((a.CheckEarly? || a.CheckLast?) && s.q.closed))
  }

  lemma PickFate(s: State, d: nat, l: Light, n: nat, lost: bool)
    requires Inv(s) && Enabled(s, Pick(d, l)) && Fate(s, n, lost)
    ensures Fate(Apply(s, Pick(d, l)), n, lost)
  {
    assert s.drains[d].InLoop();
    var m := s.drains[d].rest[l];
    assert Batch(s) == s.drains[d].rest;
    assert Holds(Batch(s), s.submitted[m], m);
    assert Tally(s, m) == 1;
    assert m !in s.attempted;
  }

  lemma SetFate(s: State, l: Light, empty: bool, n: nat, lost: bool)
    requires Inv(s) && Fate(s, n, lost)
    ensures Fate(Apply(s, SetLight(l, empty)), n, lost)
  {
    if n in s.attempted {
      assert n < |s.submitted|;
    }
  }

  lemma ForwardFate(s: State, a: Action, n: nat, lost: bool)
    requires Inv(s) && Enabled(s, a) && Fate(s, n, lost) && !a.SetLight? && !a.Pick?
    ensures Fate(Apply(s, a), n, lost || Loses(s, a, n))
  {
  }

  predicate Lost(t: Trace, n: nat)
    requires Legal(t)
  {
    Unfound(t, n) || FencedOff(t, n)
  }

  lemma LostBySteps(t: Trace, n: nat)
    requires Legal(t) && t.Then?
    ensures Lost(t, n) <==> Lost(t.before, n) || Loses(End(t.before), t.a, n)
  {
  }

  lemma FateKept(s: State, a: Action, n: nat, lost: bool)
    requires Inv(s) && Enabled(s, a) && Fate(s, n, lost)
    ensures Fate(Apply(s, a), n, lost || Loses(s, a, n))
  {
    match a
    case SetLight(l, empty) => SetFate(s, l, empty, n, lost);
    case Pick(d, l) => PickFate(s, d, l, n, lost);
    case _ => ForwardFate(s, a, n, lost);
  }

  lemma {:induction false} AlwaysFate(t: Trace, n: nat)
    requires Legal(t)
    ensures Fate(End(t), n, Lost(t, n))
  {
    if t.Then? {
      AlwaysFate(t.before, n);
      AlwaysInv(t.before);
      FateKept(End(t.before), t.a, n, Lost(t.before, n));
      LostBySteps(t, n);
    }
  }

  lemma ClosedStays(s: State, a: Action)
    requires Enabled(s, a) && s.q.closed
    ensures Apply(s, a).q.closed
  {
  }

  lemma {:induction false} FencedOffOnlyClosed(t: Trace, n: nat)
    requires Legal(t) && FencedOff(t, n)
    ensures End(t).q.closed
  {
    if FencedOff(t.before, n) {
      FencedOffOnlyClosed(t.before, n);
    }
    ClosedStays(End(t.before), t.a);
  }

  /**
   * An attempt whose forward is over has made its Pro call exactly if the state says
   * something, its light was found, and the fence was down when it was looked at.
   */
  lemma {:induction false} AttemptReachesProIff(t: Trace, n: nat)
    requires Legal(t) && n in End(t).attempted && !UnderWay(End(t), n)
    ensures n in End(t).started <==> !IsEmpty(End(t), n) && !Unfound(t, n) && !FencedOff(t, n)
    ensures FencedOff(t, n) ==> End(t).q.closed
  {
    AlwaysFate(t, n);
    if FencedOff(t, n) {
      FencedOffOnlyClosed(t, n);
    }
  }

  /** At rest and open, the newest state of a light is the last the Pro was sent, if it says something and its light was found. */
  lemma LastWriteReachesPro(t: Trace, n: nat)
    requires Legal(t) && Quiet(End(t)) && !End(t).q.closed && Latest(End(t), n)
    requires !IsEmpty(End(t), n) && !Unfound(t, n)
    ensures n in End(t).started
    ensures forall m :: m in End(t).started && LightOf(End(t).submitted, m) == LightOf(End(t).submitted, n) ==> m <= n
  {
    LastWriteWins(t, n);
    AttemptReachesProIff(t, n);
    ProSeesSubmissionOrder(t);
  }

  lemma {:induction false} FoundStaysFound(t: Trace, u: Trace, n: nat)
    requires Legal(t) && Legal(u) && DrainsOnly(t, u) && !Unfound(t, n)
    ensures !Unfound(u, n)
  {
    if u != t {
      FoundStaysFound(t, u.before, n);
    }
  }

  /** Whatever is queued, once the TV pauses the newest state of each light reaches the Pro, if its lookups succeed. */
  lemma NewestIsDelivered(t: Trace, n: nat) returns (u: Trace)
    requires Legal(t) && !End(t).q.closed && Latest(End(t), n)
    requires !IsEmpty(End(t), n) && !Unfound(t, n)
    ensures Legal(u) && DrainsOnly(t, u) && Quiet(End(u)) && n in End(u).started
  {
    u := DrainsToRest(t);
    FoundStaysFound(t, u, n);
    LastWriteReachesPro(u, n);
  }

  // ------------------------------------------------------------- the lookups

  /** The newest lookup of a light's id, before a fetch or after it. */
  function LastLookup(t: Trace): Option<Action> {
    if t.Start? then None else if t.a.LookedUp? || t.a.Fetched? then Some(t.a) else LastLookup(t.before)
  }

  /** What stands between a forward's lookup and its end fits what the lookup said. */
  ghost predicate LookupFits(s: State, last: Option<Action>) {
    forall d :: d in s.drains && s.drains[d].Forwarding? && !s.drains[d].at.Lookup? ==>
      if s.drains[d].at.EarlyCheck? || s.drains[d].at.Fetching?
      then last == Some(LookedUp(d, false))
      else last == Some(LookedUp(d, true)) || last == Some(Fetched(d, true))
  }

  lemma LookupStep(s: State, a: Action, last: Option<Action>)
    requires Inv(s) && Enabled(s, a) && LookupFits(s, last)
    ensures LookupFits(Apply(s, a), if a.LookedUp? || a.Fetched? then Some(a) else last)
  {
  }

  /** A fetch is made only for a light whose id was not known, and the Pro is called only for one whose id was found. */
  lemma {:induction false} LookupDecides(t: Trace)
    requires Legal(t)
    ensures LookupFits(End(t), LastLookup(t))
  {
    if t.Then? {
      AlwaysInv(t.before);
      LookupDecides(t.before);
      LookupStep(End(t.before), t.a, LastLookup(t.before));
    }
  }

  // ------------------------------------------------------- the answer of Close

  /** Close answers true exactly if no drain ran, or the one it waited for has ended by then. */
  lemma AnswerTellsEnd(t: Trace, c: nat)
    requires Legal(t) && t.Then? && c in End(t).closers && End(t).closers[c].Returned?
    requires c in End(t.before).closers ==> End(t.before).closers[c].Waiting?
    ensures c in End(t.before).closers ==>
              (End(t).closers[c].ok <==> Exited(End(t.before), End(t.before).closers[c].channel))
    ensures c !in End(t.before).closers ==> End(t).closers[c].ok && End(t.before).q.drained.None?
  {
  }

  lemma DrainsLeaveClosers(s: State, a: Action)
    requires Enabled(s, a) && Drains(a)
    ensures Apply(s, a).closers == s.closers
  {
  }

  lemma {:induction false} ClosersStay(t: Trace, u: Trace)
    requires Legal(t) && Legal(u) && DrainsOnly(t, u)
    ensures End(u).closers == End(t).closers
  {
    if u != t {
      ClosersStay(t, u.before);
      DrainsLeaveClosers(End(u.before), u.a);
    }
  }

  /** Once the drain is through, a waiting Close finds it so. */
  lemma EndOfDrain(t: Trace, c: nat) returns (u: Trace)
    requires Legal(t) && c in End(t).closers && End(t).closers[c].Waiting? && Quiet(End(t))
    ensures Legal(u) && c in End(u).closers && End(u).closers[c] == Returned(true)
    ensures Extends(t, u)
  {
    AlwaysInv(t);
    var d := End(t).closers[c].channel;
    u := t;
    if End(t).drains[d].Leaving? {
      u := Then(t, CloseChannel(d));
    }
    assert Exited(End(u), d);
    u := Then(u, Wake(c));
    assert Extends(t, t);
  }

  lemma {:induction false} DrainsExtend(t: Trace, u: Trace)
    requires DrainsOnly(t, u)
    ensures Extends(t, u)
  {
    if u != t {
      DrainsExtend(t, u.before);
    }
  }

  lemma {:induction false} ExtendsOn(t: Trace, u: Trace, v: Trace)
    requires Extends(t, u) && Extends(u, v)
    ensures Extends(t, v)
  {
    if v != u {
      ExtendsOn(t, u, v.before);
    }
  }

  /** A waiting Close can always come to answer true, by steps of the drain alone and its own. */
  lemma CloseCanAnswer(t: Trace, c: nat) returns (u: Trace)
    requires Legal(t) && c in End(t).closers && End(t).closers[c].Waiting?
    ensures Legal(u) && Extends(t, u) && c in End(u).closers && End(u).closers[c] == Returned(true)
  {
    var quiet := DrainsToRest(t);
    ClosersStay(t, quiet);
    u := EndOfDrain(quiet, c);
    DrainsExtend(t, quiet);
    ExtendsOn(t, quiet, u);
  }
}
