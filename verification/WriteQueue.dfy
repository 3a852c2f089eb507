/**
 * The coalescing write path of a light provider and its shutdown fence
 * (bridge/provider.go: SetLightV1, drain, forward, Close).
 *
 * Class Provider holds the fields guarded by ctrlMu; its methods are the critical
 * sections, each proved to perform one transition of the value Queue. The step system
 * interleaves those transitions with the program counters of any number of drains and
 * Close calls, one step per critical section, per atomic load of `closed` and per start
 * or end of a call to the Pro. Ghost logs name every accepted state by its number.
 */
module WriteQueue {
  import opened Common

  datatype Light = Light(v1id: string)

  /** The fields behind ctrlMu. A channel is named by the number of channels made before it. */
  datatype Queue = Queue(pending: map<Light, nat>, drained: Option<nat>, closed: bool, made: nat) {
    /** SetLightV1: refuse when closed, else replace the light's queued state and wake a drain. */
    function Set(l: Light, n: nat): Queue {
      if closed then this
      else if drained.None? then Queue(pending[l := n], Some(made), false, made + 1)
      else this.(pending := pending[l := n])
    }

    /** The head of the drain loop: leave when nothing is queued, else take all of it. */
    function Take(): Queue {
      if pending == map[] then this.(drained := None) else this.(pending := map[])
    }

    function Close(): Queue {
      this.(pending := map[], closed := true)
    }
  }

  const EMPTY: Queue := Queue(map[], None, false, 0)

  class Provider {
    var pending: map<Light, nat>
    var drained: Option<nat>
    var closed: bool
    var made: nat

    ghost function View(): Queue
      reads this
    {
      Queue(pending, drained, closed, made)
    }

    constructor ()
      ensures View() == EMPTY
    {
      pending, drained, closed, made := map[], None, false, 0;
    }

    /** The critical section of SetLightV1. `spawn` is the channel of the drain to start. */
    method SetLightV1(l: Light, state: nat) returns (coalesced: bool, spawn: Option<nat>)
      modifies this
      ensures View() == old(View()).Set(l, state)
      ensures coalesced <==> !old(closed) && l in old(pending)
      ensures spawn == if !old(closed) && old(drained).None? then Some(old(made)) else None
    {
      coalesced, spawn := false, None;
      if closed {
        return;
      }
      if l in pending {
        coalesced := true;
      }
      pending := pending[l := state];
      if drained.None? {
        drained := Some(made);
        made := made + 1;
        spawn := drained;
      }
    }

    /** The critical section at the head of the drain loop. */
    method TakeBatch() returns (batch: map<Light, nat>, leave: bool)
      modifies this
      ensures View() == old(View()).Take()
      ensures batch == old(pending) && (leave <==> old(pending) == map[])
    {
      batch := pending;
      leave := pending == map[];
      if leave {
        drained := None;
      } else {
        pending := map[];
      }
    }

    /** The critical section of Close; `wait` is the channel to wait for. */
    method BeginClose() returns (wait: Option<nat>)
      modifies this
      ensures View() == old(View()).Close() && wait == old(drained)
    {
      closed := true;
      pending := map[];
      wait := drained;
    }
  }

  // ------------------------------------------------------------ step system

  /** Where a forward stands. */
  datatype At =
    | Lookup      // before the first id lookup
    | EarlyCheck  // id unknown: before the load that may skip the fetch
    | Fetching    // inside the blocking fetch
    | LastCheck   // id known: before the last load of closed
    | Ready       // that load saw false; the Pro call has not started
    | InFlight    // inside the Pro call

  /** Where a drain stands; `rest` is what its range loop has not visited yet. */
  datatype Phase =
    | Head
    | Ranging(rest: map<Light, nat>)
    | Forwarding(rest: map<Light, nat>, n: nat, at: At)
    | Leaving
    | Gone
  {
    predicate InLoop() { Head? || Ranging? || Forwarding? }

    function Rest(): map<Light, nat> {
      if Ranging? || Forwarding? then rest else map[]
    }
  }

  datatype Closer = Waiting(channel: nat) | Returned(ok: bool)

  /** An accepted state; `empty` when it translates to nothing the Pro could be sent. */
  datatype Write = Write(light: Light, empty: bool)

  datatype State = State(
    q: Queue,
    drains: map<nat, Phase>,     // by the channel each closes when it exits
    closers: map<nat, Closer>,
    submitted: seq<Write>,       // accepted states, in order
    attempted: seq<nat>,         // those given to forward
    started: seq<nat>,           // those whose Pro call started
    lateStarts: nat,             // Pro calls started after the fence was raised
    coalesced: set<nat>,
    discarded: set<nat>)

  datatype Action =
    | SetLight(l: Light, empty: bool)
    | Take(d: nat)
    | Pick(d: nat, l: Light)
    | EndBatch(d: nat)
    | LookedUp(d: nat, known: bool)
    | CheckEarly(d: nat)
    | Fetched(d: nat, known: bool)
    | CheckLast(d: nat)
    | StartWrite(d: nat)
    | EndWrite(d: nat)
    | CloseChannel(d: nat)
    | Close(c: nat)
    | Wake(c: nat)
    | Timeout(c: nat)

  const INIT: State := State(EMPTY, map[], map[], [], [], [], 0, {}, {})

  predicate IsAt(s: State, d: nat, at: At) {
    d in s.drains && s.drains[d].Forwarding? && s.drains[d].at == at
  }

  predicate Enabled(s: State, a: Action) {
    match a
    case SetLight(_, _) => true
    case Take(d) => d in s.drains && s.drains[d].Head?
    case Pick(d, l) => d in s.drains && s.drains[d].Ranging? && l in s.drains[d].rest
    case EndBatch(d) => d in s.drains && s.drains[d] == Ranging(map[])
    case LookedUp(d, _) => IsAt(s, d, Lookup)
    case CheckEarly(d) => IsAt(s, d, EarlyCheck)
    case Fetched(d, _) => IsAt(s, d, Fetching)
    case CheckLast(d) => IsAt(s, d, LastCheck)
    case StartWrite(d) => IsAt(s, d, Ready)
    case EndWrite(d) => IsAt(s, d, InFlight)
    case CloseChannel(d) => d in s.drains && s.drains[d].Leaving?
    case Close(c) => c !in s.closers
    case Wake(c) => c in s.closers && s.closers[c].Waiting? && Exited(s, s.closers[c].channel)
    case Timeout(c) => c in s.closers && s.closers[c].Waiting?
  }

  predicate Exited(s: State, d: nat) {
    d in s.drains && s.drains[d].Gone?
  }

  function Move(s: State, d: nat, p: Phase): State {
    s.(drains := s.drains[d := p])
  }

  /** A forward goes on to `at`, or returns to the range loop. */
  function Go(s: State, d: nat, on: bool, at: At): State
    requires d in s.drains && s.drains[d].Forwarding?
  {
    Move(s, d, if on then s.drains[d].(at := at) else Ranging(s.drains[d].rest))
  }

  function Apply(s: State, a: Action): State
    requires Enabled(s, a)
  {
    match a
    case SetLight(l, empty) =>
      if s.q.closed then s
      else
        var n := |s.submitted|;
        var t := s.(q := s.q.Set(l, n),
                    submitted := s.submitted + [Write(l, empty)],
                    coalesced := if l in s.q.pending then s.coalesced + {s.q.pending[l]} else s.coalesced);
        if s.q.drained.None? then Move(t, s.q.made, Head) else t
    case Take(d) =>
      Move(s.(q := s.q.Take()), d, if s.q.pending == map[] then Leaving else Ranging(s.q.pending))
    case Pick(d, l) =>
      var n, rest := s.drains[d].rest[l], s.drains[d].rest - {l};
      var skip := n < |s.submitted| && s.submitted[n].empty;
      Move(s.(attempted := s.attempted + [n]), d, if skip then Ranging(rest) else Forwarding(rest, n, Lookup))
    case EndBatch(d) => Move(s, d, Head)
    case LookedUp(d, known) => Go(s, d, true, if known then LastCheck else EarlyCheck)
    case CheckEarly(d) => Go(s, d, !s.q.closed, Fetching)
    case Fetched(d, known) => Go(s, d, known, LastCheck)
    case CheckLast(d) => Go(s, d, !s.q.closed, Ready)
    case StartWrite(d) =>
      Go(s.(started := s.started + [s.drains[d].n],
            lateStarts := if s.q.closed then s.lateStarts + 1 else s.lateStarts), d, true, InFlight)
    case EndWrite(d) => Go(s, d, false, InFlight)
    case CloseChannel(d) => Move(s, d, Gone)
    case Close(c) =>
      s.(q := s.q.Close(),
         discarded := s.discarded + s.q.pending.Values,
         closers := s.closers[c := if s.q.drained.None? then Returned(true) else Waiting(s.q.drained.value)])
    case Wake(c) => s.(closers := s.closers[c := Returned(true)])
    case Timeout(c) => s.(closers := s.closers[c := Returned(Exited(s, s.closers[c].channel))])
  }

  datatype Trace = Start | Then(before: Trace, a: Action)

  predicate Legal(t: Trace)
    decreases t, 0
  {
    t.Then? ==> Legal(t.before) && Enabled(End(t.before), t.a)
  }

  function End(t: Trace): State
    requires Legal(t)
    decreases t, 1
  {
    if t.Start? then INIT else Apply(End(t.before), t.a)
  }

  predicate Extends(t: Trace, u: Trace) {
    u == t || (u.Then? && Extends(t, u.before))
  }

  // -------------------------------------------------------------- invariant

  /** At most one drain is in its loop, and it is the one `drained` names. */
  ghost predicate OneDrain(s: State) {
    && (forall d :: d in s.drains ==> d < s.q.made)
    && (forall d :: d in s.drains && s.drains[d].InLoop() ==> s.q.drained == Some(d))
    && (s.q.drained.Some? ==> s.q.drained.value in s.drains && s.drains[s.q.drained.value].InLoop())
  }

  /** No lost wake-up: queued states have a drain, and a closed queue holds none. */
  ghost predicate Served(s: State) {
    && (s.q.pending != map[] ==> s.q.drained.Some?)
    && (s.q.closed ==> s.q.pending == map[])
    && (!s.q.closed ==> s.discarded == {} && s.closers == map[] && s.lateStarts == 0)
  }

  /** What the running drain has taken but not given to forward. */
  function Batch(s: State): map<Light, nat> {
    if s.q.drained.Some? && s.q.drained.value in s.drains then s.drains[s.q.drained.value].Rest() else map[]
  }

  predicate Holds(m: map<Light, nat>, w: Write, n: nat) {
    w.light in m && m[w.light] == n
  }

  function Tally(s: State, n: nat): nat
    requires n < |s.submitted|
  {
    (if Holds(s.q.pending, s.submitted[n], n) then 1 else 0)
    + (if Holds(Batch(s), s.submitted[n], n) then 1 else 0)
    + (if n in s.attempted then 1 else 0)
    + (if n in s.coalesced then 1 else 0)
    + (if n in s.discarded then 1 else 0)
  }

  ghost predicate Filed(s: State, m: map<Light, nat>) {
    forall l :: l in m ==> m[l] < |s.submitted| && s.submitted[m[l]].light == l
  }

  /** Every logged number is an accepted state, and each map files states under their light. */
  ghost predicate WellLogged(s: State) {
    && Filed(s, s.q.pending)
    && Filed(s, Batch(s))
    && (forall i :: 0 <= i < |s.attempted| ==> s.attempted[i] < |s.submitted|)
    && (forall n :: n in s.coalesced ==> n < |s.submitted|)
    && (forall n :: n in s.discarded ==> n < |s.submitted|)
  }

  /** Conservation: each accepted state is in exactly one place. */
  ghost predicate Conserved(s: State) {
    forall n :: 0 <= n < |s.submitted| ==> Tally(s, n) == 1
  }

  function LightOf(submitted: seq<Write>, n: nat): Option<Light> {
    if n < |submitted| then Some(submitted[n].light) else None
  }

  /** `later` holds nothing older than what was already attempted for its light. */
  ghost predicate After(submitted: seq<Write>, attempted: seq<nat>, later: map<Light, nat>) {
    forall i, l :: 0 <= i < |attempted| && l in later && LightOf(submitted, attempted[i]) == Some(l)
      ==> attempted[i] < later[l]
  }

  /** Per light, the logged numbers increase. */
  ghost predicate Increasing(submitted: seq<Write>, log: seq<nat>) {
    forall i, j :: 0 <= i < j < |log| && LightOf(submitted, log[i]) == LightOf(submitted, log[j]) ==> log[i] < log[j]
  }

  /** Per light, attempts come in the order of submission, and before what is still held. */
  ghost predicate Ordered(s: State) {
    && Increasing(s.submitted, s.attempted)
    && After(s.submitted, s.attempted, Batch(s))
    && After(s.submitted, s.attempted, s.q.pending)
    && (forall l :: l in s.q.pending && l in Batch(s) ==> Batch(s)[l] < s.q.pending[l])
  }

  predicate Newer(s: State, n: nat, m: nat) {
    n < m < |s.submitted| && s.submitted[n].light == s.submitted[m].light
  }

  /** Coalescing drops a state only for a newer one of the same light. */
  ghost predicate Superseded(s: State) {
    forall n :: n in s.coalesced ==> exists m :: Newer(s, n, m)
  }

  /** The running drain has a forward under way whose Pro call has not started. */
  predicate Unsent(s: State) {
    && s.q.drained.Some? && s.q.drained.value in s.drains
    && s.drains[s.q.drained.value].Forwarding? && !s.drains[s.q.drained.value].at.InFlight?
  }

  /** Pro calls are a subsequence of the attempts, per light in the order of submission. */
  ghost predicate SentInOrder(s: State) {
    && (forall i :: 0 <= i < |s.started| ==> s.started[i] in s.attempted)
    && Increasing(s.submitted, s.started)
    && (Unsent(s) ==>
          && s.attempted != []
          && s.attempted[|s.attempted| - 1] == s.drains[s.q.drained.value].n
          && s.drains[s.q.drained.value].n !in s.started)
  }

  predicate IsReady(s: State) {
    s.q.drained.Some? && IsAt(s, s.q.drained.value, Ready)
  }

  /** The fence: who Close waits for, what its answer means, and what may still start. */
  ghost predicate Fenced(s: State) {
    && (forall c :: c in s.closers && s.closers[c].Waiting? ==>
          s.closers[c].channel in s.drains && (s.q.drained.None? || s.q.drained == Some(s.closers[c].channel)))
    && (forall c :: c in s.closers && s.closers[c] == Returned(true) ==> s.q.drained.None?)
    && (s.q.closed ==> s.lateStarts + (if IsReady(s) then 1 else 0) <= 1)
  }

  ghost predicate Inv(s: State) {
    OneDrain(s) && Served(s) && WellLogged(s) && Conserved(s) && Ordered(s) && SentInOrder(s) && Superseded(s) && Fenced(s)
  }

  lemma ControlKept(s: State, a: Action)
    requires Inv(s) && Enabled(s, a)
    ensures OneDrain(Apply(s, a)) && Served(Apply(s, a))
  {
  }

  lemma FenceKept(s: State, a: Action)
    requires Inv(s) && Enabled(s, a)
    ensures Fenced(Apply(s, a))
  {
    ControlKept(s, a);
  }

  /** What the running drain holds changes only when it takes a batch or picks from it. */
  lemma BatchAfter(s: State, a: Action)
    requires OneDrain(s) && Enabled(s, a)
    ensures Batch(Apply(s, a)) ==
            match a
            case Take(_) => s.q.pending
            case Pick(_, l) => Batch(s) - {l}
            case _ => Batch(s)
  {
  }

  /** Steps that touch neither the queue's contents nor a log. */
  predicate Silent(a: Action) {
    !a.SetLight? && !a.Take? && !a.Pick? && !a.StartWrite? && !a.Close?
  }

  lemma SilentStep(s: State, a: Action)
    requires OneDrain(s) && Enabled(s, a) && Silent(a)
    ensures var t := Apply(s, a);
            && t.q == s.q && Batch(t) == Batch(s)
            && t.submitted == s.submitted && t.attempted == s.attempted && t.started == s.started
            && t.coalesced == s.coalesced && t.discarded == s.discarded
  {
    BatchAfter(s, a);
  }

  lemma LogsKept(s: State, a: Action)
    requires Inv(s) && Enabled(s, a)
    ensures WellLogged(Apply(s, a))
  {
    BatchAfter(s, a);
    if Silent(a) {
      SilentStep(s, a);
    }
  }

  lemma PickTally(s: State, d: nat, l: Light, n: nat)
    requires Inv(s) && Enabled(s, Pick(d, l)) && n < |s.submitted|
    ensures Tally(Apply(s, Pick(d, l)), n) == 1
  {
    BatchAfter(s, Pick(d, l));
    assert Tally(s, n) == 1;
    assert Batch(s) == s.drains[d].rest;
    assert n in s.attempted + [Batch(s)[l]] <==> n in s.attempted || n == Batch(s)[l];
  }

  lemma SetTally(s: State, l: Light, empty: bool, n: nat)
    requires Inv(s) && !s.q.closed && n <= |s.submitted|
    ensures Tally(Apply(s, SetLight(l, empty)), n) == 1
  {
    BatchAfter(s, SetLight(l, empty));
    if n < |s.submitted| {
      assert Tally(s, n) == 1;
    }
  }

  lemma CloseTally(s: State, c: nat, n: nat)
    requires Inv(s) && Enabled(s, Close(c)) && n < |s.submitted|
    ensures Tally(Apply(s, Close(c)), n) == 1
  {
    BatchAfter(s, Close(c));
    assert Tally(s, n) == 1;
    assert n in s.q.pending.Values <==> Holds(s.q.pending, s.submitted[n], n);
  }

  lemma ConservedKept(s: State, a: Action)
    requires Inv(s) && Enabled(s, a)
    ensures Conserved(Apply(s, a))
  {
    forall n | 0 <= n < |Apply(s, a).submitted| ensures Tally(Apply(s, a), n) == 1 {
      if n < |s.submitted| {
        assert Tally(s, n) == 1;
      }
      match a
      case SetLight(l, empty) => if !s.q.closed { SetTally(s, l, empty, n); }
      case Pick(d, l) => PickTally(s, d, l, n);
      case Close(c) => CloseTally(s, c, n);
      case _ => BatchAfter(s, a);
    }
  }

  /** A new submission leaves the light of every logged number alone. */
  lemma LightsStay(submitted: seq<Write>, w: Write, n: nat)
    requires n < |submitted|
    ensures LightOf(submitted + [w], n) == LightOf(submitted, n)
  {
  }

  lemma SetOrder(s: State, l: Light, empty: bool)
    requires Inv(s) && !s.q.closed
    ensures Ordered(Apply(s, SetLight(l, empty)))
  {
    var t := Apply(s, SetLight(l, empty));
    BatchAfter(s, SetLight(l, empty));
    forall i | 0 <= i < |s.attempted| ensures LightOf(t.submitted, s.attempted[i]) == LightOf(s.submitted, s.attempted[i]) {
      LightsStay(s.submitted, Write(l, empty), s.attempted[i]);
    }
  }

  lemma PickOrder(s: State, d: nat, l: Light)
    requires Inv(s) && Enabled(s, Pick(d, l))
    ensures Ordered(Apply(s, Pick(d, l)))
  {
    BatchAfter(s, Pick(d, l));
    var n := s.drains[d].rest[l];
    assert Batch(s) == s.drains[d].rest;
    assert LightOf(s.submitted, n) == Some(l);
  }

  lemma OrderKept(s: State, a: Action)
    requires Inv(s) && Enabled(s, a)
    ensures Ordered(Apply(s, a))
  {
    if Silent(a) || a.StartWrite? {
      BatchAfter(s, a);
    } else {
      match a
      case SetLight(l, empty) => if !s.q.closed { SetOrder(s, l, empty); }
      case Pick(d, l) => PickOrder(s, d, l);
      case _ => BatchAfter(s, a);
    }
  }

  lemma StartSent(s: State, d: nat)
    requires Inv(s) && Enabled(s, StartWrite(d))
    ensures SentInOrder(Apply(s, StartWrite(d)))
  {
    var n := s.drains[d].n;
    var last := |s.attempted| - 1;
    assert Unsent(s) && s.attempted[last] == n;
    forall i | 0 <= i < |s.started| && LightOf(s.submitted, s.started[i]) == LightOf(s.submitted, n)
      ensures s.started[i] < n
    {
      var j :| 0 <= j < |s.attempted| && s.attempted[j] == s.started[i];
    }
  }

  lemma PickSent(s: State, d: nat, l: Light)
    requires Inv(s) && Enabled(s, Pick(d, l))
    ensures SentInOrder(Apply(s, Pick(d, l)))
  {
    var n := s.drains[d].rest[l];
    assert Batch(s) == s.drains[d].rest && Tally(s, n) == 1;
    assert n !in s.started;
  }

  lemma SetSent(s: State, l: Light, empty: bool)
    requires Inv(s) && !s.q.closed
    ensures SentInOrder(Apply(s, SetLight(l, empty)))
  {
    var t := Apply(s, SetLight(l, empty));
    forall i | 0 <= i < |s.started| ensures LightOf(t.submitted, s.started[i]) == LightOf(s.submitted, s.started[i]) {
      assert s.started[i] in s.attempted;
      LightsStay(s.submitted, Write(l, empty), s.started[i]);
    }
  }

  lemma SentKept(s: State, a: Action)
    requires Inv(s) && Enabled(s, a)
    ensures SentInOrder(Apply(s, a))
  {
    match a
    case SetLight(l, empty) => if !s.q.closed { SetSent(s, l, empty); }
    case Pick(d, l) => PickSent(s, d, l);
    case StartWrite(d) => StartSent(s, d);
    case _ =>
  }

  lemma SupersededKept(s: State, a: Action)
    requires Inv(s) && Enabled(s, a)
    ensures Superseded(Apply(s, a))
  {
    var t := Apply(s, a);
    forall n | n in t.coalesced ensures exists m :: Newer(t, n, m) {
      if n in s.coalesced {
        var m :| Newer(s, n, m);
        assert Newer(t, n, m);
      } else {
        assert Newer(t, n, |s.submitted|);
      }
    }
  }

  lemma InvKept(s: State, a: Action)
    requires Inv(s) && Enabled(s, a)
    ensures Inv(Apply(s, a))
  {
    ControlKept(s, a);
    LogsKept(s, a);
    ConservedKept(s, a);
    OrderKept(s, a);
    SentKept(s, a);
    SupersededKept(s, a);
    FenceKept(s, a);
  }

  // --------------------------------------------------------------- theorems

  /** The invariant holds in every reachable state. */
  lemma {:induction false} AlwaysInv(t: Trace)
    requires Legal(t)
    ensures Inv(End(t))
  {
    if t.Then? {
      AlwaysInv(t.before);
      InvKept(End(t.before), t.a);
    }
  }

  /** At most one drain loops, and one does whenever a state is queued. */
  lemma NoLostWakeUp(t: Trace)
    requires Legal(t)
    ensures var s := End(t);
            && (forall d, e :: d in s.drains && e in s.drains && s.drains[d].InLoop() && s.drains[e].InLoop() ==> d == e)
            && (s.q.pending != map[] ==> exists d :: d in s.drains && s.drains[d].InLoop())
  {
    AlwaysInv(t);
    var s := End(t);
    if s.q.pending != map[] {
      assert s.drains[s.q.drained.value].InLoop();
    }
  }

  /** Every accepted state is in exactly one place: queued, taken, attempted, coalesced or discarded. */
  lemma {:induction false} WritesAreConserved(t: Trace, n: nat)
    requires Legal(t) && n < |End(t).submitted|
    ensures Tally(End(t), n) == 1
    ensures n in End(t).coalesced ==> exists m :: Newer(End(t), n, m)
    ensures n in End(t).discarded ==> End(t).q.closed
  {
    AlwaysInv(t);
  }

  /** Per light, states reach the Pro in the order the TV sent them, each at most once. */
  lemma {:induction false} ProSeesSubmissionOrder(t: Trace)
    requires Legal(t)
    ensures Increasing(End(t).submitted, End(t).attempted)
    ensures Increasing(End(t).submitted, End(t).started)
    ensures forall i :: 0 <= i < |End(t).started| ==> End(t).started[i] in End(t).attempted
  {
    AlwaysInv(t);
  }

  predicate Quiet(s: State) {
    s.q.pending == map[] && s.q.drained.None?
  }

  predicate Latest(s: State, n: nat) {
    n < |s.submitted| && forall m :: n < m < |s.submitted| ==> s.submitted[m].light != s.submitted[n].light
  }

  /** At rest, unless closed, the last state submitted for a light is the last one attempted. */
  lemma LastWriteWins(t: Trace, n: nat)
    requires Legal(t) && Quiet(End(t)) && !End(t).q.closed && Latest(End(t), n)
    ensures n in End(t).attempted
    ensures forall m :: m in End(t).attempted && LightOf(End(t).submitted, m) == LightOf(End(t).submitted, n) ==> m <= n
  {
    AlwaysInv(t);
    assert Tally(End(t), n) == 1;
  }

  // Liveness: drains finish on their own.

  function Rank(p: Phase): nat {
    match p
    case Head => 2
    case Ranging(rest) => 3 + 9 * |rest|
    case Forwarding(rest, _, at) => 3 + 9 * |rest| + AtRank(at)
    case Leaving => 0
    case Gone => 0
  }

  function AtRank(at: At): nat {
    match at
    case Lookup => 6
    case EarlyCheck => 5
    case Fetching => 4
    case LastCheck => 3
    case Ready => 2
    case InFlight => 1
  }

  function Work(s: State): nat {
    if s.q.drained.Some? && s.q.drained.value in s.drains
    then 11 * |s.q.pending| + Rank(s.drains[s.q.drained.value])
    else 0
  }

  /** The steps of a drain's loop. */
  predicate Drains(a: Action) {
    a.Take? || a.Pick? || a.EndBatch? || a.LookedUp? || a.CheckEarly? || a.Fetched? || a.CheckLast? || a.StartWrite? || a.EndWrite?
  }

  lemma TakeProgress(s: State, d: nat)
    requires Inv(s) && Enabled(s, Take(d))
    ensures Work(Apply(s, Take(d))) < Work(s)
  {
    assert s.drains[d].InLoop();
    if s.q.pending != map[] {
      assert |s.q.pending| > 0;
    }
  }

  lemma PickProgress(s: State, d: nat, l: Light)
    requires Inv(s) && Enabled(s, Pick(d, l))
    ensures Work(Apply(s, Pick(d, l))) < Work(s)
  {
    assert s.drains[d].InLoop();
    var rest := s.drains[d].rest;
    assert (rest - {l}).Keys == rest.Keys - {l};
    assert |rest - {l}| == |rest| - 1;
  }

  /** Every step of the loop uses up work, so without new writes a drain exits. */
  lemma DrainProgress(s: State, a: Action)
    requires Inv(s) && Enabled(s, a) && Drains(a)
    ensures Work(Apply(s, a)) < Work(s)
  {
    match a
    case Take(d) => TakeProgress(s, d);
    case Pick(d, l) => PickProgress(s, d, l);
    case EndBatch(d) => assert s.drains[d].InLoop();
    case LookedUp(d, _) => assert s.drains[d].InLoop();
    case CheckEarly(d) => assert s.drains[d].InLoop();
    case Fetched(d, _) => assert s.drains[d].InLoop();
    case CheckLast(d) => assert s.drains[d].InLoop();
    case StartWrite(d) => assert s.drains[d].InLoop();
    case EndWrite(d) => assert s.drains[d].InLoop();
  }

  /** The light is found at the lookup, or at the latest after the fetch. */
  predicate Finds(a: Action) {
    a.Fetched? ==> a.known
  }

  /** A drain in its loop can always take a step. */
  lemma DrainNeverStuck(s: State) returns (a: Action)
    requires Inv(s) && s.q.drained.Some?
    ensures Enabled(s, a) && Drains(a) && Finds(a)
  {
    var d := s.q.drained.value;
    match s.drains[d] {
      case Head => a := Take(d);
      case Ranging(rest) =>
        if rest == map[] {
          a := EndBatch(d);
        } else {
          var l :| l in rest;
          a := Pick(d, l);
        }
      case Forwarding(_, _, at) =>
        match at {
          case Lookup => a := LookedUp(d, true);
          case EarlyCheck => a := CheckEarly(d);
          case Fetching => a := Fetched(d, true);
          case LastCheck => a := CheckLast(d);
          case Ready => a := StartWrite(d);
          case InFlight => a := EndWrite(d);
        }
    }
  }

  /** The trace `u` continues `t` by drain steps only, which find every light. */
  predicate DrainsOnly(t: Trace, u: Trace) {
    u == t || (u.Then? && Drains(u.a) && Finds(u.a) && DrainsOnly(t, u.before))
  }

  lemma {:induction false} DrainsOnlyTransitive(t: Trace, u: Trace, v: Trace)
    requires DrainsOnly(t, u) && DrainsOnly(u, v)
    ensures DrainsOnly(t, v)
  {
    if v != u {
      DrainsOnlyTransitive(t, u, v.before);
    }
  }

  /** Left alone, the queue comes to rest with nothing lost on the way. */
  lemma {:induction false} DrainsToRest(t: Trace) returns (u: Trace)
    requires Legal(t)
    ensures Legal(u) && DrainsOnly(t, u) && Quiet(End(u))
    ensures End(u).submitted == End(t).submitted && End(u).q.closed == End(t).q.closed
    decreases Work(End(t))
  {
    AlwaysInv(t);
    u := t;
    if End(t).q.drained.Some? {
      var a := DrainNeverStuck(End(t));
      DrainProgress(End(t), a);
      u := DrainsToRest(Then(t, a));
      assert DrainsOnly(t, Then(t, a));
      DrainsOnlyTransitive(t, Then(t, a), u);
    }
  }

  // The shutdown fence.

  predicate Touching(s: State, d: nat) {
    IsAt(s, d, Ready) || IsAt(s, d, InFlight)
  }

  /** A closed provider that no drain serves stays silent for good. */
  lemma ClosedIdleStaysIdle(s: State, a: Action)
    requires Inv(s) && Enabled(s, a) && s.q.closed && s.q.drained.None?
    ensures Apply(s, a).q == s.q && Apply(s, a).started == s.started && Apply(s, a).submitted == s.submitted
  {
  }

  /** The answer of a Close is final. */
  lemma AnswerStays(s: State, a: Action, c: nat)
    requires Enabled(s, a) && c in s.closers && s.closers[c].Returned?
    ensures c in Apply(s, a).closers && Apply(s, a).closers[c] == s.closers[c]
  {
  }

  lemma {:induction false} SilentAfterClose(t: Trace, u: Trace, c: nat)
    requires Legal(t) && Legal(u) && Extends(t, u)
    requires c in End(t).closers && End(t).closers[c] == Returned(true)
    ensures c in End(u).closers && End(u).closers[c] == Returned(true)
    ensures End(u).q.closed && End(u).q.drained.None?
    ensures End(u).started == End(t).started && End(u).submitted == End(t).submitted
  {
    if u == t {
      AlwaysInv(t);
    } else {
      SilentAfterClose(t, u.before, c);
      AlwaysInv(u.before);
      AnswerStays(End(u.before), u.a, c);
      ClosedIdleStaysIdle(End(u.before), u.a);
    }
  }

  lemma IdleTouchesNothing(s: State, d: nat)
    requires OneDrain(s) && s.q.drained.None? && d in s.drains
    ensures !s.drains[d].InLoop() && !Touching(s, d)
  {
  }

  /** Once a Close has returned true no Pro call is under way, and none ever starts. */
  lemma CloseIsFinal(t: Trace, u: Trace, c: nat)
    requires Legal(t) && Legal(u) && Extends(t, u)
    requires c in End(t).closers && End(t).closers[c] == Returned(true)
    ensures c in End(u).closers && End(u).closers[c] == Returned(true)
    ensures End(u).started == End(t).started && End(u).submitted == End(t).submitted
    ensures forall d :: d in End(u).drains ==> !End(u).drains[d].InLoop() && !Touching(End(u), d)
  {
    SilentAfterClose(t, u, c);
    AlwaysInv(u);
    forall d | d in End(u).drains ensures !End(u).drains[d].InLoop() && !Touching(End(u), d) {
      IdleTouchesNothing(End(u), d);
    }
  }

  /** From any moment the fence is up, at most one more Pro call starts. */
  lemma {:induction false} AtMostOneLateWrite(t: Trace, u: Trace)
    requires Legal(t) && Legal(u) && Extends(t, u) && End(t).q.closed
    ensures End(u).q.closed && |End(u).started| <= |End(t).started| + 1
  {
    LateWritesCounted(t, u);
    AlwaysInv(u);
  }

  lemma LateStep(s: State, a: Action)
    requires Enabled(s, a) && s.q.closed
    ensures Apply(s, a).q.closed
    ensures |Apply(s, a).started| - Apply(s, a).lateStarts == |s.started| - s.lateStarts
  {
  }

  lemma {:induction false} LateWritesCounted(t: Trace, u: Trace)
    requires Legal(t) && Legal(u) && Extends(t, u) && End(t).q.closed
    ensures End(u).q.closed
    ensures |End(u).started| - End(u).lateStarts == |End(t).started| - End(t).lateStarts
  {
    if u != t {
      LateWritesCounted(t, u.before);
      LateStep(End(u.before), u.a);
    }
  }
}
