/**
 * Session replacement and frame forwarding of the entertainment receiver
 * (entertainment/receiver.go handle).
 *
 * Each accepted connection runs its own handler, reader and forwarder. A session is named
 * by the order in which handlers register. Steps are critical sections, channel operations
 * and the begin and end of callbacks; a step on the peer's side may come at any time.
 */
module Receiver {
  import opened Common

  /** The fields behind sessMu, with the number of sessions registered so far. */
  datatype Registry = Registry(cur: Option<nat>, made: nat) {
    function Register(): Registry { Registry(Some(made), made + 1) }

    function Unregister(n: nat): Registry {
      if cur == Some(n) then this.(cur := None) else this
    }
  }

  class Sessions {
    var cur: Option<nat>
    var made: nat

    ghost function View(): Registry
      reads this
    {
      Registry(cur, made)
    }

    constructor ()
      ensures View() == Registry(None, 0)
    {
      cur, made := None, 0;
    }

    /** Register a handler; `replaced` is the session it must close and wait for. */
    method Register() returns (mine: nat, replaced: Option<nat>)
      modifies this
      ensures View() == old(View()).Register()
      ensures mine == old(made) && replaced == old(cur)
    {
      mine, replaced := made, cur;
      cur := Some(mine);
      made := made + 1;
    }

    method Superseded(mine: nat) returns (b: bool)
      ensures b <==> View().cur != Some(mine)
    {
      b := cur != Some(mine);
    }

    /** The deferred clean-up of a handler. */
    method Unregister(mine: nat)
      modifies this
      ensures View() == old(View()).Unregister(mine)
    {
      if cur == Some(mine) {
        cur := None;
      }
    }
  }

  /** Where a handler stands. */
  datatype Pc =
    | CloseOld(prev: nat)
    | Waiting(prev: nat)
    | Recheck
    | BeforeStart
    | InStart
    | Running
    | BeforeStop
    | InStop
    | Unregistering
    | Signalling
    | Over
  {
    /** No callback of this handler is under way or to come. */
    predicate Past() { Unregistering? || Signalling? || Over? }

    predicate Held() { CloseOld? || Waiting? }

    predicate BeforeCallbacks() { Held() || Recheck? || BeforeStart? }
  }

  datatype Worker = Idle | Active | Done

  const QUEUE_SIZE: nat := 8

  /** The bounded frame channel of a session, with what went through it. */
  datatype Buffer = Buffer(
    queue: seq<int>,
    busy: bool,             // the forwarder is inside OnFrame
    accepted: seq<int>,     // frames the channel took
    forwarded: seq<int>,    // frames handed to OnFrame
    received: nat,
    dropped: nat)
  {
    /** A full channel drops the newest frame. */
    function Put(f: int): Buffer {
      if |queue| < QUEUE_SIZE
      then this.(queue := queue + [f], accepted := accepted + [f], received := received + 1)
      else this.(dropped := dropped + 1, received := received + 1)
    }

    function Get(): Buffer {
      if queue == [] then this
      else this.(queue := queue[1..], busy := true, forwarded := forwarded + [queue[0]])
    }

    /** Frames are forwarded in order, and each is forwarded, queued or dropped. */
    predicate Valid() {
      && accepted == forwarded + queue
      && |queue| <= QUEUE_SIZE
      && received == |accepted| + dropped
    }
  }

  lemma BufferKept(b: Buffer, f: int)
    requires b.Valid()
    ensures b.Put(f).Valid() && b.Get().Valid()
  {
    if b.queue != [] {
      assert b.forwarded + b.queue == b.forwarded + [b.queue[0]] + b.queue[1..];
    }
  }

  /** The two goroutines of a running session and the channel between them. */
  datatype Flow = Flow(reader: Worker, forwarder: Worker, buf: Buffer)

  const NO_FLOW: Flow := Flow(Idle, Idle, Buffer([], false, [], [], 0, 0))

  datatype Event =
    | StartBegan(n: nat)
    | StartEnded(n: nat)
    | StopBegan(n: nat)
    | StopEnded(n: nat)
    | Frame(n: nat)

  datatype Log = Empty | Add(before: Log, e: Event)

  datatype State = State(
    r: Registry,
    pcs: map<nat, Pc>,
    flows: map<nat, Flow>,
    cut: set<nat>,          // sessions whose connection has been closed
    superseded: set<nat>,   // those that left without callbacks
    byCancel: set<nat>,     // those that left their loop because the context was cancelled
    cancelled: bool,
    log: Log)

  /** The steps a session takes, or has done to it by its peer (Read, Hangup). */
  datatype Move =
    | Read(f: int)
    | Hangup
    | ClosePrevious
    | Wake
    | Check
    | BeginStart
    | EndStart
    | ReaderExit
    | Forward
    | EndFrame
    | ForwarderExit
    | LeaveCancelled
    | LeaveDone
    | BeginStop
    | EndStop
    | Unregister
    | Signal
    | CloseOwn

  datatype Action = Register | Cancel | By(n: nat, m: Move)

  const INIT: State := State(Registry(None, 0), map[], map[], {}, {}, {}, false, Empty)

  /** The steps of the handler itself; the others are those of its goroutines and its peer. */
  predicate Control(m: Move) {
    m.ClosePrevious? || m.Wake? || m.Check? || m.BeginStart? || m.EndStart? || m.LeaveCancelled? || m.LeaveDone?
    || m.BeginStop? || m.EndStop? || m.Unregister? || m.Signal?
  }

  /** Whether session `n` can take the step. */
  predicate Can(s: State, n: nat, m: Move)
    requires n in s.pcs && n in s.flows
  {
    var pc, x := s.pcs[n], s.flows[n];
    match m
    case Read(_) => x.reader.Active?
    case Hangup => x.reader.Active?
    case ReaderExit => x.reader.Active? && n in s.cut
    case Forward => x.forwarder.Active? && !x.buf.busy && x.buf.queue != []
    case EndFrame => x.buf.busy
    case ForwarderExit => x.forwarder.Active? && !x.buf.busy && x.buf.queue == [] && x.reader.Done?
    case ClosePrevious => pc.CloseOld?
    case Wake => pc.Waiting? && pc.prev in s.pcs && s.pcs[pc.prev].Over?
    case Check => pc.Recheck?
    case BeginStart => pc.BeforeStart?
    case EndStart => pc.InStart?
    case LeaveCancelled => pc.Running? && s.cancelled
    case LeaveDone => pc.Running? && x.reader.Done? && x.forwarder.Done?
    case BeginStop => pc.BeforeStop?
    case EndStop => pc.InStop?
    case Unregister => pc.Unregistering?
    case Signal => pc.Signalling?
    case CloseOwn => pc.Over? && n !in s.cut
  }

  predicate Enabled(s: State, a: Action) {
    a.By? ==> a.n in s.pcs && a.n in s.flows && Can(s, a.n, a.m)
  }

  /** Where a control step leads; `current` when the registry names the session. */
  function NextPc(pc: Pc, m: Move, current: bool): Pc {
    match m
    case ClosePrevious => if pc.Held() then Waiting(pc.prev) else pc
    case Wake => Recheck
    case Check => if current then BeforeStart else Unregistering
    case BeginStart => InStart
    case EndStart => Running
    case LeaveCancelled => BeforeStop
    case LeaveDone => BeforeStop
    case BeginStop => InStop
    case EndStop => Unregistering
    case Unregister => Signalling
    case Signal => Over
    case _ => pc
  }

  function NextFlow(x: Flow, m: Move): Flow {
    match m
    case EndStart => x.(reader := Active, forwarder := Active)
    case Read(f) => x.(buf := x.buf.Put(f))
    case Hangup => x.(reader := Done)
    case ReaderExit => x.(reader := Done)
    case Forward => x.(buf := x.buf.Get())
    case EndFrame => x.(buf := x.buf.(busy := false))
    case ForwarderExit => x.(forwarder := Done)
    case _ => x
  }

  /** The log after the step: callbacks beginning and ending, and frames handed over. */
  function Logged(log: Log, n: nat, m: Move): Log {
    match m
    case BeginStart => Add(log, StartBegan(n))
    case EndStart => Add(log, StartEnded(n))
    case BeginStop => Add(log, StopBegan(n))
    case EndStop => Add(log, StopEnded(n))
    case Forward => Add(log, Frame(n))
    case _ => log
  }

  function Apply(s: State, a: Action): State
    requires Enabled(s, a)
  {
    match a
    case Register =>
      var first := if s.r.cur.Some? then CloseOld(s.r.cur.value) else BeforeStart;
      s.(r := s.r.Register(), pcs := s.pcs[s.r.made := first], flows := s.flows[s.r.made := NO_FLOW])
    case Cancel => s.(cancelled := true)
    case By(n, m) =>
      var pc := s.pcs[n];
      State(if m.Unregister? then s.r.Unregister(n) else s.r,
            if Control(m) then s.pcs[n := NextPc(pc, m, s.r.cur == Some(n))] else s.pcs,
            s.flows[n := NextFlow(s.flows[n], m)],
            if m.ClosePrevious? && pc.Held() then s.cut + {pc.prev} else if m.CloseOwn? then s.cut + {n} else s.cut,
            if m.Check? && s.r.cur != Some(n) then s.superseded + {n} else s.superseded,
            if m.LeaveCancelled? then s.byCancel + {n} else s.byCancel,
            s.cancelled,
            Logged(s.log, n, m))
  }

  datatype Trace = Start | Then(before: Trace, a: Action)

  predicate Legal(t: Trace)
    decreases t, 0
  {
    t.Then? ==> Legal(t.before) && Enabled(End(t.before), t.a)
  }

  function End(t: Trace): State
    requires Legal(t)
    decreases t, 1
  {
    if t.Start? then INIT else Apply(End(t.before), t.a)
  }

  // ---------------------------------------------------------- serialisation

  /** How the callbacks logged so far leave the sink. */
  datatype Sink =
    | Free(next: nat)      // no callback pair open; only a session from `next` on may start
    | Starting(n: nat)
    | Started(n: nat)
    | Stopping(n: nat)
    | Broken

  function After(log: Log): Sink {
    match log
    case Empty => Free(0)
    case Add(before, e) =>
      match e
      case StartBegan(n) => if After(before).Free? && n >= After(before).next then Starting(n) else Broken
      case StartEnded(n) => if After(before) == Starting(n) then Started(n) else Broken
      case StopBegan(n) => if After(before) == Started(n) then Stopping(n) else Broken
      case StopEnded(n) => if After(before) == Stopping(n) then Free(n + 1) else Broken
      case Frame(_) => After(before)
  }

  predicate Mentions(log: Log, n: nat) {
    log.Add? && (log.e.n == n || Mentions(log.before, n))
  }

  /** Sessions with a frame forwarded outside their Start/Stop bracket. */
  function Late(log: Log): set<nat> {
    match log
    case Empty => {}
    case Add(before, e) =>
      if e.Frame? && After(before) != Started(e.n) then Late(before) + {e.n} else Late(before)
  }

  /** The registry names the newest session until that unregisters. */
  ghost predicate Registered(r: Registry, pcs: map<nat, Pc>) {
    && (forall n :: n in pcs <==> 0 <= n < r.made)
    && (r.cur.Some? ==> r.made > 0 && r.cur.value == r.made - 1)
    && (r.made > 0 ==> (r.cur.None? <==> pcs[r.made - 1].Signalling? || pcs[r.made - 1].Over?))
  }

  /** A session waits for its predecessor only, whose connection it has closed. */
  ghost predicate Chained(pcs: map<nat, Pc>, cut: set<nat>) {
    forall n :: n in pcs && pcs[n].Held() ==>
      n > 0 && pcs[n].prev == n - 1 && (pcs[n].Waiting? ==> n - 1 in cut)
  }

  /** Whoever got past waiting has only predecessors that are through with their callbacks. */
  ghost predicate Serial(pcs: map<nat, Pc>) {
    forall m, n :: m in pcs && n in pcs && m < n && !pcs[n].Held() ==> pcs[m].Past()
  }

  function Expected(pc: Pc, n: nat): Option<Sink> {
    match pc
    case InStart => Some(Starting(n))
    case Running => Some(Started(n))
    case BeforeStop => Some(Started(n))
    case InStop => Some(Stopping(n))
    case _ => None
  }

  predicate HeldBy(pcs: map<nat, Pc>, sink: Sink, n: nat) {
    n in pcs && Expected(pcs[n], n) == Some(sink)
  }

  /** The log's sink state is that of the one session inside its callbacks. */
  ghost predicate Bracketed(pcs: map<nat, Pc>, sink: Sink) {
    && (forall n :: n in pcs && Expected(pcs[n], n).Some? ==> HeldBy(pcs, sink, n))
    && (match sink
        case Free(next) => (next > 0 ==> next - 1 in pcs) && forall n :: n in pcs && n < next ==> pcs[n].Past()
        case Starting(n) => HeldBy(pcs, sink, n)
        case Started(n) => HeldBy(pcs, sink, n)
        case Stopping(n) => HeldBy(pcs, sink, n)
        case Broken => false)
  }

  lemma RegistryKept(s: State, a: Action)
    requires Registered(s.r, s.pcs) && Enabled(s, a)
    ensures Registered(Apply(s, a).r, Apply(s, a).pcs)
  {
  }

  lemma ChainKept(s: State, a: Action)
    requires Registered(s.r, s.pcs) && Chained(s.pcs, s.cut) && Enabled(s, a)
    ensures Chained(Apply(s, a).pcs, Apply(s, a).cut)
  {
  }

  lemma SerialMove(pcs: map<nat, Pc>, n: nat, to: Pc)
    requires Serial(pcs) && n in pcs && (pcs[n].Past() ==> to.Past())
    requires pcs[n].Held() && !to.Held() ==> forall m :: m in pcs && m < n ==> pcs[m].Past()
    ensures Serial(pcs[n := to])
  {
  }

  /** A session is woken only when its predecessor is over, and so are all before. */
  lemma WakeFinds(s: State, n: nat)
    requires Registered(s.r, s.pcs) && Chained(s.pcs, s.cut) && Serial(s.pcs) && Enabled(s, By(n, Wake))
    ensures forall m :: m in s.pcs && m < n ==> s.pcs[m].Past()
  {
  }

  lemma SerialKept(s: State, a: Action)
    requires Registered(s.r, s.pcs) && Chained(s.pcs, s.cut) && Serial(s.pcs) && Enabled(s, a)
    ensures Serial(Apply(s, a).pcs)
  {
    if a.By? && Control(a.m) {
      if a.m.Wake? {
        WakeFinds(s, a.n);
      }
      SerialMove(s.pcs, a.n, NextPc(s.pcs[a.n], a.m, s.r.cur == Some(a.n)));
    }
  }

  /** Nobody holds the sink when a session is about to start. */
  lemma SinkFree(pcs: map<nat, Pc>, sink: Sink, n: nat)
    requires Serial(pcs) && Bracketed(pcs, sink) && n in pcs && pcs[n].BeforeStart?
    ensures sink.Free?
  {
  }

  /** A step of session `n` that begins or ends a callback moves the sink along with it. */
  lemma SinkMoves(s: State, n: nat, m: Move)
    requires Registered(s.r, s.pcs) && Serial(s.pcs) && Bracketed(s.pcs, After(s.log)) && Enabled(s, By(n, m))
    ensures var sink := After(Logged(s.log, n, m));
            match m
            case BeginStart => sink == Starting(n)
            case EndStart => sink == Started(n)
            case BeginStop => sink == Stopping(n)
            case EndStop => sink == Free(n + 1)
            case _ => sink == After(s.log)
  {
    if m.BeginStart? {
      SinkFree(s.pcs, After(s.log), n);
    }
  }

  /** A move within the same callback leaves the sink in the same hands. */
  lemma SameCallback(pcs: map<nat, Pc>, sink: Sink, n: nat, to: Pc)
    requires Bracketed(pcs, sink) && n in pcs
    requires Expected(to, n) == Expected(pcs[n], n) && (pcs[n].Past() ==> to.Past())
    ensures Bracketed(pcs[n := to], sink)
  {
    var t := pcs[n := to];
    forall k | HeldBy(pcs, sink, k) ensures HeldBy(t, sink, k) {
    }
  }

  lemma OneHolder(pcs: map<nat, Pc>, sink: Sink, n: nat, k: nat)
    requires Bracketed(pcs, sink) && (sink.Free? || HeldBy(pcs, sink, n))
    requires k in pcs && Expected(pcs[k], k).Some?
    ensures k == n
  {
    assert HeldBy(pcs, sink, k);
  }

  /** The sink passes to session `n`, or on within it. */
  lemma NextCallback(pcs: map<nat, Pc>, sink: Sink, n: nat, to: Pc, next: Sink)
    requires Bracketed(pcs, sink) && n in pcs && (sink.Free? || HeldBy(pcs, sink, n))
    requires Expected(to, n) == Some(next)
    ensures Bracketed(pcs[n := to], next)
  {
    var t := pcs[n := to];
    assert HeldBy(t, next, n);
    forall k | k in t && k != n ensures Expected(t[k], k).None? {
      if Expected(pcs[k], k).Some? {
        OneHolder(pcs, sink, n, k);
      }
    }
  }

  /** The sink becomes free, for later sessions only. */
  lemma LastCallback(pcs: map<nat, Pc>, sink: Sink, n: nat, to: Pc)
    requires Bracketed(pcs, sink) && Serial(pcs) && HeldBy(pcs, sink, n) && to.Past()
    ensures Bracketed(pcs[n := to], Free(n + 1))
  {
    var t := pcs[n := to];
    forall k | k in t ensures Expected(t[k], k).None? {
      if k != n && Expected(pcs[k], k).Some? {
        OneHolder(pcs, sink, n, k);
      }
    }
  }

  predicate Callback(m: Move) {
    m.BeginStart? || m.EndStart? || m.BeginStop? || m.EndStop?
  }

  /** Other moves neither enter nor leave a callback, and the past stays past. */
  lemma QuietMove(s: State, n: nat, m: Move)
    requires Enabled(s, By(n, m)) && !Callback(m)
    ensures var pc, to := s.pcs[n], NextPc(s.pcs[n], m, s.r.cur == Some(n));
            Expected(to, n) == Expected(pc, n) && (pc.Past() ==> to.Past())
  {
  }

  lemma CallbackKept(s: State, n: nat, m: Move)
    requires Registered(s.r, s.pcs) && Serial(s.pcs) && Bracketed(s.pcs, After(s.log))
    requires Enabled(s, By(n, m)) && Callback(m)
    ensures Bracketed(Apply(s, By(n, m)).pcs, After(Apply(s, By(n, m)).log))
  {
    SinkMoves(s, n, m);
    match m
    case BeginStart => NextCallback(s.pcs, After(s.log), n, InStart, Starting(n));
    case EndStart => NextCallback(s.pcs, After(s.log), n, Running, Started(n));
    case BeginStop => NextCallback(s.pcs, After(s.log), n, InStop, Stopping(n));
    case EndStop => LastCallback(s.pcs, After(s.log), n, Unregistering);
  }

  lemma QuietKept(s: State, n: nat, m: Move)
    requires Registered(s.r, s.pcs) && Serial(s.pcs) && Bracketed(s.pcs, After(s.log))
    requires Enabled(s, By(n, m)) && !Callback(m)
    ensures Bracketed(Apply(s, By(n, m)).pcs, After(Apply(s, By(n, m)).log))
  {
    SinkMoves(s, n, m);
    QuietMove(s, n, m);
    SameCallback(s.pcs, After(s.log), n, NextPc(s.pcs[n], m, s.r.cur == Some(n)));
  }

  lemma BracketsKept(s: State, a: Action)
    requires Registered(s.r, s.pcs) && Serial(s.pcs) && Bracketed(s.pcs, After(s.log)) && Enabled(s, a)
    ensures Bracketed(Apply(s, a).pcs, After(Apply(s, a).log))
  {
    if a.By? {
      if Callback(a.m) {
        CallbackKept(s, a.n, a.m);
      } else {
        QuietKept(s, a.n, a.m);
      }
    }
  }

  /** A session's goroutines fit where its handler stands. */
  ghost predicate FlowFits(pc: Pc, x: Flow, superseded: bool, byCancel: bool) {
    && (superseded ==> pc.Past())
    && (pc.BeforeCallbacks() || pc.InStart? || superseded ==> x == NO_FLOW)
    && (!x.forwarder.Active? ==> !x.buf.busy)
    && (x.forwarder.Done? ==> x.reader.Done? && x.buf.queue == [])
    && (pc.Running? ==> !x.reader.Idle? && !x.forwarder.Idle?)
    && (pc.BeforeStop? || pc.InStop? || pc.Past() ==> byCancel || superseded || x.forwarder.Done?)
    && x.buf.Valid()
  }

  /** A session's place in the log. */
  ghost predicate LogFits(log: Log, n: nat, pc: Pc, superseded: bool, byCancel: bool) {
    && (pc.BeforeCallbacks() || superseded ==> !Mentions(log, n))
    && (n in Late(log) ==> byCancel)
  }

  ghost predicate SessionInv(s: State, n: nat)
    requires n in s.pcs && n in s.flows
  {
    && FlowFits(s.pcs[n], s.flows[n], n in s.superseded, n in s.byCancel)
    && LogFits(s.log, n, s.pcs[n], n in s.superseded, n in s.byCancel)
  }

  /** Only registered sessions are spoken of. */
  ghost predicate InRange(s: State) {
    && s.flows.Keys == s.pcs.Keys
    && (forall n: nat :: Mentions(s.log, n) || n in Late(s.log) ==> n in s.pcs)
    && s.superseded <= s.pcs.Keys && s.byCancel <= s.pcs.Keys
    && (s.byCancel != {} ==> s.cancelled)
  }

  ghost predicate Control0(s: State) {
    Registered(s.r, s.pcs) && Chained(s.pcs, s.cut) && Serial(s.pcs) && Bracketed(s.pcs, After(s.log))
  }

  ghost predicate Inv(s: State) {
    Control0(s) && InRange(s) && forall n :: n in s.pcs ==> SessionInv(s, n)
  }

  lemma WorkerStepKept(s: State, n: nat, m: Move)
    requires Enabled(s, By(n, m)) && !Control(m)
    requires FlowFits(s.pcs[n], s.flows[n], n in s.superseded, n in s.byCancel)
    ensures FlowFits(s.pcs[n], NextFlow(s.flows[n], m), n in s.superseded, n in s.byCancel)
  {
    if m.Read? {
      BufferKept(s.flows[n].buf, m.f);
    } else if m.Forward? {
      BufferKept(s.flows[n].buf, 0);
    }
  }

  lemma ControlFlowKept(s: State, n: nat, m: Move)
    requires Enabled(s, By(n, m)) && Control(m)
    requires FlowFits(s.pcs[n], s.flows[n], n in s.superseded, n in s.byCancel)
    ensures var current := s.r.cur == Some(n);
            FlowFits(NextPc(s.pcs[n], m, current), NextFlow(s.flows[n], m),
                     n in s.superseded || (m.Check? && !current), n in s.byCancel || m.LeaveCancelled?)
  {
  }

  lemma OwnParts(s: State, n: nat, m: Move)
    requires Enabled(s, By(n, m))
    ensures var t := Apply(s, By(n, m));
            && n in t.pcs && n in t.flows && t.flows[n] == NextFlow(s.flows[n], m)
            && t.pcs[n] == (if Control(m) then NextPc(s.pcs[n], m, s.r.cur == Some(n)) else s.pcs[n])
            && (n in t.superseded <==> n in s.superseded || (m.Check? && s.r.cur != Some(n)))
            && (n in t.byCancel <==> n in s.byCancel || m.LeaveCancelled?)
  {
  }

  lemma OwnFlowKept(s: State, n: nat, m: Move)
    requires Enabled(s, By(n, m)) && FlowFits(s.pcs[n], s.flows[n], n in s.superseded, n in s.byCancel)
    ensures var t := Apply(s, By(n, m)); FlowFits(t.pcs[n], t.flows[n], n in t.superseded, n in t.byCancel)
  {
    OwnParts(s, n, m);
    if Control(m) {
      ControlFlowKept(s, n, m);
    } else {
      WorkerStepKept(s, n, m);
    }
  }

  /** A frame forwarded outside its bracket belongs to a session that left on a cancel. */
  lemma ForwardLogKept(s: State, n: nat)
    requires Control0(s) && Enabled(s, By(n, Forward)) && SessionInv(s, n)
    ensures LogFits(Add(s.log, Frame(n)), n, s.pcs[n], n in s.superseded, n in s.byCancel)
  {
    if Expected(s.pcs[n], n).Some? {
      assert HeldBy(s.pcs, After(s.log), n);
    }
  }

  lemma OtherLogKept(s: State, n: nat, m: Move)
    requires Enabled(s, By(n, m)) && SessionInv(s, n) && !m.Forward?
    ensures var current := s.r.cur == Some(n);
            LogFits(Logged(s.log, n, m), n, if Control(m) then NextPc(s.pcs[n], m, current) else s.pcs[n],
                    n in s.superseded || (m.Check? && !current), n in s.byCancel || m.LeaveCancelled?)
  {
  }

  lemma OwnLogKept(s: State, n: nat, m: Move)
    requires Control0(s) && Enabled(s, By(n, m)) && SessionInv(s, n)
    ensures var t := Apply(s, By(n, m)); LogFits(t.log, n, t.pcs[n], n in t.superseded, n in t.byCancel)
  {
    OwnParts(s, n, m);
    if m.Forward? {
      ForwardLogKept(s, n);
    } else {
      OtherLogKept(s, n, m);
    }
  }

  lemma OtherStepKept(s: State, n: nat, m: Move, k: nat)
    requires Enabled(s, By(n, m)) && k in s.pcs && k in s.flows && k != n && SessionInv(s, k)
    ensures SessionInv(Apply(s, By(n, m)), k)
  {
  }

  lemma RangeKept(s: State, a: Action)
    requires Registered(s.r, s.pcs) && InRange(s) && Enabled(s, a)
    ensures InRange(Apply(s, a))
  {
  }

  lemma SessionsKept(s: State, a: Action, k: nat)
    requires Inv(s) && Enabled(s, a) && k in Apply(s, a).pcs && k in Apply(s, a).flows
    ensures SessionInv(Apply(s, a), k)
  {
    if k in s.pcs {
      assert SessionInv(s, k);
      if a.By? && a.n == k {
        OwnFlowKept(s, k, a.m);
        OwnLogKept(s, k, a.m);
      } else if a.By? {
        OtherStepKept(s, a.n, a.m, k);
      }
    }
  }

  lemma InvKept(s: State, a: Action)
    requires Inv(s) && Enabled(s, a)
    ensures Inv(Apply(s, a))
  {
    RegistryKept(s, a);
    ChainKept(s, a);
    SerialKept(s, a);
    BracketsKept(s, a);
    RangeKept(s, a);
    forall k | k in Apply(s, a).pcs ensures SessionInv(Apply(s, a), k) {
      SessionsKept(s, a, k);
    }
  }

  // --------------------------------------------------------------- theorems

  lemma {:induction false} AlwaysInv(t: Trace)
    requires Legal(t)
    ensures Inv(End(t))
  {
    if t.Then? {
      AlwaysInv(t.before);
      InvKept(End(t.before), t.a);
    } else {
      assert Late(Empty) == {};
    }
  }

  /**
   * The callbacks of any number of overlapping connections form a strict alternation of
   * Start x, Stop x for increasing x, none beginning before the last has returned; and a
   * session that gets past waiting finds every earlier one through with its callbacks.
   */
  lemma CallbacksAlternate(t: Trace)
    requires Legal(t)
    ensures After(End(t).log) != Broken
    ensures forall m, n :: m in End(t).pcs && n in End(t).pcs && m < n && !End(t).pcs[n].Held() ==> End(t).pcs[m].Past()
  {
    AlwaysInv(t);
  }

  lemma CurrentIffLast(r: Registry, pcs: map<nat, Pc>, n: nat)
    requires Registered(r, pcs) && n in pcs && pcs[n].Recheck?
    ensures r.cur != Some(n) <==> exists k :: k in pcs && k > n
  {
    if r.made > n + 1 {
      assert n + 1 in pcs;
    }
  }

  /** The check after waiting finds another session exactly if one has registered since. */
  lemma SupersededIffNewer(t: Trace, n: nat)
    requires Legal(t) && n in End(t).pcs && End(t).pcs[n].Recheck?
    ensures End(t).r.cur != Some(n) <==> exists k :: k in End(t).pcs && k > n
  {
    AlwaysInv(t);
    CurrentIffLast(End(t).r, End(t).pcs, n);
  }

  /** A session superseded while it waited emits neither callback nor frame. */
  lemma SupersededIsSilent(t: Trace, n: nat)
    requires Legal(t) && n in End(t).superseded
    ensures !Mentions(End(t).log, n)
  {
    AlwaysInv(t);
    assert SessionInv(End(t), n);
  }

  /** Outside its bracket, a session's frames are forwarded only after a context cancel. */
  lemma FramesStayInBracket(t: Trace, n: nat)
    requires Legal(t) && n in Late(End(t).log)
    ensures n in End(t).byCancel && End(t).cancelled
  {
    AlwaysInv(t);
    assert SessionInv(End(t), n);
  }

  /** Before a Stop that no cancel forced, every frame the queue accepted has been forwarded, in order. */
  lemma {:induction false} QueueDrainedBeforeStop(t: Trace, n: nat)
    requires Legal(t) && n in End(t).pcs && n in End(t).flows
    ensures var b := End(t).flows[n].buf;
            && b.accepted == b.forwarded + b.queue && |b.queue| <= QUEUE_SIZE
            && b.received == |b.accepted| + b.dropped
    ensures (End(t).pcs[n].BeforeStop? || End(t).pcs[n].InStop? || End(t).pcs[n].Past())
            && n !in End(t).byCancel && n !in End(t).superseded ==>
              End(t).flows[n].buf.forwarded == End(t).flows[n].buf.accepted && !End(t).flows[n].buf.busy
  {
    AlwaysInv(t);
    assert SessionInv(End(t), n);
  }

  /** The frames the reader of session `n` got from the TV, in order. */
  function Reads(t: Trace, n: nat): seq<int> {
    if t.Start? then []
    else if t.a.By? && t.a.n == n && t.a.m.Read? then Reads(t.before, n) + [t.a.m.f]
    else Reads(t.before, n)
  }

  function QueuedAt(s: State, n: nat): nat {
    if n in s.flows then |s.flows[n].buf.queue| else 0
  }

  /** Those among them that found fewer than eight frames queued. */
  function Taken(t: Trace, n: nat): seq<int>
    requires Legal(t)
  {
    if t.Start? then []
    else if t.a.By? && t.a.n == n && t.a.m.Read? && QueuedAt(End(t.before), n) < 8 then Taken(t.before, n) + [t.a.m.f]
    else Taken(t.before, n)
  }

  /** A session's books: what was accepted is what was taken, and all reads are counted. */
  ghost predicate Booked(t: Trace, n: nat, b: Buffer)
    requires Legal(t)
  {
    && b.accepted == Taken(t, n)
    && b.received == |Reads(t, n)|
    && (b.dropped == 0 ==> Taken(t, n) == Reads(t, n))
  }

  lemma {:induction false} NothingReadBefore(t: Trace, n: nat)
    requires Legal(t) && n !in End(t).flows
    ensures Reads(t, n) == [] && Taken(t, n) == []
  {
    if t.Then? {
      assert n !in End(t.before).flows;
      NothingReadBefore(t.before, n);
    }
  }

  lemma RegisteredFresh(s: State, a: Action, n: nat)
    requires Enabled(s, a) && n in Apply(s, a).flows && n !in s.flows
    ensures a.Register? && Apply(s, a).flows[n] == NO_FLOW
  {
  }

  /** What one step does to the buffer of a session that has one. */
  lemma BufferStep(s: State, a: Action, n: nat)
    requires Enabled(s, a) && n in s.flows && (a.Register? ==> n != s.r.made)
    ensures n in Apply(s, a).flows
    ensures var b, after := s.flows[n].buf, Apply(s, a).flows[n].buf;
            if a.By? && a.n == n && a.m.Read?
            then after == b.Put(a.m.f)
            else after.accepted == b.accepted && after.received == b.received && after.dropped == b.dropped
  {
  }

  /** A frame read while fewer than eight are queued is itself queued, last; any other leaves all as it was. */
  lemma PutKeepsFrame(b: Buffer, f: int)
    ensures |b.queue| < 8 ==>
              b.Put(f).queue == b.queue + [f] && b.Put(f).accepted == b.accepted + [f] && b.Put(f).dropped == b.dropped
    ensures |b.queue| >= 8 ==>
              b.Put(f).queue == b.queue && b.Put(f).accepted == b.accepted && b.Put(f).dropped == b.dropped + 1
    ensures b.Put(f).received == b.received + 1
  {
  }

  lemma {:induction false} AlwaysBooked(t: Trace, n: nat)
    requires Legal(t) && n in End(t).flows
    ensures Booked(t, n, End(t).flows[n].buf)
  {
    if n !in End(t.before).flows {
      NothingReadBefore(t.before, n);
      RegisteredFresh(End(t.before), t.a, n);
    } else {
      AlwaysBooked(t.before, n);
      FlowsAreRegistered(t.before, n);
      BufferStep(End(t.before), t.a, n);
      if t.a.By? && t.a.n == n && t.a.m.Read? {
        PutKeepsFrame(End(t.before).flows[n].buf, t.a.m.f);
      }
    }
  }

  /**
   * What a session accepts are exactly the TV's frames, in order, without those that found
   * eight queued; so all of them when nothing was dropped.
   */
  lemma AcceptedAreReads(t: Trace, n: nat)
    requires Legal(t) && n in End(t).flows
    ensures End(t).flows[n].buf.accepted == Taken(t, n)
    ensures End(t).flows[n].buf.received == |Reads(t, n)|
    ensures End(t).flows[n].buf.dropped == 0 ==> End(t).flows[n].buf.accepted == Reads(t, n)
  {
    AlwaysBooked(t, n);
  }

  /** Frames are handed to the sink as the TV sent them, and before a Stop no cancel forced, all that were taken. */
  lemma {:induction false} ForwardedAreReads(t: Trace, n: nat)
    requires Legal(t) && n in End(t).pcs && n in End(t).flows
    ensures var b := End(t).flows[n].buf; Taken(t, n) == b.forwarded + b.queue
    ensures (End(t).pcs[n].BeforeStop? || End(t).pcs[n].InStop? || End(t).pcs[n].Past())
            && n !in End(t).byCancel && n !in End(t).superseded ==>
              && End(t).flows[n].buf.forwarded == Taken(t, n)
              && (End(t).flows[n].buf.dropped == 0 ==> End(t).flows[n].buf.forwarded == Reads(t, n))
  {
    AcceptedAreReads(t, n);
    QueueDrainedBeforeStop(t, n);
  }

  /** How many frames of a session the log shows. */
  function Frames(log: Log, n: nat): nat {
    if log.Empty? then 0 else Frames(log.before, n) + if log.e == Frame(n) then 1 else 0
  }

  lemma FramesLogged(log: Log, k: nat, m: Move, n: nat)
    ensures Frames(Logged(log, k, m), n) == Frames(log, n) + if k == n && m.Forward? then 1 else 0
  {
  }

  lemma FlowForwards(x: Flow, m: Move)
    requires m.Forward? ==> x.buf.queue != []
    ensures |NextFlow(x, m).buf.forwarded| == |x.buf.forwarded| + if m.Forward? then 1 else 0
  {
  }

  lemma FramesStep(s: State, a: Action, n: nat)
    requires Enabled(s, a) && n in s.flows && (a.Register? ==> n != s.r.made)
    ensures n in Apply(s, a).flows
    ensures Frames(Apply(s, a).log, n) - |Apply(s, a).flows[n].buf.forwarded| == Frames(s.log, n) - |s.flows[n].buf.forwarded|
  {
    if a.By? {
      FramesLogged(s.log, a.n, a.m, n);
      FlowForwards(s.flows[a.n], a.m);
    }
  }

  lemma NoFramesYet(s: State, a: Action, n: nat)
    requires Enabled(s, a) && n !in s.flows
    ensures Frames(Apply(s, a).log, n) == Frames(s.log, n)
    ensures n in Apply(s, a).flows ==> Apply(s, a).flows[n].buf.forwarded == []
  {
  }

  lemma FlowsAreRegistered(t: Trace, n: nat)
    requires Legal(t) && n in End(t).flows
    ensures n < End(t).r.made
  {
    AlwaysInv(t);
  }

  /** Every frame handed over is logged, so the brackets speak of all of them. */
  lemma {:induction false} FramesAreLogged(t: Trace, n: nat)
    requires Legal(t)
    ensures Frames(End(t).log, n) == if n in End(t).flows then |End(t).flows[n].buf.forwarded| else 0
  {
    if t.Then? {
      FramesAreLogged(t.before, n);
      if n in End(t.before).flows {
        FlowsAreRegistered(t.before, n);
        FramesStep(End(t.before), t.a, n);
      } else {
        NoFramesYet(End(t.before), t.a, n);
      }
    }
  }

  /** How often a session's forwarder entered OnFrame, and left it. */
  function FramesBegun(t: Trace, n: nat): nat {
    if t.Start? then 0 else FramesBegun(t.before, n) + if t.a == By(n, Forward) then 1 else 0
  }

  function FramesEnded(t: Trace, n: nat): nat {
    if t.Start? then 0 else FramesEnded(t.before, n) + if t.a == By(n, EndFrame) then 1 else 0
  }

  lemma BusyStep(s: State, a: Action, n: nat)
    requires Enabled(s, a) && n in s.flows && (a.Register? ==> n != s.r.made)
    ensures n in Apply(s, a).flows
    ensures a == By(n, Forward) ==> !s.flows[n].buf.busy && Apply(s, a).flows[n].buf.busy
    ensures a == By(n, EndFrame) ==> s.flows[n].buf.busy && !Apply(s, a).flows[n].buf.busy
    ensures a != By(n, Forward) && a != By(n, EndFrame) ==> Apply(s, a).flows[n].buf.busy == s.flows[n].buf.busy
  {
  }

  lemma {:induction false} NoFrameBegun(t: Trace, n: nat)
    requires Legal(t) && n !in End(t).flows
    ensures FramesBegun(t, n) == 0 && FramesEnded(t, n) == 0
  {
    if t.Then? {
      assert n !in End(t.before).flows;
      NoFrameBegun(t.before, n);
    }
  }

  /** A session's frames are handed over one at a time: the next only when OnFrame has returned from the last. */
  lemma {:induction false} OneFrameAtATime(t: Trace, n: nat)
    requires Legal(t) && n in End(t).flows
    ensures FramesBegun(t, n) == FramesEnded(t, n) + if End(t).flows[n].buf.busy then 1 else 0
  {
    if n !in End(t.before).flows {
      NoFrameBegun(t.before, n);
      RegisteredFresh(End(t.before), t.a, n);
    } else {
      OneFrameAtATime(t.before, n);
      FlowsAreRegistered(t.before, n);
      BusyStep(End(t.before), t.a, n);
    }
  }

  lemma DroppedByRead(s: State, a: Action, n: nat)
    requires Enabled(s, a) && n in s.flows && (a.Register? ==> n != s.r.made)
    requires Apply(s, a).flows[n].buf.dropped != s.flows[n].buf.dropped
    ensures a.By? && a.n == n && a.m.Read? && |s.flows[n].buf.queue| >= QUEUE_SIZE
    ensures Apply(s, a).flows[n].buf.queue == s.flows[n].buf.queue
    ensures Apply(s, a).flows[n].buf.accepted == s.flows[n].buf.accepted
  {
  }

  /** A frame is dropped only when it finds eight queued, and it is the newest that goes. */
  lemma {:induction false} DropsOnlyWhenFull(t: Trace, n: nat)
    requires Legal(t) && t.Then? && n in End(t.before).flows && n in End(t.before).pcs
    requires End(t).flows[n].buf.dropped != End(t.before).flows[n].buf.dropped
    ensures t.a.By? && t.a.n == n && t.a.m.Read? && |End(t.before).flows[n].buf.queue| == QUEUE_SIZE
    ensures End(t).flows[n].buf.queue == End(t.before).flows[n].buf.queue
    ensures End(t).flows[n].buf.accepted == End(t.before).flows[n].buf.accepted
  {
    AlwaysInv(t.before);
    DroppedByRead(End(t.before), t.a, n);
    QueueDrainedBeforeStop(t.before, n);
  }

  /** A run with a single session, which stands at `pc`. */
  function Alone(pc: Pc, x: Flow, byCancel: bool, cancelled: bool, log: Log): State {
    State(Registry(Some(0), 1), map[0 := pc], map[0 := x], {}, {}, if byCancel then {0} else {}, cancelled, log)
  }

  predicate Plain(m: Move) {
    !m.Unregister? && !m.Check? && !m.CloseOwn? && !m.ClosePrevious?
  }

  /** What a step makes of it. */
  function AloneAfter(pc: Pc, x: Flow, byCancel: bool, cancelled: bool, log: Log, m: Move): State {
    Alone(if Control(m) then NextPc(pc, m, true) else pc, NextFlow(x, m), byCancel || m.LeaveCancelled?, cancelled, Logged(log, 0, m))
  }

  lemma Follow(t: Trace, pc: Pc, x: Flow, byCancel: bool, cancelled: bool, log: Log, m: Move) returns (u: Trace)
    requires Legal(t) && End(t) == Alone(pc, x, byCancel, cancelled, log)
    requires Plain(m) && Can(End(t), 0, m)
    ensures u == Then(t, By(0, m)) && Legal(u) && End(u) == AloneAfter(pc, x, byCancel, cancelled, log, m)
  {
    u := Then(t, By(0, m));
    assert End(u).pcs == AloneAfter(pc, x, byCancel, cancelled, log, m).pcs;
    assert End(u).flows == AloneAfter(pc, x, byCancel, cancelled, log, m).flows;
  }

  const IDLE: Flow := Flow(Active, Active, NO_FLOW.buf)
  const QUEUED: Flow := Flow(Active, Active, Buffer([7], false, [7], [], 1, 0))
  const CALLED: Log := Add(Empty, StartBegan(0))
  const UP: Log := Add(CALLED, StartEnded(0))
  const DOWN: Log := Add(UP, StopBegan(0))

  lemma FrameQueued() returns (t: Trace)
    ensures Legal(t) && End(t) == Alone(Running, QUEUED, false, false, UP)
  {
    t := Then(Start, Register);
    assert Legal(t) && End(t) == Alone(BeforeStart, NO_FLOW, false, false, Empty);
    t := Follow(t, BeforeStart, NO_FLOW, false, false, Empty, BeginStart);
    t := Follow(t, InStart, NO_FLOW, false, false, CALLED, EndStart);
    t := Follow(t, Running, IDLE, false, false, UP, Read(7));
    assert NextFlow(IDLE, Read(7)) == QUEUED;
  }

  lemma FrameQueuedAtStop() returns (t: Trace)
    ensures Legal(t) && End(t) == Alone(InStop, QUEUED, true, true, DOWN)
  {
    t := FrameQueued();
    t := Then(t, Cancel);
    assert Legal(t) && End(t) == Alone(Running, QUEUED, false, true, UP);
    t := Follow(t, Running, QUEUED, false, true, UP, LeaveCancelled);
    t := Follow(t, BeforeStop, QUEUED, true, true, UP, BeginStop);
  }

  lemma LateAfterStop()
    ensures 0 in Late(Add(DOWN, Frame(0)))
  {
    assert After(UP) == Started(0);
    assert After(DOWN) == Stopping(0);
  }

  /** A cancel does let frames out after the Stop has begun: the queue is not drained then. */
  lemma CancelLetsFramesOut() returns (t: Trace)
    ensures Legal(t) && 0 in Late(End(t).log) && End(t).pcs == map[0 := InStop]
  {
    t := FrameQueuedAtStop();
    t := Follow(t, InStop, QUEUED, true, true, DOWN, Forward);
    LateAfterStop();
  }

  /** No frame of the session is left to forward, and none can come. */
  predicate Drained(x: Flow) {
    !x.forwarder.Active? || (x.buf.queue == [] && !x.reader.Active?)
  }

  predicate Extends(t: Trace, u: Trace) {
    u == t || (u.Then? && Extends(t, u.before))
  }

  /** The run `u` goes on from `t` and ends with a frame of the session. */
  ghost predicate FrameFollows(t: Trace, u: Trace, n: nat) {
    Legal(u) && u.Then? && u.a == By(n, Forward) && Extends(t, u.before)
  }

  /** Past its start a session stays past it. */
  predicate Begun(pc: Pc) {
    pc.Running? || pc.BeforeStop? || pc.InStop? || pc.Past()
  }

  lemma DrainedStep(s: State, a: Action, n: nat)
    requires Enabled(s, a) && (a.Register? ==> n != s.r.made)
    requires n in s.pcs && n in s.flows && Begun(s.pcs[n]) && Drained(s.flows[n])
    ensures a != By(n, Forward)
    ensures n in Apply(s, a).pcs && n in Apply(s, a).flows && Begun(Apply(s, a).pcs[n]) && Drained(Apply(s, a).flows[n])
  {
  }

  lemma AlwaysRegistered(t: Trace, n: nat)
    requires Legal(t) && n in End(t).pcs
    ensures n in End(t).flows && n < End(t).r.made
  {
    AlwaysInv(t);
  }

  lemma {:induction false} DrainedStays(t: Trace, u: Trace, n: nat)
    requires Legal(t) && Legal(u) && Extends(t, u)
    requires n in End(t).pcs && n in End(t).flows && Begun(End(t).pcs[n]) && Drained(End(t).flows[n])
    ensures n in End(u).pcs && n in End(u).flows && Begun(End(u).pcs[n]) && Drained(End(u).flows[n])
  {
    if u != t {
      DrainedStays(t, u.before, n);
      AlwaysRegistered(u.before, n);
      DrainedStep(End(u.before), u.a, n);
    }
  }

  /** One step of the session's own goroutines. */
  lemma Works(t: Trace, n: nat, m: Move) returns (u: Trace)
    requires Legal(t) && n in End(t).pcs && n in End(t).flows && Can(End(t), n, m) && !Control(m)
    ensures u == Then(t, By(n, m)) && Legal(u) && n in End(u).pcs && n in End(u).flows
    ensures End(u).pcs[n] == End(t).pcs[n] && End(u).flows[n] == NextFlow(End(t).flows[n], m)
  {
    u := Then(t, By(n, m));
  }

  lemma FrameCanFollow(t: Trace, n: nat) returns (u: Trace)
    requires Legal(t) && n in End(t).pcs && n in End(t).flows && !Drained(End(t).flows[n])
    ensures FrameFollows(t, u, n)
  {
    var v := t;
    if End(v).flows[n].buf.busy {
      v := Works(v, n, EndFrame);
    }
    if End(v).flows[n].buf.queue == [] {
      v := Works(v, n, Read(0));
    }
    u := Works(v, n, Forward);
    assert Extends(t, t);
  }

  /**
   * Once a session's Stop has begun, a frame of it may still be forwarded exactly if its
   * queue is not drained, or its reader not done, at that moment; only a cancel leaves it so.
   */
  lemma FrameFollowsStopIff(t: Trace, n: nat)
    requires Legal(t) && n in End(t).pcs && n in End(t).flows && End(t).pcs[n].InStop?
    ensures (exists u :: FrameFollows(t, u, n)) <==> !Drained(End(t).flows[n])
    ensures n !in End(t).byCancel ==> Drained(End(t).flows[n])
  {
    AlwaysInv(t);
    assert SessionInv(End(t), n);
    if Drained(End(t).flows[n]) {
      forall u ensures !FrameFollows(t, u, n) {
        if FrameFollows(t, u, n) {
          DrainedStays(t, u.before, n);
          AlwaysRegistered(u.before, n);
          DrainedStep(End(u.before), u.a, n);
        }
      }
    } else {
      var u := FrameCanFollow(t, n);
    }
  }

  // Replacement always goes through.

  /** Steps that need nothing from the peer. */
  predicate Internal(a: Action) {
    a.By? && !a.m.Read? && !a.m.Hangup?
  }

  /** As long as a session is held up by its predecessor, some session can take an internal step. */
  lemma {:induction false} NeverStuck(s: State, n: nat) returns (k: nat, m: Move)
    requires Inv(s) && n in s.pcs && s.pcs[n].Held()
    ensures Enabled(s, By(k, m)) && Internal(By(k, m))
    decreases n
  {
    var p := s.pcs[n].prev;
    if s.pcs[n].CloseOld? {
      return n, ClosePrevious;
    }
    match s.pcs[p]
    case CloseOld(_) => k, m := NeverStuck(s, p);
    case Waiting(_) => k, m := NeverStuck(s, p);
    case Recheck => return p, Check;
    case BeforeStart => return p, BeginStart;
    case InStart => return p, EndStart;
    case Running => k, m := RunningProgress(s, p);
    case BeforeStop => return p, BeginStop;
    case InStop => return p, EndStop;
    case Unregistering => return p, Unregister;
    case Signalling => return p, Signal;
    case Over => return n, Wake;
  }

  lemma RunningProgress(s: State, p: nat) returns (k: nat, m: Move)
    requires Inv(s) && p in s.pcs && s.pcs[p].Running? && p in s.cut
    ensures Enabled(s, By(k, m)) && Internal(By(k, m))
  {
    assert SessionInv(s, p);
    var x := s.flows[p];
    k := p;
    m := if x.reader.Active? then ReaderExit
         else if x.forwarder.Done? then LeaveDone
         else if x.buf.busy then EndFrame
         else if x.buf.queue != [] then Forward
         else ForwarderExit;
  }

  function PcRank(pc: Pc): nat {
    match pc
    case CloseOld(_) => 20
    case Waiting(_) => 19
    case Recheck => 18
    case BeforeStart => 17
    case InStart => 16
    case Running => 10
    case BeforeStop => 9
    case InStop => 8
    case Unregistering => 7
    case Signalling => 6
    case Over => 5
  }

  function FlowRank(x: Flow): nat {
    2 * |x.buf.queue|
    + (if x.buf.busy then 1 else 0)
    + (if x.reader.Active? then 1 else 0)
    + (if x.forwarder.Active? then 1 else 0)
  }

  function RankOf(s: State, n: nat): nat {
    if n in s.pcs && n in s.flows
    then PcRank(s.pcs[n]) + FlowRank(s.flows[n]) + (if n in s.cut then 0 else 1)
    else 0
  }

  function TotalRank(s: State, k: nat): nat {
    if k == 0 then 0 else TotalRank(s, k - 1) + RankOf(s, k - 1)
  }

  lemma PcFalls(s: State, n: nat, m: Move)
    requires Enabled(s, By(n, m)) && Control(m)
    ensures PcRank(NextPc(s.pcs[n], m, s.r.cur == Some(n))) < PcRank(s.pcs[n])
    ensures m.EndStart? ==> PcRank(NextPc(s.pcs[n], m, s.r.cur == Some(n))) + 2 < PcRank(s.pcs[n])
  {
  }

  lemma FlowFalls(s: State, n: nat, m: Move)
    requires Enabled(s, By(n, m)) && Internal(By(n, m))
    requires FlowFits(s.pcs[n], s.flows[n], n in s.superseded, n in s.byCancel)
    ensures if Control(m) then FlowRank(NextFlow(s.flows[n], m)) <= FlowRank(s.flows[n]) + (if m.EndStart? then 2 else 0)
            else if m.CloseOwn? then FlowRank(NextFlow(s.flows[n], m)) == FlowRank(s.flows[n])
            else FlowRank(NextFlow(s.flows[n], m)) < FlowRank(s.flows[n])
  {
  }

  lemma StepRank(s: State, n: nat, m: Move)
    requires Enabled(s, By(n, m)) && Internal(By(n, m))
    requires FlowFits(s.pcs[n], s.flows[n], n in s.superseded, n in s.byCancel)
    ensures RankOf(Apply(s, By(n, m)), n) < RankOf(s, n)
  {
    FlowFalls(s, n, m);
    if Control(m) {
      PcFalls(s, n, m);
    }
  }

  lemma OtherRank(s: State, n: nat, m: Move, k: nat)
    requires Enabled(s, By(n, m)) && k != n
    ensures RankOf(Apply(s, By(n, m)), k) <= RankOf(s, k)
  {
  }

  lemma {:induction false} RankFalls(s: State, n: nat, m: Move, k: nat)
    requires Enabled(s, By(n, m)) && Internal(By(n, m))
    requires FlowFits(s.pcs[n], s.flows[n], n in s.superseded, n in s.byCancel)
    ensures TotalRank(Apply(s, By(n, m)), k) <= TotalRank(s, k)
    ensures n < k ==> TotalRank(Apply(s, By(n, m)), k) < TotalRank(s, k)
  {
    if k > 0 {
      RankFalls(s, n, m, k - 1);
      if k - 1 == n {
        StepRank(s, n, m);
      } else {
        OtherRank(s, n, m, k - 1);
      }
    }
  }

  predicate InternalOnly(t: Trace, u: Trace) {
    u == t || (u.Then? && Internal(u.a) && InternalOnly(t, u.before))
  }

  lemma {:induction false} InternalTransitive(t: Trace, u: Trace, v: Trace)
    requires InternalOnly(t, u) && InternalOnly(u, v)
    ensures InternalOnly(t, v)
  {
    if v != u {
      InternalTransitive(t, u, v.before);
    }
  }

  /**
   * From any point, internal steps alone reach a state in which no session waits for
   * another: replacement cannot deadlock, and as every internal step lowers a rank it
   * cannot go on for ever either.
   */
  lemma {:induction false} ReplacementCompletes(t: Trace) returns (u: Trace)
    requires Legal(t)
    ensures Legal(u) && InternalOnly(t, u)
    ensures forall n :: n in End(u).pcs ==> !End(u).pcs[n].Held()
    decreases TotalRank(End(t), End(t).r.made)
  {
    AlwaysInv(t);
    u := t;
    if n :| n in End(t).pcs && End(t).pcs[n].Held() {
      var k, m := NeverStuck(End(t), n);
      assert SessionInv(End(t), k);
      RankFalls(End(t), k, m, End(t).r.made);
      u := ReplacementCompletes(Then(t, By(k, m)));
      assert InternalOnly(t, Then(t, By(k, m)));
      InternalTransitive(t, Then(t, By(k, m)), u);
    }
  }

  // The newest session gets its Start.

  predicate Logs(log: Log, e: Event) {
    log.Add? && (log.e == e || Logs(log.before, e))
  }

  /** Who is past its start without having been superseded has had its Start; who is past its Stop, its Stop. */
  predicate CallsMade(log: Log, n: nat, pc: Pc, superseded: bool) {
    && (Begun(pc) && !superseded ==> Logs(log, StartBegan(n)) && Logs(log, StartEnded(n)))
    && (pc.InStart? ==> Logs(log, StartBegan(n)))
    && (pc.InStop? ==> Logs(log, StopBegan(n)))
    && (pc.Past() && !superseded ==> Logs(log, StopBegan(n)) && Logs(log, StopEnded(n)))
  }

  lemma CallsStep(s: State, a: Action, n: nat)
    requires Enabled(s, a) && n in s.pcs && (a.Register? ==> n != s.r.made)
    requires CallsMade(s.log, n, s.pcs[n], n in s.superseded)
    requires n in s.superseded ==> s.pcs[n].Past()
    ensures n in Apply(s, a).pcs && CallsMade(Apply(s, a).log, n, Apply(s, a).pcs[n], n in Apply(s, a).superseded)
  {
  }

  lemma FreshCalls(s: State, a: Action, n: nat)
    requires Enabled(s, a) && n in Apply(s, a).pcs && n !in s.pcs
    ensures CallsMade(Apply(s, a).log, n, Apply(s, a).pcs[n], n in Apply(s, a).superseded)
  {
  }

  /** The callbacks are made, not only in the right order. */
  lemma {:induction false} CallbacksAreMade(t: Trace, n: nat)
    requires Legal(t) && n in End(t).pcs
    ensures CallsMade(End(t).log, n, End(t).pcs[n], n in End(t).superseded)
  {
    if n !in End(t.before).pcs {
      FreshCalls(End(t.before), t.a, n);
    } else {
      CallbacksAreMade(t.before, n);
      AlwaysInv(t.before);
      assert SessionInv(End(t.before), n);
      CallsStep(End(t.before), t.a, n);
    }
  }

  lemma CheckSupersedes(s: State, a: Action, n: nat)
    requires Enabled(s, a) && n in Apply(s, a).superseded && n !in s.superseded
    ensures n in s.pcs && s.pcs[n].Recheck? && s.r.cur != Some(n)
    ensures Apply(s, a).r == s.r
  {
  }

  lemma MadeGrows(s: State, a: Action)
    requires Enabled(s, a)
    ensures s.r.made <= Apply(s, a).r.made && (Internal(a) ==> Apply(s, a).r.made == s.r.made)
  {
  }

  /** Only a newer session supersedes one. */
  lemma {:induction false} SupersededHasNewer(t: Trace, n: nat)
    requires Legal(t) && n in End(t).superseded
    ensures n + 1 < End(t).r.made
  {
    MadeGrows(End(t.before), t.a);
    if n in End(t.before).superseded {
      SupersededHasNewer(t.before, n);
    } else {
      CheckSupersedes(End(t.before), t.a, n);
      SupersededIffNewer(t.before, n);
      var k :| k in End(t.before).pcs && k > n;
      AlwaysRegistered(t.before, k);
    }
  }

  lemma {:induction false} InternalRegistersNone(t: Trace, u: Trace)
    requires Legal(t) && Legal(u) && InternalOnly(t, u)
    ensures End(u).r.made == End(t).r.made
  {
    if u != t {
      InternalRegistersNone(t, u.before);
      MadeGrows(End(u.before), u.a);
    }
  }

  /** The newest session's next step on its way to Running, in a run that goes on from `t`. */
  lemma NewestSteps(t: Trace, u: Trace, n: nat, m: Move) returns (v: Trace)
    requires Legal(u) && InternalOnly(t, u) && End(u).r.made == n + 1 && n in End(u).pcs && n in End(u).flows
    requires Can(End(u), n, m) && (m.Check? || m.BeginStart? || m.EndStart?)
    ensures Legal(v) && InternalOnly(t, v) && End(v).r == End(u).r
    ensures n in End(v).pcs && n in End(v).flows && End(v).pcs[n] == NextPc(End(u).pcs[n], m, End(u).r.cur == Some(n))
  {
    v := Then(u, By(n, m));
  }

  lemma NewestIsCurrent(t: Trace)
    requires Legal(t) && End(t).r.made > 0
    ensures var n := End(t).r.made - 1;
            && n in End(t).pcs && n in End(t).flows
            && (!End(t).pcs[n].Past() ==> End(t).r.cur == Some(n))
  {
    AlwaysInv(t);
  }

  lemma NewestIsLogged(t: Trace, n: nat)
    requires Legal(t) && End(t).r.made == n + 1 && n in End(t).pcs && Begun(End(t).pcs[n])
    ensures Logs(End(t).log, StartEnded(n))
  {
    CallbacksAreMade(t, n);
    if n in End(t).superseded {
      SupersededHasNewer(t, n);
    }
  }

  /** From any point with a session registered, the newest gets, or has had, its Start, with nothing from the TV. */
  lemma NewestStarts(t: Trace) returns (u: Trace)
    requires Legal(t) && End(t).r.made > 0
    ensures Legal(u) && InternalOnly(t, u) && End(u).r.made == End(t).r.made
    ensures Logs(End(u).log, StartEnded(End(t).r.made - 1))
  {
    var n := End(t).r.made - 1;
    u := ReplacementCompletes(t);
    InternalRegistersNone(t, u);
    NewestIsCurrent(u);
    if End(u).pcs[n].Recheck? {
      u := NewestSteps(t, u, n, Check);
    }
    if End(u).pcs[n].BeforeStart? {
      u := NewestSteps(t, u, n, BeginStart);
    }
    if End(u).pcs[n].InStart? {
      u := NewestSteps(t, u, n, EndStart);
    }
    NewestIsLogged(u, n);
  }

  // A connection that breaks ends its session.

  /** The session's reader came to its end: the TV hung up, or its connection was cut. */
  predicate Disconnected(t: Trace, n: nat) {
    t.Then? && ((t.a.By? && t.a.n == n && (t.a.m.Hangup? || t.a.m.ReaderExit?)) || Disconnected(t.before, n))
  }

  /** What one step does to the reader of a session that has one. */
  lemma ReaderStep(s: State, a: Action, n: nat)
    requires Enabled(s, a) && n in s.flows && n in s.pcs && (a.Register? ==> n != s.r.made)
    requires FlowFits(s.pcs[n], s.flows[n], n in s.superseded, n in s.byCancel)
    ensures n in Apply(s, a).flows
    ensures Apply(s, a).flows[n].reader.Done? <==>
            s.flows[n].reader.Done? || (a.By? && a.n == n && (a.m.Hangup? || a.m.ReaderExit?))
  {
  }

  lemma {:induction false} NotYetDisconnected(t: Trace, n: nat)
    requires Legal(t) && n !in End(t).flows
    ensures !Disconnected(t, n)
  {
    if t.Then? {
      assert n !in End(t.before).flows;
      NotYetDisconnected(t.before, n);
    }
  }

  /** A reader is done exactly once its session has been disconnected; then no frame of it is read any more. */
  lemma {:induction false} DoneIffDisconnected(t: Trace, n: nat)
    requires Legal(t) && n in End(t).pcs && n in End(t).flows
    ensures End(t).flows[n].reader.Done? <==> Disconnected(t, n)
    ensures Disconnected(t, n) ==> forall f :: !Enabled(End(t), By(n, Read(f)))
  {
    if n !in End(t.before).flows {
      NotYetDisconnected(t.before, n);
      RegisteredFresh(End(t.before), t.a, n);
    } else {
      AlwaysInv(t.before);
      DoneIffDisconnected(t.before, n);
      assert SessionInv(End(t.before), n);
      ReaderStep(End(t.before), t.a, n);
    }
  }

  /** `u` goes on from `t` by internal steps of session `n` alone. */
  predicate OwnOnly(t: Trace, u: Trace, n: nat) {
    u == t || (u.Then? && u.a.By? && u.a.n == n && Internal(u.a) && OwnOnly(t, u.before, n))
  }

  lemma {:induction false} OwnTransitive(t: Trace, u: Trace, v: Trace, n: nat)
    requires OwnOnly(t, u, n) && OwnOnly(u, v, n)
    ensures OwnOnly(t, v, n)
  {
    if v != u {
      OwnTransitive(t, u, v.before, n);
    }
  }

  /** The session has started and its reader is done, but it is not over yet. */
  predicate Winding(s: State, n: nat) {
    n in s.pcs && n in s.flows && Begun(s.pcs[n]) && s.flows[n].reader.Done?
  }

  /** What it does next on its way out. */
  function WayOut(pc: Pc, x: Flow): Move {
    match pc
    case BeforeStop => BeginStop
    case InStop => EndStop
    case Unregistering => Unregister
    case Signalling => Signal
    case _ =>
      if x.forwarder.Done? then LeaveDone
      else if x.buf.busy then EndFrame
      else if x.buf.queue != [] then Forward
      else ForwarderExit
  }

  lemma WayOutStep(s: State, n: nat)
    requires Winding(s, n) && !s.pcs[n].Over?
    requires FlowFits(s.pcs[n], s.flows[n], n in s.superseded, n in s.byCancel)
    ensures var m := WayOut(s.pcs[n], s.flows[n]);
            Enabled(s, By(n, m)) && Internal(By(n, m)) && Winding(Apply(s, By(n, m)), n)
  {
  }

  /**
   * A started session that is disconnected comes to its end by its own steps: it forwards
   * what it has, and its Stop is called.
   */
  lemma {:induction false} DisconnectedEnds(t: Trace, n: nat) returns (u: Trace)
    requires Legal(t) && Winding(End(t), n)
    ensures Legal(u) && OwnOnly(t, u, n) && n in End(u).pcs && End(u).pcs[n].Over?
    ensures n !in End(u).superseded ==> Logs(End(u).log, StopEnded(n))
    decreases RankOf(End(t), n)
  {
    if End(t).pcs[n].Over? {
      u := t;
      CallbacksAreMade(t, n);
    } else {
      AlwaysInv(t);
      assert SessionInv(End(t), n);
      var m := WayOut(End(t).pcs[n], End(t).flows[n]);
      WayOutStep(End(t), n);
      StepRank(End(t), n, m);
      u := DisconnectedEnds(Then(t, By(n, m)), n);
      assert OwnOnly(t, Then(t, By(n, m)), n);
      OwnTransitive(t, Then(t, By(n, m)), u, n);
    }
  }
}
