/**
 * The fallback watchdog (clipv1/state.go streamState; clipv1/server.go handleGroupUpdate).
 *
 * An activation confirmed to the TV arms a timer; if the TV's stream is not up when the
 * timer fires, relume-tv latches the REST fallback. Timer callbacks may come late, in any
 * order, and after Stop; stream events and any number of group-update handlers, each of
 * which checks first and acts in later critical sections, come between any two steps.
 */
module Fallback {
  import opened Common

  datatype User = User(name: string)

  const NOBODY := User("")

  /** Set before serving: entertainment mode, and the recovery cooldown (none when not positive). */
  datatype Settings = Settings(entertainment: bool, cooldown: int)

  /** The fields of streamState, the timer being named by the generation it was armed with. */
  datatype Gate = Gate(
    active: bool,
    owner: User,
    streamUp: bool,
    fallback: bool,
    fallbackAt: int,
    gen: nat,
    watchdog: Option<nat>)
  {
    predicate Recovers(cooldown: int, now: int) {
      fallback && cooldown > 0 && now - fallbackAt >= cooldown
    }

    function Recovered(cooldown: int, now: int): Gate {
      if Recovers(cooldown, now) then this.(fallback := false) else this
    }

    function Activated(on: bool, user: User): Gate {
      this.(active := on, owner := if on then user else NOBODY)
    }

    predicate Arms(entertainment: bool) {
      entertainment && !fallback && !streamUp
    }

    function Armed(entertainment: bool): Gate {
      if Arms(entertainment) then this.(gen := gen + 1, watchdog := Some(gen + 1)) else this
    }

    function Disarmed(): Gate {
      this.(gen := gen + 1, watchdog := None)
    }

    function Up(): Gate {
      this.(streamUp := true, fallback := false, gen := gen + 1, watchdog := None)
    }

    function Down(): Gate {
      this.(streamUp := false)
    }

    predicate Latches(g: nat) {
      !streamUp && g == gen
    }

    function Fired(g: nat, now: int): Gate {
      if Latches(g) then this.(fallback := true, fallbackAt := now, active := false, owner := NOBODY) else this
    }

    /** What an uninterrupted group update leaves. */
    function Updated(cfg: Settings, req: Option<bool>, user: User, now: int): Gate {
      var g := if cfg.entertainment && req == Some(true) then Recovered(cfg.cooldown, now) else this;
      if !cfg.entertainment || g.fallback || req.None? then g
      else if req.value then g.Activated(true, user).Armed(true)
      else g.Activated(false, user).Disarmed()
    }
  }

  const QUIET := Gate(false, NOBODY, false, false, 0, 0, None)

  class StreamState {
    const cfg: Settings
    var active: bool
    var owner: User
    var streamUp: bool
    var fallback: bool
    var fallbackAt: int
    var gen: nat
    var watchdog: Option<nat>

    ghost function View(): Gate
      reads this
    {
      Gate(active, owner, streamUp, fallback, fallbackAt, gen, watchdog)
    }

    constructor (cfg: Settings)
      ensures this.cfg == cfg && View() == QUIET
    {
      this.cfg := cfg;
      active, owner, streamUp, fallback, fallbackAt, gen, watchdog := false, NOBODY, false, false, 0, 0, None;
    }

    method TryRecoverFallback(now: int) returns (recovered: bool)
      modifies this`fallback
      ensures View() == old(View()).Recovered(cfg.cooldown, now)
      ensures recovered <==> old(fallback) && !fallback
    {
      if !fallback || cfg.cooldown <= 0 {
        return false;
      }
      if now - fallbackAt < cfg.cooldown {
        return false;
      }
      fallback := false;
      return true;
    }

    method SetActive(on: bool, user: User)
      modifies this`active, this`owner
      ensures View() == old(View()).Activated(on, user)
    {
      active := on;
      if on {
        owner := user;
      } else {
        owner := NOBODY;
      }
    }

    /** armWatchdog; `stop` and `start` are the timers it stops and starts. */
    method ArmWatchdog(entertainment: bool) returns (stop: Option<nat>, start: Option<nat>)
      modifies this`gen, this`watchdog
      ensures View() == old(View()).Armed(entertainment)
      ensures start == if old(View()).Arms(entertainment) then Some(gen) else None
      ensures stop == if old(View()).Arms(entertainment) then old(watchdog) else None
    {
      if !entertainment || fallback || streamUp {
        return None, None;
      }
      stop := watchdog;
      gen := gen + 1;
      watchdog := Some(gen);
      start := watchdog;
    }

    method DisarmWatchdog() returns (stop: Option<nat>)
      modifies this`gen, this`watchdog
      ensures View() == old(View()).Disarmed() && stop == old(watchdog)
    {
      stop := watchdog;
      watchdog := None;
      gen := gen + 1;
    }

    method MarkStreamUp() returns (stop: Option<nat>)
      modifies this`streamUp, this`fallback, this`gen, this`watchdog
      ensures View() == old(View()).Up() && stop == old(watchdog)
    {
      streamUp := true;
      stop := watchdog;
      watchdog := None;
      fallback := false;
      gen := gen + 1;
    }

    method MarkStreamDown()
      modifies this`streamUp
      ensures View() == old(View()).Down()
    {
      streamUp := false;
    }

    method WatchdogFired(g: nat, now: int) returns (latched: bool)
      modifies this`fallback, this`fallbackAt, this`active, this`owner
      ensures View() == old(View()).Fired(g, now) && (latched <==> old(View()).Latches(g))
    {
      if streamUp || g != gen {
        return false;
      }
      fallback, fallbackAt, active, owner := true, now, false, NOBODY;
      return true;
    }

    /** The stream part of handleGroupUpdate, run without interruption. */
    method GroupUpdate(req: Option<bool>, user: User, now: int) returns (confirmed: bool)
      modifies this
      ensures View() == old(View()).Updated(cfg, req, user, now)
      ensures confirmed <==> cfg.entertainment && req.Some? && !old(View()).Updated(cfg, req, user, now).fallback
    {
      if cfg.entertainment && req == Some(true) {
        var recovered := TryRecoverFallback(now);
      }
      if cfg.entertainment && !fallback {
        if req.Some? {
          SetActive(req.value, user);
          if req.value {
            var stop, start := ArmWatchdog(true);
          } else {
            var stop := DisarmWatchdog();
          }
          return true;
        }
      }
      return false;
    }
  }

  // -------------------------------------------------------- the step system

  /** The critical sections of handleGroupUpdate, in order. */
  datatype At = Recovering | Confirming | Setting | Arming | Done(confirmed: bool)

  datatype Handler = Handler(at: At, req: Option<bool>, user: User) {
    /** An activation that has passed its recovery and not yet armed. */
    predicate Pending() { req == Some(true) && (at.Confirming? || at.Setting? || at.Arming?) }
  }

  datatype Event = Latched(at: int) | CameUp

  datatype Log = Empty | Add(before: Log, e: Event)

  datatype State = State(
    gate: Gate,
    calls: multiset<nat>,      // timer callbacks not yet delivered, by generation
    now: int,
    handlers: map<nat, Handler>,
    awaiting: bool,            // an activation was confirmed with the stream down, and neither
                               // a stream-up nor a deactivation followed
    log: Log)

  /** Wherever a timer is stopped, `stopped` tells whether that came before it fired. */
  datatype Action =
    | Request(n: nat, req: Option<bool>, user: User)
    | Step(n: nat, stopped: bool)
    | Deliver(g: nat)
    | StreamUp(stopped: bool)
    | StreamDown
    | Pass(d: nat)

  const INIT := State(QUIET, multiset{}, 0, map[], false, Empty)

  predicate Enabled(s: State, a: Action) {
    match a
    case Request(n, _, _) => n !in s.handlers
    case Step(n, _) => n in s.handlers && !s.handlers[n].at.Done?
    case Deliver(g) => g in s.calls
    case _ => true
  }

  function NextAt(h: Handler, gate: Gate, cfg: Settings): At {
    match h.at
    case Recovering => Confirming
    case Confirming => if cfg.entertainment && !gate.fallback && h.req.Some? then Setting else Done(false)
    case Setting => Arming
    case Arming => Done(true)
    case Done(c) => Done(c)
  }

  function HandlerGate(h: Handler, gate: Gate, now: int, cfg: Settings): Gate {
    match h.at
    case Recovering => if cfg.entertainment && h.req == Some(true) then gate.Recovered(cfg.cooldown, now) else gate
    case Setting => gate.Activated(h.req == Some(true), h.user)
    case Arming => if h.req == Some(true) then gate.Armed(cfg.entertainment) else gate.Disarmed()
    case _ => gate
  }

  /** The callbacks left when the current timer is stopped. */
  function Stopped(calls: multiset<nat>, watchdog: Option<nat>, stopped: bool): multiset<nat> {
    if stopped && watchdog.Some? then calls - multiset{watchdog.value} else calls
  }

  function HandlerCalls(h: Handler, gate: Gate, calls: multiset<nat>, stopped: bool, cfg: Settings): multiset<nat> {
    if !h.at.Arming? then calls
    else if h.req != Some(true) then Stopped(calls, gate.watchdog, stopped)
    else if gate.Arms(cfg.entertainment) then Stopped(calls, gate.watchdog, stopped) + multiset{gate.gen + 1}
    else calls
  }

  predicate HandlerAwaits(h: Handler, gate: Gate, awaiting: bool) {
    if !h.at.Arming? then awaiting
    else if h.req == Some(true) then awaiting || !gate.streamUp
    else false
  }

  function Apply(s: State, a: Action, cfg: Settings): State
    requires Enabled(s, a)
  {
    match a
    case Request(n, req, user) => s.(handlers := s.handlers[n := Handler(Recovering, req, user)])
    case Step(n, stopped) =>
      var h := s.handlers[n];
      s.(gate := HandlerGate(h, s.gate, s.now, cfg),
         calls := HandlerCalls(h, s.gate, s.calls, stopped, cfg),
         handlers := s.handlers[n := h.(at := NextAt(h, s.gate, cfg))],
         awaiting := HandlerAwaits(h, s.gate, s.awaiting))
    case Deliver(g) =>
      s.(gate := s.gate.Fired(g, s.now), calls := s.calls - multiset{g},
         log := if s.gate.Latches(g) then Add(s.log, Latched(s.now)) else s.log)
    case StreamUp(stopped) =>
      s.(gate := s.gate.Up(), calls := Stopped(s.calls, s.gate.watchdog, stopped), awaiting := false, log := Add(s.log, CameUp))
    case StreamDown => s.(gate := s.gate.Down())
    case Pass(d) => s.(now := s.now + d)
  }

  datatype Trace = Start | Then(before: Trace, a: Action)

  predicate Legal(t: Trace, cfg: Settings)
    decreases t, 0
  {
    t.Then? ==> Legal(t.before, cfg) && Enabled(End(t.before, cfg), t.a)
  }

  function End(t: Trace, cfg: Settings): State
    requires Legal(t, cfg)
    decreases t, 1
  {
    if t.Start? then INIT else Apply(End(t.before, cfg), t.a, cfg)
  }

  // ------------------------------------------------------------- invariants

  /** A callback that would still latch. */
  predicate Live(gate: Gate, calls: multiset<nat>) {
    gate.gen in calls
  }

  /** At most one callback is live; while it is, the stream is down and nothing is latched. */
  ghost predicate Guarded(gate: Gate, calls: multiset<nat>) {
    && (forall g :: g in calls ==> g <= gate.gen)
    && calls[gate.gen] <= 1
    && (Live(gate, calls) ==> !gate.streamUp && !gate.fallback)
    && !(gate.streamUp && gate.fallback)
    && (!gate.active ==> gate.owner == NOBODY)
  }

  ghost predicate Past(handlers: map<nat, Handler>, cfg: Settings) {
    forall n :: n in handlers && (handlers[n].at.Setting? || handlers[n].at.Arming?) ==>
      handlers[n].req.Some? && cfg.entertainment
  }

  ghost predicate Trying(handlers: map<nat, Handler>) {
    exists n :: n in handlers && handlers[n].Pending()
  }

  ghost predicate Watched(s: State, cfg: Settings) {
    s.awaiting ==> cfg.entertainment && !s.gate.streamUp && (Live(s.gate, s.calls) || s.gate.fallback || Trying(s.handlers))
  }

  /** When fallback last latched with no stream-up since. */
  function LastLatch(log: Log): Option<int> {
    if log.Empty? || log.e.CameUp? then None else Some(log.e.at)
  }

  /** Latches with no stream-up between them are a positive cooldown apart. */
  predicate Spaced(log: Log, cooldown: int) {
    log.Add? ==>
      && Spaced(log.before, cooldown)
      && (log.e.Latched? && LastLatch(log.before).Some? ==> cooldown > 0 && log.e.at - LastLatch(log.before).value >= cooldown)
  }

  predicate Cooled(gate: Gate, log: Log, now: int, cooldown: int) {
    && Spaced(log, cooldown)
    && (gate.fallback ==> LastLatch(log) == Some(gate.fallbackAt))
    && (!gate.fallback && LastLatch(log).Some? ==> cooldown > 0 && now - LastLatch(log).value >= cooldown)
  }

  ghost predicate Inv(s: State, cfg: Settings) {
    && Guarded(s.gate, s.calls)
    && Past(s.handlers, cfg)
    && Watched(s, cfg)
    && Cooled(s.gate, s.log, s.now, cfg.cooldown)
  }

  lemma StoppedLeaves(calls: multiset<nat>, watchdog: Option<nat>, stopped: bool, g: nat)
    ensures Stopped(calls, watchdog, stopped)[g] <= calls[g]
  {
  }

  /** Raising the generation makes every outstanding callback stale, whether or not Stop caught it. */
  lemma RaisedGuarded(gate: Gate, calls: multiset<nat>, stopped: bool)
    requires Guarded(gate, calls)
    ensures Guarded(gate.Disarmed(), Stopped(calls, gate.watchdog, stopped))
    ensures Guarded(gate.Up(), Stopped(calls, gate.watchdog, stopped))
    ensures gate.Arms(true) ==> Guarded(gate.Armed(true), Stopped(calls, gate.watchdog, stopped) + multiset{gate.gen + 1})
  {
    var left := Stopped(calls, gate.watchdog, stopped);
    forall g | g in left ensures g <= gate.gen {
      StoppedLeaves(calls, gate.watchdog, stopped, g);
    }
  }

  lemma FiredGuarded(gate: Gate, calls: multiset<nat>, g: nat, now: int)
    requires Guarded(gate, calls) && g in calls
    ensures Guarded(gate.Fired(g, now), calls - multiset{g})
  {
    var left := calls - multiset{g};
    forall k | k in left ensures k in calls {
    }
  }

  lemma HandlerGuarded(h: Handler, gate: Gate, calls: multiset<nat>, now: int, stopped: bool, cfg: Settings)
    requires Guarded(gate, calls)
    ensures Guarded(HandlerGate(h, gate, now, cfg), HandlerCalls(h, gate, calls, stopped, cfg))
  {
    if h.at.Arming? {
      RaisedGuarded(gate, calls, stopped);
    }
  }

  lemma GuardedKept(s: State, a: Action, cfg: Settings)
    requires Enabled(s, a) && Guarded(s.gate, s.calls)
    ensures var n := Apply(s, a, cfg); Guarded(n.gate, n.calls)
  {
    match a
    case Step(n, stopped) => HandlerGuarded(s.handlers[n], s.gate, s.calls, s.now, stopped, cfg);
    case Deliver(g) => FiredGuarded(s.gate, s.calls, g, s.now);
    case StreamUp(stopped) => RaisedGuarded(s.gate, s.calls, stopped);
    case _ =>
  }

  lemma PastKept(s: State, a: Action, cfg: Settings)
    requires Enabled(s, a) && Past(s.handlers, cfg)
    ensures Past(Apply(s, a, cfg).handlers, cfg)
  {
  }

  lemma StepWatched(s: State, n: nat, stopped: bool, cfg: Settings)
    requires Enabled(s, Step(n, stopped)) && Inv(s, cfg)
    ensures Watched(Apply(s, Step(n, stopped), cfg), cfg)
  {
    var t := Apply(s, Step(n, stopped), cfg);
    if t.awaiting && !Live(t.gate, t.calls) && !t.gate.fallback {
      if t.handlers[n].Pending() {
        assert Trying(t.handlers);
      } else if s.awaiting && Trying(s.handlers) {
        var k :| k in s.handlers && s.handlers[k].Pending();
        assert k in t.handlers;
      }
    }
  }

  lemma WatchedKept(s: State, a: Action, cfg: Settings)
    requires Enabled(s, a) && Inv(s, cfg)
    ensures Watched(Apply(s, a, cfg), cfg)
  {
    if a.Step? {
      StepWatched(s, a.n, a.stopped, cfg);
    } else if s.awaiting && Trying(s.handlers) {
      var k :| k in s.handlers && s.handlers[k].Pending();
      assert k in Apply(s, a, cfg).handlers;
    }
  }

  lemma HandlerCooled(h: Handler, gate: Gate, log: Log, now: int, cfg: Settings)
    requires Cooled(gate, log, now, cfg.cooldown)
    ensures Cooled(HandlerGate(h, gate, now, cfg), log, now, cfg.cooldown)
  {
  }

  lemma FiredCooled(gate: Gate, log: Log, g: nat, now: int, cooldown: int)
    requires Cooled(gate, log, now, cooldown) && (g == gate.gen ==> !gate.fallback)
    ensures Cooled(gate.Fired(g, now), if gate.Latches(g) then Add(log, Latched(now)) else log, now, cooldown)
  {
  }

  lemma UpCooled(gate: Gate, log: Log, now: int, cooldown: int)
    requires Cooled(gate, log, now, cooldown)
    ensures Cooled(gate.Up(), Add(log, CameUp), now, cooldown)
  {
  }

  lemma CooledKept(s: State, a: Action, cfg: Settings)
    requires Enabled(s, a) && Cooled(s.gate, s.log, s.now, cfg.cooldown)
    requires Live(s.gate, s.calls) ==> !s.gate.fallback
    ensures var n := Apply(s, a, cfg); Cooled(n.gate, n.log, n.now, cfg.cooldown)
  {
    match a
    case Step(n, _) => HandlerCooled(s.handlers[n], s.gate, s.log, s.now, cfg);
    case Deliver(g) => FiredCooled(s.gate, s.log, g, s.now, cfg.cooldown);
    case StreamUp(_) => UpCooled(s.gate, s.log, s.now, cfg.cooldown);
    case _ =>
  }

  // --------------------------------------------------------------- theorems

  lemma {:induction false} AlwaysInv(t: Trace, cfg: Settings)
    requires Legal(t, cfg)
    ensures Inv(End(t, cfg), cfg)
  {
    if t.Then? {
      var s := End(t.before, cfg);
      AlwaysInv(t.before, cfg);
      GuardedKept(s, t.a, cfg);
      PastKept(s, t.a, cfg);
      WatchedKept(s, t.a, cfg);
      CooledKept(s, t.a, cfg);
    }
  }

  /**
   * At most one undelivered callback carries the current generation, and while one does
   * the stream is down and nothing is latched; stream-up and fallback never hold together.
   */
  lemma {:induction false} OneLiveCallback(t: Trace, cfg: Settings)
    requires Legal(t, cfg)
    ensures var s := End(t, cfg);
            && s.calls[s.gate.gen] <= 1
            && (Live(s.gate, s.calls) ==> !s.gate.streamUp && !s.gate.fallback)
            && !(s.gate.streamUp && s.gate.fallback)
  {
    AlwaysInv(t, cfg);
  }

  /** After a stream-up or a deactivation, no callback still to come changes anything. */
  lemma {:induction false} StaleCallbacksDoNothing(t: Trace, cfg: Settings, g: nat)
    requires Legal(t, cfg) && t.Then? && g in End(t, cfg).calls
    requires t.a.StreamUp? || (t.a.Step? && End(t.before, cfg).handlers[t.a.n].at.Arming?
                               && End(t.before, cfg).handlers[t.a.n].req == Some(false))
    ensures Apply(End(t, cfg), Deliver(g), cfg).gate == End(t, cfg).gate
  {
    var s := End(t.before, cfg);
    AlwaysInv(t.before, cfg);
    StoppedLeaves(s.calls, s.gate.watchdog, t.a.stopped, g);
  }

  /**
   * An activation confirmed with the stream down stays watched: until a stream-up or a
   * deactivation, a live callback is outstanding, or the fallback is latched, or a newer
   * activation is between clearing the fallback and arming.
   */
  lemma {:induction false} ConfirmedIsWatched(t: Trace, cfg: Settings)
    requires Legal(t, cfg) && End(t, cfg).awaiting
    ensures var s := End(t, cfg);
            !s.gate.streamUp && (Live(s.gate, s.calls) || s.gate.fallback || Trying(s.handlers))
  {
    AlwaysInv(t, cfg);
  }

  /** Latches with no stream-up between them are a cooldown apart; without a cooldown there is one. */
  lemma LatchesAreSpaced(t: Trace, cfg: Settings)
    requires Legal(t, cfg)
    ensures Spaced(End(t, cfg).log, cfg.cooldown)
  {
    AlwaysInv(t, cfg);
  }

  /** Two latches with only latches between them. */
  predicate Since(log: Log, at: int) {
    log.Add? && log.e.Latched? && (log.e.at == at || Since(log.before, at))
  }

  /** Any latch since the last stream-up, not only the one before, is a cooldown or more back. */
  lemma {:induction false} SpacedFromAll(log: Log, cooldown: int, at: int)
    requires Spaced(log, cooldown) && log.Add? && log.e.Latched? && Since(log.before, at)
    ensures cooldown > 0 && log.e.at - at >= cooldown
  {
    if log.before.e.at != at {
      SpacedFromAll(log.before, cooldown, at);
    }
  }

  // ------------------------------------- when the group may be active, and when watched

  /** A handler that has found nothing latched and is about to set the group active. */
  predicate SetsActive(h: Handler) {
    h.at.Setting? && h.req == Some(true)
  }

  ghost predicate Amid(handlers: map<nat, Handler>) {
    exists n :: n in handlers && SetsActive(handlers[n])
  }

  /** A callback latched while some handler was between its check and its activation. */
  ghost predicate LatchAmid(t: Trace, cfg: Settings)
    requires Legal(t, cfg)
  {
    t.Then? &&
      (LatchAmid(t.before, cfg)
       || (t.a.Deliver? && End(t.before, cfg).gate.Latches(t.a.g) && Amid(End(t.before, cfg).handlers)))
  }

  /** While latched, the group is inactive and no handler is about to change that. */
  ghost predicate Shut(gate: Gate, handlers: map<nat, Handler>) {
    gate.fallback ==> !gate.active && !Amid(handlers)
  }

  /** A handler's step latches nothing, activates only from Setting, and comes there only with nothing latched. */
  lemma HandlerShut(h: Handler, gate: Gate, now: int, cfg: Settings)
    ensures HandlerGate(h, gate, now, cfg).fallback ==> gate.fallback
    ensures HandlerGate(h, gate, now, cfg).active ==> gate.active || SetsActive(h)
    ensures NextAt(h, gate, cfg).Setting? ==> !gate.fallback && HandlerGate(h, gate, now, cfg) == gate
  {
  }

  lemma StepShut(s: State, n: nat, stopped: bool, cfg: Settings)
    requires Enabled(s, Step(n, stopped)) && Shut(s.gate, s.handlers)
    ensures var t := Apply(s, Step(n, stopped), cfg); Shut(t.gate, t.handlers)
  {
    var t := Apply(s, Step(n, stopped), cfg);
    HandlerShut(s.handlers[n], s.gate, s.now, cfg);
    if t.gate.fallback {
      forall k | k in t.handlers ensures !SetsActive(t.handlers[k]) {
        assert k in s.handlers && !SetsActive(s.handlers[k]);
      }
    }
  }

  lemma RequestShut(s: State, n: nat, req: Option<bool>, user: User, cfg: Settings)
    requires Enabled(s, Request(n, req, user)) && Shut(s.gate, s.handlers)
    ensures var t := Apply(s, Request(n, req, user), cfg); Shut(t.gate, t.handlers)
  {
    var t := Apply(s, Request(n, req, user), cfg);
    if t.gate.fallback {
      forall k | k in t.handlers ensures !SetsActive(t.handlers[k]) {
        assert k != n ==> k in s.handlers && !SetsActive(s.handlers[k]);
      }
    }
  }

  lemma ShutKept(s: State, a: Action, cfg: Settings)
    requires Enabled(s, a) && Shut(s.gate, s.handlers)
    requires a.Deliver? && s.gate.Latches(a.g) ==> !Amid(s.handlers)
    ensures Shut(Apply(s, a, cfg).gate, Apply(s, a, cfg).handlers)
  {
    match a
    case Request(n, req, user) => RequestShut(s, n, req, user, cfg);
    case Step(n, stopped) => StepShut(s, n, stopped, cfg);
    case _ =>
  }

  lemma {:induction false} ShutUnlessAmid(t: Trace, cfg: Settings)
    requires Legal(t, cfg) && !LatchAmid(t, cfg)
    ensures Shut(End(t, cfg).gate, End(t, cfg).handlers)
  {
    if t.Then? {
      ShutUnlessAmid(t.before, cfg);
      ShutKept(End(t.before, cfg), t.a, cfg);
    }
  }

  /** Fallback means inactive in every run in which no callback latches between a handler's check and its activation. */
  lemma FallbackMeansInactive(t: Trace, cfg: Settings)
    requires Legal(t, cfg) && !LatchAmid(t, cfg)
    ensures End(t, cfg).gate.fallback ==> !End(t, cfg).gate.active
  {
    ShutUnlessAmid(t, cfg);
  }

  /** `p` leads up to `t`. */
  predicate Prefix(p: Trace, t: Trace) {
    p == t || (t.Then? && Prefix(p, t.before))
  }

  /** Handler `n`, stepping next after `p`, leaves the group active with the fallback latched. */
  ghost predicate Spoils(p: Trace, n: nat, cfg: Settings) {
    && Legal(p, cfg) && Enabled(End(p, cfg), Step(n, false))
    && var s := Apply(End(p, cfg), Step(n, false), cfg); s.gate.active && s.gate.fallback
  }

  lemma {:induction false} LatchAmidStays(p: Trace, t: Trace, cfg: Settings)
    requires Legal(t, cfg) && Prefix(p, t)
    ensures Legal(p, cfg) && (LatchAmid(p, cfg) ==> LatchAmid(t, cfg))
  {
    if p != t {
      LatchAmidStays(p, t.before, cfg);
    }
  }

  lemma {:induction false} AmidSpoils(t: Trace, cfg: Settings) returns (p: Trace, n: nat)
    requires Legal(t, cfg) && LatchAmid(t, cfg)
    ensures Prefix(p, t) && Spoils(p, n, cfg)
  {
    if LatchAmid(t.before, cfg) {
      p, n := AmidSpoils(t.before, cfg);
    } else {
      p := t;
      n :| n in End(t.before, cfg).handlers && SetsActive(End(t.before, cfg).handlers[n]);
      assert End(p, cfg).handlers[n].at.Setting?;
    }
  }

  /**
   * And only in those: a run has such a latch exactly if at some point of it a handler's
   * next step leaves, or would leave, the group active with the fallback latched.
   */
  lemma LatchAmidIff(t: Trace, cfg: Settings)
    requires Legal(t, cfg)
    ensures LatchAmid(t, cfg) <==> exists p, n :: Prefix(p, t) && Spoils(p, n, cfg)
  {
    if LatchAmid(t, cfg) {
      var p, n := AmidSpoils(t, cfg);
    } else {
      forall p, n | Prefix(p, t) ensures !Spoils(p, n, cfg) {
        LatchAmidStays(p, t, cfg);
        ShutUnlessAmid(p, cfg);
        if Spoils(p, n, cfg) {
          ShutKept(End(p, cfg), Step(n, false), cfg);
        }
      }
    }
  }

  /** Raising the generation leaves no callback live. */
  lemma RaisedIsStale(gate: Gate, calls: multiset<nat>, stopped: bool)
    requires Guarded(gate, calls)
    ensures gate.gen + 1 !in Stopped(calls, gate.watchdog, stopped)
  {
    StoppedLeaves(calls, gate.watchdog, stopped, gate.gen + 1);
  }

  lemma HandlerLive(h: Handler, gate: Gate, calls: multiset<nat>, now: int, stopped: bool, awaiting: bool, cfg: Settings)
    requires Guarded(gate, calls) && (Live(gate, calls) ==> awaiting)
    ensures Live(HandlerGate(h, gate, now, cfg), HandlerCalls(h, gate, calls, stopped, cfg)) ==> HandlerAwaits(h, gate, awaiting)
  {
    if h.at.Arming? {
      RaisedIsStale(gate, calls, stopped);
    }
  }

  lemma LiveAwaitsKept(s: State, a: Action, cfg: Settings)
    requires Enabled(s, a) && Guarded(s.gate, s.calls) && (Live(s.gate, s.calls) ==> s.awaiting)
    ensures var n := Apply(s, a, cfg); Live(n.gate, n.calls) ==> n.awaiting
  {
    match a
    case Step(n, stopped) => HandlerLive(s.handlers[n], s.gate, s.calls, s.now, stopped, s.awaiting, cfg);
    case StreamUp(stopped) => RaisedIsStale(s.gate, s.calls, stopped);
    case _ =>
  }

  lemma {:induction false} LiveAwaits(t: Trace, cfg: Settings)
    requires Legal(t, cfg)
    ensures Live(End(t, cfg).gate, End(t, cfg).calls) ==> End(t, cfg).awaiting
  {
    if t.Then? {
      LiveAwaits(t.before, cfg);
      AlwaysInv(t.before, cfg);
      LiveAwaitsKept(End(t.before, cfg), t.a, cfg);
    }
  }

  /**
   * With nothing latched and no activation about to arm, the group is watched exactly if
   * an activation was confirmed with the stream down and neither a stream-up nor a
   * deactivation followed. Being active has no part in it.
   */
  lemma {:induction false} WatchedIffAwaiting(t: Trace, cfg: Settings)
    requires Legal(t, cfg) && !End(t, cfg).gate.fallback && !Trying(End(t, cfg).handlers)
    ensures Live(End(t, cfg).gate, End(t, cfg).calls) <==> End(t, cfg).awaiting
  {
    AlwaysInv(t, cfg);
    LiveAwaits(t, cfg);
  }

  // ---------------------------------------------------------------- witnesses

  lemma Go(t: Trace, a: Action, s: State, n: State, cfg: Settings) returns (u: Trace)
    requires Legal(t, cfg) && End(t, cfg) == s && Enabled(s, a) && Apply(s, a, cfg) == n
    ensures u == Then(t, a) && Legal(u, cfg) && End(u, cfg) == n
  {
    u := Then(t, a);
  }

  const ENTERTAINING := Settings(true, 90)
  const TV := User("tv")

  function One(gate: Gate, calls: multiset<nat>, at: At, awaiting: bool, log: Log): State {
    State(gate, calls, 0, map[0 := Handler(at, Some(true), TV)], awaiting, log)
  }

  /** An activation confirmed while the stream is up has no watchdog once the stream goes down. */
  lemma ActiveUnwatched() returns (t: Trace)
    ensures Legal(t, ENTERTAINING)
    ensures var s := End(t, ENTERTAINING);
            s.gate.active && !s.gate.streamUp && !s.gate.fallback && s.calls == multiset{} && !Trying(s.handlers)
  {
    var cfg := ENTERTAINING;
    var up := QUIET.Up();
    var on := up.Activated(true, TV);
    var log := Add(Empty, CameUp);
    t := Go(Start, StreamUp(false), INIT, State(up, multiset{}, 0, map[], false, log), cfg);
    t := Go(t, Request(0, Some(true), TV), State(up, multiset{}, 0, map[], false, log), One(up, multiset{}, Recovering, false, log), cfg);
    t := Go(t, Step(0, false), One(up, multiset{}, Recovering, false, log), One(up, multiset{}, Confirming, false, log), cfg);
    t := Go(t, Step(0, false), One(up, multiset{}, Confirming, false, log), One(up, multiset{}, Setting, false, log), cfg);
    t := Go(t, Step(0, false), One(up, multiset{}, Setting, false, log), One(on, multiset{}, Arming, false, log), cfg);
    t := Go(t, Step(0, false), One(on, multiset{}, Arming, false, log), One(on, multiset{}, Done(true), false, log), cfg);
    t := Go(t, StreamDown, One(on, multiset{}, Done(true), false, log), One(on.Down(), multiset{}, Done(true), false, log), cfg);
  }

  function Two(gate: Gate, calls: multiset<nat>, at: At, awaiting: bool, log: Log): State {
    State(gate, calls, 0, map[0 := Handler(Done(true), Some(true), TV), 1 := Handler(at, Some(true), TV)], awaiting, log)
  }

  const ARMED := QUIET.Activated(true, TV).Armed(true)
  const ONE := multiset{1}

  /** The first handler has armed the watchdog. */
  lemma FirstArmed() returns (t: Trace)
    ensures Legal(t, ENTERTAINING) && End(t, ENTERTAINING) == One(ARMED, ONE, Done(true), true, Empty)
  {
    var cfg := ENTERTAINING;
    var on := QUIET.Activated(true, TV);
    t := Go(Start, Request(0, Some(true), TV), INIT, One(QUIET, multiset{}, Recovering, false, Empty), cfg);
    t := Go(t, Step(0, false), One(QUIET, multiset{}, Recovering, false, Empty), One(QUIET, multiset{}, Confirming, false, Empty), cfg);
    t := Go(t, Step(0, false), One(QUIET, multiset{}, Confirming, false, Empty), One(QUIET, multiset{}, Setting, false, Empty), cfg);
    t := Go(t, Step(0, false), One(QUIET, multiset{}, Setting, false, Empty), One(on, multiset{}, Arming, false, Empty), cfg);
    assert multiset{} + multiset{1} == ONE;
    t := Go(t, Step(0, false), One(on, multiset{}, Arming, false, Empty), One(ARMED, ONE, Done(true), true, Empty), cfg);
  }

  /** A second has found nothing latched. */
  lemma SecondChecked() returns (t: Trace)
    ensures Legal(t, ENTERTAINING) && End(t, ENTERTAINING) == Two(ARMED, ONE, Setting, true, Empty)
  {
    var cfg := ENTERTAINING;
    t := FirstArmed();
    t := Go(t, Request(1, Some(true), TV), One(ARMED, ONE, Done(true), true, Empty), Two(ARMED, ONE, Recovering, true, Empty), cfg);
    t := Go(t, Step(1, false), Two(ARMED, ONE, Recovering, true, Empty), Two(ARMED, ONE, Confirming, true, Empty), cfg);
    t := Go(t, Step(1, false), Two(ARMED, ONE, Confirming, true, Empty), Two(ARMED, ONE, Setting, true, Empty), cfg);
  }

  /** A handler that checked before the latch sets the group active after it. */
  lemma ActiveAfterLatch() returns (t: Trace)
    ensures Legal(t, ENTERTAINING)
    ensures var s := End(t, ENTERTAINING); s.gate.active && s.gate.fallback && !Trying(s.handlers)
  {
    var cfg := ENTERTAINING;
    t := SecondChecked();
    var latched, log := ARMED.Fired(1, 0), Add(Empty, Latched(0));
    assert ONE - multiset{1} == multiset{};
    t := Go(t, Deliver(1), Two(ARMED, ONE, Setting, true, Empty), Two(latched, multiset{}, Setting, true, log), cfg);
    var late := latched.Activated(true, TV);
    t := Go(t, Step(1, false), Two(latched, multiset{}, Setting, true, log), Two(late, multiset{}, Arming, true, log), cfg);
    t := Go(t, Step(1, false), Two(late, multiset{}, Arming, true, log), Two(late, multiset{}, Done(true), true, log), cfg);
  }

  // -------------------------------------------- one handler without interruption

  /** An uninterrupted handler does to the gate what GroupUpdate does. */
  lemma HandlerIsGroupUpdate(s: State, n: nat, req: Option<bool>, user: User, cfg: Settings)
    requires n in s.handlers && s.handlers[n] == Handler(Recovering, req, user)
    ensures var t1 := Apply(s, Step(n, false), cfg);
            var t2 := Apply(t1, Step(n, false), cfg);
            if t2.handlers[n].at.Done? then t2.gate == s.gate.Updated(cfg, req, user, s.now)
            else Apply(Apply(t2, Step(n, false), cfg), Step(n, false), cfg).gate == s.gate.Updated(cfg, req, user, s.now)
  {
  }

  /** The handler of a group update, run from start to end without interruption. */
  function Handled(s: State, n: nat, cfg: Settings): State
    requires n in s.handlers && s.handlers[n].at.Recovering?
  {
    var checked := Apply(Apply(s, Step(n, false), cfg), Step(n, false), cfg);
    if checked.handlers[n].at.Done? then checked else Apply(Apply(checked, Step(n, false), cfg), Step(n, false), cfg)
  }

  lemma HandledGate(s: State, n: nat, cfg: Settings)
    requires n in s.handlers && s.handlers[n].at.Recovering?
    ensures n in Handled(s, n, cfg).handlers && Handled(s, n, cfg).handlers[n].at.Done?
    ensures Handled(s, n, cfg).gate == s.gate.Updated(cfg, s.handlers[n].req, s.handlers[n].user, s.now)
    ensures Handled(s, n, cfg).handlers[n].at.confirmed <==>
            cfg.entertainment && s.handlers[n].req.Some? && !Handled(s, n, cfg).gate.fallback
  {
  }

  /** Entertainment is on, and nothing is latched, or a positive cooldown has passed since. */
  predicate Welcome(gate: Gate, now: int, cfg: Settings) {
    cfg.entertainment && (gate.fallback ==> cfg.cooldown > 0 && now >= gate.fallbackAt + cfg.cooldown)
  }

  lemma UpdatedOn(gate: Gate, user: User, now: int, cfg: Settings)
    ensures var d := gate.Updated(cfg, Some(true), user, now);
            && (Welcome(gate, now, cfg) <==> cfg.entertainment && !d.fallback)
            && (Welcome(gate, now, cfg) ==> d.active && d.owner == user && d.streamUp == gate.streamUp)
            && (Welcome(gate, now, cfg) && !gate.streamUp ==> d.gen == gate.gen + 1)
            && (!Welcome(gate, now, cfg) ==> d == gate)
  {
  }

  lemma UpdatedOff(gate: Gate, user: User, now: int, cfg: Settings)
    ensures var d := gate.Updated(cfg, Some(false), user, now);
            if cfg.entertainment && !gate.fallback then !d.active && d.owner == NOBODY && !d.fallback && d.gen == gate.gen + 1 else d == gate
  {
  }

  lemma HandledCalls(s: State, n: nat, cfg: Settings)
    requires n in s.handlers && s.handlers[n].at.Recovering? && s.handlers[n].req.Some?
    ensures var h, done := s.handlers[n], Handled(s, n, cfg);
            && (!(cfg.entertainment && !done.gate.fallback) ==> done.calls == s.calls)
            && (cfg.entertainment && !done.gate.fallback && h.req.value && !s.gate.streamUp ==> s.gate.gen + 1 in done.calls)
            && (cfg.entertainment && !done.gate.fallback && !h.req.value ==> done.calls == s.calls)
  {
    HandledGate(s, n, cfg);
  }

  /**
   * An activation is confirmed exactly in entertainment mode and with nothing latched, or
   * as soon as a positive cooldown has passed since the latch; then the group is active for
   * its user, nothing is latched, and if the stream is down a callback is on its way. Not
   * confirmed, it changes nothing.
   */
  lemma ActivationConfirmedIff(t: Trace, n: nat, cfg: Settings)
    requires Legal(t, cfg) && n in End(t, cfg).handlers
    requires End(t, cfg).handlers[n].at.Recovering? && End(t, cfg).handlers[n].req == Some(true)
    ensures var s, done := End(t, cfg), Handled(End(t, cfg), n, cfg);
            && n in done.handlers && done.handlers[n].at.Done?
            && (done.handlers[n].at.confirmed <==> Welcome(s.gate, s.now, cfg))
            && (done.handlers[n].at.confirmed ==>
                  && done.gate.active && done.gate.owner == s.handlers[n].user && !done.gate.fallback
                  && (s.gate.streamUp || Live(done.gate, done.calls)))
            && (!done.handlers[n].at.confirmed ==> done.gate == s.gate && done.calls == s.calls)
    ensures End(t, cfg).gate.fallback ==> LastLatch(End(t, cfg).log) == Some(End(t, cfg).gate.fallbackAt)
  {
    var s := End(t, cfg);
    AlwaysInv(t, cfg);
    HandledGate(s, n, cfg);
    HandledCalls(s, n, cfg);
    UpdatedOn(s.gate, s.handlers[n].user, s.now, cfg);
  }

  /** A deactivation is confirmed in entertainment mode with nothing latched, and leaves the group inactive and unwatched. */
  lemma DeactivationConfirmedIff(t: Trace, n: nat, cfg: Settings)
    requires Legal(t, cfg) && n in End(t, cfg).handlers
    requires End(t, cfg).handlers[n].at.Recovering? && End(t, cfg).handlers[n].req == Some(false)
    ensures var s, done := End(t, cfg), Handled(End(t, cfg), n, cfg);
            && n in done.handlers && done.handlers[n].at.Done?
            && (done.handlers[n].at.confirmed <==> cfg.entertainment && !s.gate.fallback)
            && (done.handlers[n].at.confirmed ==>
                  !done.gate.active && done.gate.owner == NOBODY && !Live(done.gate, done.calls))
            && (!done.handlers[n].at.confirmed ==> done.gate == s.gate && done.calls == s.calls)
  {
    var s := End(t, cfg);
    AlwaysInv(t, cfg);
    HandledGate(s, n, cfg);
    HandledCalls(s, n, cfg);
    UpdatedOff(s.gate, s.handlers[n].user, s.now, cfg);
  }

  /** The callback still live can be delivered, and its delivery latches the fallback and deactivates the group, then and there. */
  lemma LiveLatches(t: Trace, cfg: Settings)
    requires Legal(t, cfg) && Live(End(t, cfg).gate, End(t, cfg).calls)
    ensures var s := End(t, cfg);
            && Enabled(s, Deliver(s.gate.gen))
            && var n := Apply(s, Deliver(s.gate.gen), cfg);
               n.gate.fallback && n.gate.fallbackAt == s.now && !n.gate.active && n.gate.owner == NOBODY && n.log == Add(s.log, Latched(s.now))
  {
    AlwaysInv(t, cfg);
  }

  /** The log holds exactly the latches, each with its time, and the stream-ups. */
  lemma LatchesAreLogged(s: State, a: Action, cfg: Settings)
    requires Enabled(s, a)
    ensures Apply(s, a, cfg).log ==
            if a.StreamUp? then Add(s.log, CameUp)
            else if a.Deliver? && !s.gate.streamUp && a.g == s.gate.gen then Add(s.log, Latched(s.now))
            else s.log
    ensures Apply(s, a, cfg).gate.fallback && !s.gate.fallback ==> a.Deliver? && !s.gate.streamUp && a.g == s.gate.gen
  {
  }

  /** `u` goes on from `t` with the stream staying up. */
  predicate NoStreamDown(t: Trace, u: Trace) {
    u == t || (u.Then? && !u.a.StreamDown? && NoStreamDown(t, u.before))
  }

  lemma UpStep(s: State, a: Action, cfg: Settings)
    requires Enabled(s, a) && s.gate.streamUp && !s.gate.fallback && !a.StreamDown?
    ensures Apply(s, a, cfg).gate.streamUp && !Apply(s, a, cfg).gate.fallback
  {
  }

  /** From a stream-up until the stream closes, nothing latches, whatever callbacks come. */
  lemma {:induction false} UpNeverLatches(t: Trace, u: Trace, cfg: Settings)
    requires Legal(t, cfg) && Legal(u, cfg) && NoStreamDown(t, u) && t.Then? && t.a.StreamUp?
    ensures End(u, cfg).gate.streamUp && !End(u, cfg).gate.fallback
  {
    if u != t {
      UpNeverLatches(t, u.before, cfg);
      UpStep(End(u.before, cfg), u.a, cfg);
    }
  }

  /** The stream flag is what the last stream event said. */
  predicate StreamSaid(t: Trace) {
    t.Then? && (t.a.StreamUp? || (!t.a.StreamDown? && StreamSaid(t.before)))
  }

  lemma HandlerLeavesFlag(h: Handler, gate: Gate, now: int, cfg: Settings)
    ensures HandlerGate(h, gate, now, cfg).streamUp == gate.streamUp
  {
  }

  lemma FlagStep(s: State, a: Action, cfg: Settings)
    requires Enabled(s, a)
    ensures Apply(s, a, cfg).gate.streamUp == (a.StreamUp? || (!a.StreamDown? && s.gate.streamUp))
  {
    if a.Step? {
      HandlerLeavesFlag(s.handlers[a.n], s.gate, s.now, cfg);
    }
  }

  lemma {:induction false} FlagTellsStream(t: Trace, cfg: Settings)
    requires Legal(t, cfg)
    ensures End(t, cfg).gate.streamUp == StreamSaid(t)
  {
    if t.Then? {
      FlagTellsStream(t.before, cfg);
      FlagStep(End(t.before, cfg), t.a, cfg);
    }
  }

  /** A group update that says nothing about the stream leaves everything as it is. */
  lemma NothingAsked(t: Trace, n: nat, cfg: Settings)
    requires Legal(t, cfg) && n in End(t, cfg).handlers
    requires End(t, cfg).handlers[n].at.Recovering? && End(t, cfg).handlers[n].req.None?
    ensures var s, done := End(t, cfg), Handled(End(t, cfg), n, cfg);
            n in done.handlers && done.handlers[n].at == Done(false) && done.gate == s.gate && done.calls == s.calls
  {
    HandledGate(End(t, cfg), n, cfg);
  }

  /** The time that has passed. */
  function Passed(t: Trace): nat {
    if t.Start? then 0 else Passed(t.before) + if t.a.Pass? then t.a.d else 0
  }

  lemma {:induction false} NowIsPassed(t: Trace, cfg: Settings)
    requires Legal(t, cfg)
    ensures End(t, cfg).now == Passed(t)
  {
    if t.Then? {
      NowIsPassed(t.before, cfg);
    }
  }
}
