/**
 * The resource protocol of the streamer (entertainment/streamer.go: Start, Stop, run,
 * establish, sendLoop, teardown).
 *
 * The receiver calls Start and Stop; between them one run goroutine activates a stream on
 * the Pro, dials a connection, sends on it, and tears down and retries when sending
 * fails. Steps are critical sections, Pro calls, and the begin and return of callbacks;
 * every reply is chosen freely.
 */
module StreamRun {
  import opened Common
  import R = Receiver

  datatype Client = Client(n: nat)
  datatype ConfigID = ConfigID(text: string)
  datatype Conn = Conn(n: nat)

  /** A configuration of one Pro, as StartStream and StopStream name it. */
  datatype Stream = Stream(pro: Client, id: ConfigID)

  datatype Path = Unset | Rest | Dtls

  const NO_ID := ConfigID("")

  predicate Named(id: ConfigID) {
    id.text != ""
  }

  /** The part of the streamer's state that names the live stream. */
  datatype Live = Live(conn: Option<Conn>, pro: Option<Client>, id: ConfigID, path: Path) {
    function Cleared(): Live { Live(None, None, NO_ID, Rest) }

    function Published(x: Stream, conn: Conn): Live { Live(Some(conn), Some(x.pro), x.id, Dtls) }

    /** The stream a teardown stops after closing the connection. */
    function Stops(): set<Stream> {
      if pro.Some? && Named(id) then {Stream(pro.value, id)} else {}
    }

    /** The stream that is live. */
    function Streams(): set<Stream> {
      if pro.Some? then {Stream(pro.value, id)} else {}
    }

    function Conns(): set<Conn> {
      if conn.Some? then {conn.value} else {}
    }
  }

  const NOTHING := Live(None, None, NO_ID, Unset)

  /** What the calls of one establish attempt answer. */
  datatype Replies = Replies(
    pro: Option<Client>,        // resolve
    id: Option<ConfigID>,       // ensureConfig
    first: bool,                // StartStream
    second: bool,               // StartStream after a StopStream
    conn: Option<Conn>)         // dial
  {
    predicate Configured() { pro.Some? && id.Some? }

    function Target(): Stream
      requires Configured()
    {
      Stream(pro.value, id.value)
    }

    predicate Activates() { Configured() && (first || second) }

    predicate Connects() { Activates() && conn.Some? }
  }

  /**
   * The streamer's fields. The methods up to FallBack are its critical sections, Establish
   * and Teardown the sequences around them; `open` and `owed` record the connections not
   * closed and the activated streams with no StopStream since.
   */
  class Streamer {
    var running: bool
    var conn: Option<Conn>
    var pro: Option<Client>
    var configID: ConfigID
    var path: Path
    ghost var open: set<Conn>
    ghost var owed: set<Stream>

    ghost function View(): Live
      reads this
    {
      Live(conn, pro, configID, path)
    }

    constructor ()
      ensures View() == NOTHING && !running && open == {} && owed == {}
    {
      running, conn, pro, configID, path := false, None, None, NO_ID, Unset;
      open, owed := {}, {};
    }

    /** Start; `usable` tells whether a pairing could be resolved. */
    method Start(usable: bool) returns (spawn: bool)
      modifies this`running, this`path
      ensures spawn <==> !old(running) && usable
      ensures running <==> old(running) || usable
      ensures View() == if old(running) || usable then old(View()) else old(View()).(path := Rest)
    {
      if running {
        return false;
      }
      if !usable {
        path := Rest;
        return false;
      }
      running := true;
      return true;
    }

    /** The last section of establish. */
    method Publish(x: Stream, conn: Conn)
      modifies this`conn, this`pro, this`configID, this`path
      ensures View() == old(View()).Published(x, conn)
    {
      this.conn, this.pro, this.configID, this.path := Some(conn), Some(x.pro), x.id, Dtls;
    }

    /** The section of teardown: take what is live and forget it. */
    method Clear() returns (taken: Live)
      modifies this`conn, this`pro, this`configID, this`path
      ensures taken == old(View()) && View() == old(View()).Cleared()
    {
      taken := Live(conn, pro, configID, path);
      conn, pro, configID, path := None, None, NO_ID, Rest;
    }

    /** setPath("rest"). */
    method FallBack()
      modifies this`path
      ensures View() == old(View()).(path := Rest)
    {
      path := Rest;
    }

    method StartStream(x: Stream, accepted: bool)
      modifies this`owed
      ensures owed == if accepted then old(owed) + {x} else old(owed)
    {
      owed := if accepted then owed + {x} else owed;
    }

    method StopStream(x: Stream)
      modifies this`owed
      ensures owed == old(owed) - {x}
    {
      owed := owed - {x};
    }

    /**
     * establish: it succeeds exactly when a stream could be activated and dialled, and a
     * failed attempt leaves no connection and no activation of its own.
     */
    method Establish(r: Replies) returns (ok: bool)
      modifies this
      ensures ok <==> r.Connects()
      ensures ok ==>
                && View() == old(View()).Published(r.Target(), r.conn.value)
                && open == old(open) + {r.conn.value} && owed == old(owed) + {r.Target()}
      ensures !ok ==> View() == old(View()) && open == old(open)
      ensures !ok ==> owed == if r.Configured() then old(owed) - {r.Target()} else old(owed)
      ensures running == old(running)
    {
      if r.pro.None? || r.id.None? {
        return false;
      }
      var x := Stream(r.pro.value, r.id.value);
      StartStream(x, r.first);
      if !r.first {
        StopStream(x);
        StartStream(x, r.second);
        if !r.second {
          return false;
        }
      }
      if r.conn.None? {
        StopStream(x);
        return false;
      }
      open := open + {r.conn.value};
      Publish(x, r.conn.value);
      return true;
    }

    /** teardown: everything live is closed and stopped, an empty configuration id excepted. */
    method Teardown()
      modifies this
      ensures View() == old(View()).Cleared() && running == old(running)
      ensures open == old(open) - old(View()).Conns()
      ensures owed == old(owed) - old(View()).Stops()
    {
      var taken := Clear();
      if taken.conn.Some? {
        open := open - {taken.conn.value};
      }
      if taken.id.text != "" && taken.pro.Some? {
        StopStream(Stream(taken.pro.value, taken.id));
      }
    }
  }

  /** Where the run goroutine stands; Off when there is none. */
  datatype Pc =
    | Off
    | Check
    | Resolving
    | Configuring(pro: Client)
    | Starting(x: Stream)
    | Restopping(x: Stream)
    | Restarting(x: Stream)
    | Dialling(x: Stream)
    | DialFailed(x: Stream)
    | Publishing(x: Stream, conn: Conn)
    | FallingBack
    | Sleeping
    | Sending
    | Writing(conn: Conn)
    | Clearing
    | Closing(taken: Live)
    | Ceasing(taken: Live)
  {
    /** Connections in the hands of the goroutine. */
    function Conns(): set<Conn> {
      match this
      case Publishing(_, conn) => {conn}
      case Closing(taken) => taken.Conns()
      case _ => {}
    }

    /** Activated streams in the hands of the goroutine. */
    function Streams(): set<Stream> {
      match this
      case Dialling(x) => {x}
      case DialFailed(x) => {x}
      case Publishing(x, _) => {x}
      case Closing(taken) => taken.Streams()
      case Ceasing(taken) => taken.Streams()
      case _ => {}
    }

    /** The send loop, where a connection is published. */
    predicate Up() { Sending? || Writing? || Clearing? }
  }

  /** Where the receiver's callback stands. */
  datatype Call =
    | NoCall
    | InStart
    | InStop
    | Joining
    | StopClearing
    | StopClosing(taken: Live)
    | StopCeasing(taken: Live)
    | Returning
  {
    function Conns(): set<Conn> {
      if StopClosing? then taken.Conns() else {}
    }

    function Streams(): set<Stream> {
      if StopClosing? || StopCeasing? then taken.Streams() else {}
    }

    /** Stop holds what it took from the joined run. */
    predicate Torn() { StopClosing? || StopCeasing? }

    predicate Stops() { InStop? || Joining? || StopClearing? || Torn() }
  }

  datatype State = State(
    log: R.Log,          // callbacks begun and returned
    call: Call,
    running: bool,
    cancelled: bool,     // the context of the newest run
    pc: Pc,
    live: Live,
    open: set<Conn>,     // dialled and not closed
    owed: set<Stream>)   // activated with no StopStream since

  datatype Action =
    // the receiver's goroutine
    | Callback(e: R.Event)
    | StartBody(usable: bool)
    | Cancel
    | Join
    | StopClear
    | StopClose
    | StopCease
    // the run goroutine
    | Loop
    | Resolved(pro: Option<Client>)
    | Configured(id: Option<ConfigID>)
    | StartReply(ok: bool)
    | Restop
    | RestartReply(ok: bool)
    | Dialled(conn: Option<Conn>)
    | DialStop
    | Publish
    | FallBack
    | Wake(early: bool)
    | Tick(empty: bool)
    | Written(ok: bool)
    | SendCancelled
    | Clear
    | Close
    | Cease

  const INIT := State(R.Empty, NoCall, false, false, Off, NOTHING, {}, {})

  /** Whether the receiver may begin or return from the callback. */
  predicate MayCall(log: R.Log, call: Call, e: R.Event) {
    && R.After(R.Add(log, e)) != R.Broken
    && !e.Frame?
    && (e.StartEnded? || e.StopEnded? ==> call.Returning?)
  }

  predicate Enabled(s: State, a: Action) {
    match a
    case Callback(e) => MayCall(s.log, s.call, e)
    case StartBody(_) => s.call.InStart?
    case Cancel => s.call.InStop?
    case Join => s.call.Joining? && s.pc.Off?
    case StopClear => s.call.StopClearing?
    case StopClose => s.call.StopClosing?
    case StopCease => s.call.StopCeasing?
    case Loop => s.pc.Check?
    case Resolved(_) => s.pc.Resolving?
    case Configured(_) => s.pc.Configuring?
    case StartReply(_) => s.pc.Starting?
    case Restop => s.pc.Restopping?
    case RestartReply(_) => s.pc.Restarting?
    case Dialled(conn) => s.pc.Dialling? && (conn.Some? ==> conn.value !in s.open)
    case DialStop => s.pc.DialFailed?
    case Publish => s.pc.Publishing?
    case FallBack => s.pc.FallingBack?
    case Wake(early) => s.pc.Sleeping? && (early ==> s.cancelled)
    case Tick(_) => s.pc.Sending?
    case Written(_) => s.pc.Writing?
    case SendCancelled => s.pc.Sending? && s.cancelled
    case Clear => s.pc.Clearing?
    case Close => s.pc.Closing?
    case Cease => s.pc.Ceasing?
  }

  function NextCall(call: Call, a: Action, live: Live): Call {
    match a
    case Callback(e) => if e.StartBegan? then InStart else if e.StopBegan? then InStop else NoCall
    case StartBody(_) => Returning
    case Cancel => Joining
    case Join => StopClearing
    case StopClear => StopClosing(live)
    case StopClose => if call.StopClosing? then StopCeasing(call.taken) else call
    case StopCease => Returning
    case _ => call
  }

  function NextPc(s: State, a: Action): Pc {
    match a
    case StartBody(usable) => if !s.running && usable then Check else s.pc
    case Loop => if s.cancelled then Off else Resolving
    case Resolved(pro) => if pro.Some? then Configuring(pro.value) else FallingBack
    case Configured(id) => if id.Some? && s.pc.Configuring? then Starting(Stream(s.pc.pro, id.value)) else FallingBack
    case StartReply(ok) => if !s.pc.Starting? then s.pc else if ok then Dialling(s.pc.x) else Restopping(s.pc.x)
    case Restop => if s.pc.Restopping? then Restarting(s.pc.x) else s.pc
    case RestartReply(ok) => if ok && s.pc.Restarting? then Dialling(s.pc.x) else FallingBack
    case Dialled(conn) => if !s.pc.Dialling? then s.pc else if conn.Some? then Publishing(s.pc.x, conn.value) else DialFailed(s.pc.x)
    case DialStop => FallingBack
    case Publish => Sending
    case FallBack => Sleeping
    case Wake(early) => if early then Off else Check
    case Tick(empty) => if s.live.conn.None? then Check else if empty then Sending else Writing(s.live.conn.value)
    case Written(ok) => if ok then Sending else Clearing
    case SendCancelled => Check
    case Clear => Closing(s.live)
    case Close => if s.pc.Closing? then Ceasing(s.pc.taken) else s.pc
    case Cease => Check
    case _ => s.pc
  }

  function NextLive(s: State, a: Action): Live {
    match a
    case StartBody(usable) => if s.running || usable then s.live else s.live.(path := Rest)
    case Publish => if s.pc.Publishing? then s.live.Published(s.pc.x, s.pc.conn) else s.live
    case FallBack => s.live.(path := Rest)
    case Clear => s.live.Cleared()
    case StopClear => s.live.Cleared()
    case _ => s.live
  }

  function NextOpen(s: State, a: Action): set<Conn> {
    match a
    case Dialled(conn) => if conn.Some? then s.open + {conn.value} else s.open
    case Close => if s.pc.Closing? then s.open - s.pc.taken.Conns() else s.open
    case StopClose => if s.call.StopClosing? then s.open - s.call.taken.Conns() else s.open
    case _ => s.open
  }

  function NextOwed(s: State, a: Action): set<Stream> {
    match a
    case StartReply(ok) => if ok && s.pc.Starting? then s.owed + {s.pc.x} else s.owed
    case RestartReply(ok) => if ok && s.pc.Restarting? then s.owed + {s.pc.x} else s.owed
    case Restop => if s.pc.Restopping? then s.owed - {s.pc.x} else s.owed
    case DialStop => if s.pc.DialFailed? then s.owed - {s.pc.x} else s.owed
    case Cease => if s.pc.Ceasing? then s.owed - s.pc.taken.Stops() else s.owed
    case StopCease => if s.call.StopCeasing? then s.owed - s.call.taken.Stops() else s.owed
    case _ => s.owed
  }

  function Apply(s: State, a: Action): State
    requires Enabled(s, a)
  {
    State(if a.Callback? then R.Add(s.log, a.e) else s.log,
          NextCall(s.call, a, s.live),
          if a.StartBody? then s.running || a.usable else if a.Cancel? then false else s.running,
          if a.StartBody? && !s.running && a.usable then false else s.cancelled || a.Cancel?,
          NextPc(s, a), NextLive(s, a), NextOpen(s, a), NextOwed(s, a))
  }

  datatype Trace = Begin | Then(before: Trace, a: Action)

  predicate Legal(t: Trace)
    decreases t, 0
  {
    t.Then? ==> Legal(t.before) && Enabled(End(t.before), t.a)
  }

  function End(t: Trace): State
    requires Legal(t)
    decreases t, 1
  {
    if t.Begin? then INIT else Apply(End(t.before), t.a)
  }

  /** Steps of the run goroutine; the others are the receiver's. */
  predicate ByRun(a: Action) {
    !a.Callback? && !a.StartBody? && !a.Cancel? && !a.Join? && !a.StopClear? && !a.StopClose? && !a.StopCease?
  }

  // ------------------------------------------------------------- invariants

  /** One callback at a time, and one run between a Start and the Stop that joins it. */
  predicate Serial(log: R.Log, call: Call, running: bool, cancelled: bool, pc: Pc) {
    var sink := R.After(log);
    && sink != R.Broken
    && (call.NoCall? <==> sink.Free? || sink.Started?)
    && (call.InStart? ==> sink.Starting? && !running && pc.Off?)
    && (call.Stops() ==> sink.Stopping? && (call.InStop? || cancelled))
    && (sink.Free? || (sink.Stopping? && !call.InStop?) ==> !running)
    && (running ==> !cancelled && !pc.Off?)
    && (!running && !pc.Off? ==> call.Joining? && cancelled)
  }

  /** The path is "dtls" exactly while a connection is held, and by whom it is used. */
  predicate Holds(call: Call, cancelled: bool, pc: Pc, live: Live) {
    && (live.path.Dtls? <==> live.conn.Some?)
    && (live.conn.Some? <==> live.pro.Some?)
    && (live.conn.Some? ==> pc.Up() || (pc.Check? && cancelled) || (pc.Off? && (call.Joining? || call.StopClearing?)))
    && (pc.Up() ==> live.conn.Some?)
    && (pc.Sleeping? ==> live.path.Rest?)
    && (pc.Writing? ==> live.conn == Some(pc.conn))
    && (pc.Closing? || pc.Ceasing? ==> pc.taken.conn.Some? && pc.taken.pro.Some?)
    && (call.Torn() ==> (call.taken.conn.Some? <==> call.taken.pro.Some?))
  }

  /** Every open connection is published, or in the hands of the one who opened or closes it. */
  ghost predicate OpenIs(open: set<Conn>, call: Call, pc: Pc, live: Live) {
    open == pc.Conns() + call.Conns() + live.Conns()
  }

  /** Likewise the activated streams, but for those with an empty id. */
  ghost predicate OwedIs(owed: set<Stream>, call: Call, pc: Pc, live: Live) {
    && (forall x :: x in owed && Named(x.id) ==> x in pc.Streams() + call.Streams() + live.Streams())
    && pc.Streams() + call.Streams() + live.Streams() <= owed
  }

  ghost predicate Inv(s: State) {
    && Serial(s.log, s.call, s.running, s.cancelled, s.pc)
    && Holds(s.call, s.cancelled, s.pc, s.live)
    && OpenIs(s.open, s.call, s.pc, s.live)
    && OwedIs(s.owed, s.call, s.pc, s.live)
  }

  lemma SerialKept(s: State, a: Action)
    requires Enabled(s, a) && Serial(s.log, s.call, s.running, s.cancelled, s.pc)
    ensures var n := Apply(s, a); Serial(n.log, n.call, n.running, n.cancelled, n.pc)
  {
  }

  lemma HoldsKeptByRun(s: State, a: Action)
    requires Enabled(s, a) && Inv(s) && ByRun(a)
    ensures var n := Apply(s, a); Holds(n.call, n.cancelled, n.pc, n.live)
  {
  }

  lemma HoldsKeptByCall(s: State, a: Action)
    requires Enabled(s, a) && Inv(s) && !ByRun(a)
    ensures var n := Apply(s, a); Holds(n.call, n.cancelled, n.pc, n.live)
  {
  }

  lemma OpenKept(s: State, a: Action)
    requires Enabled(s, a) && Inv(s)
    ensures var n := Apply(s, a); OpenIs(n.open, n.call, n.pc, n.live)
  {
  }

  lemma OwedKeptByRun(s: State, a: Action)
    requires Enabled(s, a) && Inv(s) && ByRun(a)
    ensures var n := Apply(s, a); OwedIs(n.owed, n.call, n.pc, n.live)
  {
  }

  lemma OwedKeptByCall(s: State, a: Action)
    requires Enabled(s, a) && Inv(s) && !ByRun(a)
    ensures var n := Apply(s, a); OwedIs(n.owed, n.call, n.pc, n.live)
  {
  }

  lemma {:induction false} AlwaysInv(t: Trace)
    requires Legal(t)
    ensures Inv(End(t))
  {
    if t.Then? {
      var s := End(t.before);
      AlwaysInv(t.before);
      SerialKept(s, t.a);
      OpenKept(s, t.a);
      if ByRun(t.a) {
        HoldsKeptByRun(s, t.a);
        OwedKeptByRun(s, t.a);
      } else {
        HoldsKeptByCall(s, t.a);
        OwedKeptByCall(s, t.a);
      }
    }
  }

  // --------------------------------------------------------------- theorems

  /** The path reads "dtls" exactly while a connection is held, and there is at most one. */
  lemma PathTellsConnection(t: Trace)
    requires Legal(t)
    ensures End(t).live.path.Dtls? <==> End(t).live.conn.Some?
    ensures |End(t).open| <= 1
  {
    AlwaysInv(t);
  }

  /** A datagram goes to the one open connection, and its stream is activated and not yet stopped. */
  lemma SendsOnLiveStream(t: Trace)
    requires Legal(t) && End(t).pc.Writing?
    ensures var s := End(t);
            && s.open == {s.pc.conn} && s.live.pro.Some?
            && Stream(s.live.pro.value, s.live.id) in s.owed
  {
    AlwaysInv(t);
    var s := End(t);
    assert Stream(s.live.pro.value, s.live.id) in s.live.Streams();
  }

  /** No Start is under way and none has been made since the last Stop. */
  predicate AtRest(s: State) {
    R.After(s.log).Free? || (R.After(s.log).Stopping? && s.call.Returning?)
  }

  /**
   * When Stop returns, the run has ended, every dialled connection is closed, and every
   * activated stream with a non-empty id has been stopped on the same client and id.
   */
  lemma StopSettles(t: Trace)
    requires Legal(t) && AtRest(End(t))
    ensures End(t).pc.Off? && End(t).open == {} && !End(t).live.path.Dtls?
    ensures forall x :: x in End(t).owed ==> !Named(x.id)
  {
    AlwaysInv(t);
  }

  /** The Pro never handed out an empty configuration id. */
  predicate IdsNamed(t: Trace) {
    t.Then? ==> IdsNamed(t.before) && (t.a.Configured? && t.a.id.Some? ==> Named(t.a.id.value))
  }

  predicate Names(pc: Pc) {
    && (pc.Starting? || pc.Restopping? || pc.Restarting? ==> Named(pc.x.id))
  }

  lemma {:induction false} NamedKept(t: Trace)
    requires Legal(t) && IdsNamed(t)
    ensures Names(End(t).pc) && forall x :: x in End(t).owed ==> Named(x.id)
  {
    if t.Then? {
      NamedKept(t.before);
    }
  }

  /** With non-empty ids nothing stays active: every activation has had its StopStream. */
  lemma NothingLeftActive(t: Trace)
    requires Legal(t) && AtRest(End(t)) && IdsNamed(t)
    ensures End(t).open == {} && End(t).owed == {}
  {
    StopSettles(t);
    NamedKept(t);
  }

  /** The steps that activate the stream, given the replies. */
  function Activation(t: Trace, r: Replies): Trace
    requires r.Configured()
  {
    var started := Then(Then(Then(t, Resolved(r.pro)), Configured(r.id)), StartReply(r.first));
    if r.first then started else Then(Then(started, Restop), RestartReply(r.second))
  }

  /** The steps of one establish attempt. */
  function Attempt(t: Trace, r: Replies): Trace {
    if r.pro.None? then Then(t, Resolved(None))
    else if r.id.None? then Then(Then(t, Resolved(r.pro)), Configured(None))
    else if !r.Activates() then Activation(t, r)
    else Then(Then(Activation(t, r), Dialled(r.conn)), if r.conn.None? then DialStop else Publish)
  }

  /** What a run step may change. */
  predicate Stands(t: Trace, pc: Pc, live: Live, open: set<Conn>, owed: set<Stream>) {
    Legal(t) && End(t).pc == pc && End(t).live == live && End(t).open == open && End(t).owed == owed
  }

  lemma FirstStands(t: Trace, x: Stream, ok: bool, live: Live, open: set<Conn>, owed: set<Stream>)
    requires Stands(t, Resolving, live, open, owed)
    ensures var u := Then(Then(Then(t, Resolved(Some(x.pro))), Configured(Some(x.id))), StartReply(ok));
            && (ok ==> Stands(u, Dialling(x), live, open, owed + {x}))
            && (!ok ==> Stands(u, Restopping(x), live, open, owed))
  {
    var resolved := Then(t, Resolved(Some(x.pro)));
    assert Stands(resolved, Configuring(x.pro), live, open, owed);
    assert Stands(Then(resolved, Configured(Some(x.id))), Starting(x), live, open, owed);
  }

  lemma SecondStands(t: Trace, x: Stream, ok: bool, live: Live, open: set<Conn>, owed: set<Stream>)
    requires Stands(t, Restopping(x), live, open, owed)
    ensures var u := Then(Then(t, Restop), RestartReply(ok));
            && (ok ==> Stands(u, Dialling(x), live, open, owed - {x} + {x}))
            && (!ok ==> Stands(u, FallingBack, live, open, owed - {x}))
  {
    assert Stands(Then(t, Restop), Restarting(x), live, open, owed - {x});
  }

  lemma DialStands(t: Trace, x: Stream, conn: Option<Conn>, live: Live, open: set<Conn>, owed: set<Stream>)
    requires Stands(t, Dialling(x), live, open, owed) && (conn.Some? ==> conn.value !in open)
    ensures conn.None? ==> Stands(Then(Then(t, Dialled(conn)), DialStop), FallingBack, live, open, owed - {x})
    ensures conn.Some? ==>
              Stands(Then(Then(t, Dialled(conn)), Publish), Sending, live.Published(x, conn.value), open + {conn.value}, owed)
  {
    var dialled := Then(t, Dialled(conn));
    if conn.None? {
      assert Stands(dialled, DialFailed(x), live, open, owed);
    } else {
      assert Stands(dialled, Publishing(x, conn.value), live, open + {conn.value}, owed);
    }
  }

  /** A run's attempt does to the live state, the connections and the activations what Establish does. */
  lemma AttemptIsEstablish(t: Trace, r: Replies, live: Live, open: set<Conn>, owed: set<Stream>)
    requires Stands(t, Resolving, live, open, owed) && (r.conn.Some? ==> r.conn.value !in open)
    ensures r.Connects() ==>
              Stands(Attempt(t, r), Sending, live.Published(r.Target(), r.conn.value), open + {r.conn.value}, owed + {r.Target()})
    ensures !r.Connects() ==>
              Stands(Attempt(t, r), FallingBack, live, open, if r.Configured() then owed - {r.Target()} else owed)
  {
    if r.Configured() {
      var x := r.Target();
      FirstStands(t, x, r.first, live, open, owed);
      if !r.first {
        SecondStands(Then(Then(Then(t, Resolved(r.pro)), Configured(r.id)), StartReply(false)), x, r.second, live, open, owed);
      }
      if r.Activates() {
        assert owed - {x} + {x} == owed + {x};
        assert owed + {x} - {x} == owed - {x};
        DialStands(Activation(t, r), x, r.conn, live, open, owed + {x});
      }
    } else if r.pro.Some? {
      assert Stands(Then(t, Resolved(r.pro)), Configuring(r.pro.value), live, open, owed);
    }
  }

  // The guard of the last StopStream is what an empty id fails.

  /** The taken stream of a teardown, the run's or Stop's, that has reached its last call. */
  function Taken(s: State, a: Action): Option<Live> {
    if a.Cease? && s.pc.Ceasing? then Some(s.pc.taken)
    else if a.StopCease? && s.call.StopCeasing? then Some(s.call.taken)
    else None
  }

  /**
   * In every run, the end of a teardown leaves the stream that was live active exactly when
   * its configuration id is empty.
   */
  lemma LeakIffUnnamed(t: Trace, x: Stream)
    requires Legal(t) && t.Then? && Taken(End(t.before), t.a).Some?
    requires x in Taken(End(t.before), t.a).value.Streams()
    ensures x in End(t).owed <==> !Named(x.id)
  {
    AlwaysInv(t.before);
  }

  /** Every teardown of a published connection has such a stream, and a clear takes it. */
  lemma TeardownTakesLive(t: Trace)
    requires Legal(t) && t.Then? && (t.a.Clear? || t.a.StopClear?) && End(t.before).live.conn.Some?
    ensures var live := End(t.before).live;
            && live.pro.Some? && live.Streams() == {Stream(live.pro.value, live.id)}
            && (if t.a.Clear? then End(t).pc == Closing(live) else End(t).call == StopClosing(live))
  {
    AlwaysInv(t.before);
  }

  /**
   * Only a later attempt on the same client and id can still stop it: one whose StartStream
   * is rejected, or whose dial fails.
   */
  lemma LeftUntilNextAttempt(t: Trace, x: Stream)
    requires Legal(t) && t.Then? && x in End(t.before).owed && !Named(x.id)
    ensures x !in End(t).owed <==>
            (t.a.Restop? && End(t.before).pc.x == x) || (t.a.DialStop? && End(t.before).pc.x == x)
  {
  }

  /** A run that takes the step and then stands at `n`. */
  lemma Go(t: Trace, a: Action, s: State, n: State) returns (u: Trace)
    requires Legal(t) && End(t) == s && Enabled(s, a) && Apply(s, a) == n
    ensures u == Then(t, a) && Legal(u) && End(u) == n
  {
    u := Then(t, a);
  }

  const CALLED := R.Add(R.Empty, R.StartBegan(0))
  const UP := R.Add(CALLED, R.StartEnded(0))
  const DOWN := R.Add(UP, R.StopBegan(0))

  lemma Logs()
    ensures R.After(CALLED) == R.Starting(0) && R.After(UP) == R.Started(0) && R.After(DOWN) == R.Stopping(0)
  {
  }

  function Running(pc: Pc, live: Live, open: set<Conn>, owed: set<Stream>): State {
    State(CALLED, Returning, true, false, pc, live, open, owed)
  }

  /** The stream comes up at the first attempt. */
  lemma ComesUp(x: Stream, conn: Conn) returns (t: Trace)
    ensures Legal(t) && End(t) == State(UP, NoCall, true, false, Sending, NOTHING.Published(x, conn), {conn}, {x})
  {
    Logs();
    var s0, n0 := INIT, State(CALLED, InStart, false, false, Off, NOTHING, {}, {});
    t := Go(Begin, Callback(R.StartBegan(0)), s0, n0);
    t := Go(t, StartBody(true), n0, Running(Check, NOTHING, {}, {}));
    t := Go(t, Loop, Running(Check, NOTHING, {}, {}), Running(Resolving, NOTHING, {}, {}));
    t := Go(t, Resolved(Some(x.pro)), Running(Resolving, NOTHING, {}, {}), Running(Configuring(x.pro), NOTHING, {}, {}));
    t := Go(t, Configured(Some(x.id)), Running(Configuring(x.pro), NOTHING, {}, {}), Running(Starting(x), NOTHING, {}, {}));
    t := Go(t, StartReply(true), Running(Starting(x), NOTHING, {}, {}), Running(Dialling(x), NOTHING, {}, {x}));
    t := Go(t, Dialled(Some(conn)), Running(Dialling(x), NOTHING, {}, {x}), Running(Publishing(x, conn), NOTHING, {conn}, {x}));
    var live := NOTHING.Published(x, conn);
    t := Go(t, Publish, Running(Publishing(x, conn), NOTHING, {conn}, {x}), Running(Sending, live, {conn}, {x}));
    t := Go(t, Callback(R.StartEnded(0)), Running(Sending, live, {conn}, {x}), State(UP, NoCall, true, false, Sending, live, {conn}, {x}));
  }

  function Ending(call: Call, pc: Pc, live: Live, open: set<Conn>, owed: set<Stream>): State {
    State(DOWN, call, false, true, pc, live, open, owed)
  }

  /** A run that comes up, is stopped, and leaves its stream active if the id is empty. */
  lemma UnnamedStreamLeft(x: Stream, conn: Conn) returns (t: Trace)
    ensures Legal(t) && AtRest(End(t)) && End(t).open == {}
    ensures End(t).owed == {} <==> Named(x.id)
  {
    Logs();
    var live, none := NOTHING.Published(x, conn), NOTHING.Cleared();
    t := ComesUp(x, conn);
    var called := State(DOWN, InStop, true, false, Sending, live, {conn}, {x});
    t := Go(t, Callback(R.StopBegan(0)), State(UP, NoCall, true, false, Sending, live, {conn}, {x}), called);
    t := Go(t, Cancel, called, Ending(Joining, Sending, live, {conn}, {x}));
    t := Go(t, SendCancelled, Ending(Joining, Sending, live, {conn}, {x}), Ending(Joining, Check, live, {conn}, {x}));
    t := Go(t, Loop, Ending(Joining, Check, live, {conn}, {x}), Ending(Joining, Off, live, {conn}, {x}));
    t := Go(t, Join, Ending(Joining, Off, live, {conn}, {x}), Ending(StopClearing, Off, live, {conn}, {x}));
    t := Go(t, StopClear, Ending(StopClearing, Off, live, {conn}, {x}), Ending(StopClosing(live), Off, none, {conn}, {x}));
    t := Go(t, StopClose, Ending(StopClosing(live), Off, none, {conn}, {x}), Ending(StopCeasing(live), Off, none, {}, {x}));
    t := Go(t, StopCease, Ending(StopCeasing(live), Off, none, {}, {x}), Ending(Returning, Off, none, {}, {x} - live.Stops()));
    assert x in {x} - live.Stops() <==> !Named(x.id);
  }

  /**
   * The receiver's callbacks meet what the streamer relies on: whatever the receiver does
   * next, no other callback is under way when one begins.
   */
  lemma ReceiverIsServed(t: R.Trace, a: R.Action, e: R.Event, u: Trace)
    requires R.Legal(R.Then(t, a)) && !e.Frame?
    requires R.End(R.Then(t, a)).log == R.Add(R.End(t).log, e)
    requires Legal(u) && R.After(End(u).log) == R.After(R.End(t).log)
    requires e.StartEnded? || e.StopEnded? ==> End(u).call.Returning?
    ensures Legal(Then(u, Callback(e)))
    ensures R.After(End(Then(u, Callback(e))).log) == R.After(R.End(R.Then(t, a)).log)
    ensures e.StartBegan? || e.StopBegan? ==> End(u).call.NoCall?
  {
    R.CallbacksAlternate(R.Then(t, a));
    AlwaysInv(u);
  }

  // Stop always returns.

  /** Steps a cancelled run is away from its end, successful sends aside. */
  function Rank(pc: Pc): nat {
    match pc
    case Off => 0
    case Check => 1
    case Ceasing(_) => 2
    case Closing(_) => 3
    case Clearing => 4
    case Writing(_) => 5
    case Sending => 6
    case Publishing(_, _) => 7
    case Dialling(_) => 8
    case Restarting(_) => 9
    case Restopping(_) => 10
    case Starting(_) => 11
    case Configuring(_) => 12
    case Resolving => 13
    case Sleeping => 2
    case FallingBack => 3
    case DialFailed(_) => 4
  }

  function CallRank(call: Call): nat {
    match call
    case Joining => 4
    case StopClearing => 3
    case StopClosing(_) => 2
    case StopCeasing(_) => 1
    case _ => 0
  }

  /** Once cancelled, every step of the run but a tick and a successful send brings its end nearer. */
  lemma RankFalls(s: State, a: Action)
    requires Enabled(s, a) && s.cancelled && ByRun(a) && !a.Tick? && a != Written(true)
    ensures Apply(s, a).cancelled && Rank(Apply(s, a).pc) < Rank(s.pc)
  {
  }

  /** A step that is open to a run that has not ended. */
  function Choice(pc: Pc): Action {
    match pc
    case Off => Join
    case Check => Loop
    case Resolving => Resolved(None)
    case Configuring(_) => Configured(None)
    case Starting(_) => StartReply(false)
    case Restopping(_) => Restop
    case Restarting(_) => RestartReply(false)
    case Dialling(_) => Dialled(None)
    case DialFailed(_) => DialStop
    case Publishing(_, _) => Publish
    case FallingBack => FallBack
    case Sleeping => Wake(true)
    case Sending => SendCancelled
    case Writing(_) => Written(false)
    case Clearing => Clear
    case Closing(_) => Close
    case Ceasing(_) => Cease
  }

  function StopChoice(s: State): Action {
    match s.call
    case Joining => Choice(s.pc)
    case StopClearing => StopClear
    case StopClosing(_) => StopClose
    case _ => StopCease
  }

  /** `u` goes on from `t` without the receiver. */
  predicate Continues(u: Trace, t: Trace) {
    u == t || (u.Then? && !u.a.Callback? && Continues(u.before, t))
  }

  lemma {:induction false} ContinuesOn(u: Trace, t: Trace, a: Action)
    requires Continues(u, Then(t, a)) && !a.Callback?
    ensures Continues(u, t)
  {
    if u != Then(t, a) {
      ContinuesOn(u.before, t, a);
    } else {
      assert Continues(t, t);
    }
  }

  /** From every point after its cancel, even with the Pro refusing everything, Stop can return. */
  lemma {:induction false} StopReturns(t: Trace) returns (u: Trace)
    requires Legal(t) && End(t).call.Stops() && !End(t).call.InStop?
    ensures Legal(u) && Continues(u, t) && End(u).call.Returning? && AtRest(End(u))
    decreases CallRank(End(t).call), Rank(End(t).pc)
  {
    AlwaysInv(t);
    var s := End(t);
    var a := StopChoice(s);
    var next := Then(t, a);
    assert Legal(next);
    AlwaysInv(next);
    if s.call.StopCeasing? {
      u := next;
      assert Continues(t, t);
    } else {
      if ByRun(a) {
        RankFalls(s, a);
      }
      u := StopReturns(next);
      ContinuesOn(u, t, a);
    }
  }

  // A published connection stays, and is used.

  /** The newest step of the run goroutine. */
  function LastByRun(t: Trace): Option<Action> {
    if t.Begin? then None else if ByRun(t.a) then Some(t.a) else LastByRun(t.before)
  }

  lemma {:induction false} TornDownForCause(t: Trace)
    requires Legal(t) && End(t).pc.Clearing?
    ensures LastByRun(t) == Some(Written(false))
  {
    if !ByRun(t.a) {
      AlwaysInv(t.before);
      assert End(t).pc == End(t.before).pc;
      TornDownForCause(t.before);
    }
  }

  lemma GiveUpStep(s: State, a: Action)
    requires Inv(s) && Enabled(s, a) && s.live.conn.Some?
    ensures Apply(s, a).live.conn != s.live.conn <==> a.Clear? || a.StopClear?
    ensures a.StopClear? ==> s.cancelled && !s.running
  {
  }

  /** A published connection is given up exactly when a send on it failed, or by a Stop that cancelled the run. */
  lemma {:induction false} GivenUpForCause(t: Trace)
    requires Legal(t) && t.Then? && End(t.before).live.conn.Some?
    ensures End(t).live.conn != End(t.before).live.conn <==> t.a.Clear? || t.a.StopClear?
    ensures t.a.Clear? ==> LastByRun(t.before) == Some(Written(false))
    ensures t.a.StopClear? ==> End(t.before).cancelled && !End(t.before).running
  {
    AlwaysInv(t.before);
    GiveUpStep(End(t.before), t.a);
    if t.a.Clear? {
      TornDownForCause(t.before);
    }
  }

  /** `u` goes on from `t` with no Stop and no failed send. */
  predicate Steady(t: Trace, u: Trace) {
    u == t || (u.Then? && !u.a.Cancel? && u.a != Written(false) && Steady(t, u.before))
  }

  predicate InLoop(s: State) {
    s.running && (s.pc.Sending? || s.pc.Writing?)
  }

  lemma SteadyStep(s: State, a: Action)
    requires Inv(s) && Enabled(s, a) && InLoop(s) && !a.Cancel? && a != Written(false)
    ensures InLoop(Apply(s, a)) && Apply(s, a).live == s.live && Apply(s, a).open == s.open && Apply(s, a).owed == s.owed
  {
  }

  /** Without a failed send or a Stop, a run that is up stays up, on the same connection and stream, for any number of ticks. */
  lemma {:induction false} StaysUp(t: Trace, u: Trace)
    requires Legal(t) && Legal(u) && Steady(t, u) && InLoop(End(t))
    ensures InLoop(End(u)) && End(u).live == End(t).live && End(u).open == End(t).open && End(u).owed == End(t).owed
  {
    if u != t {
      StaysUp(t, u.before);
      AlwaysInv(u.before);
      SteadyStep(End(u.before), u.a);
    }
  }

  /** Ticks that found a connection and colours to send. */
  function Due(t: Trace): nat
    requires Legal(t)
  {
    if t.Begin? then 0
    else Due(t.before) + if t.a == Tick(false) && End(t.before).live.conn.Some? then 1 else 0
  }

  /** Datagrams sent, and sends that failed. */
  function Sends(t: Trace): nat {
    if t.Begin? then 0 else Sends(t.before) + if t.a.Written? then 1 else 0
  }

  lemma SendStep(s: State, a: Action)
    requires Inv(s) && Enabled(s, a)
    ensures Apply(s, a).pc.Writing? <==> (a == Tick(false) && s.live.conn.Some?) || (s.pc.Writing? && !a.Written?)
    ensures a == Tick(false) ==> !s.pc.Writing?
    ensures a.Written? ==> s.pc.Writing?
  {
  }

  /** Every such tick sends one datagram, and nothing else is sent. */
  lemma {:induction false} OneSendPerTick(t: Trace)
    requires Legal(t)
    ensures Due(t) == Sends(t) + if End(t).pc.Writing? then 1 else 0
  {
    if t.Then? {
      OneSendPerTick(t.before);
      AlwaysInv(t.before);
      SendStep(End(t.before), t.a);
    }
  }

  /** While the TV stays connected the run goes on, and after a failed attempt the path is REST. */
  lemma RunGoesOn(t: Trace)
    requires Legal(t) && End(t).running
    ensures !End(t).pc.Off? && !End(t).cancelled
    ensures End(t).pc.Sleeping? ==> End(t).live.path.Rest?
  {
    AlwaysInv(t);
  }

  /** A Start with a usable pairing leaves a run behind; one without leaves none, and the path at REST. */
  lemma StartTells(t: Trace)
    requires Legal(t) && t.Then? && t.a.StartBody?
    ensures !End(t.before).running && (End(t).running <==> t.a.usable)
    ensures t.a.usable ==> End(t).pc.Check?
    ensures !t.a.usable ==> End(t).pc.Off? && End(t).live.path.Rest?
  {
    AlwaysInv(t.before);
  }

  /** Steps to Sending, were every call to succeed. */
  function UpRank(pc: Pc): nat {
    match pc
    case Sending => 0
    case Writing(_) => 1
    case Publishing(_, _) => 1
    case Dialling(_) => 2
    case Starting(_) => 3
    case Restarting(_) => 3
    case Restopping(_) => 4
    case Configuring(_) => 4
    case Resolving => 5
    case Check => 6
    case Sleeping => 7
    case Ceasing(_) => 7
    case FallingBack => 8
    case Closing(_) => 8
    case DialFailed(_) => 9
    case Clearing => 9
    case Off => 10
  }

  /** A step on that way. */
  function UpChoice(pc: Pc, x: Stream, conn: Conn): Action {
    match pc
    case Check => Loop
    case Resolving => Resolved(Some(x.pro))
    case Configuring(_) => Configured(Some(x.id))
    case Starting(_) => StartReply(true)
    case Restopping(_) => Restop
    case Restarting(_) => RestartReply(true)
    case Dialling(_) => Dialled(Some(conn))
    case DialFailed(_) => DialStop
    case Publishing(_, _) => Publish
    case FallingBack => FallBack
    case Sleeping => Wake(false)
    case Writing(_) => Written(true)
    case Clearing => Clear
    case Closing(_) => Close
    case Ceasing(_) => Cease
    case Sending => Tick(true)
    case Off => Loop
  }

  /** What the run is heading for: a stream of its own from where it stands, or `x` if it has yet to resolve one. */
  function Heading(pc: Pc, x: Stream): Stream {
    match pc
    case Configuring(pro) => Stream(pro, x.id)
    case Starting(y) => y
    case Restopping(y) => y
    case Restarting(y) => y
    case Dialling(y) => y
    case Publishing(y, _) => y
    case _ => x
  }

  lemma UpStep(s: State, x: Stream, conn: Conn)
    requires Inv(s) && s.running && !s.pc.Sending?
    ensures Enabled(s, UpChoice(s.pc, x, conn))
    ensures var n := Apply(s, UpChoice(s.pc, x, conn)); n.running && UpRank(n.pc) < UpRank(s.pc)
  {
  }

  lemma UpStepHeads(s: State, x: Stream, conn: Conn)
    requires Inv(s) && s.running && !s.pc.Up() && Enabled(s, UpChoice(s.pc, x, conn))
    ensures var n := Apply(s, UpChoice(s.pc, x, conn));
            if s.pc.Publishing? then n.pc.Sending? && n.live.Streams() == {s.pc.x} else !n.pc.Up() && Heading(n.pc, x) == Heading(s.pc, x)
  {
  }

  /** `u` goes on from `t` by run steps. */
  predicate RunOnly(t: Trace, u: Trace) {
    u == t || (u.Then? && ByRun(u.a) && RunOnly(t, u.before))
  }

  lemma {:induction false} RunOnlyOn(u: Trace, t: Trace, a: Action)
    requires RunOnly(Then(t, a), u) && ByRun(a)
    ensures RunOnly(t, u)
  {
    if u == Then(t, a) {
      assert RunOnly(t, t);
    } else {
      RunOnlyOn(u.before, t, a);
    }
  }

  /**
   * As long as the TV stays connected, from every point of a run, failed attempts and
   * failed sends included, the stream can come up: on `x`, if no attempt is under way.
   */
  lemma {:induction false} CanComeUp(t: Trace, x: Stream, conn: Conn) returns (u: Trace)
    requires Legal(t) && End(t).running
    ensures Legal(u) && RunOnly(t, u) && End(u).running && End(u).pc.Sending? && End(u).live.path.Dtls?
    ensures End(t).pc.Sending? ==> u == t
    ensures !End(t).pc.Up() ==> End(u).live.Streams() == {Heading(End(t).pc, x)}
    decreases UpRank(End(t).pc)
  {
    AlwaysInv(t);
    if End(t).pc.Sending? {
      u := t;
    } else {
      var a := UpChoice(End(t).pc, x, conn);
      UpStep(End(t), x, conn);
      var next := Then(t, a);
      u := CanComeUp(next, x, conn);
      RunOnlyOn(u, t, a);
      if !End(t).pc.Up() {
        UpStepHeads(End(t), x, conn);
      }
    }
  }

  /** An attempt has failed and the pause after it is not over. */
  predicate Pausing(t: Trace) {
    t.Then? && (t.a.FallBack? || (!t.a.Wake? && Pausing(t.before)))
  }

  lemma PauseStep(s: State, a: Action)
    requires Inv(s) && Enabled(s, a)
    ensures Apply(s, a).pc.Sleeping? <==> a.FallBack? || (s.pc.Sleeping? && !a.Wake?)
  {
  }

  lemma {:induction false} SleepsWhilePausing(t: Trace)
    requires Legal(t)
    ensures End(t).pc.Sleeping? <==> Pausing(t)
  {
    if t.Then? {
      AlwaysInv(t.before);
      SleepsWhilePausing(t.before);
      PauseStep(End(t.before), t.a);
    }
  }

  /** A failed attempt is followed by no other before the pause is over: until then the run does nothing but wake. */
  lemma RetriesPause(t: Trace)
    requires Legal(t) && t.Then? && Pausing(t.before) && ByRun(t.a)
    ensures t.a.Wake?
  {
    SleepsWhilePausing(t.before);
  }

  /** The pause in seconds after the next failure: one at first and after a success, doubled by every pause while below 15. */
  function Backoff(t: Trace): nat {
    if t.Begin? || t.a.StartBody? || t.a.Publish? then 1
    else if t.a.Wake? && Backoff(t.before) < 15 then 2 * Backoff(t.before)
    else Backoff(t.before)
  }

  /** The pauses since the run began or was last up. */
  function Pauses(t: Trace): nat {
    if t.Begin? || t.a.StartBody? || t.a.Publish? then 0 else Pauses(t.before) + if t.a.Wake? then 1 else 0
  }

  /** So the pauses are 1, 2, 4, 8 and then always 16 seconds. */
  lemma {:induction false} BackoffDoubles(t: Trace)
    ensures Backoff(t) == match Pauses(t) case 0 => 1 case 1 => 2 case 2 => 4 case 3 => 8 case _ => 16
  {
    if t.Then? {
      BackoffDoubles(t.before);
    }
  }
}
