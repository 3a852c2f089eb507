/**
 * The single-flight light list cache of a provider (bridge/provider.go: LightsV1, fetch,
 * UUIDForV1, V1ForUUID).
 *
 * Class LightCache holds the fields guarded by mu; its methods are the critical sections,
 * proved to perform the transitions of the value Cache. The step system interleaves any
 * number of LightsV1 calls with the fetches they start and a clock.
 */
module LightCache {
  import opened Common
  import opened LightMap

  datatype Failure = Failure(reason: string)

  /** The Pro's answer to one fetch. */
  datatype Reply = Lights(lights: seq<Light>) | Failed(err: Failure)

  /** What LightsV1 returns: a list or nil, and an error or nil. */
  datatype Answer = Answer(list: Option<seq<Light>>, err: Option<Failure>)

  /** What a caller does after its first critical section. */
  datatype Next = Serve(answer: Answer) | Await(channel: nat)

  /** lightCacheTTL in seconds. */
  const TTL: nat := 5

  /** The fields behind mu. A channel is named by the number of channels made before it. */
  datatype Cache = Cache(
    cached: Option<seq<Light>>,
    v1ToUUID: map<nat, UUID>,
    uuidToV1: map<UUID, nat>,
    fetchedAt: int,
    refresh: Option<nat>,
    lastErr: Option<Failure>,
    made: nat)
  {
    predicate Due(now: int) {
      cached.Some? && now - fetchedAt >= TTL && refresh.None?
    }

    /** Whether this caller starts a fetch. */
    predicate Starts(now: int) {
      if cached.Some? then Due(now) else refresh.None?
    }

    function Poll(now: int): Cache {
      if Starts(now) then this.(refresh := Some(made), made := made + 1) else this
    }

    /** What the caller does next, seen from before its Poll. */
    function Reaction(): Next {
      if cached.Some? then Serve(Answer(cached, None))
      else if refresh.Some? then Await(refresh.value)
      else Await(made)
    }

    function Collect(): Answer {
      if cached.Some? then Answer(cached, None) else Answer(None, lastErr)
    }

    /** fetch's critical section; `inv` is the inversion it built. */
    function Publish(reply: Reply, now: int, inv: map<UUID, nat>): Cache {
      match reply
      case Failed(err) =>
        this.(refresh := None, lastErr := Some(err), fetchedAt := if cached.Some? then now else fetchedAt)
      case Lights(lights) =>
        Cache(Some(lights), Assigned(lights), inv, now, None, None, made)
    }
  }

  const EMPTY: Cache := Cache(None, map[], map[], 0, None, None, 0)

  class Provider {
    var cached: Option<seq<Light>>
    var v1ToUUID: map<nat, UUID>
    var uuidToV1: map<UUID, nat>
    var fetchedAt: int
    var refresh: Option<nat>
    var lastErr: Option<Failure>
    var made: nat

    ghost function View(): Cache
      reads this
    {
      Cache(cached, v1ToUUID, uuidToV1, fetchedAt, refresh, lastErr, made)
    }

    constructor ()
      ensures View() == EMPTY
    {
      cached, v1ToUUID, uuidToV1, fetchedAt := None, map[], map[], 0;
      refresh, lastErr, made := None, None, 0;
    }

    /** The first critical section of LightsV1. */
    method Poll(now: int) returns (next: Next, start: bool)
      modifies this
      ensures View() == old(View()).Poll(now)
      ensures next == old(View()).Reaction() && start == old(View()).Starts(now)
    {
      if cached.Some? {
        start := now - fetchedAt >= TTL && refresh.None?;
        if start {
          refresh := Some(made);
          made := made + 1;
        }
        return Serve(Answer(cached, None)), start;
      }
      if refresh.Some? {
        return Await(refresh.value), false;
      }
      refresh := Some(made);
      made := made + 1;
      return Await(refresh.value), true;
    }

    /** The critical section of fetch, after the Pro answered. */
    method Publish(reply: Reply, now: int) returns (done: Option<nat>)
      modifies this
      ensures done == old(refresh)
      ensures View() == old(View()).Publish(reply, now, uuidToV1)
      ensures reply.Lights? ==> Inverts(v1ToUUID, uuidToV1)
      ensures reply.Failed? ==> uuidToV1 == old(uuidToV1)
    {
      done := refresh;
      refresh := None;
      match reply {
        case Failed(err) =>
          lastErr := Some(err);
          if cached.Some? {
            fetchedAt := now;
          }
        case Lights(lights) =>
          lastErr := None;
          cached := Some(lights);
          v1ToUUID := LightsV1(lights);
          uuidToV1 := Invert(v1ToUUID);
          fetchedAt := now;
      }
    }

    /** The critical section of LightsV1 after the wait. */
    method Collect() returns (answer: Answer)
      ensures answer == View().Collect()
    {
      if cached.Some? {
        return Answer(cached, None);
      }
      return Answer(None, lastErr);
    }
  }

  // ------------------------------------------------------------ step system

  datatype Caller = Waiting(channel: nat) | Returned(answer: Answer)

  datatype Fetch = InFlight | Closed

  datatype State = State(
    c: Cache,
    now: int,
    callers: map<nat, Caller>,
    fetches: map<nat, Fetch>,    // by the channel each closes
    successes: nat,              // fetches that brought a list
    lastEnd: Option<int>)        // when the last fetch ended

  datatype Action =
    | Tick(dt: nat)
    | Call(k: nat)
    | Finish(f: nat, reply: Reply, inv: map<UUID, nat>)
    | Return(k: nat)

  const INIT: State := State(EMPTY, 0, map[], map[], 0, None)

  ghost predicate Enabled(s: State, a: Action) {
    match a
    case Tick(_) => true
    case Call(k) => k !in s.callers
    case Finish(f, reply, inv) =>
      && f in s.fetches && s.fetches[f].InFlight?
      && (reply.Lights? ==> Inverts(Assigned(reply.lights), inv))
    case Return(k) =>
      k in s.callers && s.callers[k].Waiting?
      && s.callers[k].channel in s.fetches && s.fetches[s.callers[k].channel].Closed?
  }

  function Apply(s: State, a: Action): State {
    match a
    case Tick(dt) => s.(now := s.now + dt)
    case Call(k) =>
      var next := s.c.Reaction();
      s.(c := s.c.Poll(s.now),
         callers := s.callers[k := if next.Serve? then Returned(next.answer) else Waiting(next.channel)],
         fetches := if s.c.Starts(s.now) then s.fetches[s.c.made := InFlight] else s.fetches)
    case Finish(f, reply, inv) =>
      s.(c := s.c.Publish(reply, s.now, inv),
         fetches := s.fetches[f := Closed],
         successes := if reply.Lights? then s.successes + 1 else s.successes,
         lastEnd := Some(s.now))
    case Return(k) => s.(callers := s.callers[k := Returned(s.c.Collect())])
  }

  datatype Trace = Start | Then(before: Trace, a: Action)

  ghost predicate Legal(t: Trace)
    decreases t, 0
  {
    t.Then? ==> Legal(t.before) && Enabled(End(t.before), t.a)
  }

  function End(t: Trace): State {
    if t.Start? then INIT else Apply(End(t.before), t.a)
  }

  predicate Extends(t: Trace, u: Trace) {
    u == t || (u.Then? && Extends(t, u.before))
  }

  /** The fetch in flight, if any, is the one `refresh` names. */
  ghost predicate SingleFlight(s: State) {
    && (forall f :: f in s.fetches ==> f < s.c.made)
    && (forall f :: f in s.fetches && s.fetches[f].InFlight? ==> s.c.refresh == Some(f))
    && (s.c.refresh.Some? ==> s.c.refresh.value in s.fetches && s.fetches[s.c.refresh.value].InFlight?)
  }

  /** What is published belongs together, and an empty cache remembers why. */
  ghost predicate Published(s: State) {
    && (s.c.cached.Some? <==> s.successes > 0)
    && (s.c.cached.Some? ==> s.c.v1ToUUID == Assigned(s.c.cached.value) && Inverts(s.c.v1ToUUID, s.c.uuidToV1))
    && (s.c.cached.None? ==> s.c.v1ToUUID == map[] && s.c.uuidToV1 == map[])
    && (s.c.cached.None? && s.lastEnd.Some? ==> s.c.lastErr.Some?)
    && (s.c.cached.Some? ==> s.lastEnd == Some(s.c.fetchedAt))
    && (s.lastEnd.None? ==> forall f :: f in s.fetches ==> s.fetches[f].InFlight?)
  }

  ghost predicate Answered(s: State) {
    forall k :: k in s.callers ==>
      match s.callers[k]
      case Waiting(ch) => ch in s.fetches
      case Returned(answer) => answer.list.Some? != answer.err.Some?
  }

  ghost predicate Inv(s: State) {
    SingleFlight(s) && Published(s) && Answered(s)
  }

  lemma InvKept(s: State, a: Action)
    requires Inv(s) && Enabled(s, a)
    ensures Inv(Apply(s, a))
  {
  }

  lemma {:induction false} AlwaysInv(t: Trace)
    requires Legal(t)
    ensures Inv(End(t))
  {
    if t.Then? {
      AlwaysInv(t.before);
      InvKept(End(t.before), t.a);
    }
  }

  /** At most one fetch is in flight. */
  lemma OneFetch(t: Trace, f: nat, g: nat)
    requires Legal(t) && f in End(t).fetches && g in End(t).fetches
    requires End(t).fetches[f].InFlight? && End(t).fetches[g].InFlight?
    ensures f == g
  {
    AlwaysInv(t);
  }

  /** The list, once fetched, is never lost, and a call made then returns at once. */
  lemma {:induction false} CacheNeverLost(t: Trace, u: Trace)
    requires Legal(u) && Extends(t, u) && End(t).c.cached.Some?
    ensures End(u).c.cached.Some?
    ensures forall k :: k !in End(u).callers ==>
              Apply(End(u), Call(k)).callers[k] == Returned(Answer(End(u).c.cached, None))
  {
    if u != t {
      CacheNeverLost(t, u.before);
    }
  }

  /** LightsV1 returns a list or an error, never neither, and an error only if no fetch ever succeeded. */
  lemma AnswersAreSound(t: Trace, k: nat)
    requires Legal(t) && t.Then?
    requires k in End(t).callers && End(t).callers[k].Returned?
    ensures var answer := End(t).callers[k].answer; answer.list.Some? != answer.err.Some?
    ensures k !in End(t.before).callers || End(t.before).callers[k].Waiting? ==>
              (End(t).callers[k].answer.err.Some? <==> End(t).successes == 0)
  {
    AlwaysInv(t);
    AlwaysInv(t.before);
  }

  /** Past the first list, a fetch starts no sooner than a TTL after the last one ended. */
  lemma RefreshesAreSpaced(t: Trace, k: nat)
    requires Legal(t) && Enabled(End(t), Call(k)) && End(t).c.cached.Some?
    requires Apply(End(t), Call(k)).fetches != End(t).fetches
    ensures End(t).lastEnd.Some? && End(t).now - End(t).lastEnd.value >= TTL
  {
    AlwaysInv(t);
  }

  /** In every published state the two id maps undo each other on exactly the numbers 1 to n. */
  lemma {:induction false} MapsAreInverse(t: Trace)
    requires Legal(t) && End(t).c.cached.Some? && Distinct(End(t).c.cached.value)
    ensures var c := End(t).c;
            && (forall i :: i in c.v1ToUUID <==> 1 <= i <= |Colors(c.cached.value, |c.cached.value|)|)
            && (forall i :: i in c.v1ToUUID ==> c.v1ToUUID[i] in c.uuidToV1 && c.uuidToV1[c.v1ToUUID[i]] == i)
            && (forall u :: u in c.uuidToV1 ==> c.uuidToV1[u] in c.v1ToUUID && c.v1ToUUID[c.uuidToV1[u]] == u)
  {
    AlwaysInv(t);
    MutualInverses(End(t).c.cached.value, End(t).c.uuidToV1);
  }

  // A fetch starts when it should, and what it brings is what is served.

  predicate Fetching(s: State) {
    exists f :: f in s.fetches && s.fetches[f].InFlight?
  }

  /**
   * A call starts a fetch exactly if none is in flight and there is no list yet, or the
   * last fetch ended a TTL ago or more.
   */
  lemma FetchStartsIff(t: Trace, k: nat)
    requires Legal(t) && Enabled(End(t), Call(k))
    ensures var s, n := End(t), Apply(End(t), Call(k));
            && (n.fetches != s.fetches <==>
                  !Fetching(s) && (s.c.cached.Some? ==> s.lastEnd.Some? && s.now >= s.lastEnd.value + 5))
            && (n.fetches != s.fetches ==> Fetching(n))
  {
    AlwaysInv(t);
    var s, n := End(t), Apply(End(t), Call(k));
    if s.c.refresh.Some? {
      assert s.fetches[s.c.refresh.value].InFlight?;
    }
    if n.fetches != s.fetches {
      assert n.fetches[s.c.made].InFlight?;
    }
  }

  /** The newest list a fetch brought. */
  function Newest(t: Trace): Option<seq<Light>> {
    if t.Start? then None
    else if t.a.Finish? && t.a.reply.Lights? then Some(t.a.reply.lights)
    else Newest(t.before)
  }

  /** The error of the newest fetch, if that failed. */
  function NewestError(t: Trace): Option<Failure> {
    if t.Start? then None
    else if t.a.Finish? then (if t.a.reply.Failed? then Some(t.a.reply.err) else None)
    else NewestError(t.before)
  }

  lemma CacheStep(s: State, a: Action)
    ensures var n := Apply(s, a);
            if a.Finish?
            then n.c.cached == (if a.reply.Lights? then Some(a.reply.lights) else s.c.cached)
                 && n.c.lastErr == (if a.reply.Failed? then Some(a.reply.err) else None)
            else n.c.cached == s.c.cached && n.c.lastErr == s.c.lastErr
  {
  }

  /** The cache is the newest list fetched; a failure leaves it alone and is remembered. */
  lemma {:induction false} CacheIsNewest(t: Trace)
    ensures End(t).c.cached == Newest(t) && End(t).c.lastErr == NewestError(t)
  {
    if t.Then? {
      CacheIsNewest(t.before);
      CacheStep(End(t.before), t.a);
    }
  }

  /** Who returns, returns the newest list fetched by then, or if there is none the newest error. */
  lemma AnswerIsNewest(t: Trace, k: nat)
    requires Legal(t) && t.Then? && k in End(t).callers && End(t).callers[k].Returned?
    requires k !in End(t.before).callers || End(t.before).callers[k].Waiting?
    ensures var answer := End(t).callers[k].answer;
            if Newest(t.before).Some? then answer == Answer(Newest(t.before), None)
            else answer == Answer(None, NewestError(t.before)) && answer.err.Some?
  {
    CacheIsNewest(t.before);
    AlwaysInv(t.before);
    AnswersAreSound(t, k);
  }

  /** A caller waits only for a fetch in flight when there is no list, and returns once that has ended. */
  lemma WaitsForFetch(t: Trace, k: nat)
    requires Legal(t) && Enabled(End(t), Call(k))
    ensures var s, n := End(t), Apply(End(t), Call(k));
            && (n.callers[k].Waiting? <==> s.c.cached.None?)
            && (n.callers[k].Waiting? ==> n.callers[k].channel in n.fetches && n.fetches[n.callers[k].channel].InFlight?)
  {
    AlwaysInv(t);
  }

  /** The time that has passed. */
  function Passed(t: Trace): nat {
    if t.Start? then 0 else Passed(t.before) + if t.a.Tick? then t.a.dt else 0
  }

  lemma {:induction false} NowIsPassed(t: Trace)
    ensures End(t).now == Passed(t)
  {
    if t.Then? {
      NowIsPassed(t.before);
    }
  }
}
