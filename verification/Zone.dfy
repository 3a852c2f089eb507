/**
 * The TV's zone on its way from a group update to the two places that keep it
 * (clipv1/server.go parseGroupLights, setRequestedMembers, AllowsMember;
 * entertainment/streamer.go SetRequestedMembers).
 *
 * A handler stores the zone in the server and then, in a critical section of its own,
 * hands it to the streamer; handlers of several requests may interleave.
 */
module Zone {
  import opened Common

  /** The numbers a light list may name. */
  predicate IsId(entry: Option<int>) {
    entry.Some? && 1 <= entry.value < 0x1_0000
  }

  /** The ids among the first `n` entries; an entry that is no number is None. */
  function Ids(entries: seq<Option<int>>, n: nat): (ids: seq<Word>)
    requires n <= |entries|
    ensures |ids| <= n
  {
    if n == 0 then []
    else Ids(entries, n - 1) + (if IsId(entries[n - 1]) then [entries[n - 1].value as Word] else [])
  }

  function Members(ids: seq<Word>): set<Word> {
    set id | id in ids
  }

  class Server {
    var reqMembers: Option<set<Word>>

    constructor ()
      ensures reqMembers.None?
    {
      reqMembers := None;
    }

    /** setRequestedMembers, up to the streamer's callback. */
    method SetRequestedMembers(ids: seq<Word>)
      modifies this
      ensures reqMembers == Some(Members(ids))
    {
      var m: set<Word> := {};
      var i := 0;
      while i < |ids|
        invariant 0 <= i <= |ids|
        invariant m == Members(ids[..i])
      {
        assert ids[..i + 1] == ids[..i] + [ids[i]];
        m := m + {ids[i]};
        i := i + 1;
      }
      assert ids[..i] == ids;
      reqMembers := Some(m);
    }

    method AllowsMember(id: Word) returns (allowed: bool)
      ensures allowed <==> (reqMembers.Some? ==> id in reqMembers.value)
    {
      if reqMembers.None? {
        return true;
      }
      return id in reqMembers.value;
    }
  }

  /** parseGroupLights: the list counts only if it names a light. */
  method ParseGroupLights(entries: seq<Option<int>>) returns (r: Option<seq<Word>>)
    ensures r == if Ids(entries, |entries|) == [] then None else Some(Ids(entries, |entries|))
  {
    var ids: seq<Word> := [];
    var i := 0;
    while i < |entries|
      invariant 0 <= i <= |entries|
      invariant ids == Ids(entries, i)
    {
      if entries[i].Some? {
        var n := entries[i].value;
        if n >= 1 && n <= 65535 {
          ids := ids + [n];
        }
      }
      i := i + 1;
    }
    r := if |ids| == 0 then None else Some(ids);
  }

  /** The parsed zone is exactly the valid numbers listed; none wraps into another light. */
  lemma {:induction false} IdsAreTheListed(entries: seq<Option<int>>, n: nat, id: Word)
    requires n <= |entries|
    ensures id in Ids(entries, n) <==> id >= 1 && exists i :: 0 <= i < n && entries[i] == Some(id as int)
  {
    if n > 0 {
      IdsAreTheListed(entries, n - 1, id);
      if entries[n - 1] == Some(id as int) && id >= 1 {
        assert IsId(entries[n - 1]) && Ids(entries, n)[|Ids(entries, n)| - 1] == id;
      }
    }
  }

  // -------------------------------------------------------- the step system

  datatype At = Storing | Handing | Done

  datatype Handler = Handler(at: At, zone: set<Word>)

  datatype State = State(server: Option<set<Word>>, streamer: Option<set<Word>>, handlers: map<nat, Handler>)

  /** An update with a list that names lights, and the two sections of its handler. */
  datatype Action = Update(n: nat, ids: seq<Word>) | Store(n: nat) | Hand(n: nat)

  const INIT := State(None, None, map[])

  predicate Enabled(s: State, a: Action) {
    match a
    case Update(n, ids) => n !in s.handlers && ids != []
    case Store(n) => n in s.handlers && s.handlers[n].at.Storing?
    case Hand(n) => n in s.handlers && s.handlers[n].at.Handing?
  }

  function Apply(s: State, a: Action): State
    requires Enabled(s, a)
  {
    match a
    case Update(n, ids) => s.(handlers := s.handlers[n := Handler(Storing, Members(ids))])
    case Store(n) =>
      var h := s.handlers[n];
      s.(server := Some(h.zone), handlers := s.handlers[n := h.(at := Handing)])
    case Hand(n) =>
      var h := s.handlers[n];
      s.(streamer := Some(h.zone), handlers := s.handlers[n := h.(at := Done)])
  }

  datatype Trace = Start | Then(before: Trace, a: Action)

  predicate Legal(t: Trace)
    decreases t, 0
  {
    t.Then? ==> Legal(t.before) && Enabled(End(t.before), t.a)
  }

  function End(t: Trace): State
    requires Legal(t)
    decreases t, 1
  {
    if t.Start? then INIT else Apply(End(t.before), t.a)
  }

  /** The handler that stored last, and the one that handed over last. */
  function LastStore(t: Trace): Option<nat> {
    if t.Start? then None else if t.a.Store? then Some(t.a.n) else LastStore(t.before)
  }

  function LastHand(t: Trace): Option<nat> {
    if t.Start? then None else if t.a.Hand? then Some(t.a.n) else LastHand(t.before)
  }

  /** The list an update declared. */
  function Declared(t: Trace, n: nat): seq<Word> {
    if t.Start? then [] else if t.a.Update? && t.a.n == n then t.a.ids else Declared(t.before, n)
  }

  ghost predicate FitsDeclared(t: Trace, s: State) {
    forall n :: n in s.handlers ==> Declared(t, n) != [] && s.handlers[n].zone == Members(Declared(t, n))
  }

  /** A place keeps what the handler that came last declared. */
  ghost predicate KeptIn(place: Option<set<Word>>, last: Option<nat>, t: Trace, s: State) {
    && (place.Some? <==> last.Some?)
    && (last.Some? ==> last.value in s.handlers && place.value == Members(Declared(t, last.value)))
  }

  ghost predicate Progress(t: Trace, s: State) {
    && (forall n :: n in s.handlers && !s.handlers[n].at.Storing? ==> LastStore(t).Some?)
    && (forall n :: n in s.handlers && s.handlers[n].at.Done? ==> LastHand(t).Some?)
  }

  lemma {:induction false} AlwaysKept(t: Trace)
    requires Legal(t)
    ensures FitsDeclared(t, End(t)) && Progress(t, End(t))
    ensures KeptIn(End(t).server, LastStore(t), t, End(t))
    ensures KeptIn(End(t).streamer, LastHand(t), t, End(t))
  {
    if t.Then? {
      AlwaysKept(t.before);
    }
  }

  lemma MembersNotEmpty(ids: seq<Word>)
    requires ids != []
    ensures Members(ids) != {}
  {
    assert ids[0] in Members(ids);
  }

  /** A zone, once declared, is never empty and never undeclared, in the server and in the streamer. */
  lemma NeverUndeclared(t: Trace)
    requires Legal(t)
    ensures End(t).server != Some({}) && End(t).streamer != Some({})
    ensures t.Then? && End(t.before).server.Some? ==> End(t).server.Some?
    ensures t.Then? && End(t.before).streamer.Some? ==> End(t).streamer.Some?
  {
    AlwaysKept(t);
    if LastStore(t).Some? {
      MembersNotEmpty(Declared(t, LastStore(t).value));
    }
    if LastHand(t).Some? {
      MembersNotEmpty(Declared(t, LastHand(t).value));
    }
  }

  /** No update is half done. */
  predicate AtRest(s: State) {
    forall n :: n in s.handlers ==> s.handlers[n].at.Done?
  }

  /** At rest the two agree exactly if the last to store was the last to hand over, or both declared the same lights. */
  lemma AgreeIff(t: Trace)
    requires Legal(t) && AtRest(End(t)) && End(t).handlers != map[]
    ensures LastStore(t).Some? && LastHand(t).Some?
    ensures End(t).server == End(t).streamer <==>
            LastStore(t) == LastHand(t)
            || Members(Declared(t, LastStore(t).value)) == Members(Declared(t, LastHand(t).value))
  {
    AlwaysKept(t);
    var n :| n in End(t).handlers;
    assert End(t).handlers[n].at.Done?;
  }

  /** Whoever hands over is the last that stored: updates are served in turn. */
  predicate InTurn(t: Trace) {
    t.Then? ==> InTurn(t.before) && (t.a.Hand? ==> LastStore(t.before) == Some(t.a.n))
  }

  lemma {:induction false} LastIsOpen(t: Trace)
    requires Legal(t) && InTurn(t) && LastStore(t) != LastHand(t)
    ensures LastStore(t).Some? && LastStore(t).value in End(t).handlers && End(t).handlers[LastStore(t).value].at.Handing?
  {
    if t.a.Update? {
      LastIsOpen(t.before);
    }
  }

  /** Served in turn, the two agree whenever no update is half done. */
  lemma AgreeWhenSerial(t: Trace)
    requires Legal(t) && InTurn(t) && AtRest(End(t))
    ensures End(t).server == End(t).streamer
  {
    AlwaysKept(t);
    if LastStore(t) != LastHand(t) {
      LastIsOpen(t);
    }
  }

  lemma Go(t: Trace, a: Action, s: State, n: State) returns (u: Trace)
    requires Legal(t) && End(t) == s && Enabled(s, a) && Apply(s, a) == n
    ensures u == Then(t, a) && Legal(u) && End(u) == n
  {
    u := Then(t, a);
  }

  function Both(server: Option<set<Word>>, streamer: Option<set<Word>>, a: At, b: At): State {
    State(server, streamer, map[0 := Handler(a, {1}), 1 := Handler(b, {2})])
  }

  /** Two interleaved updates can leave the server and the streamer with different zones for good. */
  lemma ZonesCanDiffer() returns (t: Trace)
    ensures Legal(t) && AtRest(End(t)) && End(t).server == Some({2}) && End(t).streamer == Some({1})
  {
    assert Members([1]) == {1} && Members([2]) == {2};
    var one := State(None, None, map[0 := Handler(Storing, {1})]);
    t := Go(Start, Update(0, [1]), INIT, one);
    t := Go(t, Update(1, [2]), one, Both(None, None, Storing, Storing));
    t := Go(t, Store(0), Both(None, None, Storing, Storing), Both(Some({1}), None, Handing, Storing));
    t := Go(t, Store(1), Both(Some({1}), None, Handing, Storing), Both(Some({2}), None, Handing, Handing));
    t := Go(t, Hand(1), Both(Some({2}), None, Handing, Handing), Both(Some({2}), Some({2}), Handing, Done));
    t := Go(t, Hand(0), Both(Some({2}), Some({2}), Handing, Done), Both(Some({2}), Some({1}), Done, Done));
  }
}
