/**
 * Finding, checking and creating relume-tv's entertainment configuration on the Pro
 * (entertainment/streamer.go ensureConfig).
 *
 * The bridge is a map from id to configuration. Each call of the Pro may fail; the order
 * of a listing and the id and channels of a created configuration are the bridge's choice.
 */
module EnsureConfig {
  import opened Common
  import opened LightMap
  import opened Members

  datatype CID = CID(text: string)
  datatype Name = Name(text: string)

  const NO_CID := CID("")
  const RELUME := Name("relume-tv")

  datatype Config = Config(name: Name, channels: seq<EntChannel>) {
    function Services(): set<UUID> { Covered(channels, |channels|) }
  }

  type Bridge = map<CID, Config>

  /** The id kept in the process, and the one in the config store if there is a store. */
  datatype Memory = Memory(cached: CID, stored: Option<CID>) {
    function Kept(id: CID): Memory {
      Memory(id, if stored.Some? then Some(id) else None)
    }

    function Persisted(): CID {
      if stored.Some? then stored.value else NO_CID
    }
  }

  datatype Created = Created(id: CID, channels: seq<EntChannel>)

  /** How the Pro answers the calls of one ensureConfig. */
  datatype Replies = Replies(
    lights: Option<seq<Light>>,
    services: Option<seq<Service>>,
    cachedRead: bool,                // the read of the cached configuration
    listing: Option<seq<CID>>,
    candidateRead: bool,
    deleted: bool,
    created: Option<Created>,
    createdRead: bool)

  datatype Result = Failed | Ready(id: CID, remap: map<Word, Byte>, reused: bool)

  datatype Outcome = Outcome(result: Result, memory: Memory, bridge: Bridge)

  /** What the read lights and services, and the zone, make ensureConfig want. */
  function WantOf(r: Replies, inv: map<UUID, nat>, zone: Zone): Want
    requires r.lights.Some? && r.services.Some?
  {
    Wanted(r.lights.value, Owned(r.services.value, |r.services.value|), inv, zone, |r.lights.value|)
  }

  /** Listings show exactly the bridge, and new configurations are new and cover exactly the given members. */
  ghost predicate Faithful(r: Replies, bridge: Bridge, want: Want) {
    && (r.listing.Some? ==> forall id :: id in r.listing.value <==> id in bridge)
    && NO_CID !in bridge
    && (r.created.Some? ==>
          && r.created.value.id !in bridge && r.created.value.id != NO_CID
          && Covered(r.created.value.channels, |r.created.value.channels|) == want.Services())
  }

  // ------------------------------------------------------------ the decision

  predicate Covers(bridge: Bridge, id: CID, want: Want) {
    id in bridge && bridge[id].Services() == want.Services()
  }

  function RemapOf(c: Config, want: Want): map<Word, Byte> {
    Remap(c.channels, want.svcToV1, |c.channels|)
  }

  /** The first of the `n` listed ids whose configuration bears relume-tv's name. */
  function FirstNamed(listing: seq<CID>, bridge: Bridge, n: nat): CID
    requires n <= |listing|
  {
    if n == 0 then NO_CID
    else
      var before := FirstNamed(listing, bridge, n - 1);
      if before != NO_CID then before
      else if listing[n - 1] in bridge && bridge[listing[n - 1]].name == RELUME then listing[n - 1]
      else NO_CID
  }

  /** The persisted id if it is listed, else the first configuration of relume-tv's name. */
  function Candidate(listing: seq<CID>, persisted: CID, bridge: Bridge): CID {
    if persisted != NO_CID && persisted in listing then persisted else FirstNamed(listing, bridge, |listing|)
  }

  /** Whether the id cached in the process still serves. */
  predicate Cached(m: Memory, bridge: Bridge, want: Want, r: Replies) {
    m.cached != NO_CID && r.cachedRead && Covers(bridge, m.cached, want)
  }

  /** What using a configuration that covers the lights gives. */
  function Using(id: CID, m: Memory, kept: Memory, bridge: Bridge, want: Want, reused: bool): Outcome
    requires id in bridge
  {
    var remap := RemapOf(bridge[id], want);
    if remap == map[] then Outcome(Failed, m, bridge) else Outcome(Ready(id, remap, reused), kept, bridge)
  }

  /** CreateEntertainmentConfig and the read back. */
  function Creating(m: Memory, bridge: Bridge, want: Want, r: Replies): Outcome {
    if r.created.None? then Outcome(Failed, m, bridge)
    else
      var id := r.created.value.id;
      var grown := bridge[id := Config(RELUME, r.created.value.channels)];
      if !r.createdRead then Outcome(Failed, m, grown)
      else Using(id, m, m.Kept(id), grown, want, false)
  }

  /** The authoritative path: `m` no longer has a cached id. */
  function Listed(m: Memory, bridge: Bridge, want: Want, r: Replies): Outcome {
    if r.listing.None? then Outcome(Failed, m, bridge)
    else
      var id := Candidate(r.listing.value, m.Persisted(), bridge);
      if id == NO_CID then Creating(m, bridge, want, r)
      else if id !in bridge || !r.candidateRead then Outcome(Failed, m, bridge)
      else if Covers(bridge, id, want) then Using(id, m, m.Kept(id), bridge, want, true)
      else Creating(m, if r.deleted then bridge - {id} else bridge, want, r)
  }

  function Ensured(m: Memory, bridge: Bridge, want: Want, r: Replies): Outcome {
    if want.members == [] then Outcome(Failed, m, bridge)
    else if Cached(m, bridge, want, r) then Using(m.cached, m, m, bridge, want, true)
    else Listed(m.(cached := NO_CID), bridge, want, r)
  }

  // ---------------------------------------------------------- the streamer

  /** The streamer's memory of its configuration, and the bridge it talks to. */
  class Streamer {
    var cached: CID
    var stored: Option<CID>
    var zone: Zone
    var bridge: Bridge

    ghost function Mem(): Memory
      reads this
    {
      Memory(cached, stored)
    }

    constructor (stored: Option<CID>, bridge: Bridge)
      ensures Mem() == Memory(NO_CID, stored) && zone.None? && this.bridge == bridge
    {
      cached, this.stored, zone, this.bridge := NO_CID, stored, None, bridge;
    }

    method Keep(id: CID)
      modifies this`cached, this`stored
      ensures Mem() == old(Mem()).Kept(id)
    {
      cached := id;
      if stored.Some? {
        stored := Some(id);
      }
    }

    /** The two loops that pick the candidate. */
    method PickCandidate(listing: seq<CID>) returns (id: CID)
      ensures id == Candidate(listing, Mem().Persisted(), bridge)
    {
      var persisted := if stored.Some? then stored.value else NO_CID;
      id := NO_CID;
      var i := 0;
      while i < |listing|
        invariant 0 <= i <= |listing| && id == NO_CID
        invariant forall j :: 0 <= j < i ==> persisted == NO_CID || listing[j] != persisted
      {
        if persisted != NO_CID && listing[i] == persisted {
          return listing[i];
        }
        i := i + 1;
      }
      i := 0;
      while i < |listing|
        invariant 0 <= i <= |listing|
        invariant id == FirstNamed(listing, bridge, i) == NO_CID
      {
        if listing[i] in bridge && bridge[listing[i]].name == RELUME {
          id := listing[i];
          if id != NO_CID {
            NamedStays(listing, bridge, i + 1, |listing|);
            return;
          }
        }
        i := i + 1;
      }
    }

    /** Read the configuration's channels back into a map, or fail if none maps to a light. */
    method Use(id: CID, want: Want, reused: bool, keep: bool) returns (r: Result)
      requires id in bridge
      modifies this`cached, this`stored
      ensures Outcome(r, Mem(), bridge) == Using(id, old(Mem()), if keep then old(Mem()).Kept(id) else old(Mem()), bridge, want, reused)
    {
      var remap := RemapFromConfig(bridge[id].channels, want.svcToV1);
      if remap == map[] {
        return Failed;
      }
      if keep {
        Keep(id);
      }
      return Ready(id, remap, reused);
    }

    method Create(want: Want, r: Replies) returns (res: Result)
      modifies this`cached, this`stored, this`bridge
      ensures Outcome(res, Mem(), bridge) == Creating(old(Mem()), old(bridge), want, r)
    {
      if r.created.None? {
        return Failed;
      }
      var id := r.created.value.id;
      bridge := bridge[id := Config(RELUME, r.created.value.channels)];
      if !r.createdRead {
        return Failed;
      }
      res := Use(id, want, false, true);
    }

    method UseListed(want: Want, r: Replies) returns (res: Result)
      modifies this`cached, this`stored, this`bridge
      ensures Outcome(res, Mem(), bridge) == Listed(old(Mem()), old(bridge), want, r)
    {
      if r.listing.None? {
        return Failed;
      }
      var id := PickCandidate(r.listing.value);
      if id != NO_CID {
        if id !in bridge || !r.candidateRead {
          return Failed;
        }
        var covers := CoversServices(bridge[id].channels, set m | m in want.members);
        if covers {
          res := Use(id, want, true, true);
          return;
        }
        if r.deleted {
          bridge := bridge - {id};
        }
      }
      res := Create(want, r);
    }

    /** ensureConfig. */
    method Ensure(r: Replies) returns (res: Result, ghost want: Want, ghost inv: map<UUID, nat>)
      modifies this`cached, this`stored, this`bridge
      ensures r.lights.None? || r.services.None? ==> res.Failed? && Mem() == old(Mem()) && bridge == old(bridge)
      ensures r.lights.Some? && r.services.Some? ==>
                && Inverts(Assigned(r.lights.value), inv)
                && want == WantOf(r, inv, zone)
                && Outcome(res, Mem(), bridge) == Ensured(old(Mem()), old(bridge), want, r)
    {
      inv := map[];
      want := Want([], map[]);
      if r.lights.None? || r.services.None? {
        return Failed, want, inv;
      }
      var w: Want;
      w, inv := Collect(r.lights.value, r.services.value, zone);
      want := w;
      if w.members == [] {
        return Failed, want, inv;
      }
      if cached != NO_CID {
        var covers := false;
        if r.cachedRead && cached in bridge {
          covers := CoversServices(bridge[cached].channels, set m | m in w.members);
        }
        if covers {
          res := Use(cached, w, true, false);
          return;
        }
        cached := NO_CID;
      }
      res := UseListed(w, r);
    }
  }

  lemma {:induction false} NamedStays(listing: seq<CID>, bridge: Bridge, i: nat, n: nat)
    requires i <= n <= |listing| && FirstNamed(listing, bridge, i) != NO_CID
    ensures FirstNamed(listing, bridge, n) == FirstNamed(listing, bridge, i)
  {
    if i < n {
      NamedStays(listing, bridge, i, n - 1);
    }
  }

  // --------------------------------------------------------------- theorems

  lemma {:induction false} NamedIsRelume(listing: seq<CID>, bridge: Bridge, n: nat)
    requires n <= |listing| && FirstNamed(listing, bridge, n) != NO_CID
    ensures var id := FirstNamed(listing, bridge, n);
            id in bridge && bridge[id].name == RELUME && exists i :: 0 <= i < n && listing[i] == id
  {
    if FirstNamed(listing, bridge, n - 1) != NO_CID {
      NamedIsRelume(listing, bridge, n - 1);
      var id := FirstNamed(listing, bridge, n);
      var i :| 0 <= i < n - 1 && listing[i] == id;
      assert listing[i] == id;
    } else {
      assert listing[n - 1] == FirstNamed(listing, bridge, n);
    }
  }

  /** A candidate is the persisted id or bears relume-tv's name, and is on the bridge. */
  lemma CandidateIsOurs(listing: seq<CID>, persisted: CID, bridge: Bridge)
    requires forall id :: id in listing ==> id in bridge
    ensures var id := Candidate(listing, persisted, bridge);
            id != NO_CID ==> id in bridge && (id == persisted || bridge[id].name == RELUME)
  {
    if !(persisted != NO_CID && persisted in listing) && Candidate(listing, persisted, bridge) != NO_CID {
      NamedIsRelume(listing, bridge, |listing|);
    }
  }

  /** Without the persisted id in it, a listing's first configuration of relume-tv's name is the candidate, if it has one. */
  lemma CandidateIsFirst(listing: seq<CID>, persisted: CID, bridge: Bridge, i: nat)
    requires NO_CID !in bridge && i < |listing| && listing[i] in bridge && bridge[listing[i]].name == RELUME
    requires forall j :: 0 <= j < i ==> !(listing[j] in bridge && bridge[listing[j]].name == RELUME)
    ensures Candidate(listing, persisted, bridge) == if persisted != NO_CID && persisted in listing then persisted else listing[i]
  {
    NoneBefore(listing, bridge, i);
    assert FirstNamed(listing, bridge, i + 1) == listing[i] != NO_CID;
    NamedStays(listing, bridge, i + 1, |listing|);
  }

  lemma {:induction false} NoneBefore(listing: seq<CID>, bridge: Bridge, n: nat)
    requires n <= |listing| && forall j :: 0 <= j < n ==> !(listing[j] in bridge && bridge[listing[j]].name == RELUME)
    ensures FirstNamed(listing, bridge, n) == NO_CID
  {
    if n > 0 {
      NoneBefore(listing, bridge, n - 1);
    }
  }

  /** A success names a configuration on the bridge that covers exactly the wanted services. */
  lemma SuccessCovers(m: Memory, bridge: Bridge, want: Want, r: Replies)
    requires Faithful(r, bridge, want) && Ensured(m, bridge, want, r).result.Ready?
    ensures var o := Ensured(m, bridge, want, r);
            && o.result.id != NO_CID && o.memory.cached == o.result.id
            && Covers(o.bridge, o.result.id, want)
            && o.result.remap == RemapOf(o.bridge[o.result.id], want) != map[]
            && (m.stored.Some? && !Cached(m, bridge, want, r) ==> o.memory.stored == Some(o.result.id))
  {
  }

  /** A success says "reused" exactly if its configuration was on the bridge before, which then stays as it was. */
  lemma ReusedIff(m: Memory, bridge: Bridge, want: Want, r: Replies)
    requires Faithful(r, bridge, want) && Ensured(m, bridge, want, r).result.Ready?
    ensures var o := Ensured(m, bridge, want, r);
            && (o.result.reused <==> o.result.id in bridge)
            && (o.result.reused ==> o.bridge == bridge)
  {
  }

  /** A failure never touches the store, and with something wanted it forgets a cached id that no longer serves. */
  lemma FailureForgets(m: Memory, bridge: Bridge, want: Want, r: Replies)
    requires Ensured(m, bridge, want, r).result.Failed?
    ensures var o := Ensured(m, bridge, want, r);
            && o.memory.stored == m.stored
            && (o.memory.cached == m.cached || o.memory.cached == NO_CID)
            && (want.members != [] && o.memory.cached != NO_CID ==> r.cachedRead && Covers(bridge, m.cached, want))
  {
  }

  /** Another call of the Pro reads the same lights and services. */
  predicate Unchanged(r: Replies, again: Replies) {
    r.lights.Some? && r.services.Some? && again.lights == r.lights && again.services == r.services
  }

  /** Unchanged lights, services and zone are wanted alike, in whatever order the maps were visited. */
  lemma WantUnchanged(r: Replies, again: Replies, inv: map<UUID, nat>, other: map<UUID, nat>, zone: Zone)
    requires Unchanged(r, again) && Distinct(r.lights.value)
    requires Inverts(Assigned(r.lights.value), inv) && Inverts(Assigned(r.lights.value), other)
    ensures WantOf(again, other, zone) == WantOf(r, inv, zone)
  {
    InverseIsUnique(r.lights.value, inv, other);
  }

  /** Every call of the Pro goes through. */
  predicate Working(r: Replies) {
    r.lights.Some? && r.services.Some? && r.cachedRead && r.listing.Some? && r.candidateRead && r.created.Some? && r.createdRead
  }

  /** All configurations there are or may be created drive one service a channel, under ids of one byte. */
  ghost predicate AllPlain(bridge: Bridge, r: Replies) {
    && (forall id :: id in bridge ==> Plain(bridge[id].channels))
    && (r.created.Some? ==> Plain(r.created.value.channels))
  }

  /**
   * With a working, faithful bridge and something wanted the call succeeds, and its map has
   * every light that is wanted.
   */
  lemma WorkingBridgeSucceeds(m: Memory, bridge: Bridge, want: Want, r: Replies)
    requires Working(r) && Faithful(r, bridge, want) && AllPlain(bridge, r)
    requires want.members != [] && want.svcToV1.Keys == want.Services()
    ensures Ensured(m, bridge, want, r).result.Ready?
    ensures Ensured(m, bridge, want, r).result.remap.Keys == want.svcToV1.Values
  {
    assert want.members[0] in want.Services();
    assert want.svcToV1[want.members[0]] in want.svcToV1.Values;
    forall c: Config | Plain(c.channels) && c.Services() == want.Services() ensures RemapOf(c, want).Keys == want.svcToV1.Values {
      NoLightLeftOut(c.channels, want);
    }
    if !Cached(m, bridge, want, r) {
      CandidateIsOurs(r.listing.value, m.Persisted(), bridge);
    }
  }

  /** Nothing wanted, or a read refused: no stream. */
  lemma NothingWantedFails(m: Memory, bridge: Bridge, want: Want, r: Replies)
    requires want.members == [] || (!Cached(m, bridge, want, r) && r.listing.None?)
    ensures Ensured(m, bridge, want, r).result.Failed? && Ensured(m, bridge, want, r).bridge == bridge
  {
  }

  /** In the same process, the next call with unchanged lights, services and zone changes nothing. */
  lemma RepeatReuses(m: Memory, bridge: Bridge, r: Replies, again: Replies, inv: map<UUID, nat>, other: map<UUID, nat>, zone: Zone)
    requires Unchanged(r, again) && Distinct(r.lights.value)
    requires Inverts(Assigned(r.lights.value), inv) && Inverts(Assigned(r.lights.value), other)
    requires Faithful(r, bridge, WantOf(r, inv, zone)) && Ensured(m, bridge, WantOf(r, inv, zone), r).result.Ready?
    requires again.cachedRead
    ensures var o := Ensured(m, bridge, WantOf(r, inv, zone), r);
            Ensured(o.memory, o.bridge, WantOf(again, other, zone), again) == Outcome(o.result.(reused := true), o.memory, o.bridge)
  {
    WantUnchanged(r, again, inv, other, zone);
    SuccessCovers(m, bridge, WantOf(r, inv, zone), r);
  }

  /** Cache and store never disagree. */
  predicate Agree(m: Memory) {
    m.cached == NO_CID || m.stored.None? || m.stored == Some(m.cached)
  }

  lemma AgreeKept(m: Memory, bridge: Bridge, want: Want, r: Replies)
    requires Agree(m)
    ensures Agree(Ensured(m, bridge, want, r).memory)
  {
  }

  /** With a store, the same holds after a restart. */
  lemma RestartReuses(m: Memory, bridge: Bridge, r: Replies, again: Replies, inv: map<UUID, nat>, other: map<UUID, nat>, zone: Zone)
    requires Unchanged(r, again) && Distinct(r.lights.value)
    requires Inverts(Assigned(r.lights.value), inv) && Inverts(Assigned(r.lights.value), other)
    requires Faithful(r, bridge, WantOf(r, inv, zone)) && Ensured(m, bridge, WantOf(r, inv, zone), r).result.Ready?
    requires Agree(m) && m.stored.Some? && again.listing.Some? && again.candidateRead
    requires Faithful(again, Ensured(m, bridge, WantOf(r, inv, zone), r).bridge, WantOf(again, other, zone))
    ensures var o := Ensured(m, bridge, WantOf(r, inv, zone), r);
            Ensured(o.memory.(cached := NO_CID), o.bridge, WantOf(again, other, zone), again)
            == Outcome(o.result.(reused := true), o.memory, o.bridge)
  {
    WantUnchanged(r, again, inv, other, zone);
    SuccessCovers(m, bridge, WantOf(r, inv, zone), r);
  }

  /** The stale configuration the call gives up, if it comes to that. */
  predicate Stale(m: Memory, bridge: Bridge, want: Want, r: Replies) {
    && want.members != [] && !Cached(m, bridge, want, r) && r.listing.Some?
    && var id := Candidate(r.listing.value, m.Persisted(), bridge);
       id != NO_CID && id in bridge && r.candidateRead && !Covers(bridge, id, want)
  }

  /** Neither the cached, nor the persisted id, nor the name led to a configuration. */
  predicate Unknown(m: Memory, bridge: Bridge, want: Want, r: Replies) {
    && want.members != [] && !Cached(m, bridge, want, r) && r.listing.Some?
    && Candidate(r.listing.value, m.Persisted(), bridge) == NO_CID
  }

  /**
   * What a call does to the bridge: it creates one configuration when it knows none or the
   * one it knows is stale, deletes only that stale one, and touches no other.
   */
  lemma BridgeChange(m: Memory, bridge: Bridge, want: Want, r: Replies)
    requires Faithful(r, bridge, want)
    ensures var o := Ensured(m, bridge, want, r);
            var left := if Stale(m, bridge, want, r) && r.deleted
                        then bridge - {Candidate(r.listing.value, m.Persisted(), bridge)} else bridge;
            o.bridge == if (Stale(m, bridge, want, r) || Unknown(m, bridge, want, r)) && r.created.Some?
                        then left[r.created.value.id := Config(RELUME, r.created.value.channels)] else left
  {
  }

  lemma Counts(bridge: Bridge, gone: CID, added: CID, c: Config)
    requires added !in bridge
    ensures |bridge[added := c]| == |bridge| + 1
    ensures gone in bridge ==> |bridge - {gone}| == |bridge| - 1 && |(bridge - {gone})[added := c]| == |bridge|
  {
    assert bridge[added := c].Keys == bridge.Keys + {added};
    assert (bridge - {gone}).Keys == bridge.Keys - {gone};
    assert (bridge - {gone})[added := c].Keys == bridge.Keys - {gone} + {added};
  }

  /**
   * The number of configurations grows exactly when one is created and either none was
   * known or the stale one could not be deleted.
   */
  lemma GrowsIff(m: Memory, bridge: Bridge, want: Want, r: Replies)
    requires Faithful(r, bridge, want)
    ensures |Ensured(m, bridge, want, r).bridge| <= |bridge| + 1
    ensures |Ensured(m, bridge, want, r).bridge| > |bridge| <==>
            r.created.Some? && (Unknown(m, bridge, want, r) || (Stale(m, bridge, want, r) && !r.deleted))
  {
    BridgeChange(m, bridge, want, r);
    if r.created.Some? {
      var gone := if r.listing.Some? then Candidate(r.listing.value, m.Persisted(), bridge) else NO_CID;
      Counts(bridge, gone, r.created.value.id, Config(RELUME, r.created.value.channels));
    } else if Stale(m, bridge, want, r) {
      Counts(bridge, Candidate(r.listing.value, m.Persisted(), bridge), NO_CID, Config(RELUME, []));
    }
  }

  const LAMP := UUID("lamp")
  const DEVICE := UUID("device")
  const SERVICE := UUID("service")
  const OLD := CID("old")
  const NEW := CID("new")

  /** One colour light, not covered by the configuration listed and persisted, whose delete fails. */
  const UNDELETED := Replies(
    Some([Light(LAMP, true, DEVICE)]), Some([Service(SERVICE, DEVICE)]), true, Some([OLD]), true, false,
    Some(Created(NEW, [EntChannel(0, [SERVICE])])), true)

  lemma OneLight() returns (inv: map<UUID, nat>)
    ensures Inverts(Assigned(UNDELETED.lights.value), inv)
    ensures WantOf(UNDELETED, inv, None) == Want([SERVICE], map[SERVICE := 1])
  {
    var lights, services := UNDELETED.lights.value, UNDELETED.services.value;
    inv := map[LAMP := 1];
    assert Colors(lights, 0) == [] && Colors(lights, 1) == [LAMP];
    assert Assigned(lights) == map[1 := LAMP];
    var dev := Owned(services, 1);
    assert Owned(services, 0) == map[] && dev == map[DEVICE := SERVICE];
    assert Takes(lights[0], dev, inv, None);
    assert Wanted(lights, dev, inv, None, 0) == Want([], map[]);
    assert Wanted(lights, dev, inv, None, 1) == Want([SERVICE], map[SERVICE := 1]);
  }

  lemma StaleBridge(want: Want)
    requires want == Want([SERVICE], map[SERVICE := 1])
    ensures Faithful(UNDELETED, map[OLD := Config(RELUME, [])], want)
    ensures Stale(Memory(NO_CID, Some(OLD)), map[OLD := Config(RELUME, [])], want, UNDELETED)
  {
    var channels := [EntChannel(0, [SERVICE])];
    assert SERVICE.text[0] == 's' && NEW.text[0] == 'n' && OLD.text[0] == 'o';
    assert Covered(channels, 1) == Covered(channels, 0) + Drives([SERVICE]) == {SERVICE};
    assert want.Services() == {SERVICE};
    assert Covered([], 0) == {};
    assert OLD in [OLD] && SERVICE in want.Services();
  }

  /**
   * So a listed, persisted id does not keep the bridge from growing when its delete fails:
   * the replies of a call that does so, for what its own lights and services make it want.
   */
  lemma FailedDeleteGrows() returns (m: Memory, bridge: Bridge, inv: map<UUID, nat>)
    ensures Inverts(Assigned(UNDELETED.lights.value), inv)
    ensures Faithful(UNDELETED, bridge, WantOf(UNDELETED, inv, None))
    ensures m.Persisted() in bridge && m.Persisted() in UNDELETED.listing.value
    ensures |Ensured(m, bridge, WantOf(UNDELETED, inv, None), UNDELETED).bridge| == |bridge| + 1
  {
    m, bridge := Memory(NO_CID, Some(OLD)), map[OLD := Config(RELUME, [])];
    inv := OneLight();
    StaleBridge(WantOf(UNDELETED, inv, None));
    assert OLD in [OLD];
    GrowsIff(m, bridge, WantOf(UNDELETED, inv, None), UNDELETED);
  }

  /** Other applications' configurations, and relume-tv's while it covers the lights, are never deleted or changed. */
  lemma OthersUntouched(m: Memory, bridge: Bridge, want: Want, r: Replies, id: CID)
    requires Faithful(r, bridge, want) && id in bridge
    requires Covers(bridge, id, want) || (id != m.Persisted() && bridge[id].name != RELUME)
    ensures var o := Ensured(m, bridge, want, r); id in o.bridge && o.bridge[id] == bridge[id]
  {
    BridgeChange(m, bridge, want, r);
    if r.listing.Some? {
      CandidateIsOurs(r.listing.value, m.Persisted(), bridge);
    }
  }

  // Configurations do not pile up.

  /** The configurations relume-tv would take for its own. */
  function Ours(m: Memory, bridge: Bridge): set<CID> {
    set id | id in bridge && (bridge[id].name == RELUME || id == m.Persisted())
  }

  lemma {:induction false} NoneNamed(listing: seq<CID>, bridge: Bridge, n: nat, i: nat)
    requires i < n <= |listing| && FirstNamed(listing, bridge, n) == NO_CID && NO_CID !in bridge
    ensures listing[i] !in bridge || bridge[listing[i]].name != RELUME
  {
    if i < n - 1 {
      NoneNamed(listing, bridge, n - 1, i);
    }
  }

  lemma UnknownHasNone(m: Memory, bridge: Bridge, want: Want, r: Replies)
    requires Faithful(r, bridge, want) && Unknown(m, bridge, want, r)
    ensures Ours(m, bridge) == {}
  {
    var listing := r.listing.value;
    forall id | id in bridge ensures bridge[id].name != RELUME && id != m.Persisted() {
      var i :| 0 <= i < |listing| && listing[i] == id;
      NoneNamed(listing, bridge, |listing|, i);
    }
  }

  lemma StaleIsOurs(m: Memory, bridge: Bridge, want: Want, r: Replies)
    requires Faithful(r, bridge, want) && Stale(m, bridge, want, r)
    ensures Candidate(r.listing.value, m.Persisted(), bridge) in Ours(m, bridge)
  {
    CandidateIsOurs(r.listing.value, m.Persisted(), bridge);
  }

  /** The id a call leaves in the store: the one it had, or the one it succeeded with. */
  lemma StoreChange(m: Memory, bridge: Bridge, want: Want, r: Replies)
    requires Faithful(r, bridge, want)
    ensures var o := Ensured(m, bridge, want, r);
            o.memory.Persisted() != m.Persisted() ==>
              || (r.created.Some? && o.memory.Persisted() == r.created.value.id
                  && (Stale(m, bridge, want, r) || Unknown(m, bridge, want, r)))
              || o.memory.Persisted() in Ours(m, bridge)
  {
    if r.listing.Some? {
      CandidateIsOurs(r.listing.value, m.Persisted(), bridge);
    }
  }

  lemma Swapped(before: set<CID>, after: set<CID>, gone: CID, added: CID)
    requires after <= before - {gone} + {added} && gone in before
    ensures |after| <= |before|
  {
    SubsetSize(after, before - {gone} + {added});
  }

  /** As long as deleting works, a call never leaves more of them than it found, or than one. */
  lemma OursStayFew(m: Memory, bridge: Bridge, want: Want, r: Replies)
    requires Faithful(r, bridge, want) && (Stale(m, bridge, want, r) ==> r.deleted)
    ensures var o := Ensured(m, bridge, want, r);
            |Ours(o.memory, o.bridge)| <= 1 || |Ours(o.memory, o.bridge)| <= |Ours(m, bridge)|
  {
    var o := Ensured(m, bridge, want, r);
    var before, after := Ours(m, bridge), Ours(o.memory, o.bridge);
    BridgeChange(m, bridge, want, r);
    StoreChange(m, bridge, want, r);
    if Unknown(m, bridge, want, r) {
      UnknownHasNone(m, bridge, want, r);
      if r.created.Some? {
        SubsetSize(after, {r.created.value.id});
      }
    } else if Stale(m, bridge, want, r) {
      var gone := Candidate(r.listing.value, m.Persisted(), bridge);
      StaleIsOurs(m, bridge, want, r);
      if r.created.Some? {
        Swapped(before, after, gone, r.created.value.id);
      } else {
        SubsetSize(after, before);
      }
    } else {
      SubsetSize(after, before);
    }
  }

  /** Any number of calls, the lights and the zone changing at will, and restarts. */
  datatype Run =
    | Boot(m: Memory, bridge: Bridge)
    | Call(before: Run, want: Want, r: Replies)
    | Restart(before: Run)

  function Left(run: Run): (Memory, Bridge) {
    match run
    case Boot(m, bridge) => (m, bridge)
    case Call(before, want, r) =>
      var o := Ensured(Left(before).0, Left(before).1, want, r);
      (o.memory, o.bridge)
    case Restart(before) => (Left(before).0.(cached := NO_CID), Left(before).1)
  }

  function Found(run: Run): set<CID> {
    match run
    case Boot(m, bridge) => Ours(m, bridge)
    case Call(before, _, _) => Found(before)
    case Restart(before) => Found(before)
  }

  /** The bridge was faithful throughout and no delete of a stale configuration failed. */
  ghost predicate Deletes(run: Run) {
    match run
    case Boot(m, bridge) => true
    case Call(before, want, r) =>
      && Deletes(before) && Faithful(r, Left(before).1, want)
      && (Stale(Left(before).0, Left(before).1, want, r) ==> r.deleted)
    case Restart(before) => Deletes(before)
  }

  /** However often the lights, the zone or the process change, relume-tv's areas do not pile up. */
  lemma {:induction false} NeverPilesUp(run: Run)
    requires Deletes(run)
    ensures |Ours(Left(run).0, Left(run).1)| <= 1 || |Ours(Left(run).0, Left(run).1)| <= |Found(run)|
  {
    match run
    case Boot(_, _) =>
    case Call(before, want, r) =>
      NeverPilesUp(before);
      OursStayFew(Left(before).0, Left(before).1, want, r);
    case Restart(before) =>
      NeverPilesUp(before);
      var m := Left(before).0;
      assert Ours(m.(cached := NO_CID), Left(before).1) == Ours(m, Left(before).1);
  }

  /**
   * Every Pro channel of a success has as first member the service of a colour light in
   * the zone read then, or of any colour light when no zone was declared.
   */
  lemma ReadyStaysInZone(m: Memory, bridge: Bridge, r: Replies, inv: map<UUID, nat>, zone: Zone, v1: Word) returns (i: nat, k: nat)
    requires r.lights.Some? && r.services.Some? && Distinct(r.lights.value) && Inverts(Assigned(r.lights.value), inv)
    requires var want := WantOf(r, inv, zone);
             var o := Ensured(m, bridge, want, r);
             Faithful(r, bridge, want) && o.result.Ready? && v1 in o.result.remap
    ensures var lights := r.lights.value;
            var o := Ensured(m, bridge, WantOf(r, inv, zone), r);
            && o.result.id in o.bridge
            && var channels := o.bridge[o.result.id].channels;
            && i < |channels| && channels[i].members != [] && channels[i].id == o.result.remap[v1]
            && k < |lights| && lights[k].hasColor && lights[k].id in inv && inv[lights[k].id] == v1
            && (zone.Some? ==> v1 in zone.value)
            && Service(id := channels[i].members[0], owner := lights[k].owner) in r.services.value
  {
    var lights, services := r.lights.value, r.services.value;
    var want := WantOf(r, inv, zone);
    var o := Ensured(m, bridge, want, r);
    SuccessCovers(m, bridge, want, r);
    i, k := RemapStaysInZone(lights, services, inv, zone, o.bridge[o.result.id].channels, v1);
  }
}
