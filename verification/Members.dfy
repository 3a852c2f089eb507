/**
 * What an entertainment configuration must cover and how its channels map back to the
 * TV's lights (entertainment/streamer.go: the first half of ensureConfig,
 * configCoversServices, remapFromConfig).
 */
module Members {
  import opened Common
  import opened LightMap

  /** An entertainment service of the Pro and the device that owns it. */
  datatype Service = Service(id: UUID, owner: UUID)

  /** A channel as the bridge reads it back, with the services it drives. */
  datatype EntChannel = EntChannel(id: int, members: seq<UUID>)

  const NO_RID := UUID("")

  /** The TV's zone, if it declared one: v1 ids. */
  type Zone = Option<set<Word>>

  // ----------------------------------------------------------------- members

  /** Device to service; of two services of one device the later one. */
  function Owned(services: seq<Service>, n: nat): map<UUID, UUID>
    requires n <= |services|
  {
    if n == 0 then map[] else Owned(services, n - 1)[services[n - 1].owner := services[n - 1].id]
  }

  /** The v1 number a light goes by, when it is one that fits. */
  predicate HasNumber(l: Light, inv: map<UUID, nat>) {
    l.id in inv && inv[l.id] < 0x1_0000
  }

  /** Whether a light is to be a member of the configuration. */
  predicate Takes(l: Light, dev: map<UUID, UUID>, inv: map<UUID, nat>, zone: Zone) {
    l.hasColor && l.owner in dev && HasNumber(l, inv) && (zone.None? || inv[l.id] in zone.value)
  }

  /** The members in light order, and the v1 id each service stands for. */
  datatype Want = Want(members: seq<UUID>, svcToV1: map<UUID, Word>) {
    function Services(): set<UUID> { set m | m in members }
  }

  function Wanted(lights: seq<Light>, dev: map<UUID, UUID>, inv: map<UUID, nat>, zone: Zone, n: nat): (w: Want)
    requires n <= |lights|
    ensures w.svcToV1.Keys == w.Services()
  {
    if n == 0 then Want([], map[])
    else
      var w := Wanted(lights, dev, inv, zone, n - 1);
      var l := lights[n - 1];
      if Takes(l, dev, inv, zone) then Want(w.members + [dev[l.owner]], w.svcToV1[dev[l.owner] := inv[l.id]]) else w
  }

  /** The first half of ensureConfig. */
  method Collect(lights: seq<Light>, services: seq<Service>, zone: Zone) returns (w: Want, inv: map<UUID, nat>)
    ensures Inverts(Assigned(lights), inv)
    ensures w == Wanted(lights, Owned(services, |services|), inv, zone, |lights|)
  {
    var devToSvc: map<UUID, UUID> := map[];
    var i := 0;
    while i < |services|
      invariant 0 <= i <= |services|
      invariant devToSvc == Owned(services, i)
    {
      devToSvc := devToSvc[services[i].owner := services[i].id];
      i := i + 1;
    }
    var v1ToUUID := LightsV1(lights);
    var uuidToV1 := Invert(v1ToUUID);
    inv := uuidToV1;
    var members: seq<UUID>, svcToV1: map<UUID, Word> := [], map[];
    i := 0;
    while i < |lights|
      invariant 0 <= i <= |lights|
      invariant Want(members, svcToV1) == Wanted(lights, devToSvc, inv, zone, i)
    {
      var l := lights[i];
      if l.hasColor && l.owner in devToSvc && l.id in uuidToV1 && uuidToV1[l.id] < 0x1_0000 {
        var v1: Word := uuidToV1[l.id];
        if zone.None? || v1 in zone.value {
          var svc := devToSvc[l.owner];
          members := members + [svc];
          svcToV1 := svcToV1[svc := v1];
        }
      }
      i := i + 1;
    }
    w := Want(members, svcToV1);
  }

  /** A service stands for a colour light of the zone, owned by the same device, under its own number. */
  ghost predicate StandsFor(svc: UUID, v1: Word, lights: seq<Light>, dev: map<UUID, UUID>, inv: map<UUID, nat>, zone: Zone, n: nat)
    requires n <= |lights|
  {
    exists k :: 0 <= k < n && Takes(lights[k], dev, inv, zone) && dev[lights[k].owner] == svc && inv[lights[k].id] == v1
  }

  lemma {:induction false} WantedStandFor(lights: seq<Light>, dev: map<UUID, UUID>, inv: map<UUID, nat>, zone: Zone, n: nat, svc: UUID)
    requires n <= |lights| && svc in Wanted(lights, dev, inv, zone, n).svcToV1
    ensures StandsFor(svc, Wanted(lights, dev, inv, zone, n).svcToV1[svc], lights, dev, inv, zone, n)
  {
    var w := Wanted(lights, dev, inv, zone, n - 1);
    var l := lights[n - 1];
    if Takes(l, dev, inv, zone) && dev[l.owner] == svc {
      assert StandsFor(svc, inv[l.id], lights, dev, inv, zone, n);
    } else {
      WantedStandFor(lights, dev, inv, zone, n - 1, svc);
      var k :| 0 <= k < n - 1 && Takes(lights[k], dev, inv, zone) && dev[lights[k].owner] == svc && inv[lights[k].id] == w.svcToV1[svc];
      assert 0 <= k < n;
    }
  }

  lemma {:induction false} TakenIsWanted(lights: seq<Light>, dev: map<UUID, UUID>, inv: map<UUID, nat>, zone: Zone, n: nat, k: nat)
    requires k < n <= |lights| && Takes(lights[k], dev, inv, zone)
    ensures dev[lights[k].owner] in Wanted(lights, dev, inv, zone, n).members
  {
    if k < n - 1 {
      TakenIsWanted(lights, dev, inv, zone, n - 1, k);
    }
  }

  /** A device's services, the last of which counts. */
  lemma {:induction false} OwnedIsService(services: seq<Service>, n: nat, owner: UUID)
    requires n <= |services| && owner in Owned(services, n)
    ensures Service(owner := owner, id := Owned(services, n)[owner]) in services
  {
    if services[n - 1].owner != owner {
      OwnedIsService(services, n - 1, owner);
    }
  }

  /** The service listed last for a device is `svc`. */
  ghost predicate LastService(services: seq<Service>, n: nat, owner: UUID, svc: UUID)
    requires n <= |services|
  {
    exists j :: 0 <= j < n && services[j] == Service(svc, owner) && forall k :: j < k < n ==> services[k].owner != owner
  }

  lemma {:induction false} OwnedIsLast(services: seq<Service>, n: nat, owner: UUID, svc: UUID)
    requires n <= |services|
    ensures owner in Owned(services, n) && Owned(services, n)[owner] == svc <==> LastService(services, n, owner, svc)
  {
    if n > 0 {
      OwnedIsLast(services, n - 1, owner, svc);
      if services[n - 1].owner == owner {
        assert services[n - 1] == Service(svc, owner) ==> LastService(services, n, owner, svc);
      } else if LastService(services, n - 1, owner, svc) {
        var j :| 0 <= j < n - 1 && services[j] == Service(svc, owner) && forall k :: j < k < n - 1 ==> services[k].owner != owner;
        assert forall k :: j < k < n ==> services[k].owner != owner;
      }
    }
  }

  /**
   * Light `k` calls for service `svc` under number `v1`: it has colour, `svc` is its
   * device's service, `v1` is its number and fits 16 bits, and the zone, if one is
   * declared, names it.
   */
  ghost predicate CallsFor(lights: seq<Light>, services: seq<Service>, inv: map<UUID, nat>, zone: Zone, k: nat, svc: UUID, v1: nat)
    requires k < |lights|
  {
    && lights[k].hasColor
    && LastService(services, |services|, lights[k].owner, svc)
    && lights[k].id in inv && inv[lights[k].id] == v1 && v1 < 65536
    && (zone.None? || v1 in zone.value)
  }

  lemma TakesIsCallsFor(lights: seq<Light>, services: seq<Service>, inv: map<UUID, nat>, zone: Zone, k: nat, svc: UUID, v1: nat)
    requires k < |lights|
    ensures var dev := Owned(services, |services|);
            CallsFor(lights, services, inv, zone, k, svc, v1) <==>
            Takes(lights[k], dev, inv, zone) && dev[lights[k].owner] == svc && inv[lights[k].id] == v1
  {
    OwnedIsLast(services, |services|, lights[k].owner, svc);
  }

  /** A service is wanted exactly if some light calls for it. */
  lemma WantedExactly(lights: seq<Light>, services: seq<Service>, inv: map<UUID, nat>, zone: Zone, svc: UUID)
    ensures svc in Wanted(lights, Owned(services, |services|), inv, zone, |lights|).Services() <==>
            exists k, v1 :: 0 <= k < |lights| && CallsFor(lights, services, inv, zone, k, svc, v1)
  {
    var dev := Owned(services, |services|);
    var w := Wanted(lights, dev, inv, zone, |lights|);
    if svc in w.Services() {
      WantedStandFor(lights, dev, inv, zone, |lights|, svc);
      var k :| 0 <= k < |lights| && Takes(lights[k], dev, inv, zone) && dev[lights[k].owner] == svc && inv[lights[k].id] == w.svcToV1[svc];
      TakesIsCallsFor(lights, services, inv, zone, k, svc, inv[lights[k].id]);
    }
    forall k, v1 | 0 <= k < |lights| && CallsFor(lights, services, inv, zone, k, svc, v1) ensures svc in w.Services() {
      TakesIsCallsFor(lights, services, inv, zone, k, svc, v1);
      TakenIsWanted(lights, dev, inv, zone, |lights|, k);
    }
  }

  lemma {:induction false} LastTaker(lights: seq<Light>, dev: map<UUID, UUID>, inv: map<UUID, nat>, zone: Zone, n: nat, svc: UUID) returns (k: nat)
    requires n <= |lights| && svc in Wanted(lights, dev, inv, zone, n).svcToV1
    ensures k < n && Takes(lights[k], dev, inv, zone) && dev[lights[k].owner] == svc
    ensures inv[lights[k].id] == Wanted(lights, dev, inv, zone, n).svcToV1[svc]
    ensures forall j :: k < j < n && Takes(lights[j], dev, inv, zone) ==> dev[lights[j].owner] != svc
  {
    var l := lights[n - 1];
    if Takes(l, dev, inv, zone) && dev[l.owner] == svc {
      k := n - 1;
    } else {
      k := LastTaker(lights, dev, inv, zone, n - 1, svc);
    }
  }

  /** And the number it is wanted under is that of the last light that calls for it. */
  lemma WantedNumber(lights: seq<Light>, services: seq<Service>, inv: map<UUID, nat>, zone: Zone, svc: UUID) returns (k: nat)
    requires svc in Wanted(lights, Owned(services, |services|), inv, zone, |lights|).svcToV1
    ensures k < |lights|
    ensures CallsFor(lights, services, inv, zone, k, svc, Wanted(lights, Owned(services, |services|), inv, zone, |lights|).svcToV1[svc])
    ensures forall j, v1 :: k < j < |lights| ==> !CallsFor(lights, services, inv, zone, j, svc, v1)
  {
    var dev := Owned(services, |services|);
    var w := Wanted(lights, dev, inv, zone, |lights|);
    k := LastTaker(lights, dev, inv, zone, |lights|, svc);
    TakesIsCallsFor(lights, services, inv, zone, k, svc, w.svcToV1[svc]);
    forall j, v1 | k < j < |lights| ensures !CallsFor(lights, services, inv, zone, j, svc, v1) {
      TakesIsCallsFor(lights, services, inv, zone, j, svc, v1);
    }
  }

  /** Light `k` calls for some service. */
  ghost predicate Calls(lights: seq<Light>, services: seq<Service>, inv: map<UUID, nat>, zone: Zone, k: nat)
    requires k < |lights|
  {
    exists svc, v1 :: CallsFor(lights, services, inv, zone, k, svc, v1)
  }

  /** The lights before light `k` that call for a service. */
  ghost function CallersBefore(lights: seq<Light>, services: seq<Service>, inv: map<UUID, nat>, zone: Zone, k: nat): set<nat>
    requires k <= |lights|
  {
    set j: nat | j < k && Calls(lights, services, inv, zone, j)
  }

  lemma CallerTakes(lights: seq<Light>, services: seq<Service>, inv: map<UUID, nat>, zone: Zone, k: nat)
    requires k < |lights|
    ensures Calls(lights, services, inv, zone, k) <==> Takes(lights[k], Owned(services, |services|), inv, zone)
  {
    var dev := Owned(services, |services|);
    if Takes(lights[k], dev, inv, zone) {
      TakesIsCallsFor(lights, services, inv, zone, k, dev[lights[k].owner], inv[lights[k].id]);
    }
    if svc, v1 :| CallsFor(lights, services, inv, zone, k, svc, v1) {
      TakesIsCallsFor(lights, services, inv, zone, k, svc, v1);
    }
  }

  lemma {:induction false} MembersCount(lights: seq<Light>, services: seq<Service>, inv: map<UUID, nat>, zone: Zone, n: nat)
    requires n <= |lights|
    ensures |Wanted(lights, Owned(services, |services|), inv, zone, n).members| == |CallersBefore(lights, services, inv, zone, n)|
  {
    if n > 0 {
      var callers := CallersBefore(lights, services, inv, zone, n - 1);
      MembersCount(lights, services, inv, zone, n - 1);
      CallerTakes(lights, services, inv, zone, n - 1);
      assert CallersBefore(lights, services, inv, zone, n) ==
             if Takes(lights[n - 1], Owned(services, |services|), inv, zone) then callers + {n - 1} else callers;
    } else {
      assert CallersBefore(lights, services, inv, zone, 0) == {};
    }
  }

  lemma {:induction false} MemberAt(lights: seq<Light>, dev: map<UUID, UUID>, inv: map<UUID, nat>, zone: Zone, n: nat, k: nat)
    requires k < n <= |lights| && Takes(lights[k], dev, inv, zone)
    ensures var i := |Wanted(lights, dev, inv, zone, k).members|;
            i < |Wanted(lights, dev, inv, zone, n).members| && Wanted(lights, dev, inv, zone, n).members[i] == dev[lights[k].owner]
  {
    if k < n - 1 {
      MemberAt(lights, dev, inv, zone, n - 1, k);
    }
  }

  /** The members follow the lights: that of light `k` stands behind one for each caller before it, and there are no others. */
  lemma MembersFollowLights(lights: seq<Light>, services: seq<Service>, inv: map<UUID, nat>, zone: Zone, k: nat, svc: UUID, v1: nat)
    requires k < |lights| && CallsFor(lights, services, inv, zone, k, svc, v1)
    ensures var members := Wanted(lights, Owned(services, |services|), inv, zone, |lights|).members;
            var i := |CallersBefore(lights, services, inv, zone, k)|;
            i < |members| && members[i] == svc && |members| == |CallersBefore(lights, services, inv, zone, |lights|)|
  {
    MembersCount(lights, services, inv, zone, k);
    MembersCount(lights, services, inv, zone, |lights|);
    TakesIsCallsFor(lights, services, inv, zone, k, svc, v1);
    MemberAt(lights, Owned(services, |services|), inv, zone, |lights|, k);
  }

  // ---------------------------------------------------------------- coverage

  /** The services a channel drives, placeholders aside. */
  function Drives(members: seq<UUID>): set<UUID> {
    set m | m in members && m != NO_RID
  }

  /** The services of the first `n` channels. */
  function Covered(channels: seq<EntChannel>, n: nat): set<UUID>
    requires n <= |channels|
  {
    if n == 0 then {} else Covered(channels, n - 1) + Drives(channels[n - 1].members)
  }

  lemma EqualBySize(have: set<UUID>, desired: set<UUID>)
    requires |have| == |desired| && desired <= have
    ensures have == desired
  {
    assert have == desired + (have - desired);
  }

  /** configCoversServices: the comparison by size and membership decides equality. */
  method CoversServices(channels: seq<EntChannel>, desired: set<UUID>) returns (b: bool)
    ensures b <==> Covered(channels, |channels|) == desired
  {
    var have: set<UUID> := {};
    var i := 0;
    while i < |channels|
      invariant 0 <= i <= |channels|
      invariant have == Covered(channels, i)
    {
      var ms, j := channels[i].members, 0;
      while j < |ms|
        invariant 0 <= j <= |ms|
        invariant have == Covered(channels, i) + Drives(ms[..j])
      {
        assert ms[..j + 1] == ms[..j] + [ms[j]];
        if ms[j] != NO_RID {
          have := have + {ms[j]};
        }
        j := j + 1;
      }
      assert ms[..j] == ms;
      i := i + 1;
    }
    if |have| != |desired| {
      return false;
    }
    var todo := desired;
    while todo != {}
      invariant todo <= desired && desired - todo <= have
      decreases todo
    {
      var rid :| rid in todo;
      if rid !in have {
        return false;
      }
      todo := todo - {rid};
    }
    EqualBySize(have, desired);
    return true;
  }

  // ------------------------------------------------------------------- remap

  /** The v1 id a channel is mapped for, if any. */
  function Target(ch: EntChannel, svcToV1: map<UUID, Word>): Option<Word> {
    if ch.members != [] && ch.members[0] in svcToV1 && 0 <= ch.id < 0x100 then Some(svcToV1[ch.members[0]]) else None
  }

  function Remap(channels: seq<EntChannel>, svcToV1: map<UUID, Word>, n: nat): map<Word, Byte>
    requires n <= |channels|
  {
    if n == 0 then map[]
    else
      var ch := channels[n - 1];
      var before := Remap(channels, svcToV1, n - 1);
      if Target(ch, svcToV1).Some? then before[Target(ch, svcToV1).value := ch.id] else before
  }

  /** remapFromConfig. */
  method RemapFromConfig(channels: seq<EntChannel>, svcToV1: map<UUID, Word>) returns (remap: map<Word, Byte>)
    ensures remap == Remap(channels, svcToV1, |channels|)
  {
    remap := map[];
    var i := 0;
    while i < |channels|
      invariant 0 <= i <= |channels|
      invariant remap == Remap(channels, svcToV1, i)
    {
      var ch := channels[i];
      if |ch.members| != 0 {
        if ch.members[0] in svcToV1 {
          if 0 <= ch.id <= 0xff {
            remap := remap[svcToV1[ch.members[0]] := ch.id];
          }
        }
      }
      i := i + 1;
    }
  }

  /** Each entry leads to a channel whose first member stands for the light, the last such channel. */
  lemma {:induction false} RemapLeadsTo(channels: seq<EntChannel>, svcToV1: map<UUID, Word>, n: nat, v1: Word) returns (i: nat)
    requires n <= |channels| && v1 in Remap(channels, svcToV1, n)
    ensures i < n && channels[i].id == Remap(channels, svcToV1, n)[v1] && Target(channels[i], svcToV1) == Some(v1)
    ensures forall j :: i < j < n ==> Target(channels[j], svcToV1) != Some(v1)
  {
    if Target(channels[n - 1], svcToV1) == Some(v1) {
      i := n - 1;
    } else {
      i := RemapLeadsTo(channels, svcToV1, n - 1, v1);
    }
  }

  /** Every light with a usable channel has an entry. */
  lemma {:induction false} RemapHasAll(channels: seq<EntChannel>, svcToV1: map<UUID, Word>, n: nat, i: nat)
    requires i < n <= |channels| && Target(channels[i], svcToV1).Some?
    ensures Target(channels[i], svcToV1).value in Remap(channels, svcToV1, n)
  {
    if i < n - 1 {
      RemapHasAll(channels, svcToV1, n - 1, i);
    }
  }

  /** Channels that drive one service each, or none, under ids of one byte. */
  predicate Plain(channels: seq<EntChannel>) {
    forall i :: 0 <= i < |channels| ==> |channels[i].members| <= 1 && 0 <= channels[i].id < 256
  }

  lemma {:induction false} CoveredByChannel(channels: seq<EntChannel>, n: nat, svc: UUID) returns (i: nat)
    requires n <= |channels| && svc in Covered(channels, n)
    ensures i < n && svc in channels[i].members
  {
    if svc in Drives(channels[n - 1].members) {
      i := n - 1;
    } else {
      i := CoveredByChannel(channels, n - 1, svc);
    }
  }

  /** A configuration of such channels that covers what is wanted leaves no light out: the map has every wanted number. */
  lemma NoLightLeftOut(channels: seq<EntChannel>, w: Want)
    requires Plain(channels) && Covered(channels, |channels|) == w.Services() && w.svcToV1.Keys == w.Services()
    ensures Remap(channels, w.svcToV1, |channels|).Keys == w.svcToV1.Values
  {
    var remap := Remap(channels, w.svcToV1, |channels|);
    forall v1 | v1 in w.svcToV1.Values ensures v1 in remap {
      var svc :| svc in w.svcToV1 && w.svcToV1[svc] == v1;
      var i := CoveredByChannel(channels, |channels|, svc);
      assert channels[i].members == [svc];
      RemapHasAll(channels, w.svcToV1, |channels|, i);
    }
    forall v1 | v1 in remap ensures v1 in w.svcToV1.Values {
      var i := RemapLeadsTo(channels, w.svcToV1, |channels|, v1);
      assert channels[i].members[0] in w.svcToV1;
    }
  }

  /**
   * Every channel the remap uses has as first member the service of a colour light in the
   * zone, the one whose number is mapped to it.
   */
  lemma RemapStaysInZone(lights: seq<Light>, services: seq<Service>, inv: map<UUID, nat>, zone: Zone,
                         channels: seq<EntChannel>, v1: Word) returns (i: nat, k: nat)
    requires Distinct(lights) && Inverts(Assigned(lights), inv)
    requires var w := Wanted(lights, Owned(services, |services|), inv, zone, |lights|);
             v1 in Remap(channels, w.svcToV1, |channels|)
    ensures var w := Wanted(lights, Owned(services, |services|), inv, zone, |lights|);
            && i < |channels| && channels[i].members != [] && channels[i].id == Remap(channels, w.svcToV1, |channels|)[v1]
            && k < |lights| && lights[k].hasColor && lights[k].id in inv && inv[lights[k].id] == v1
            && (zone.Some? ==> v1 in zone.value)
            && Service(id := channels[i].members[0], owner := lights[k].owner) in services
  {
    var dev := Owned(services, |services|);
    var w := Wanted(lights, dev, inv, zone, |lights|);
    i := RemapLeadsTo(channels, w.svcToV1, |channels|, v1);
    var svc := channels[i].members[0];
    WantedStandFor(lights, dev, inv, zone, |lights|, svc);
    k :| 0 <= k < |lights| && Takes(lights[k], dev, inv, zone) && dev[lights[k].owner] == svc && inv[lights[k].id] == v1;
    OwnedIsService(services, |services|, lights[k].owner);
  }
}
