/**
 * From the zone the TV declared to the frames the Pro receives: the configuration that
 * ensureConfig resolved, the colour path fed through its channel map, and Encode.
 */
module EndToEnd {
  import opened Common
  import opened HueStream
  import opened LightMap
  import opened Members
  import P = Pipeline
  import E = EnsureConfig

  /** Samples reach only channels the map leads to. */
  predicate FedBy(r: P.Run, remap: map<Word, Byte>) {
    match r
    case Established => true
    case Sample(before, id, raw) => id in remap.Values && FedBy(before, remap)
    case Tick(before) => FedBy(before, remap)
  }

  /** What Push does to a run keeps to the map. */
  lemma {:induction false} PushFeeds(r: P.Run, remap: map<Word, Byte>, cs: seq<Channel>, n: nat)
    requires n <= |cs| && FedBy(r, remap)
    ensures FedBy(P.Pushed(r, remap, cs, n), remap)
  {
    if n > 0 {
      PushFeeds(r, remap, cs, n - 1);
      var ch := cs[n - 1];
      if ch.id in remap {
        assert remap[ch.id] in remap.Values;
      }
    }
  }

  lemma {:induction false} TargetsAreFed(r: P.Run, remap: map<Word, Byte>, cfg: P.Settings, id: Byte)
    requires cfg.Valid() && FedBy(r, remap) && id in P.Result(r, cfg).latest
    ensures id in remap.Values
  {
    match r
    case Established =>
    case Sample(before, other, raw) =>
      if other != id {
        TargetsAreFed(before, remap, cfg, id);
      }
    case Tick(before) => TargetsAreFed(before, remap, cfg, id);
  }

  /**
   * Every channel of every frame sent to the Pro drives, as first member of the resolved
   * configuration, the service of a colour light in the zone read when the stream was
   * resolved; of any colour light when the TV had declared no zone.
   */
  lemma FrameStaysInZone(m: E.Memory, bridge: E.Bridge, r: E.Replies, inv: map<UUID, nat>, zone: Zone,
                         run: P.Run, cfg: P.Settings, f: Frame, ids: seq<Byte>, c: nat) returns (i: nat, k: nat)
    requires r.lights.Some? && r.services.Some? && Distinct(r.lights.value) && Inverts(Assigned(r.lights.value), inv)
    requires var want := E.WantOf(r, inv, zone);
             var o := E.Ensured(m, bridge, want, r);
             E.Faithful(r, bridge, want) && o.result.Ready? && FedBy(run, o.result.remap)
    requires cfg.Valid() && P.Mapped(run) && P.Carries(f, ids, P.Result(run, cfg)) && c < |f.channels|
    ensures var lights := r.lights.value;
            var o := E.Ensured(m, bridge, E.WantOf(r, inv, zone), r);
            && o.result.id in o.bridge
            && var channels := o.bridge[o.result.id].channels;
            && i < |channels| && channels[i].members != [] && channels[i].id == f.channels[c].id
            && k < |lights| && lights[k].hasColor && lights[k].id in inv
            && (zone.Some? ==> inv[lights[k].id] in zone.value)
            && Service(id := channels[i].members[0], owner := lights[k].owner) in r.services.value
  {
    var remap := E.Ensured(m, bridge, E.WantOf(r, inv, zone), r).result.remap;
    P.FrameIsComplete(run, cfg, f, ids);
    TargetsAreFed(run, remap, cfg, f.channels[c].id);
    var v1 :| v1 in remap && remap[v1] == f.channels[c].id;
    i, k := E.ReadyStaysInZone(m, bridge, r, inv, zone, v1);
  }

  /** What the Pro decodes from a sent datagram are exactly the frame's channels, in its order. */
  lemma {:induction false} SentIsReceived(run: P.Run, cfg: P.Settings, f: Frame, ids: seq<Byte>)
    requires cfg.Valid() && P.Mapped(run) && P.Carries(f, ids, P.Result(run, cfg)) && f.major == 2
    ensures Decoded(Encoded(f)).Ok? && Decoded(Encoded(f)).frame.channels == f.channels
  {
    EncodeThenParse(f);
    P.EncodeDropsNone(run, cfg, f, ids);
  }
}
