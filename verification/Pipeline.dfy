/**
 * The colour path of the streamer (entertainment/streamer.go: Push, medianFilterLocked,
 * buildFrameLocked): TV samples are filtered into targets, and each tick eases what was
 * last sent towards the targets.
 *
 * Class Streamer holds the fields behind st.mu and follows the source's loops; each method
 * is proved against functions on the value Signals, and runs of those are reasoned about.
 */
module Pipeline {
  import opened Common
  import opened HueStream
  import opened Median
  import opened Easing

  /** Set once before Start: the median window and threshold and the easing weight. */
  datatype Settings = Settings(window: int, threshold: Word, alpha: real) {
    predicate Valid() { Weight(alpha) }
  }

  /** Per Pro channel: the easing target, the colour last sent, and the filter's window. */
  datatype Signals = Signals(
    latest: map<Byte, Channel>,
    current: map<Byte, Channel>,
    history: map<Byte, seq<Channel>>,
    spikes: nat)

  const FRESH: Signals := Signals(map[], map[], map[], 0)

  /** The last `w` entries. */
  function Capped(h: seq<Channel>, w: nat): seq<Channel> {
    if |h| > w then h[|h| - w..] else h
  }

  function HistoryOf(s: Signals, id: Byte): seq<Channel> {
    if id in s.history then s.history[id] else []
  }

  /** The window after one more sample. */
  function NextWindow(s: Signals, id: Byte, raw: Channel, cfg: Settings): seq<Channel>
    requires cfg.window > 1
    ensures NextWindow(s, id, raw, cfg) != []
  {
    Capped(HistoryOf(s, id) + [raw], cfg.window)
  }

  /** One sample of a channel passing the median stage. */
  function Sampled(s: Signals, id: Byte, raw: Channel, cfg: Settings): Signals {
    if cfg.window <= 1 then s.(latest := s.latest[id := raw])
    else
      var h := NextWindow(s, id, raw, cfg);
      var (out, suppressed) := GatedMedian(h, raw, cfg.threshold);
      Signals(s.latest[id := out], s.current, s.history[id := h], if suppressed then s.spikes + 1 else s.spikes)
  }

  /** What the next frame carries for a channel; a channel seen for the first time snaps. */
  function NextSent(s: Signals, id: Byte, cfg: Settings): Channel
    requires cfg.Valid() && id in s.latest
  {
    if id in s.current then SmoothToward(s.current[id], s.latest[id], cfg.alpha) else s.latest[id]
  }

  /** What a tick sends for every channel that has a target. */
  function Nexts(s: Signals, cfg: Settings): (next: map<Byte, Channel>)
    requires cfg.Valid()
    ensures next.Keys == s.latest.Keys
  {
    map id | id in s.latest :: NextSent(s, id, cfg)
  }

  function Ticked(s: Signals, cfg: Settings): Signals
    requires cfg.Valid()
  {
    s.(current := s.current + Nexts(s, cfg))
  }

  /** The ids in ascending order, each once. */
  ghost predicate Lists(ids: seq<Byte>, keys: set<Byte>) {
    && (forall i, j :: 0 <= i < j < |ids| ==> ids[i] < ids[j])
    && (forall i :: 0 <= i < |ids| ==> ids[i] in keys)
    && (forall id :: id in keys ==> id in ids)
  }

  /** One channel for each of the first `n` ids, in their order. */
  ghost predicate ShowsSoFar(cs: seq<Channel>, ids: seq<Byte>, colours: map<Byte, Channel>, n: nat) {
    |cs| == n <= |ids| && forall i :: 0 <= i < n ==> ids[i] in colours && cs[i] == colours[ids[i]]
  }

  ghost predicate Shows(cs: seq<Channel>, ids: seq<Byte>, colours: map<Byte, Channel>) {
    ShowsSoFar(cs, ids, colours, |ids|)
  }

  /** The frame a tick hands to Encode: the colour of every channel that has a target. */
  ghost predicate Carries(f: Frame, ids: seq<Byte>, s: Signals) {
    Lists(ids, s.latest.Keys) && Shows(f.channels, ids, s.current)
  }

  /** The sorted keys of the target map. */
  method SortedIds(keys: set<Byte>) returns (ids: seq<Byte>)
    ensures Lists(ids, keys)
  {
    ids := [];
    var n: int := 0;
    while n < 256
      invariant 0 <= n <= 256
      invariant forall i, j :: 0 <= i < j < |ids| ==> ids[i] < ids[j]
      invariant forall i :: 0 <= i < |ids| ==> ids[i] < n && ids[i] in keys
      invariant forall id :: id in keys && id < n ==> id in ids
    {
      if n in keys {
        ids := ids + [n];
      }
      n := n + 1;
    }
  }

  class Streamer {
    var cfg: Settings
    var dtls: bool                         // path is "dtls" and a connection is held
    var remap: map<Word, Byte>             // TV light id to Pro channel
    var requested: Option<set<Word>>       // the TV's zone, if it declared one
    var latest: map<Byte, Channel>
    var current: map<Byte, Channel>
    var history: map<Byte, seq<Channel>>
    var spikes: nat
    var sequence: Byte
    var colorSpace: Byte
    var configID: seq<Byte>

    ghost function View(): Signals
      reads this
    {
      Signals(latest, current, history, spikes)
    }

    constructor (cfg: Settings)
      ensures this.cfg == cfg && View() == FRESH && !dtls && requested.None? && sequence == 0
    {
      this.cfg := cfg;
      dtls, remap, requested := false, map[], None;
      latest, current, history, spikes := map[], map[], map[], 0;
      sequence, colorSpace, configID := 0, 0, [];
    }

    /** An even window is rounded up to the next odd one. */
    method SetMedianFilter(window: int, threshold: Word)
      modifies this`cfg
      ensures cfg == old(cfg).(window := OddWindow(window), threshold := threshold)
    {
      var w := window;
      if w > 1 && w % 2 == 0 {
        w := w + 1;
      }
      cfg := cfg.(window := w, threshold := threshold);
    }

    /** The assignments that publish an established stream. */
    method Publish(remap: map<Word, Byte>, configID: seq<Byte>)
      modifies this
      ensures View() == FRESH && dtls && this.remap == remap && this.configID == configID
      ensures requested == old(requested) && sequence == old(sequence) && colorSpace == old(colorSpace) && cfg == old(cfg)
    {
      this.remap, this.configID, dtls := remap, configID, true;
      latest, current, history, spikes := map[], map[], map[], 0;
    }

    /** SetRequestedMembers: an empty list never clears a known zone. */
    method SetRequestedMembers(ids: seq<Word>)
      modifies this`requested
      ensures requested == if ids == [] then old(requested) else Some(set id | id in ids)
    {
      if ids != [] {
        requested := Some(set id | id in ids);
      }
    }

    method MedianFilter(id: Byte, raw: Channel) returns (out: Channel)
      modifies this`history, this`spikes
      ensures View().(latest := View().latest[id := out]) == Sampled(old(View()), id, raw, cfg)
    {
      if cfg.window <= 1 {
        return raw;
      }
      var h := (if id in history then history[id] else []) + [raw];
      if |h| > cfg.window {
        h := h[|h| - cfg.window..];
      }
      history := history[id := h];
      var (o, suppressed) := GatedMedian(h, raw, cfg.threshold);
      if suppressed {
        spikes := spikes + 1;
      }
      return o;
    }

    /** One channel of a TV frame, if it is mapped, through the filter into its target. */
    method PushOne(ch: Channel)
      modifies this`history, this`spikes, this`latest
      ensures View() == OneSampled(old(View()), remap, ch, cfg)
    {
      if ch.id in remap {
        var id := remap[ch.id];
        var out := MedianFilter(id, Channel(id, ch.a, ch.b, ch.c));
        latest := latest[id := out];
      }
    }

    /** The first loop of Push. */
    method PushAll(cs: seq<Channel>)
      modifies this`history, this`spikes, this`latest
      ensures View() == AllSampled(old(View()), remap, cs, |cs|, cfg)
    {
      var i := 0;
      while i < |cs|
        invariant 0 <= i <= |cs|
        invariant View() == AllSampled(old(View()), remap, cs, i, cfg)
      {
        PushOne(cs[i]);
        i := i + 1;
      }
    }

    /** The second: what the zone admits. */
    method Admitted(cs: seq<Channel>) returns (rest: seq<Channel>)
      ensures rest == InZone(cs, requested, |cs|)
    {
      rest := [];
      var i := 0;
      while i < |cs|
        invariant 0 <= i <= |cs|
        invariant rest == InZone(cs, requested, i)
      {
        if requested.None? || cs[i].id in requested.value {
          rest := rest + [cs[i]];
        }
        i := i + 1;
      }
    }

    /** Push: feed the DTLS path, or return what the REST fallback forwards. */
    method Push(f: Frame) returns (rest: seq<Channel>)
      modifies this`history, this`spikes, this`latest, this`colorSpace
      ensures dtls ==> rest == [] && View() == AllSampled(old(View()), remap, f.channels, |f.channels|, cfg)
      ensures dtls ==> colorSpace == f.colorSpace
      ensures !dtls ==> View() == old(View()) && colorSpace == old(colorSpace)
      ensures !dtls ==> rest == InZone(f.channels, requested, |f.channels|)
    {
      rest := [];
      if dtls {
        colorSpace := f.colorSpace;
        PushAll(f.channels);
        return;
      }
      rest := Admitted(f.channels);
    }

    /** One turn of buildFrameLocked's loop, for a channel whose colour the tick has not changed yet. */
    method EaseOne(id: Byte, ghost s: Signals) returns (sent: Channel)
      requires cfg.Valid() && id in latest && latest == s.latest
      requires (id in current <==> id in s.current) && (id in current ==> current[id] == s.current[id])
      modifies this`current
      ensures sent == Nexts(s, cfg)[id] && current == old(current)[id := sent]
    {
      sent := latest[id];
      if id in current {
        sent := SmoothToward(current[id], latest[id], cfg.alpha);
      }
      current := current[id := sent];
    }

    /** The loop of buildFrameLocked. */
    method EaseAll(ids: seq<Byte>) returns (channels: seq<Channel>)
      requires cfg.Valid() && Lists(ids, latest.Keys)
      modifies this`current
      ensures current == Advanced(old(current), Nexts(old(View()), cfg), ids, |ids|)
      ensures Shows(channels, ids, Nexts(old(View()), cfg))
    {
      ghost var s, next := View(), Nexts(View(), cfg);
      channels := [];
      var i := 0;
      while i < |ids|
        invariant 0 <= i <= |ids| && |channels| == i
        invariant current == Advanced(s.current, next, ids, i)
        invariant ShowsSoFar(channels, ids, next, i)
      {
        NotYetAdvanced(s.current, next, ids, i, ids[i]);
        var sent := EaseOne(ids[i], s);
        channels := channels + [sent];
        i := i + 1;
      }
    }

    /** buildFrameLocked. */
    method BuildFrame() returns (f: Option<Frame>, ghost ids: seq<Byte>)
      requires cfg.Valid()
      modifies this`current, this`sequence
      ensures f.None? <==> old(latest) == map[]
      ensures f.None? ==> View() == old(View()) && sequence == old(sequence)
      ensures f.Some? ==> View() == Ticked(old(View()), cfg) && sequence == (old(sequence) + 1) % 256
      ensures f.Some? ==>
                && f.value == Frame(2, 0, sequence, colorSpace, configID, f.value.channels)
                && Carries(f.value, ids, View())
    {
      if latest == map[] {
        return None, [];
      }
      var order := SortedIds(latest.Keys);
      ghost var s := View();
      var channels := EaseAll(order);
      AllAdvanced(s.current, Nexts(s, cfg), order);
      sequence := if sequence == 255 then 0 else sequence + 1;
      return Some(Frame(2, 0, sequence, colorSpace, configID, channels)), order;
    }
  }

  /** The sent colours once the first `n` ids are done. */
  function Advanced(cur: map<Byte, Channel>, next: map<Byte, Channel>, ids: seq<Byte>, n: nat): map<Byte, Channel>
    requires n <= |ids| && forall i :: 0 <= i < |ids| ==> ids[i] in next
  {
    if n == 0 then cur else Advanced(cur, next, ids, n - 1)[ids[n - 1] := next[ids[n - 1]]]
  }

  lemma {:induction false} NotYetAdvanced(cur: map<Byte, Channel>, next: map<Byte, Channel>, ids: seq<Byte>, n: nat, id: Byte)
    requires n <= |ids| && forall i :: 0 <= i < |ids| ==> ids[i] in next
    requires forall i :: 0 <= i < n ==> ids[i] != id
    ensures id in Advanced(cur, next, ids, n) <==> id in cur
    ensures id in cur ==> Advanced(cur, next, ids, n)[id] == cur[id]
  {
    if n > 0 {
      NotYetAdvanced(cur, next, ids, n - 1, id);
    }
  }

  lemma {:induction false} AdvancedAt(cur: map<Byte, Channel>, next: map<Byte, Channel>, ids: seq<Byte>, n: nat, i: nat)
    requires i < n <= |ids| && forall j :: 0 <= j < |ids| ==> ids[j] in next
    requires forall j, k :: 0 <= j < k < |ids| ==> ids[j] < ids[k]
    ensures ids[i] in Advanced(cur, next, ids, n) && Advanced(cur, next, ids, n)[ids[i]] == next[ids[i]]
  {
    if i < n - 1 {
      AdvancedAt(cur, next, ids, n - 1, i);
    }
  }

  /** The loop over the sorted ids is one tick of every channel. */
  lemma AllAdvanced(cur: map<Byte, Channel>, next: map<Byte, Channel>, ids: seq<Byte>)
    requires Lists(ids, next.Keys)
    ensures Advanced(cur, next, ids, |ids|) == cur + next
  {
    var done := Advanced(cur, next, ids, |ids|);
    forall id | id in next ensures id in done && done[id] == next[id] {
      var i :| 0 <= i < |ids| && ids[i] == id;
      AdvancedAt(cur, next, ids, |ids|, i);
    }
    forall id | id !in next
      ensures (id in done <==> id in cur) && (id in cur ==> done[id] == cur[id])
    {
      NotYetAdvanced(cur, next, ids, |ids|, id);
    }
  }

  /** One channel of a TV frame: a sample of the Pro channel it is mapped to, if any. */
  function OneSampled(s: Signals, remap: map<Word, Byte>, ch: Channel, cfg: Settings): Signals {
    if ch.id in remap then Sampled(s, remap[ch.id], Channel(remap[ch.id], ch.a, ch.b, ch.c), cfg) else s
  }

  /** The first `n` channels of a TV frame passing the median stage in turn. */
  function AllSampled(s: Signals, remap: map<Word, Byte>, cs: seq<Channel>, n: nat, cfg: Settings): Signals
    requires n <= |cs|
  {
    if n == 0 then s else OneSampled(AllSampled(s, remap, cs, n - 1, cfg), remap, cs[n - 1], cfg)
  }

  /** The channels among the first `n` that the zone admits. */
  function InZone(cs: seq<Channel>, zone: Option<set<Word>>, n: nat): (kept: seq<Channel>)
    requires n <= |cs|
    ensures forall c :: c in kept ==> zone.None? || c.id in zone.value
    ensures forall i :: 0 <= i < n && (zone.None? || cs[i].id in zone.value) ==> cs[i] in kept
  {
    if n == 0 then []
    else
      InZone(cs, zone, n - 1)
      + (if zone.None? || cs[n - 1].id in zone.value then [cs[n - 1]] else [])
  }

  /** The channels before channel `k` that the zone admits. */
  function AdmittedBefore(cs: seq<Channel>, zone: Option<set<Word>>, k: nat): set<nat>
    requires k <= |cs|
  {
    set j: nat | j < k && (zone.Some? ==> cs[j].id in zone.value)
  }

  lemma {:induction false} AdmittedCount(cs: seq<Channel>, zone: Option<set<Word>>, n: nat)
    requires n <= |cs|
    ensures |InZone(cs, zone, n)| == |AdmittedBefore(cs, zone, n)|
  {
    if n > 0 {
      AdmittedCount(cs, zone, n - 1);
      assert AdmittedBefore(cs, zone, n) ==
             AdmittedBefore(cs, zone, n - 1) + if zone.None? || cs[n - 1].id in zone.value then {n - 1} else {};
    } else {
      assert AdmittedBefore(cs, zone, 0) == {};
    }
  }

  lemma {:induction false} AdmittedAt(cs: seq<Channel>, zone: Option<set<Word>>, n: nat, k: nat)
    requires k < n <= |cs| && (zone.Some? ==> cs[k].id in zone.value)
    ensures |InZone(cs, zone, k)| < |InZone(cs, zone, n)| && InZone(cs, zone, n)[|InZone(cs, zone, k)|] == cs[k]
  {
    if k < n - 1 {
      AdmittedAt(cs, zone, n - 1, k);
    }
  }

  /** What REST forwards is the frame with the channels outside the zone left out: each stands behind those admitted before it. */
  lemma ForwardedInOrder(cs: seq<Channel>, zone: Option<set<Word>>, k: nat)
    requires k < |cs| && (zone.Some? ==> cs[k].id in zone.value)
    ensures var rest, i := InZone(cs, zone, |cs|), |AdmittedBefore(cs, zone, k)|;
            i < |rest| && rest[i] == cs[k] && |rest| == |AdmittedBefore(cs, zone, |cs|)|
  {
    AdmittedCount(cs, zone, k);
    AdmittedCount(cs, zone, |cs|);
    AdmittedAt(cs, zone, |cs|, k);
  }

  // ------------------------------------------------------------------- runs

  /** What happened to the signals since the stream was established, in any interleaving. */
  datatype Run =
    | Established
    | Sample(before: Run, id: Byte, raw: Channel)
    | Tick(before: Run)

  /** Every raw sample carries the channel it was mapped to. */
  predicate Mapped(r: Run) {
    match r
    case Established => true
    case Sample(before, id, raw) => raw.id == id && Mapped(before)
    case Tick(before) => Mapped(before)
  }

  function Result(r: Run, cfg: Settings): Signals
    requires cfg.Valid()
  {
    match r
    case Established => FRESH
    case Sample(before, id, raw) => Sampled(Result(before, cfg), id, raw, cfg)
    case Tick(before) => Ticked(Result(before, cfg), cfg)
  }

  /** The run extended by the first `n` channels of a TV frame. */
  function Pushed(r: Run, remap: map<Word, Byte>, cs: seq<Channel>, n: nat): Run
    requires n <= |cs|
  {
    if n == 0 then r
    else
      var before := Pushed(r, remap, cs, n - 1);
      var ch := cs[n - 1];
      if ch.id in remap then Sample(before, remap[ch.id], Channel(remap[ch.id], ch.a, ch.b, ch.c)) else before
  }

  /** Pushing a TV frame is a run of samples, each carrying the channel it is mapped to. */
  lemma {:induction false} PushIsRun(r: Run, remap: map<Word, Byte>, cs: seq<Channel>, n: nat, cfg: Settings)
    requires cfg.Valid() && n <= |cs|
    ensures AllSampled(Result(r, cfg), remap, cs, n, cfg) == Result(Pushed(r, remap, cs, n), cfg)
    ensures Mapped(r) ==> Mapped(Pushed(r, remap, cs, n))
  {
    if n > 0 {
      PushIsRun(r, remap, cs, n - 1, cfg);
    }
  }

  /** The raw samples of one channel, in order. */
  function Raws(r: Run, id: Byte): seq<Channel> {
    match r
    case Established => []
    case Sample(before, other, raw) => if other == id then Raws(before, id) + [raw] else Raws(before, id)
    case Tick(before) => Raws(before, id)
  }

  /** The window of the filter after all of the raw samples. */
  function LastWindow(raws: seq<Channel>, w: nat): seq<Channel> {
    if raws == [] then [] else Window(raws, |raws| - 1, w)
  }

  lemma WindowSlides(raws: seq<Channel>, raw: Channel, w: nat)
    requires w > 0
    ensures Capped(LastWindow(raws, w) + [raw], w) == LastWindow(raws + [raw], w)
  {
    var n := |raws|;
    var all := raws + [raw];
    assert all[..n + 1] == all;
    if n <= w {
      assert raws[..n] == raws;
      assert n == w ==> all[1..] == all[1..n + 1];
    } else {
      assert raws[n - w..n] + [raw] == all[n - w..];
      assert all[n - w..][1..] == all[n + 1 - w..];
    }
  }

  lemma SampleSlides(s: Signals, other: Byte, raw: Channel, id: Byte, cfg: Settings)
    requires cfg.window > 1
    ensures HistoryOf(Sampled(s, other, raw, cfg), id) ==
            if other == id then Capped(HistoryOf(s, id) + [raw], cfg.window) else HistoryOf(s, id)
  {
  }

  /** The signals with every tick left out. */
  function Fed(r: Run, cfg: Settings): Signals {
    match r
    case Established => FRESH
    case Sample(before, id, raw) => Sampled(Fed(before, cfg), id, raw, cfg)
    case Tick(before) => Fed(before, cfg)
  }

  lemma SamplesAlike(s: Signals, f: Signals, id: Byte, raw: Channel, cfg: Settings)
    requires s.latest == f.latest && s.history == f.history
    ensures Sampled(s, id, raw, cfg).latest == Sampled(f, id, raw, cfg).latest
    ensures Sampled(s, id, raw, cfg).history == Sampled(f, id, raw, cfg).history
  {
    if cfg.window > 1 {
      assert HistoryOf(s, id) == HistoryOf(f, id);
      var h := NextWindow(s, id, raw, cfg);
      assert NextWindow(f, id, raw, cfg) == h;
      SampleParts(s, id, raw, cfg);
      SampleParts(f, id, raw, cfg);
    }
  }

  /** What a sample makes of the signals, given the window it leaves. */
  lemma SampleParts(s: Signals, id: Byte, raw: Channel, cfg: Settings)
    requires cfg.window > 1
    ensures var h, n := NextWindow(s, id, raw, cfg), Sampled(s, id, raw, cfg);
            n.latest == s.latest[id := GatedMedian(h, raw, cfg.threshold).0] && n.history == s.history[id := h]
  {
  }

  lemma TickFeedsNothing(s: Signals, cfg: Settings)
    requires cfg.Valid()
    ensures Ticked(s, cfg).latest == s.latest && Ticked(s, cfg).history == s.history
  {
  }

  /** Ticks have no part in targets and histories. */
  lemma {:induction false} TicksFeedNothing(r: Run, cfg: Settings)
    requires cfg.Valid()
    ensures Result(r, cfg).latest == Fed(r, cfg).latest && Result(r, cfg).history == Fed(r, cfg).history
  {
    match r
    case Established =>
    case Sample(before, id, raw) =>
      TicksFeedNothing(before, cfg);
      SamplesAlike(Result(before, cfg), Fed(before, cfg), id, raw, cfg);
    case Tick(before) =>
      TicksFeedNothing(before, cfg);
      TickFeedsNothing(Result(before, cfg), cfg);
  }

  lemma {:induction false} FedHistory(r: Run, id: Byte, cfg: Settings)
    requires cfg.window > 1
    ensures HistoryOf(Fed(r, cfg), id) == LastWindow(Raws(r, id), cfg.window)
  {
    match r
    case Established =>
    case Sample(before, other, raw) =>
      FedHistory(before, id, cfg);
      SampleSlides(Fed(before, cfg), other, raw, id, cfg);
      if other == id {
        WindowSlides(Raws(before, id), raw, cfg.window);
      }
    case Tick(before) => FedHistory(before, id, cfg);
  }

  /** The filter always looks at the last samples of its channel, as many as the window holds. */
  lemma {:induction false} HistoryIsWindow(r: Run, id: Byte, cfg: Settings)
    requires cfg.Valid() && cfg.window > 1
    ensures HistoryOf(Result(r, cfg), id) == LastWindow(Raws(r, id), cfg.window)
  {
    TicksFeedNothing(r, cfg);
    FedHistory(r, id, cfg);
  }

  lemma LastWindowAt(raws: seq<Channel>, w: nat, i: nat)
    requires w > 0
    ensures var h := LastWindow(raws, w);
            && |h| == (if |raws| < w then |raws| else w)
            && (i < |h| ==> h[i] == raws[|raws| - |h| + i])
  {
  }

  /** That is: as many of the channel's samples as fit the window, the newest, in order. */
  lemma {:induction false} HistoryIsNewest(r: Run, id: Byte, cfg: Settings, i: nat)
    requires cfg.Valid() && cfg.window > 1
    ensures var h, raws := HistoryOf(Result(r, cfg), id), Raws(r, id);
            && |h| == (if |raws| < cfg.window then |raws| else cfg.window)
            && (i < |h| ==> h[i] == raws[|raws| - |h| + i])
  {
    HistoryIsWindow(r, id, cfg);
    LastWindowAt(Raws(r, id), cfg.window, i);
  }

  lemma {:induction false} TargetExists(r: Run, id: Byte, cfg: Settings)
    ensures id in Fed(r, cfg).latest <==> Raws(r, id) != []
    ensures id in Fed(r, cfg).latest && cfg.window <= 1 ==> Fed(r, cfg).latest[id] == Raws(r, id)[|Raws(r, id)| - 1]
  {
    if !r.Established? {
      TargetExists(r.before, id, cfg);
    }
  }

  /** One sample sets its channel's target from the history it leaves, and no other channel's. */
  lemma SampleTarget(s: Signals, other: Byte, raw: Channel, id: Byte, cfg: Settings)
    requires cfg.window > 1
    ensures var n := Sampled(s, other, raw, cfg);
            if other == id
            then id in n.latest && HistoryOf(n, id) != [] && n.latest[id] == GatedMedian(HistoryOf(n, id), raw, cfg.threshold).0
            else (id in n.latest <==> id in s.latest) && (id in s.latest ==> n.latest[id] == s.latest[id])
  {
  }

  /** The stored target is the filter's output on the stored history. */
  lemma {:induction false} TargetOfHistory(r: Run, id: Byte, cfg: Settings)
    requires cfg.window > 1 && Raws(r, id) != []
    ensures id in Fed(r, cfg).latest && HistoryOf(Fed(r, cfg), id) != []
    ensures Fed(r, cfg).latest[id] ==
            GatedMedian(HistoryOf(Fed(r, cfg), id), Raws(r, id)[|Raws(r, id)| - 1], cfg.threshold).0
  {
    match r
    case Established =>
    case Sample(before, other, raw) =>
      SampleTarget(Fed(before, cfg), other, raw, id, cfg);
      if other != id {
        TargetOfHistory(before, id, cfg);
        SampleSlides(Fed(before, cfg), other, raw, id, cfg);
      }
    case Tick(before) => TargetOfHistory(before, id, cfg);
  }

  lemma FedIsFiltered(r: Run, id: Byte, cfg: Settings)
    requires Raws(r, id) != []
    ensures id in Fed(r, cfg).latest && Fed(r, cfg).latest[id] == Filtered(Raws(r, id), cfg)
  {
    TargetExists(r, id, cfg);
    if cfg.window > 1 {
      TargetOfHistory(r, id, cfg);
      FedHistory(r, id, cfg);
    }
  }

  /** What the median stage makes of the newest raw sample. */
  function Filtered(raws: seq<Channel>, cfg: Settings): Channel
    requires raws != []
  {
    var newest := raws[|raws| - 1];
    if cfg.window <= 1 then newest else GatedMedian(Window(raws, |raws| - 1, cfg.window), newest, cfg.threshold).0
  }

  /** A target is the filtered value of the newest raw sample over the channel's window. */
  lemma {:induction false} TargetIsFiltered(r: Run, id: Byte, cfg: Settings)
    requires cfg.Valid()
    ensures id in Result(r, cfg).latest <==> Raws(r, id) != []
    ensures Raws(r, id) != [] ==> Result(r, cfg).latest[id] == Filtered(Raws(r, id), cfg)
  {
    TicksFeedNothing(r, cfg);
    TargetExists(r, id, cfg);
    if Raws(r, id) != [] {
      FedIsFiltered(r, id, cfg);
    }
  }

  /** The last `count` samples agree in a component. */
  predicate Held(raws: seq<Channel>, count: nat, k: Component) {
    0 < count <= |raws| && forall j :: |raws| - count <= j < |raws| ==> Sel(raws[j], k) == Sel(raws[|raws| - 1], k)
  }

  lemma HeldIsFiltered(raws: seq<Channel>, cfg: Settings, half: nat, k: Component)
    requires half > 0 && cfg.window == 2 * half + 1 && Held(raws, half + 1, k)
    ensures Sel(Filtered(raws, cfg), k) == Sel(raws[|raws| - 1], k)
  {
    HeldCutPasses(raws, |raws| - 1, half, cfg.threshold, k);
  }

  /**
   * Whatever window was asked for, a cut held for half of the effective window and one
   * sample more is the channel's target, component by component.
   */
  lemma HeldCutShows(r: Run, id: Byte, cfg: Settings, asked: int, k: Component)
    requires cfg.Valid() && cfg.window == OddWindow(asked) && asked > 1
    requires Held(Raws(r, id), cfg.window / 2 + 1, k)
    ensures id in Result(r, cfg).latest
    ensures Sel(Result(r, cfg).latest[id], k) == Sel(Raws(r, id)[|Raws(r, id)| - 1], k)
  {
    TargetIsFiltered(r, id, cfg);
    HeldIsFiltered(Raws(r, id), cfg, cfg.window / 2, k);
  }

  // What a tick sends.

  /** A channel that has sent nothing yet sends its target at the first tick. */
  lemma FirstTickSnaps(r: Run, id: Byte, cfg: Settings)
    requires cfg.Valid() && id in Result(r, cfg).latest && id !in Result(r, cfg).current
    ensures id in Result(Tick(r), cfg).current && Result(Tick(r), cfg).current[id] == Result(r, cfg).latest[id]
  {
  }

  /** The run goes on from `before` with no sample for the channel. */
  predicate Undisturbed(before: Run, r: Run, id: Byte) {
    r == before
    || (r.Sample? && r.id != id && Undisturbed(before, r.before, id))
    || (r.Tick? && Undisturbed(before, r.before, id))
  }

  /** The ticks in between. */
  function Ticks(before: Run, r: Run): nat {
    if r == before || r.Established? then 0 else Ticks(before, r.before) + if r.Tick? then 1 else 0
  }

  /** A channel has last sent one value of a component, and is to reach another. */
  predicate Stands(s: Signals, id: Byte, k: Component, cur: Word, tgt: Word) {
    id in s.latest && id in s.current && Sel(s.current[id], k) == cur && Sel(s.latest[id], k) == tgt
  }

  lemma ColourEases(cur: Channel, tgt: Channel, k: Component, alpha: real)
    requires Weight(alpha)
    ensures Sel(SmoothToward(cur, tgt, alpha), k) == Smooth(Sel(cur, k), Sel(tgt, k), alpha)
  {
  }

  /** A tick eases every component of a channel that has sent something, towards its target. */
  lemma TickEases(s: Signals, id: Byte, k: Component, cur: Word, tgt: Word, cfg: Settings)
    requires cfg.Valid() && Stands(s, id, k, cur, tgt)
    ensures Stands(Ticked(s, cfg), id, k, Smooth(cur, tgt, cfg.alpha), tgt)
  {
    assert Ticked(s, cfg).current[id] == SmoothToward(s.current[id], s.latest[id], cfg.alpha);
    ColourEases(s.current[id], s.latest[id], k, cfg.alpha);
  }

  lemma OthersSampled(s: Signals, other: Byte, raw: Channel, id: Byte, k: Component, cur: Word, tgt: Word, cfg: Settings)
    requires other != id && Stands(s, id, k, cur, tgt)
    ensures Stands(Sampled(s, other, raw, cfg), id, k, cur, tgt)
  {
  }

  lemma NextStands(r: Run, id: Byte, k: Component, cur: Word, tgt: Word, cfg: Settings)
    requires cfg.Valid() && (r.Tick? || (r.Sample? && r.id != id)) && Stands(Result(r.before, cfg), id, k, cur, tgt)
    ensures Stands(Result(r, cfg), id, k, if r.Tick? then Smooth(cur, tgt, cfg.alpha) else cur, tgt)
  {
    if r.Sample? {
      OthersSampled(Result(r.before, cfg), r.id, r.raw, id, k, cur, tgt, cfg);
    } else {
      TickEases(Result(r.before, cfg), id, k, cur, tgt, cfg);
    }
  }

  /**
   * As long as no sample comes for a channel, what it sends after n ticks is what it last
   * sent, eased n times towards its target, component by component, whatever the other
   * channels do.
   */
  lemma {:induction false} SendsEased(before: Run, r: Run, id: Byte, k: Component, cur: Word, tgt: Word, cfg: Settings)
    requires cfg.Valid() && Undisturbed(before, r, id) && Stands(Result(before, cfg), id, k, cur, tgt)
    ensures Stands(Result(r, cfg), id, k, Eased(cur, tgt, cfg.alpha, Ticks(before, r)), tgt)
  {
    if r != before {
      var n := Ticks(before, r.before);
      var now := Eased(cur, tgt, cfg.alpha, n);
      SendsEased(before, r.before, id, k, cur, tgt, cfg);
      assert Stands(Result(r.before, cfg), id, k, now, tgt);
      NextStands(r, id, k, now, tgt, cfg);
      EasedOnce(cur, tgt, cfg.alpha, n);
      assert Ticks(before, r) == if r.Tick? then n + 1 else n;
    }
  }

  /** A held target is reached after as many ticks as its distance at most, and stays reached. */
  lemma HeldTargetIsSent(before: Run, r: Run, id: Byte, k: Component, cur: Word, tgt: Word, cfg: Settings)
    requires cfg.Valid() && Moves(cfg.alpha) && Undisturbed(before, r, id) && Stands(Result(before, cfg), id, k, cur, tgt)
    requires Ticks(before, r) >= Abs(tgt - cur)
    ensures Stands(Result(r, cfg), id, k, tgt, tgt)
  {
    SendsEased(before, r, id, k, cur, tgt, cfg);
    var n := ReachesTarget(cur, tgt, cfg.alpha);
    ArrivedStays(cur, tgt, cfg.alpha, n, Ticks(before, r));
  }

  /** At the default weight, after 13 ticks. */
  lemma HeldTargetIsSentByDefault(before: Run, r: Run, id: Byte, k: Component, cur: Word, tgt: Word, cfg: Settings)
    requires cfg.Valid() && 0.393 <= cfg.alpha <= 0.394
    requires Undisturbed(before, r, id) && Stands(Result(before, cfg), id, k, cur, tgt) && Ticks(before, r) >= 13
    ensures Stands(Result(r, cfg), id, k, tgt, tgt)
  {
    SendsEased(before, r, id, k, cur, tgt, cfg);
    DefaultArrivesInThirteen(cur, tgt, cfg.alpha, Ticks(before, r));
  }

  /** Below the moving weight, a component 257 away from its target is sent unchanged for ever. */
  lemma {:induction false} SmallWeightStalls(before: Run, r: Run, id: Byte, k: Component, cur: Word, tgt: Word, cfg: Settings)
    requires cfg.Valid() && !Moves(cfg.alpha)
    requires Undisturbed(before, r, id) && Stands(Result(before, cfg), id, k, cur, tgt) && Abs(tgt - cur) == 257
    ensures Stands(Result(r, cfg), id, k, cur, tgt)
  {
    SendsEased(before, r, id, k, cur, tgt, cfg);
    Stalls(cur, tgt, cfg.alpha, Ticks(before, r));
  }

  // What a push feeds.

  /** The TV's channels, among the first `n` of a frame, that are mapped to one Pro channel. */
  function Mine(remap: map<Word, Byte>, cs: seq<Channel>, id: Byte, n: nat): (mine: seq<Channel>)
    requires n <= |cs|
  {
    if n == 0 then []
    else if cs[n - 1].id in remap && remap[cs[n - 1].id] == id then Mine(remap, cs, id, n - 1) + [cs[n - 1]]
    else Mine(remap, cs, id, n - 1)
  }

  /** A push appends to a channel's raw samples exactly the TV's colours for it, component by component. */
  lemma {:induction false} PushFeedsColours(r: Run, remap: map<Word, Byte>, cs: seq<Channel>, id: Byte, n: nat, i: nat, k: Component)
    requires n <= |cs|
    ensures |Raws(Pushed(r, remap, cs, n), id)| == |Raws(r, id)| + |Mine(remap, cs, id, n)|
    ensures i < |Raws(r, id)| ==> Raws(Pushed(r, remap, cs, n), id)[i] == Raws(r, id)[i]
    ensures i < |Mine(remap, cs, id, n)| ==>
              Sel(Raws(Pushed(r, remap, cs, n), id)[|Raws(r, id)| + i], k) == Sel(Mine(remap, cs, id, n)[i], k)
  {
    if n > 0 {
      PushFeedsColours(r, remap, cs, id, n - 1, i, k);
    }
  }

  /** Samples the filter replaced. */
  function Replaced(r: Run, cfg: Settings): nat {
    match r
    case Established => 0
    case Sample(before, id, raw) =>
      Replaced(before, cfg) + if cfg.window > 1 && Filtered(Raws(r, id), cfg) != raw then 1 else 0
    case Tick(before) => Replaced(before, cfg)
  }

  lemma SampleCounts(s: Signals, id: Byte, raw: Channel, cfg: Settings)
    ensures var n := Sampled(s, id, raw, cfg);
            && id in n.latest
            && n.spikes == s.spikes + if cfg.window > 1 && n.latest[id] != raw then 1 else 0
  {
    if cfg.window > 1 {
      FlagTellsChange(NextWindow(s, id, raw, cfg), raw, cfg.threshold);
    }
  }

  lemma {:induction false} FedSpikes(r: Run, cfg: Settings)
    ensures Fed(r, cfg).spikes == Replaced(r, cfg)
  {
    match r
    case Established =>
    case Sample(before, id, raw) =>
      FedSpikes(before, cfg);
      SampleCounts(Fed(before, cfg), id, raw, cfg);
      FedIsFiltered(r, id, cfg);
    case Tick(before) => FedSpikes(before, cfg);
  }

  lemma SpikesAlike(s: Signals, f: Signals, id: Byte, raw: Channel, cfg: Settings)
    requires s.latest == f.latest && s.history == f.history && s.spikes == f.spikes
    ensures Sampled(s, id, raw, cfg).spikes == Sampled(f, id, raw, cfg).spikes
  {
  }

  /** The spike count is the number of samples the filter replaced. */
  lemma {:induction false} SpikesAreReplaced(r: Run, cfg: Settings)
    requires cfg.Valid()
    ensures Result(r, cfg).spikes == Fed(r, cfg).spikes == Replaced(r, cfg)
  {
    FedSpikes(r, cfg);
    match r
    case Established =>
    case Sample(before, id, raw) =>
      SpikesAreReplaced(before, cfg);
      TicksFeedNothing(before, cfg);
      SpikesAlike(Result(before, cfg), Fed(before, cfg), id, raw, cfg);
    case Tick(before) => SpikesAreReplaced(before, cfg);
  }

  /** A value between two of the raw samples' components. */
  ghost predicate Between(raws: seq<Channel>, k: Component, x: int) {
    exists i, j :: 0 <= i < |raws| && 0 <= j < |raws| && Sel(raws[i], k) <= x <= Sel(raws[j], k)
  }

  lemma BetweenGrows(raws: seq<Channel>, raw: Channel, k: Component, x: int)
    requires Between(raws, k, x)
    ensures Between(raws + [raw], k, x)
  {
    var i, j :| 0 <= i < |raws| && 0 <= j < |raws| && Sel(raws[i], k) <= x <= Sel(raws[j], k);
    var all := raws + [raw];
    assert all[i] == raws[i] && all[j] == raws[j];
  }

  lemma BetweenBetween(raws: seq<Channel>, k: Component, x: int, y: int, z: int)
    requires Between(raws, k, x) && Between(raws, k, z) && (x <= y <= z || z <= y <= x)
    ensures Between(raws, k, y)
  {
    var i, j :| 0 <= i < |raws| && 0 <= j < |raws| && Sel(raws[i], k) <= x <= Sel(raws[j], k);
    var m, n :| 0 <= m < |raws| && 0 <= n < |raws| && Sel(raws[m], k) <= z <= Sel(raws[n], k);
    if x <= y <= z {
      assert Sel(raws[i], k) <= y <= Sel(raws[n], k);
    } else {
      assert Sel(raws[m], k) <= y <= Sel(raws[j], k);
    }
  }

  lemma RawIsBetween(raws: seq<Channel>, k: Component, i: nat)
    requires i < |raws|
    ensures Between(raws, k, Sel(raws[i], k))
  {
  }

  lemma PickInRange(raws: seq<Channel>, n: nat, w: nat, threshold: Word, k: Component)
    requires n < |raws| && w > 1
    ensures Between(raws, k, Sel(GatedMedian(Window(raws, n, w), raws[n], threshold).0, k))
  {
    var h := Window(raws, n, w);
    MedianComesFrom(h, k);
    var j :| 0 <= j < |h| && Sel(h[j], k) == MedianOf(Samples(h, 0, k));
    assert h[j] == raws[n + 1 - |h| + j];
    RawIsBetween(raws, k, n + 1 - |h| + j);
    RawIsBetween(raws, k, n);
  }

  /** Filtering never leaves the range of the raw samples. */
  lemma FilteredInRange(raws: seq<Channel>, cfg: Settings, k: Component)
    requires raws != []
    ensures Between(raws, k, Sel(Filtered(raws, cfg), k))
  {
    if cfg.window > 1 {
      PickInRange(raws, |raws| - 1, cfg.window, cfg.threshold, k);
    } else {
      RawIsBetween(raws, k, |raws| - 1);
    }
  }

  lemma {:induction false} OnlySentWhatWasSampled(r: Run, id: Byte, cfg: Settings)
    requires cfg.Valid() && id in Result(r, cfg).current
    ensures Raws(r, id) != []
  {
    if r.Tick? && id !in Result(r.before, cfg).current {
      TargetIsFiltered(r.before, id, cfg);
    } else {
      OnlySentWhatWasSampled(r.before, id, cfg);
    }
  }

  /**
   * End to end: every component ever sent on a channel lies between two raw components
   * pushed for that channel since the stream was established.
   */
  lemma {:induction false} SentInRange(r: Run, id: Byte, k: Component, cfg: Settings)
    requires cfg.Valid() && id in Result(r, cfg).current
    ensures Between(Raws(r, id), k, Sel(Result(r, cfg).current[id], k))
  {
    match r
    case Established =>
    case Sample(before, other, raw) =>
      SentInRange(before, id, k, cfg);
      BetweenGrows(Raws(before, id), raw, k, Sel(Result(before, cfg).current[id], k));
    case Tick(before) =>
      var s := Result(before, cfg);
      OnlySentWhatWasSampled(r, id, cfg);
      TargetIsFiltered(before, id, cfg);
      FilteredInRange(Raws(before, id), cfg, k);
      if id in s.current {
        SentInRange(before, id, k, cfg);
        BetweenBetween(Raws(before, id), k, Sel(s.current[id], k), Sel(Ticked(s, cfg).current[id], k), Sel(s.latest[id], k));
      }
  }

  lemma {:induction false} IdsKept(r: Run, id: Byte, cfg: Settings)
    requires cfg.Valid() && Mapped(r)
    ensures id in Result(r, cfg).latest ==> Result(r, cfg).latest[id].id == id
    ensures id in Result(r, cfg).current ==> Result(r, cfg).current[id].id == id
  {
    if !r.Established? {
      IdsKept(r.before, id, cfg);
    }
  }

  /**
   * The channels of a frame have strictly increasing ids that fit one byte, one for each
   * channel that has a target.
   */
  lemma FrameIsComplete(r: Run, cfg: Settings, f: Frame, ids: seq<Byte>)
    requires cfg.Valid() && Mapped(r) && Carries(f, ids, Result(r, cfg))
    ensures forall i :: 0 <= i < |f.channels| ==> f.channels[i].id < 256 && f.channels[i].id in Result(r, cfg).latest
    ensures forall i, j :: 0 <= i < j < |f.channels| ==> f.channels[i].id < f.channels[j].id
    ensures forall id :: id in Result(r, cfg).latest ==> id in Result(r, cfg).current && Result(r, cfg).current[id] in f.channels
  {
    var s, cs := Result(r, cfg), f.channels;
    forall i | 0 <= i < |ids| ensures cs[i].id == ids[i] {
      IdsKept(r, ids[i], cfg);
    }
    forall id | id in s.latest ensures id in s.current && s.current[id] in cs {
      var i :| 0 <= i < |ids| && ids[i] == id;
      assert cs[i] == s.current[id];
    }
  }

  lemma SmallIdsFit(cs: seq<Channel>)
    requires forall i :: 0 <= i < |cs| ==> cs[i].id < 256
    ensures Fit(V2, cs) && Fitting(cs, |cs|) == cs
  {
    FittingKeepsAll(cs, |cs|);
    assert cs[..|cs|] == cs;
  }

  /** Encode drops none of them. */
  lemma EncodeDropsNone(r: Run, cfg: Settings, f: Frame, ids: seq<Byte>)
    requires cfg.Valid() && Mapped(r) && Carries(f, ids, Result(r, cfg))
    ensures Fit(V2, f.channels) && Fitting(f.channels, |f.channels|) == f.channels
  {
    FrameIsComplete(r, cfg, f, ids);
    SmallIdsFit(f.channels);
  }
}
