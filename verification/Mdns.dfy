/**
 * DNS name decompression of the mDNS observer (diag/mdns.go).
 *
 * A name is read by hopping through the message: a label hop yields one label, a
 * pointer hop yields none. Following hops from an offset either reaches a zero byte
 * (the name ends), gets stuck on malformed input, or cycles. ReadName is proved to
 * succeed exactly in the first case, although it only counts its pointer jumps.
 */
module Mdns {
  import opened Common
  import opened Strings

  /** A name by the offsets of its labels' length bytes, in reading order. */
  datatype Name = Name(labels: seq<nat>)

  /** Where an uncompressed name lies: its labels and its zero byte. */
  datatype Place = Place(name: Name, zero: nat)

  /** What the name ends on: a zero length byte inside the message. */
  predicate AtEnd(msg: seq<Byte>, at: nat) {
    at < |msg| && msg[at] == 0
  }

  /** The offset a compression pointer at `at` refers to: its low 14 bits. */
  function Target(msg: seq<Byte>, at: nat): nat
    requires at + 1 < |msg| && msg[at] >= 0xC0
  {
    BigEndian(msg[at] - 0xC0, msg[at + 1])
  }

  /** Whether a hop is possible at `at`: a whole pointer or a whole, non-empty label lies there. */
  predicate CanHop(msg: seq<Byte>, at: nat) {
    && at < |msg|
    && msg[at] != 0
    && (if msg[at] >= 0xC0 then at + 1 < |msg| else at + 1 + msg[at] <= |msg|)
  }

  /** Where the hop leads. */
  function HopTo(msg: seq<Byte>, at: nat): nat
    requires CanHop(msg, at)
  {
    if msg[at] >= 0xC0 then Target(msg, at) else at + 1 + msg[at]
  }

  /** The labels the hop yields, by the offset of their length byte: one, or none for a pointer. */
  function Yield(msg: seq<Byte>, at: nat): seq<nat>
    requires CanHop(msg, at)
  {
    if msg[at] >= 0xC0 then [] else [at]
  }

  /** `hops` hops are possible from `start`. */
  predicate Walks(msg: seq<Byte>, start: nat, hops: nat)
    decreases hops, 0
  {
    hops == 0 || (Walks(msg, start, hops - 1) && CanHop(msg, Spot(msg, start, hops - 1)))
  }

  /** The offset they reach. */
  function Spot(msg: seq<Byte>, start: nat, hops: nat): nat
    requires Walks(msg, start, hops)
    decreases hops, 1
  {
    if hops == 0 then start else HopTo(msg, Spot(msg, start, hops - 1))
  }

  /** The labels collected on the way. */
  function Labels(msg: seq<Byte>, start: nat, hops: nat): seq<nat>
    requires Walks(msg, start, hops)
  {
    if hops == 0 then [] else Labels(msg, start, hops - 1) + Yield(msg, Spot(msg, start, hops - 1))
  }

  /** `hops` hops from `start` end on a zero byte. */
  ghost predicate Ends(msg: seq<Byte>, start: nat, hops: nat) {
    Walks(msg, start, hops) && AtEnd(msg, Spot(msg, start, hops))
  }

  /** Following labels and pointers from `start` reaches a zero byte. */
  ghost predicate IsName(msg: seq<Byte>, start: nat) {
    exists hops: nat :: Ends(msg, start, hops)
  }

  /** The name at `start`. */
  ghost function NameOf(msg: seq<Byte>, start: nat): Name
    requires IsName(msg, start)
  {
    var hops: nat :| Ends(msg, start, hops);
    Name(Labels(msg, start, hops))
  }

  /** First byte after the name as it lies on the wire: behind its zero byte or first pointer. */
  function WireEnd(msg: seq<Byte>, start: nat): nat
    decreases |msg| - start
  {
    if start >= |msg| then start
    else if msg[start] == 0 then start + 1
    else if msg[start] >= 0xC0 then start + 2
    else WireEnd(msg, start + 1 + msg[start])
  }

  /** The slice of `count` bytes from `lo`. */
  function Copy(msg: seq<Byte>, lo: nat, count: nat): seq<Byte>
    requires lo + count <= |msg|
    decreases count
  {
    if count == 0 then [] else [msg[lo]] + Copy(msg, lo + 1, count - 1)
  }

  lemma {:induction false} CopyIsSlice(msg: seq<Byte>, lo: nat, count: nat)
    requires lo + count <= |msg|
    ensures Copy(msg, lo, count) == msg[lo..lo + count]
    decreases count
  {
    if count > 0 {
      assert msg[lo..lo + count] == [msg[lo]] + msg[lo + 1..lo + count];
      CopyIsSlice(msg, lo + 1, count - 1);
    }
  }

  /** The bytes of the label whose length byte is at `at`. */
  function Text(msg: seq<Byte>, at: nat): seq<Byte> {
    if at < |msg| && at + 1 + msg[at] <= |msg| then Copy(msg, at + 1, msg[at]) else []
  }

  /** The texts of the first `n` labels. */
  function TextsOf(msg: seq<Byte>, labels: seq<nat>, n: nat): (texts: seq<Dotted>)
    requires n <= |labels|
    ensures |texts| == n
  {
    if n == 0 then [] else TextsOf(msg, labels, n - 1) + [Dotted(Text(msg, labels[n - 1]))]
  }

  /** A name as the source returns it: the labels' text joined with dots. */
  function Join(msg: seq<Byte>, labels: seq<nat>): seq<Byte> {
    Joined(TextsOf(msg, labels, |labels|), |labels|)
  }

  lemma {:induction false} WalkPrefix(msg: seq<Byte>, start: nat, fewer: nat, hops: nat)
    requires fewer <= hops && Walks(msg, start, hops)
    ensures Walks(msg, start, fewer)
  {
    if fewer < hops {
      WalkPrefix(msg, start, fewer, hops - 1);
    }
  }

  /** Nothing follows the zero byte of a name. */
  lemma EndStops(msg: seq<Byte>, start: nat, hops: nat, more: nat)
    requires Ends(msg, start, hops) && Walks(msg, start, more)
    ensures more <= hops
  {
    if hops < more {
      WalkPrefix(msg, start, hops + 1, more);
    }
  }

  /** A name has one hop count, hence one list of labels. */
  lemma NameIs(msg: seq<Byte>, start: nat, hops: nat)
    requires Ends(msg, start, hops)
    ensures NameOf(msg, start) == Name(Labels(msg, start, hops))
    ensures forall other: nat :: Ends(msg, start, other) ==> other == hops
  {
    forall other: nat | Ends(msg, start, other) ensures other == hops {
      EndStops(msg, start, hops, other);
      EndStops(msg, start, other, hops);
    }
  }

  /** Two walks that meet stay together. */
  lemma {:induction false} WalkTogether(msg: seq<Byte>, start: nat, i: nat, j: nat, k: nat)
    requires Walks(msg, start, i + k) && Walks(msg, start, j + k)
    requires Walks(msg, start, i) && Walks(msg, start, j)
    requires Spot(msg, start, i) == Spot(msg, start, j)
    ensures Spot(msg, start, i + k) == Spot(msg, start, j + k)
    decreases k
  {
    if k > 0 {
      WalkPrefix(msg, start, i + 1, i + k);
      WalkPrefix(msg, start, j + 1, j + k);
      WalkTogether(msg, start, i + 1, j + 1, k - 1);
    }
  }

  lemma InBounds(msg: seq<Byte>, start: nat, hops: nat, i: nat)
    requires Ends(msg, start, hops) && i <= hops
    ensures Walks(msg, start, i) && Spot(msg, start, i) < |msg|
  {
    WalkPrefix(msg, start, i, hops);
    if i < hops {
      WalkPrefix(msg, start, i + 1, hops);
    }
  }

  /** A walk that ends never visits an offset twice: it would be caught in the cycle. */
  lemma NoOffsetTwice(msg: seq<Byte>, start: nat, hops: nat, i: nat, j: nat)
    requires Ends(msg, start, hops) && i < j <= hops
    ensures Walks(msg, start, i) && Walks(msg, start, j)
    ensures Spot(msg, start, i) < |msg| && Spot(msg, start, j) < |msg|
    ensures Spot(msg, start, i) != Spot(msg, start, j)
  {
    var back := hops - (j - i);
    WalkPrefix(msg, start, i, hops);
    WalkPrefix(msg, start, j, hops);
    WalkPrefix(msg, start, back, hops);
    InBounds(msg, start, hops, i);
    InBounds(msg, start, hops, j);
    if Spot(msg, start, i) == Spot(msg, start, j) {
      WalkTogether(msg, start, i, j, hops - j);
      EndStops(msg, start, back, hops);
    }
  }

  ghost function Offsets(msg: seq<Byte>, start: nat, hops: nat): set<nat>
    requires Walks(msg, start, hops)
  {
    set i: nat | i <= hops && Walks(msg, start, i) :: Spot(msg, start, i)
  }

  lemma {:induction false} OffsetsAreMany(msg: seq<Byte>, start: nat, hops: nat, k: nat)
    requires Ends(msg, start, hops) && k <= hops
    ensures Walks(msg, start, k)
    ensures |Offsets(msg, start, k)| == k + 1
  {
    WalkPrefix(msg, start, k, hops);
    var here := Spot(msg, start, k);
    if k == 0 {
      assert Offsets(msg, start, 0) == {here};
    } else {
      OffsetsAreMany(msg, start, hops, k - 1);
      forall i: nat | i < k ensures Walks(msg, start, i) && Spot(msg, start, i) != here {
        NoOffsetTwice(msg, start, hops, i, k);
      }
      assert Offsets(msg, start, k) == Offsets(msg, start, k - 1) + {here};
    }
  }

  /**
   * The pigeonhole behind the jump budget: a name takes fewer hops, pointers
   * included, than the message has bytes, so a budget of len(msg) rejects none.
   */
  lemma FiniteNameIsShort(msg: seq<Byte>, start: nat, hops: nat)
    requires Ends(msg, start, hops)
    ensures hops < |msg|
  {
    OffsetsAreMany(msg, start, hops, hops);
    forall o | o in Offsets(msg, start, hops) ensures o < |msg| {
      var i: nat :| i <= hops && Walks(msg, start, i) && Spot(msg, start, i) == o;
      InBounds(msg, start, hops, i);
    }
    SubsetSize(Offsets(msg, start, hops), Below(|msg|));
  }

  /** A walk stuck short of a zero byte is no name, and neither is one of |msg| hops. */
  lemma StuckIsNoName(msg: seq<Byte>, start: nat, steps: nat)
    requires Walks(msg, start, steps)
    requires (!Walks(msg, start, steps + 1) && !AtEnd(msg, Spot(msg, start, steps))) || steps >= |msg|
    ensures !IsName(msg, start)
  {
    forall hops: nat | Ends(msg, start, hops) ensures false {
      FiniteNameIsShort(msg, start, hops);
      if hops < steps {
        WalkPrefix(msg, start, hops + 1, steps);
      } else if hops > steps {
        WalkPrefix(msg, start, steps + 1, hops);
      }
    }
  }

  /**
   * diag/mdns.go readName. A label is remembered by its offset and its text copied out
   * when the name is joined.
   */
  method ReadName(msg: seq<Byte>, start: nat) returns (name: Dotted, next: nat, ok: bool)
    ensures ok <==> IsName(msg, start)
    ensures ok ==> name == Dotted(Join(msg, NameOf(msg, start).labels)) && next == WireEnd(msg, start)
    ensures !ok ==> name == Dotted([])
  {
    var off: nat := start;
    var labels: seq<nat> := [];
    var jumped := false;
    next := off;
    var jumps: nat := 0;
    ghost var steps: nat := 0;
    while off < |msg|
      invariant Walks(msg, start, steps) && Spot(msg, start, steps) == off && Labels(msg, start, steps) == labels
      invariant jumps <= steps && jumps <= |msg|
      invariant if jumped then next == WireEnd(msg, start) else WireEnd(msg, off) == WireEnd(msg, start)
      decreases |msg| - jumps, |msg| - off
    {
      var l := msg[off];
      if l == 0 {
        assert Ends(msg, start, steps);
        NameIs(msg, start, steps);
        off := off + 1;
        if !jumped {
          next := off;
        }
        return Dotted(Join(msg, labels)), next, true;
      } else if l >= 0xC0 {
        if off + 1 >= |msg| {
          StuckIsNoName(msg, start, steps);
          return Dotted([]), off, false;
        }
        jumps := jumps + 1;
        if jumps > |msg| {
          StuckIsNoName(msg, start, steps);
          return Dotted([]), off, false;
        }
        if !jumped {
          next := off + 2;
        }
        off := Target(msg, off);
        jumped := true;
      } else {
        if off + 1 + l > |msg| {
          StuckIsNoName(msg, start, steps);
          return Dotted([]), off, false;
        }
        labels := labels + [off];
        off := off + 1 + l;
      }
      steps := steps + 1;
    }
    StuckIsNoName(msg, start, steps);
    return Dotted([]), off, false;
  }

  /** The names of up to `count` questions from `off`, stopping at the first unreadable one. */
  ghost function Questions(msg: seq<Byte>, off: nat, count: nat): seq<Name>
    decreases count
  {
    if count == 0 || off >= |msg| || !IsName(msg, off) then []
    else [NameOf(msg, off)] + Questions(msg, WireEnd(msg, off) + 4, count - 1)
  }

  /** The texts of the names. */
  ghost predicate Texts(msg: seq<Byte>, names: seq<Dotted>, found: seq<Name>) {
    |names| == |found| && forall i :: 0 <= i < |names| ==> names[i] == Dotted(Join(msg, found[i].labels))
  }

  /** One turn of the question loop: the next name and where the question ends. */
  method ReadQuestion(msg: seq<Byte>, off: nat, ghost count: nat) returns (text: Dotted, ghost name: Name, after: nat, ok: bool)
    requires off < |msg| && count > 0
    ensures ok ==> Questions(msg, off, count) == [name] + Questions(msg, after, count - 1)
    ensures ok ==> text == Dotted(Join(msg, name.labels))
    ensures !ok ==> Questions(msg, off, count) == []
  {
    var next;
    text, next, ok := ReadName(msg, off);
    name := if ok then NameOf(msg, off) else Name([]);
    after := next + 4;
  }

  lemma OneMoreQuestion(found: seq<Name>, name: Name, more: seq<Name>)
    ensures found + ([name] + more) == (found + [name]) + more
  {
  }

  /** diag/mdns.go dnsQuestionNames. */
  method DnsQuestionNames(msg: seq<Byte>) returns (names: seq<Dotted>)
    ensures |msg| < 12 ==> names == []
    ensures |msg| >= 12 ==> Texts(msg, names, Questions(msg, 12, BigEndian(msg[4], msg[5])))
  {
    names := [];
    if |msg| < 12 {
      return;
    }
    var qd: nat := BigEndian(msg[4], msg[5]);
    var off: nat := 12;
    var q: nat := 0;
    ghost var found: seq<Name> := [];
    ghost var rest := Questions(msg, 12, qd);
    ghost var all := rest;
    while q < qd && off < |msg|
      invariant 0 <= q <= qd && rest == Questions(msg, off, qd - q) && found + rest == all
      invariant Texts(msg, names, found)
    {
      var text, name, after, ok := ReadQuestion(msg, off, qd - q);
      if !ok {
        break;
      }
      rest := Questions(msg, after, qd - q - 1);
      OneMoreQuestion(found, name, rest);
      found := found + [name];
      names := names + [text];
      off := after;
      q := q + 1;
    }
    assert rest == [];
  }

  /** Labels written out from `at` up to `end`, each behind its length byte (section 3.1 of RFC 1035). */
  ghost predicate Written(msg: seq<Byte>, at: nat, labels: seq<nat>, end: nat)
    decreases |labels|
  {
    if labels == [] then end == at
    else
      && at < |msg|
      && 0 < msg[at] < 0xC0
      && at + 1 + msg[at] <= |msg|
      && labels[0] == at
      && Written(msg, at + 1 + msg[at], labels[1..], end)
  }

  /** Walking from `start` after one hop is walking from where that hop leads. */
  lemma {:induction false} WalkFromSecond(msg: seq<Byte>, start: nat, hops: nat)
    requires CanHop(msg, start) && Walks(msg, HopTo(msg, start), hops)
    ensures Walks(msg, start, hops + 1) && Spot(msg, start, hops + 1) == Spot(msg, HopTo(msg, start), hops)
    ensures Labels(msg, start, hops + 1) == Yield(msg, start) + Labels(msg, HopTo(msg, start), hops)
  {
    assert Spot(msg, start, 0) == start;
    if hops > 0 {
      WalkFromSecond(msg, start, hops - 1);
    }
  }

  /** One label in front of a name. */
  lemma LabelInFront(msg: seq<Byte>, at: nat, hops: nat)
    requires at < |msg| && 0 < msg[at] < 0xC0 && at + 1 + msg[at] <= |msg|
    requires Ends(msg, at + 1 + msg[at], hops)
    ensures Ends(msg, at, hops + 1) && WireEnd(msg, at) == WireEnd(msg, at + 1 + msg[at])
    ensures Labels(msg, at, hops + 1) == [at] + Labels(msg, at + 1 + msg[at], hops)
  {
    WalkFromSecond(msg, at, hops);
  }

  /** Labels written in front of a name are read in front of its labels. */
  lemma {:induction false} WrittenInFront(msg: seq<Byte>, at: nat, head: seq<nat>, mid: nat, hops: nat)
    requires Written(msg, at, head, mid) && Ends(msg, mid, hops)
    ensures Ends(msg, at, |head| + hops)
    ensures Labels(msg, at, |head| + hops) == head + Labels(msg, mid, hops)
    ensures WireEnd(msg, at) == WireEnd(msg, mid)
    decreases |head|
  {
    var tail := Labels(msg, mid, hops);
    if head == [] {
      assert head + tail == tail;
    } else {
      var rest := head[1..];
      WrittenInFront(msg, at + 1 + msg[at], rest, mid, hops);
      LabelInFront(msg, at, |rest| + hops);
      Regroup([at], rest, tail);
      assert head == [at] + rest;
    }
  }

  /** An uncompressed name reads as its labels and ends behind its zero byte. */
  lemma WrittenNameReads(msg: seq<Byte>, at: nat, labels: seq<nat>, zero: nat)
    requires Written(msg, at, labels, zero) && AtEnd(msg, zero)
    ensures IsName(msg, at) && NameOf(msg, at) == Name(labels) && WireEnd(msg, at) == zero + 1
  {
    assert Ends(msg, zero, 0);
    WrittenInFront(msg, at, labels, zero, 0);
    assert labels + Labels(msg, zero, 0) == labels;
    NameIs(msg, at, |labels|);
  }

  /** A pointer reads as its target, and the name ends behind it. */
  lemma PointerReads(msg: seq<Byte>, ptr: nat, hops: nat)
    requires ptr + 1 < |msg| && msg[ptr] >= 0xC0 && Ends(msg, Target(msg, ptr), hops)
    ensures Ends(msg, ptr, hops + 1) && WireEnd(msg, ptr) == ptr + 2
    ensures Labels(msg, ptr, hops + 1) == Labels(msg, Target(msg, ptr), hops)
  {
    WalkFromSecond(msg, ptr, hops);
    assert [] + Labels(msg, Target(msg, ptr), hops) == Labels(msg, Target(msg, ptr), hops);
  }

  /**
   * A compressed name, its leading labels written out and the rest behind a pointer
   * (section 4.1.4 of RFC 1035), reads as both parts together and ends behind the pointer.
   */
  lemma CompressedNameReads(msg: seq<Byte>, at: nat, head: seq<nat>, ptr: nat, hops: nat)
    requires Written(msg, at, head, ptr)
    requires ptr + 1 < |msg| && msg[ptr] >= 0xC0 && Ends(msg, Target(msg, ptr), hops)
    ensures IsName(msg, at) && WireEnd(msg, at) == ptr + 2
    ensures NameOf(msg, at) == Name(head + Labels(msg, Target(msg, ptr), hops))
  {
    PointerReads(msg, ptr, hops);
    WrittenInFront(msg, at, head, ptr, hops + 1);
    NameIs(msg, at, |head| + (hops + 1));
  }

  /** A question section from `at`: uncompressed names, each followed by QTYPE and QCLASS (4 bytes). */
  ghost predicate Section(msg: seq<Byte>, at: nat, places: seq<Place>)
    decreases |places|
  {
    places != [] ==>
      && Written(msg, at, places[0].name.labels, places[0].zero)
      && AtEnd(msg, places[0].zero)
      && Section(msg, places[0].zero + 5, places[1..])
  }

  /** Every question of a well-formed section is found, in order, under its own name. */
  lemma {:induction false} SectionReads(msg: seq<Byte>, at: nat, places: seq<Place>)
    requires Section(msg, at, places)
    ensures |Questions(msg, at, |places|)| == |places|
    ensures forall i :: 0 <= i < |places| ==> Questions(msg, at, |places|)[i] == places[i].name
    decreases |places|
  {
    if places != [] {
      WrittenNameReads(msg, at, places[0].name.labels, places[0].zero);
      SectionReads(msg, places[0].zero + 5, places[1..]);
    }
  }

  // The text of a name, and where its pointers lead.

  /** A pointer leads to the offset in its low 14 bits. */
  lemma PointerTarget(msg: seq<Byte>, at: nat)
    requires at + 1 < |msg| && msg[at] >= 192
    ensures Target(msg, at) == (msg[at] as int % 64) * 256 + msg[at + 1] as int
    ensures Target(msg, at) < 16384
  {
  }

  /** The label at `at` lies whole inside the message. */
  predicate WholeAt(msg: seq<Byte>, at: nat) {
    at < |msg| && at + 1 + msg[at] <= |msg|
  }

  predicate Whole(msg: seq<Byte>, labels: seq<nat>) {
    forall i :: 0 <= i < |labels| ==> WholeAt(msg, labels[i])
  }

  /** The labels of a walk lie whole inside the message. */
  lemma {:induction false} LabelsAreWhole(msg: seq<Byte>, start: nat, hops: nat)
    requires Walks(msg, start, hops)
    ensures Whole(msg, Labels(msg, start, hops))
  {
    if hops > 0 {
      LabelsAreWhole(msg, start, hops - 1);
    }
  }

  lemma {:induction false} CopyAt(msg: seq<Byte>, lo: nat, count: nat, j: nat)
    requires lo + count <= |msg|
    ensures |Copy(msg, lo, count)| == count
    ensures j < count ==> Copy(msg, lo, count)[j] == msg[lo + j]
    decreases count
  {
    if count > 0 {
      CopyAt(msg, lo + 1, count - 1, if j > 0 then j - 1 else 0);
    }
  }

  lemma {:induction false} TextsAt(msg: seq<Byte>, labels: seq<nat>, n: nat, k: nat)
    requires k < n <= |labels|
    ensures TextsOf(msg, labels, n)[k] == Dotted(Text(msg, labels[k]))
  {
    if k < n - 1 {
      TextsAt(msg, labels, n - 1, k);
    }
  }

  /** The text of a label: as many bytes as its length byte says, those behind it. */
  lemma LabelText(msg: seq<Byte>, labels: seq<nat>, k: nat, j: nat)
    requires Whole(msg, labels) && k < |labels|
    ensures var texts := TextsOf(msg, labels, |labels|);
            |texts[k].text| == msg[labels[k]] && (j < |texts[k].text| ==> texts[k].text[j] == msg[labels[k] + 1 + j])
  {
    TextsAt(msg, labels, |labels|, k);
    CopyAt(msg, labels[k] + 1, msg[labels[k]], j);
  }

  lemma NameIsWhole(msg: seq<Byte>, start: nat)
    requires IsName(msg, start)
    ensures Whole(msg, NameOf(msg, start).labels)
  {
    var hops: nat :| Ends(msg, start, hops);
    NameIs(msg, start, hops);
    LabelsAreWhole(msg, start, hops);
  }

  lemma JoinLength(msg: seq<Byte>, labels: seq<nat>)
    ensures |Join(msg, labels)| == if labels == [] then 0 else StartOf(TextsOf(msg, labels, |labels|), |labels|) - 1
  {
    if labels != [] {
      JoinedLength(TextsOf(msg, labels, |labels|), |labels|);
    }
  }

  /**
   * The text of a list of labels: byte `j` of label `k` stands behind the labels before it
   * and a dot for each; with the dots there is nothing else.
   */
  lemma JoinedByte(msg: seq<Byte>, labels: seq<nat>, k: nat, j: nat)
    requires Whole(msg, labels) && k < |labels| && j < msg[labels[k]] as nat
    ensures var texts, text := TextsOf(msg, labels, |labels|), Join(msg, labels);
            && |texts[k].text| == msg[labels[k]] && |text| == StartOf(texts, |labels|) - 1
            && StartOf(texts, k) + j < |text| && text[StartOf(texts, k) + j] == msg[labels[k] + 1 + j]
  {
    LabelText(msg, labels, k, j);
    JoinLength(msg, labels);
    ByteInPlace(TextsOf(msg, labels, |labels|), |labels|, k, j);
  }

  /** Every label but the first has a dot before it. */
  lemma JoinedDot(msg: seq<Byte>, labels: seq<nat>, k: nat)
    requires 0 < k < |labels|
    ensures var texts, text := TextsOf(msg, labels, |labels|), Join(msg, labels);
            0 < StartOf(texts, k) <= |text| && text[StartOf(texts, k) - 1] == 46
  {
    DotBefore(TextsOf(msg, labels, |labels|), |labels|, k);
  }
}
