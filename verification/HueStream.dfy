/**
 * The HueStream datagram codec (huestream/huestream.go).
 *
 * Both directions are loops over a byte buffer; each is proved against a function that
 * gives every byte, or every field, by its position. Parser and printer are then
 * compared position by position.
 */
module HueStream {
  import opened Common

  /** One light's (v1) or channel's (v2) colour. */
  datatype Channel = Channel(id: Word, a: Word, b: Word, c: Word)

  datatype Frame = Frame(
    major: Byte, minor: Byte, sequence: Byte, colorSpace: Byte,
    configID: seq<Byte>, channels: seq<Channel>)

  datatype Parsed =
    | Ok(frame: Frame)
    | ShortFrame(size: nat)
    | BadMagic
    | ShortConfigID(size: nat)
    | Unsupported(major: Byte, minor: Byte)

  /** The ASCII codes of "HueStream". */
  const MAGIC: seq<Byte> := [72, 117, 101, 83, 116, 114, 101, 97, 109]

  datatype Version = V1 | V2 {
    /** Where the `i`-th record starts, counted from the first. */
    function Offset(i: nat): nat {
      if V1? then 9 * i else 7 * i
    }

    /** Where the first record starts in a datagram. */
    function Start(): nat {
      if V1? then 16 else 52
    }

    /** How many whole records a datagram of `size` bytes holds. */
    function Count(size: nat): nat
      requires Start() <= size
    {
      if V1? then (size - 16) / 9 else (size - 52) / 7
    }
  }

  function Hi(w: Word): Byte { w / 0x100 }

  function Lo(w: Word): Byte { w % 0x100 }

  // ---------------------------------------------------------------- parsing

  /** The channel stored in the record at `at`. */
  function RecordAt(v: Version, b: seq<Byte>, at: nat): Channel
    requires at + v.Offset(1) <= |b|
  {
    if v.V1? then
      Channel(BigEndian(b[at + 1], b[at + 2]), BigEndian(b[at + 3], b[at + 4]),
              BigEndian(b[at + 5], b[at + 6]), BigEndian(b[at + 7], b[at + 8]))
    else
      Channel(b[at], BigEndian(b[at + 1], b[at + 2]), BigEndian(b[at + 3], b[at + 4]),
              BigEndian(b[at + 5], b[at + 6]))
  }

  /** The first `n` records of a datagram. */
  function Records(v: Version, b: seq<Byte>, n: nat): (cs: seq<Channel>)
    requires v.Start() + v.Offset(n) <= |b|
    ensures |cs| == n
    ensures forall i :: 0 <= i < n ==> cs[i] == RecordAt(v, b, v.Start() + v.Offset(i))
  {
    if n == 0 then []
    else Records(v, b, n - 1) + [RecordAt(v, b, v.Start() + v.Offset(n - 1))]
  }

  predicate HasMagic(b: seq<Byte>)
    requires |b| >= 16
  {
    forall i :: 0 <= i < 9 ==> b[i] == MAGIC[i]
  }

  /** What a datagram decodes to. */
  function Decoded(b: seq<Byte>): Parsed {
    if |b| < 16 then ShortFrame(|b|)
    else if !HasMagic(b) then BadMagic
    else if b[9] == 1 then
      Ok(Frame(1, b[10], b[11], b[14], [], Records(V1, b, V1.Count(|b|))))
    else if b[9] == 2 then
      if |b| < 52 then ShortConfigID(|b| - 16)
      else Ok(Frame(2, b[10], b[11], b[14], b[16..52], Records(V2, b, V2.Count(|b|))))
    else Unsupported(b[9], b[10])
  }

  /** huestream.go Parse. */
  method Parse(b: seq<Byte>) returns (r: Parsed)
    ensures r == Decoded(b)
  {
    if |b| < 16 {
      return ShortFrame(|b|);
    }
    if !HasMagic(b) {
      return BadMagic;
    }
    var major, minor, sequence, colorSpace := b[9], b[10], b[11], b[14];
    if major == 1 {
      var channels := ParseRecords(V1, b);
      return Ok(Frame(1, minor, sequence, colorSpace, [], channels));
    } else if major == 2 {
      if |b| < 52 {
        return ShortConfigID(|b| - 16);
      }
      var channels := ParseRecords(V2, b);
      return Ok(Frame(2, minor, sequence, colorSpace, b[16..52], channels));
    }
    return Unsupported(major, minor);
  }

  /** The record loop of Parse: consume whole records while the body lasts. */
  method ParseRecords(v: Version, b: seq<Byte>) returns (channels: seq<Channel>)
    requires v.Start() <= |b|
    ensures channels == Records(v, b, v.Count(|b|))
  {
    channels := [];
    var at := v.Start();
    while |b| - at >= v.Offset(1)
      invariant at == v.Start() + v.Offset(|channels|) <= |b|
      invariant channels == Records(v, b, |channels|)
      decreases |b| - at
    {
      channels := channels + [RecordAt(v, b, at)];
      at := at + v.Offset(1);
    }
  }

  // --------------------------------------------------------------- encoding

  /** The bytes of one record. */
  function RecordBytes(v: Version, c: Channel): (r: seq<Byte>)
    requires v.V2? ==> c.id < 0x100
  {
    if v.V1? then [0, Hi(c.id), Lo(c.id), Hi(c.a), Lo(c.a), Hi(c.b), Lo(c.b), Hi(c.c), Lo(c.c)]
    else [c.id, Hi(c.a), Lo(c.a), Hi(c.b), Lo(c.b), Hi(c.c), Lo(c.c)]
  }

  predicate Fit(v: Version, cs: seq<Channel>) {
    v.V2? ==> forall i :: 0 <= i < |cs| ==> cs[i].id < 0x100
  }

  /** The channels among the first `n` whose id fits one byte. */
  function Fitting(cs: seq<Channel>, n: nat): (kept: seq<Channel>)
    requires n <= |cs|
    ensures Fit(V2, kept)
  {
    if n == 0 then []
    else Fitting(cs, n - 1) + (if cs[n - 1].id < 0x100 then [cs[n - 1]] else [])
  }

  /** The encoding of the first `n` channels. */
  function Body(v: Version, cs: seq<Channel>, n: nat): (b: seq<Byte>)
    requires Fit(v, cs) && n <= |cs|
    ensures |b| == v.Offset(n)
  {
    if n == 0 then [] else Body(v, cs, n - 1) + RecordBytes(v, cs[n - 1])
  }

  /** `n` bytes: those of `s`, then zeros. */
  function Padded(s: seq<Byte>, n: nat): (p: seq<Byte>)
    ensures |p| == n
    ensures forall i :: 0 <= i < n ==> p[i] == if i < |s| then s[i] else 0
  {
    if n == 0 then [] else Padded(s, n - 1) + [if n <= |s| then s[n - 1] else 0]
  }

  function Header(f: Frame): (h: seq<Byte>)
    ensures |h| == 16
  {
    MAGIC + [f.major, f.minor, f.sequence, 0, 0, f.colorSpace, 0]
  }

  /** The datagram of a frame. */
  function Encoded(f: Frame): seq<Byte> {
    if f.major == 2 then
      Header(f) + Padded(f.configID, 36) + Body(V2, Fitting(f.channels, |f.channels|), |Fitting(f.channels, |f.channels|)|)
    else
      Header(f) + Body(V1, f.channels, |f.channels|)
  }

  /** huestream.go appendU16. */
  method AppendU16(b: seq<Byte>, w: Word) returns (r: seq<Byte>)
    ensures r == b + [Hi(w), Lo(w)]
    ensures BigEndian(r[|b|], r[|b| + 1]) == w
  {
    r := b + [w / 0x100, w % 0x100];
  }

  /** One turn of the record loops of Encode. */
  method AppendRecord(b: seq<Byte>, v: Version, c: Channel) returns (r: seq<Byte>)
    requires v.V2? ==> c.id < 0x100
    ensures r == b + RecordBytes(v, c)
  {
    if v.V1? {
      r := b + [0];
      r := AppendU16(r, c.id);
    } else {
      r := b + [c.id];
    }
    r := AppendU16(r, c.a);
    r := AppendU16(r, c.b);
    r := AppendU16(r, c.c);
  }

  /** The v2 branch of Encode: a channel whose id needs two bytes is dropped. */
  method EncodeV2(head: seq<Byte>, cs: seq<Channel>) returns (b: seq<Byte>)
    ensures b == head + Body(V2, Fitting(cs, |cs|), |Fitting(cs, |cs|)|)
  {
    b := head;
    var i := 0;
    while i < |cs|
      invariant 0 <= i <= |cs|
      invariant b == head + Body(V2, Fitting(cs, i), |Fitting(cs, i)|)
    {
      FittingGrows(head, cs, i);
      if cs[i].id <= 255 {
        b := AppendRecord(b, V2, cs[i]);
      }
      i := i + 1;
    }
  }

  /** The v1 branch of Encode, which every other version takes too. */
  method EncodeV1(head: seq<Byte>, cs: seq<Channel>) returns (b: seq<Byte>)
    ensures b == head + Body(V1, cs, |cs|)
  {
    b := head;
    var i := 0;
    while i < |cs|
      invariant 0 <= i <= |cs|
      invariant b == head + Body(V1, cs, i)
    {
      b := AppendRecord(b, V1, cs[i]);
      Regroup(head, Body(V1, cs, i), RecordBytes(V1, cs[i]));
      i := i + 1;
    }
  }

  /** huestream.go Encode. */
  method Encode(f: Frame) returns (b: seq<Byte>)
    ensures b == Encoded(f)
  {
    b := MAGIC;
    b := b + [f.major, f.minor, f.sequence, 0, 0, f.colorSpace, 0];
    if f.major == 2 {
      b := b + Padded(f.configID, 36);
      b := EncodeV2(b, f.channels);
    } else {
      b := EncodeV1(b, f.channels);
    }
  }

  /** Only the first `n` channels matter to the encoding of the first `n`. */
  lemma {:induction false} BodyPrefix(v: Version, cs: seq<Channel>, more: seq<Channel>, n: nat)
    requires Fit(v, cs) && Fit(v, more) && n <= |cs| && n <= |more|
    requires forall i :: 0 <= i < n ==> cs[i] == more[i]
    ensures Body(v, cs, n) == Body(v, more, n)
  {
    if n > 0 {
      BodyPrefix(v, cs, more, n - 1);
    }
  }

  lemma BodySnoc(v: Version, cs: seq<Channel>, c: Channel)
    requires Fit(v, cs) && (v.V2? ==> c.id < 0x100)
    ensures Fit(v, cs + [c])
    ensures Body(v, cs + [c], |cs + [c]|) == Body(v, cs, |cs|) + RecordBytes(v, c)
  {
    BodyPrefix(v, cs, cs + [c], |cs|);
  }

  /** What the next channel adds to a v2 datagram: its record, or nothing. */
  lemma FittingGrows(head: seq<Byte>, cs: seq<Channel>, i: nat)
    requires i < |cs|
    ensures var kept, more := Fitting(cs, i), Fitting(cs, i + 1);
            head + Body(V2, more, |more|) ==
            if cs[i].id < 0x100 then (head + Body(V2, kept, |kept|)) + RecordBytes(V2, cs[i]) else head + Body(V2, kept, |kept|)
  {
    var kept := Fitting(cs, i);
    if cs[i].id < 0x100 {
      BodySnoc(V2, kept, cs[i]);
      Regroup(head, Body(V2, kept, |kept|), RecordBytes(V2, cs[i]));
    } else {
      assert kept + [] == kept;
    }
  }

  // ------------------------------------------------------------- round trips

  /** A record's bytes, wherever they lie, decode to its channel. */
  predicate Holds(v: Version, b: seq<Byte>, at: nat, c: Channel)
    requires v.V2? ==> c.id < 0x100
  {
    var r := RecordBytes(v, c);
    at + |r| <= |b| && forall i :: 0 <= i < |r| ==> b[at + i] == r[i]
  }

  lemma HeldRecordDecodes(v: Version, b: seq<Byte>, at: nat, c: Channel)
    requires v.V2? ==> c.id < 0x100
    requires Holds(v, b, at, c)
    ensures RecordAt(v, b, at) == c
  {
    var r := RecordBytes(v, c);
    assert b[at + 0] == r[0] && b[at + 1] == r[1] && b[at + 2] == r[2] && b[at + 3] == r[3];
    assert b[at + 4] == r[4] && b[at + 5] == r[5] && b[at + 6] == r[6];
    if v.V1? {
      assert b[at + 7] == r[7] && b[at + 8] == r[8];
    }
  }

  function RecordSize(v: Version): nat { v.Offset(1) }

  /** Byte `j` of record `i` of a body. */
  lemma {:induction false} BodyAt(v: Version, cs: seq<Channel>, n: nat, i: nat, j: nat)
    requires Fit(v, cs) && i < n <= |cs| && j < RecordSize(v)
    ensures |RecordBytes(v, cs[i])| == RecordSize(v) && v.Offset(i) + j < |Body(v, cs, n)|
    ensures Body(v, cs, n)[v.Offset(i) + j] == RecordBytes(v, cs[i])[j]
  {
    if i < n - 1 {
      BodyAt(v, cs, n - 1, i, j);
    }
  }

  lemma BehindHead(head: seq<Byte>, body: seq<Byte>, k: nat)
    requires k < |body|
    ensures (head + body)[|head| + k] == body[k]
  {
  }

  lemma ByteHeld(v: Version, cs: seq<Channel>, head: seq<Byte>, i: nat, j: nat)
    requires Fit(v, cs) && i < |cs| && j < RecordSize(v)
    ensures |RecordBytes(v, cs[i])| == RecordSize(v)
    ensures |head| + v.Offset(i) + j < |head + Body(v, cs, |cs|)|
    ensures (head + Body(v, cs, |cs|))[|head| + v.Offset(i) + j] == RecordBytes(v, cs[i])[j]
  {
    BodyAt(v, cs, |cs|, i, j);
    BehindHead(head, Body(v, cs, |cs|), v.Offset(i) + j);
  }

  lemma {:induction false} BodyHolds(v: Version, cs: seq<Channel>, head: seq<Byte>, i: nat)
    requires Fit(v, cs) && i < |cs|
    ensures Holds(v, head + Body(v, cs, |cs|), |head| + v.Offset(i), cs[i])
  {
    ByteHeld(v, cs, head, i, RecordSize(v) - 1);
    forall j | 0 <= j < RecordSize(v)
      ensures (head + Body(v, cs, |cs|))[|head| + v.Offset(i) + j] == RecordBytes(v, cs[i])[j]
    {
      ByteHeld(v, cs, head, i, j);
    }
  }

  lemma CountExact(v: Version, n: nat)
    ensures v.Count(v.Start() + v.Offset(n)) == n
  {
  }

  /** The `i`-th record of a body is read back as the `i`-th channel. */
  lemma BodyReads(v: Version, cs: seq<Channel>, head: seq<Byte>, i: nat)
    requires Fit(v, cs) && i < |cs|
    ensures |head| + v.Offset(i) + v.Offset(1) <= |head + Body(v, cs, |cs|)|
    ensures RecordAt(v, head + Body(v, cs, |cs|), |head| + v.Offset(i)) == cs[i]
  {
    BodyHolds(v, cs, head, i);
    HeldRecordDecodes(v, head + Body(v, cs, |cs|), |head| + v.Offset(i), cs[i]);
  }

  /** Records are told by what each position decodes to. */
  lemma RecordsAre(v: Version, b: seq<Byte>, cs: seq<Channel>)
    requires v.Start() + v.Offset(|cs|) <= |b|
    requires forall i :: 0 <= i < |cs| ==> RecordAt(v, b, v.Start() + v.Offset(i)) == cs[i]
    ensures Records(v, b, |cs|) == cs
  {
  }

  /** The records behind any head of the right length are read back as the channels written. */
  lemma RecordsOfBody(v: Version, cs: seq<Channel>, head: seq<Byte>)
    requires Fit(v, cs) && |head| == v.Start()
    ensures v.Count(|head + Body(v, cs, |cs|)|) == |cs|
    ensures Records(v, head + Body(v, cs, |cs|), |cs|) == cs
  {
    var b := head + Body(v, cs, |cs|);
    CountExact(v, |cs|);
    forall i | 0 <= i < |cs| ensures RecordAt(v, b, v.Start() + v.Offset(i)) == cs[i] {
      BodyReads(v, cs, head, i);
    }
    RecordsAre(v, b, cs);
  }

  /** What survives a trip through the wire. */
  function Canonical(f: Frame): Parsed {
    if f.major == 1 then Ok(f.(configID := []))
    else if f.major == 2 then
      Ok(f.(configID := Padded(f.configID, 36), channels := Fitting(f.channels, |f.channels|)))
    else Unsupported(f.major, f.minor)
  }

  lemma HeaderReads(f: Frame, body: seq<Byte>)
    ensures var b := Header(f) + body;
            && |b| == 16 + |body| && HasMagic(b)
            && b[9] == f.major && b[10] == f.minor && b[11] == f.sequence && b[14] == f.colorSpace
  {
    var b := Header(f) + body;
    forall i | 0 <= i < 9 ensures b[i] == MAGIC[i] {
      assert b[i] == Header(f)[i];
    }
  }

  /** Decoding an encoded frame, for every frame of every version. */
  lemma EncodeThenParse(f: Frame)
    ensures Decoded(Encoded(f)) == Canonical(f)
  {
    if f.major == 2 {
      var cs := Fitting(f.channels, |f.channels|);
      var pad, body := Padded(f.configID, 36), Body(V2, cs, |cs|);
      Regroup(Header(f), pad, body);
      HeaderReads(f, pad + body);
      RecordsOfBody(V2, cs, Header(f) + pad);
      assert (Header(f) + pad + body)[16..52] == pad;
    } else {
      HeaderReads(f, Body(V1, f.channels, |f.channels|));
      RecordsOfBody(V1, f.channels, Header(f));
    }
  }

  /** The frames a datagram can carry unchanged. */
  predicate WellFormed(f: Frame) {
    || (f.major == 1 && f.configID == [])
    || (f.major == 2 && |f.configID| == 36 && Fit(V2, f.channels))
  }

  lemma {:induction false} FittingKeepsAll(cs: seq<Channel>, n: nat)
    requires n <= |cs| && Fit(V2, cs)
    ensures Fitting(cs, n) == cs[..n]
  {
    if n > 0 {
      FittingKeepsAll(cs, n - 1);
      assert cs[..n] == cs[..n - 1] + [cs[n - 1]];
    }
  }

  /** Encode is the inverse of Parse exactly on the well-formed frames. */
  lemma RoundTripIffWellFormed(f: Frame)
    ensures Decoded(Encoded(f)) == Ok(f) <==> WellFormed(f)
  {
    EncodeThenParse(f);
    if WellFormed(f) && f.major == 2 {
      FittingKeepsAll(f.channels, |f.channels|);
      assert f.channels[..|f.channels|] == f.channels;
      assert Padded(f.configID, 36) == f.configID;
    }
  }

  /** Every accepted datagram decodes to a well-formed frame with as many channels as fit its length. */
  lemma ParsedIsWellFormed(b: seq<Byte>)
    requires Decoded(b).Ok?
    ensures WellFormed(Decoded(b).frame)
    ensures |Decoded(b).frame.channels| == if b[9] == 1 then (|b| - 16) / 9 else (|b| - 52) / 7
  {
  }

  /** Re-encoding an accepted datagram loses nothing the parser sees. */
  lemma ParseThenEncode(b: seq<Byte>)
    requires Decoded(b).Ok?
    ensures Decoded(Encoded(Decoded(b).frame)) == Decoded(b)
  {
    ParsedIsWellFormed(b);
    RoundTripIffWellFormed(Decoded(b).frame);
  }

  lemma {:induction false} RecordsIgnoreTail(v: Version, b: seq<Byte>, tail: seq<Byte>, n: nat)
    requires v.Start() + v.Offset(n) <= |b|
    ensures Records(v, b + tail, n) == Records(v, b, n)
  {
    if n > 0 {
      RecordsIgnoreTail(v, b, tail, n - 1);
      assert RecordAt(v, b + tail, v.Start() + v.Offset(n - 1)) == RecordAt(v, b, v.Start() + v.Offset(n - 1));
    }
  }

  /** Bytes behind the last whole record are ignored. */
  lemma TrailingBytesIgnored(b: seq<Byte>, tail: seq<Byte>)
    requires Decoded(b).Ok?
    requires var v := if b[9] == 1 then V1 else V2; v.Count(|b| + |tail|) == v.Count(|b|)
    ensures Decoded(b + tail) == Decoded(b)
  {
    var v := if b[9] == 1 then V1 else V2;
    RecordsIgnoreTail(v, b, tail, v.Count(|b|));
    if v.V2? {
      assert (b + tail)[16..52] == b[16..52];
    }
  }

  // The layout, field by field.

  /** Exactly these datagrams are accepted: the nine letters first, then version 1, or version 2 with a whole id. */
  lemma AcceptedIff(b: seq<Byte>)
    ensures Decoded(b).Ok? <==>
            && |b| >= 16
            && (forall i :: 0 <= i < 9 ==> b[i] == "HueStream"[i] as int)
            && (b[9] == 1 || (b[9] == 2 && |b| >= 52))
    ensures |b| < 16 ==> Decoded(b) == ShortFrame(|b|)
    ensures |b| >= 16 && (exists i :: 0 <= i < 9 && b[i] != "HueStream"[i] as int) ==> Decoded(b) == BadMagic
  {
    LettersAreMagic();
  }

  /** And any other is refused for the first thing wrong with it. */
  lemma RefusedFor(b: seq<Byte>)
    ensures Decoded(b).ShortFrame? <==> |b| < 16
    ensures Decoded(b).BadMagic? <==> |b| >= 16 && exists i :: 0 <= i < 9 && b[i] != "HueStream"[i] as int
    ensures Decoded(b).Unsupported? ==> Decoded(b) == Unsupported(b[9], b[10]) && b[9] != 1 && b[9] != 2
    ensures Decoded(b).ShortConfigID? ==> Decoded(b) == ShortConfigID(|b| - 16) && b[9] == 2 && |b| < 52
  {
    LettersAreMagic();
  }

  /** Where the header fields lie. */
  lemma HeaderLayout(b: seq<Byte>)
    requires Decoded(b).Ok?
    ensures var f := Decoded(b).frame;
            && f.major == b[9] && f.minor == b[10] && f.sequence == b[11] && f.colorSpace == b[14]
            && f.configID == if b[9] == 2 then b[16..52] else []
  {
  }

  /** The number in two bytes, the most significant first. */
  function Wide(b: seq<Byte>, at: nat): int
    requires at + 1 < |b|
  {
    (b[at] as int) * 256 + (b[at + 1] as int)
  }

  /** Where a v1 channel's fields lie: in 9-byte records behind the header, the first byte unused. */
  lemma ChannelLayoutV1(b: seq<Byte>, i: nat)
    requires Decoded(b).Ok? && b[9] == 1 && i < |Decoded(b).frame.channels|
    ensures 16 + 9 * i + 9 <= |b|
    ensures var c, at := Decoded(b).frame.channels[i], 16 + 9 * i;
            c.id == Wide(b, at + 1) && c.a == Wide(b, at + 3) && c.b == Wide(b, at + 5) && c.c == Wide(b, at + 7)
  {
    var at := 16 + 9 * i;
    assert at == V1.Start() + V1.Offset(i);
    assert Decoded(b).frame.channels[i] == RecordAt(V1, b, at);
  }

  /** Where a v2 channel's fields lie: in 7-byte records behind the id. */
  lemma ChannelLayoutV2(b: seq<Byte>, i: nat)
    requires Decoded(b).Ok? && b[9] == 2 && i < |Decoded(b).frame.channels|
    ensures 52 + 7 * i + 7 <= |b|
    ensures var c, at := Decoded(b).frame.channels[i], 52 + 7 * i;
            c.id == b[at] && c.a == Wide(b, at + 1) && c.b == Wide(b, at + 3) && c.c == Wide(b, at + 5)
  {
    var at := 52 + 7 * i;
    assert at == V2.Start() + V2.Offset(i);
    assert Decoded(b).frame.channels[i] == RecordAt(V2, b, at);
  }

  /** What an encoded frame holds beside the fields: zeros in the reserved bytes. */
  lemma ReservedAreZero(f: Frame)
    ensures var b := Encoded(f);
            && |b| >= 16 && b[12] == 0 && b[13] == 0 && b[15] == 0
            && b[9] == f.major && b[10] == f.minor && b[11] == f.sequence && b[14] == f.colorSpace
            && (forall i :: 0 <= i < 9 ==> b[i] == "HueStream"[i] as int)
  {
    var h := Header(f);
    assert forall i :: 0 <= i < 16 ==> Encoded(f)[i] == h[i] by {
      if f.major == 2 {
        var cs := Fitting(f.channels, |f.channels|);
        Regroup(h, Padded(f.configID, 36), Body(V2, cs, |cs|));
      }
    }
    LettersAreMagic();
    assert forall i :: 0 <= i < 9 ==> h[i] == MAGIC[i];
  }

  lemma LettersAreMagic()
    ensures forall i :: 0 <= i < 9 ==> MAGIC[i] == "HueStream"[i] as int
  {
    assert MAGIC[0] == 'H' as int && MAGIC[1] == 'u' as int && MAGIC[2] == 'e' as int && MAGIC[3] == 'S' as int
           && MAGIC[4] == 't' as int && MAGIC[5] == 'r' as int && MAGIC[6] == 'e' as int && MAGIC[7] == 'a' as int && MAGIC[8] == 'm' as int;
  }

  /** The device type of a v1 record is zero, and its id takes two bytes. */
  lemma TypeIsZero(f: Frame, i: nat)
    requires f.major != 2 && i < |f.channels|
    ensures |Encoded(f)| == 16 + 9 * |f.channels| && Encoded(f)[16 + 9 * i] == 0
  {
    ByteHeld(V1, f.channels, Header(f), i, 0);
  }
}
