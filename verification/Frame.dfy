/** The QRT1 frame codec: a 32-byte header with a UUID, a payload, and a reader fed chunk by chunk. */
module Frame {
  import opened Base

  const HEADER_SIZE: nat := 32

  datatype Header = Header(version: nat, frameType: nat, requestId: string, payloadLength: nat, flags: nat)

  datatype DecodedFrame = DecodedFrame(header: Header, payload: Bytes)

  datatype ProtocolError = TruncatedFrame | InvalidMagic | FrameTooLarge | OutOfRange

  // ---------------------------------------------------------------- numbers

  function U16(n: nat): (b: Bytes)
    requires n < 0x1_0000
    ensures |b| == 2
  {
    [n / 0x100, n % 0x100]
  }

  function U32(n: nat): (b: Bytes)
    requires n < 0x1_0000_0000
    ensures |b| == 4
  {
    U16(n / 0x1_0000) + U16(n % 0x1_0000)
  }

  function ReadU16(b: Bytes, at: nat): nat
    requires at + 2 <= |b|
  {
    (b[at] as int) * 0x100 + (b[at + 1] as int)
  }

  function ReadU32(b: Bytes, at: nat): nat
    requires at + 4 <= |b|
  {
    ReadU16(b, at) * 0x1_0000 + ReadU16(b, at + 2)
  }

  lemma ReadsBackU16(n: nat, b: Bytes, at: nat)
    requires n < 0x1_0000 && at + 2 <= |b| && b[at..at + 2] == U16(n)
    ensures ReadU16(b, at) == n
  {
    assert b[at] == b[at..at + 2][0] && b[at + 1] == b[at..at + 2][1];
  }

  lemma ReadsBackU32(n: nat, b: Bytes, at: nat)
    requires n < 0x1_0000_0000 && at + 4 <= |b| && b[at..at + 4] == U32(n)
    ensures ReadU32(b, at) == n
  {
    assert b[at..at + 2] == b[at..at + 4][..2] == U16(n / 0x1_0000);
    assert b[at + 2..at + 4] == b[at..at + 4][2..] == U16(n % 0x1_0000);
    ReadsBackU16(n / 0x1_0000, b, at);
    ReadsBackU16(n % 0x1_0000, b, at + 2);
  }

  // ---------------------------------------------------------------- hexadecimal and UUIDs

  function HexDigit(n: nat): char
    requires n < 16
  {
    if n < 10 then '0' + n as char else 'a' + (n - 10) as char
  }

  function HexValue(c: char): Option<nat> {
    if '0' <= c <= '9' then Some((c - '0') as nat)
    else if 'a' <= c <= 'f' then Some((c - 'a') as nat + 10)
    else if 'A' <= c <= 'F' then Some((c - 'A') as nat + 10)
    else None
  }

  lemma HexValueInvertsDigit(n: nat)
    requires n < 16
    ensures HexValue(HexDigit(n)) == Some(n) && HexDigit(n) != '-'
  {
  }

  function HexEncode(b: Bytes): (s: string)
    ensures |s| == 2 * |b|
  {
    if b == [] then "" else [HexDigit(b[0] / 16), HexDigit(b[0] % 16)] + HexEncode(b[1..])
  }

  lemma HexValueSmall(c: char)
    ensures HexValue(c).Some? ==> HexValue(c).value < 16
  {
  }

  /** Decodes pairs of digits up to the first that is not one; an odd last digit is dropped. */
  function HexDecode(s: string): Bytes {
    if |s| < 2 || HexValue(s[0]).None? || HexValue(s[1]).None? then []
    else
      HexValueSmall(s[0]);
      HexValueSmall(s[1]);
      [HexValue(s[0]).value * 16 + HexValue(s[1]).value] + HexDecode(s[2..])
  }

  function WithoutDashes(s: string): string {
    if s == "" then "" else (if s[0] == '-' then "" else [s[0]]) + WithoutDashes(s[1..])
  }

  function FormatUuid(b: Bytes): string
    requires |b| == 16
  {
    var hex := HexEncode(b);
    hex[..8] + "-" + hex[8..12] + "-" + hex[12..16] + "-" + hex[16..20] + "-" + hex[20..]
  }

  function Zeros(n: nat): (b: Bytes)
    ensures |b| == n && forall i | 0 <= i < n :: b[i] == 0
  {
    if n == 0 then [] else Zeros(n - 1) + [0]
  }

  /** The sixteen header bytes of an identifier; zeros when it does not decode to sixteen bytes. */
  function IdBytes(id: string): (b: Bytes)
    ensures |b| == 16
  {
    var b := HexDecode(WithoutDashes(id));
    if |b| == 16 then b else Zeros(16)
  }

  lemma {:induction false} HexRoundTrip(b: Bytes)
    ensures HexDecode(HexEncode(b)) == b
    ensures NoDash(HexEncode(b))
  {
    if b != [] {
      HexRoundTrip(b[1..]);
      HexValueInvertsDigit(b[0] / 16);
      HexValueInvertsDigit(b[0] % 16);
      assert HexEncode(b)[2..] == HexEncode(b[1..]);
      assert b == [b[0]] + b[1..];
    }
  }

  lemma {:induction false} WithoutDashesAppend(a: string, b: string)
    ensures WithoutDashes(a + b) == WithoutDashes(a) + WithoutDashes(b)
  {
    if a == "" {
      assert a + b == b;
    } else {
      assert (a + b)[1..] == a[1..] + b;
      WithoutDashesAppend(a[1..], b);
    }
  }

  predicate NoDash(s: string) {
    forall c | c in s :: c != '-'
  }

  lemma NoDashInPart(s: string, i: nat, j: nat)
    requires i <= j <= |s| && NoDash(s)
    ensures NoDash(s[i..j])
  {
    assert forall c | c in s[i..j] :: c in s;
  }

  lemma {:induction false} NoDashesToDrop(s: string)
    requires NoDash(s)
    ensures WithoutDashes(s) == s
  {
    if s != "" {
      assert s[0] in s && forall c | c in s[1..] :: c in s;
      NoDashesToDrop(s[1..]);
      assert s == [s[0]] + s[1..];
    }
  }

  lemma DropDash(a: string, b: string)
    requires NoDash(a)
    ensures WithoutDashes(a + "-" + b) == a + WithoutDashes(b)
  {
    Associate(a, "-", b);
    WithoutDashesAppend(a, "-" + b);
    NoDashesToDrop(a);
    DashFirst(b);
  }

  lemma DashFirst(b: string)
    ensures WithoutDashes("-" + b) == WithoutDashes(b)
  {
    assert ("-" + b)[1..] == b;
  }

  /** The text form without its dashes is the plain hexadecimal text. */
  lemma DashesDrop(hex: string, t1: string, t2: string, t3: string)
    requires |hex| == 32 && NoDash(hex)
    requires t3 == hex[16..20] + "-" + hex[20..32]
    requires t2 == hex[12..16] + "-" + t3
    requires t1 == hex[8..12] + "-" + t2
    ensures WithoutDashes(hex[..8] + "-" + t1) == hex
  {
    NoDashInPart(hex, 0, 8);
    NoDashInPart(hex, 8, 12);
    NoDashInPart(hex, 12, 16);
    NoDashInPart(hex, 16, 20);
    NoDashInPart(hex, 20, 32);
    DropDash(hex[..8], t1);
    DropDash(hex[8..12], t2);
    DropDash(hex[12..16], t3);
    DropDash(hex[16..20], hex[20..32]);
    NoDashesToDrop(hex[20..32]);
    hide NoDash, WithoutDashes;
    assert hex == hex[..8] + hex[8..];
    assert hex[8..] == hex[8..12] + hex[12..];
    assert hex[12..] == hex[12..16] + hex[16..];
    assert hex[16..] == hex[16..20] + hex[20..32];
  }

  /** The text form of sixteen bytes reads back as those bytes. */
  lemma UuidRoundTrip(b: Bytes)
    requires |b| == 16
    ensures IdBytes(FormatUuid(b)) == b
  {
    var hex := HexEncode(b);
    HexRoundTrip(b);
    var t3 := hex[16..20] + "-" + hex[20..32];
    var t2 := hex[12..16] + "-" + t3;
    var t1 := hex[8..12] + "-" + t2;
    assert hex[20..] == hex[20..32];
    assert FormatUuid(b) == hex[..8] + "-" + t1;
    DashesDrop(hex, t1, t2, t3);
  }

  // ---------------------------------------------------------------- encoding

  const MAGIC: Bytes := [0x51, 0x52, 0x54, 0x31]

  /** What a caller asks to send. */
  datatype Outgoing = Outgoing(frameType: nat, payload: Bytes, id: string, flags: nat, version: nat)

  predicate InRange(o: Outgoing) {
    o.version < 0x1_0000 && o.frameType < 0x1_0000 && |o.payload| < 0x1_0000_0000 && o.flags < 0x1_0000_0000
  }

  function Head(o: Outgoing): (b: Bytes)
    requires InRange(o)
    ensures |b| == HEADER_SIZE
  {
    MAGIC + U16(o.version) + U16(o.frameType) + IdBytes(o.id) + U32(|o.payload|) + U32(o.flags)
  }

  function Encode(o: Outgoing): Result<Bytes, ProtocolError> {
    if InRange(o) then Ok(Head(o) + o.payload) else Err(OutOfRange)
  }

  /** Copies `b` into the header at `at`. */
  method Copy(header: array<Byte>, at: nat, b: Bytes)
    requires at + |b| <= header.Length
    modifies header
    ensures header[..] == old(header[..at]) + b + old(header[at + |b|..])
  {
    for i := 0 to |b|
      invariant header[..at] == old(header[..at]) && header[at..at + i] == b[..i]
      invariant header[at + |b|..] == old(header[at + |b|..])
    {
      header[at + i] := b[i];
      assert header[at..at + i + 1] == header[at..at + i] + [b[i]];
    }
    assert header[..] == header[..at] + header[at..at + |b|] + header[at + |b|..];
  }

  /** Writes the header field by field into a zeroed buffer. */
  method EncodeFrame(o: Outgoing) returns (r: Result<Bytes, ProtocolError>)
    ensures r == Encode(o)
  {
    if !InRange(o) { return Err(OutOfRange); }
    var header := new Byte[32](_ => 0);
    assert header[..] == Zeros(32);
    Copy(header, 0, MAGIC);
    Copy(header, 4, U16(o.version));
    Copy(header, 6, U16(o.frameType));
    assert header[..] == (MAGIC + U16(o.version) + U16(o.frameType)) + Zeros(32)[8..];
    assert forall i | 8 <= i < 24 :: header[i] == header[..][i];
    WriteIdentifier(header, o);
    Copy(header, 24, U32(|o.payload|));
    Copy(header, 28, U32(o.flags));
    assert header[..] == Head(o);
    return Ok(header[..] + o.payload);
  }

  /** Copies the identifier when it decodes to sixteen bytes; otherwise the zeros stay. */
  method WriteIdentifier(header: array<Byte>, o: Outgoing)
    requires header.Length == 32 && forall i | 8 <= i < 24 :: header[i] == 0
    modifies header
    ensures header[..24] == old(header[..8]) + IdBytes(o.id)
  {
    assert header[8..24] == Zeros(16);
    var decoded := HexDecode(WithoutDashes(o.id));
    if |decoded| == 16 {
      Copy(header, 8, decoded);
    }
    assert header[..24] == header[..8] + header[8..24];
  }

  // ---------------------------------------------------------------- decoding

  /** Reading the magic as ASCII ignores the top bit of every byte. */
  predicate MagicMatches(b: Bytes)
    requires |b| >= 4
  {
    b[0] % 128 == 0x51 && b[1] % 128 == 0x52 && b[2] % 128 == 0x54 && b[3] % 128 == 0x31
  }

  function DecodeHeader(b: Bytes): Result<Header, ProtocolError> {
    if |b| < HEADER_SIZE then Err(TruncatedFrame)
    else if !MagicMatches(b) then Err(InvalidMagic)
    else Ok(Header(ReadU16(b, 4), ReadU16(b, 6), FormatUuid(b[8..24]), ReadU32(b, 24), ReadU32(b, 28)))
  }

  /** The frames of a buffer, what is left of it, and the error that stopped the reader. */
  datatype Decoding = Decoding(frames: seq<DecodedFrame>, rest: Bytes, error: Option<ProtocolError>)

  function Decode(b: Bytes, max: nat): Decoding
    decreases |b|
  {
    if |b| < HEADER_SIZE then Decoding([], b, None)
    else
      match DecodeHeader(b)
      case Err(e) => Decoding([], b, Some(e))
      case Ok(h) =>
        var total := HEADER_SIZE + h.payloadLength;
        if h.payloadLength > max then Decoding([], b, Some(FrameTooLarge))
        else if |b| < total then Decoding([], b, None)
        else
          var d := Decode(b[total..], max);
          d.(frames := [DecodedFrame(h, b[HEADER_SIZE..total])] + d.frames)
  }

  /** The frames a call returns; an error discards those it decoded before. */
  function Returned(d: Decoding): Result<seq<DecodedFrame>, ProtocolError> {
    if d.error.Some? then Err(d.error.value) else Ok(d.frames)
  }

  class FrameReader {
    var buffer: Bytes

    constructor ()
      ensures buffer == []
    {
      buffer := [];
    }

    method Feed(chunk: Bytes, max: nat) returns (r: Result<seq<DecodedFrame>, ProtocolError>)
      modifies this
      ensures buffer == Decode(old(buffer) + chunk, max).rest
      ensures r == Returned(Decode(old(buffer) + chunk, max))
    {
      buffer := buffer + chunk;
      var frames: seq<DecodedFrame> := [];
      while |buffer| >= HEADER_SIZE
        invariant var all, now := Decode(old(buffer) + chunk, max), Decode(buffer, max);
                  all.frames == frames + now.frames && all.rest == now.rest && all.error == now.error
        decreases |buffer|
      {
        var header := DecodeHeader(buffer);
        if header.Err? { return Err(header.error); }
        var total := HEADER_SIZE + header.value.payloadLength;
        if header.value.payloadLength > max { return Err(FrameTooLarge); }
        if |buffer| < total { break; }
        var payload := buffer[HEADER_SIZE..total];
        buffer := buffer[total..];
        frames := frames + [DecodedFrame(header.value, payload)];
      }
      assert frames + Decode(buffer, max).frames == frames;
      return Ok(frames);
    }
  }

  // ---------------------------------------------------------------- chunking does not matter

  lemma HeaderOfPrefix(a: Bytes, b: Bytes)
    requires |a| >= HEADER_SIZE
    ensures DecodeHeader(a + b) == DecodeHeader(a)
  {
    assert (a + b)[8..24] == a[8..24];
  }

  /** How a reader treats the front of a buffer: it waits, fails, or takes a frame. */
  function FrameSize(b: Bytes, max: nat): Result<Option<nat>, ProtocolError> {
    if |b| < HEADER_SIZE then Ok(None)
    else
      match DecodeHeader(b)
      case Err(e) => Err(e)
      case Ok(h) =>
        if h.payloadLength > max then Err(FrameTooLarge)
        else if |b| < HEADER_SIZE + h.payloadLength then Ok(None)
        else Ok(Some(HEADER_SIZE + h.payloadLength))
  }

  lemma DecodeCases(b: Bytes, max: nat)
    ensures var size := FrameSize(b, max);
            && (size.Err? ==> Decode(b, max) == Decoding([], b, Some(size.error)))
            && (size == Ok(None) ==> Decode(b, max) == Decoding([], b, None))
            && (size.Ok? && size.value.Some? ==>
                  && HEADER_SIZE <= size.value.value <= |b| && DecodeHeader(b).Ok?
                  && Decode(b, max) == Front(DecodeHeader(b).value, b[HEADER_SIZE..size.value.value],
                                             Decode(b[size.value.value..], max)))
  {
  }

  function Front(h: Header, payload: Bytes, d: Decoding): Decoding {
    d.(frames := [DecodedFrame(h, payload)] + d.frames)
  }

  lemma SizeOfPrefix(a: Bytes, b: Bytes, max: nat)
    ensures FrameSize(a, max).Err? || FrameSize(a, max).value.Some? ==> FrameSize(a + b, max) == FrameSize(a, max)
  {
    if |a| >= HEADER_SIZE { HeaderOfPrefix(a, b); }
  }

  /** Reading on after a part was read is reading the whole. */
  lemma {:induction false} DecodeSplits(a: Bytes, b: Bytes, max: nat)
    ensures var first, whole := Decode(a, max), Decode(a + b, max);
            if first.error.Some? then whole == first.(rest := first.rest + b)
            else
              var second := Decode(first.rest + b, max);
              whole == second.(frames := first.frames + second.frames)
    decreases |a|
  {
    DecodeCases(a, max);
    DecodeCases(a + b, max);
    SizeOfPrefix(a, b, max);
    hide Decode, FrameSize;
    var size := FrameSize(a, max);
    if size == Ok(None) {
      var second := Decode(a + b, max);
      assert [] + second.frames == second.frames;
    } else if size.Ok? {
      var n := size.value.value;
      HeaderOfPrefix(a, b);
      assert (a + b)[n..] == a[n..] + b && (a + b)[HEADER_SIZE..n] == a[HEADER_SIZE..n];
      DecodeSplits(a[n..], b, max);
      var tail := Decode(a[n..], max);
      if tail.error.None? {
        Associate([DecodedFrame(DecodeHeader(a).value, a[HEADER_SIZE..n])], tail.frames,
                  Decode(tail.rest + b, max).frames);
      }
    }
  }

  function Join(chunks: seq<Bytes>): Bytes {
    if chunks == [] then [] else chunks[0] + Join(chunks[1..])
  }

  /** A reader fed chunk after chunk until the first error. */
  function FeedAll(buffer: Bytes, chunks: seq<Bytes>, max: nat): Decoding
    decreases chunks
  {
    if chunks == [] then Decoding([], buffer, None)
    else
      var d := Decode(buffer + chunks[0], max);
      if d.error.Some? then d.(frames := [])
      else
        var later := FeedAll(d.rest, chunks[1..], max);
        later.(frames := d.frames + later.frames)
  }

  /** A buffer between two calls of a reader that met no error. */
  predicate Waiting(b: Bytes, max: nat) {
    Decode(b, max) == Decoding([], b, None)
  }

  lemma {:induction false} RestWaits(b: Bytes, max: nat)
    requires Decode(b, max).error.None?
    ensures Waiting(Decode(b, max).rest, max)
    decreases |b|
  {
    if |b| >= HEADER_SIZE {
      var total := HEADER_SIZE + DecodeHeader(b).value.payloadLength;
      if |b| >= total { RestWaits(b[total..], max); }
    }
  }

  /** On an error-free stream the frames and the residue do not depend on the chunking; whether and
      which error occurs never does. */
  lemma {:induction false} ChunkingIrrelevant(buffer: Bytes, chunks: seq<Bytes>, max: nat)
    requires Waiting(buffer, max)
    ensures var whole, fed := Decode(buffer + Join(chunks), max), FeedAll(buffer, chunks, max);
            && fed.error == whole.error
            && (whole.error.None? ==> fed == whole)
            && fed.frames <= whole.frames
    decreases chunks
  {
    if chunks == [] {
      assert buffer + Join(chunks) == buffer;
    } else {
      var first := Decode(buffer + chunks[0], max);
      Associate(buffer, chunks[0], Join(chunks[1..]));
      DecodeSplits(buffer + chunks[0], Join(chunks[1..]), max);
      if first.error.None? {
        RestWaits(buffer + chunks[0], max);
        ChunkingIrrelevant(first.rest, chunks[1..], max);
      }
    }
  }

  /** When the stream ends in an error, the frames that complete in the chunk that shows the error are
      lost: one chunk delivers none of them, and a chunk border before the error delivers them all. */
  lemma ErrorsLoseFramesOfTheirChunk(good: Bytes, bad: Bytes, max: nat)
    requires Decode(good, max).error.None? && Decode(good, max).rest == []
    requires Decode(bad, max).error.Some? && Decode(bad, max).frames == []
    ensures FeedAll([], [good + bad], max).frames == []
    ensures FeedAll([], [good, bad], max).frames == Decode(good, max).frames
    ensures FeedAll([], [good + bad], max).error == FeedAll([], [good, bad], max).error == Decode(bad, max).error
  {
    DecodeSplits(good, bad, max);
    assert [] + (good + bad) == good + bad && [] + good == good && [] + bad == bad;
    assert [good, bad][1..] == [bad];
  }

  /** The frames delivered for a stream are the same for every chunking if and only if the stream meets no
      error, or no frame completes before the error. */
  lemma FramesIgnoreChunkingExactlyWhen(b: Bytes, max: nat)
    ensures (forall chunks | Join(chunks) == b :: FeedAll([], chunks, max).frames == FeedAll([], [b], max).frames)
        <==> Decode(b, max).error.None? || Decode(b, max).frames == []
  {
    var whole := Decode(b, max);
    assert [] + b == b;
    assert Join([b]) == b + [] == b;
    if whole.error.None? || whole.frames == [] {
      forall chunks | Join(chunks) == b
        ensures FeedAll([], chunks, max).frames == FeedAll([], [b], max).frames
      {
        ChunkingIrrelevant([], chunks, max);
        ChunkingIrrelevant([], [b], max);
      }
    } else {
      SplitAfterFirstFrame(b, max);
    }
  }

  /** A border after the first frame saves that frame from an error further on. */
  lemma SplitAfterFirstFrame(b: Bytes, max: nat)
    requires Decode(b, max).error.Some? && Decode(b, max).frames != []
    ensures exists chunks :: Join(chunks) == b && FeedAll([], chunks, max).frames != FeedAll([], [b], max).frames
  {
    hide Decode, FrameSize, DecodeHeader;
    DecodeCases(b, max);
    var n := FrameSize(b, max).value.value;
    FirstFrameAlone(b, max);
    TwoChunks(b[..n], b[n..], max);
    assert b[..n] + b[n..] == b && [] + b == b;
  }

  lemma TwoChunks(a: Bytes, b: Bytes, max: nat)
    requires Decode(a, max).error.None? && Decode(a, max).frames != []
    ensures Join([a, b]) == a + b && FeedAll([], [a, b], max).frames != []
  {
    assert [a, b][1..] == [b] && Join([b]) == b + [] == b;
    assert [] + a == a;
  }

  lemma FirstFrameAlone(b: Bytes, max: nat)
    requires FrameSize(b, max).Ok? && FrameSize(b, max).value.Some?
    ensures var n := FrameSize(b, max).value.value;
            n <= |b| && Decode(b[..n], max).error.None? && |Decode(b[..n], max).frames| == 1
  {
    var n := FrameSize(b, max).value.value;
    assert b[..n] + b[n..] == b;
    HeaderOfPrefix(b[..n], b[n..]);
    DecodeCases(b[..n], max);
    assert b[..n][n..] == [];
    DecodeCases([], max);
  }

  /** What stays buffered is always less than one whole frame of the largest size. */
  lemma {:induction false} ResidueIsBounded(b: Bytes, max: nat)
    ensures Decode(b, max).error.None? ==> |Decode(b, max).rest| < HEADER_SIZE + max
    decreases |b|
  {
    if |b| >= HEADER_SIZE && DecodeHeader(b).Ok? && DecodeHeader(b).value.payloadLength <= max {
      var total := HEADER_SIZE + DecodeHeader(b).value.payloadLength;
      if |b| >= total { ResidueIsBounded(b[total..], max); }
    }
  }

  // ---------------------------------------------------------------- the round trip

  function HeaderOf(o: Outgoing): Header {
    Header(o.version, o.frameType, FormatUuid(IdBytes(o.id)), |o.payload|, o.flags)
  }

  function Received(o: Outgoing): DecodedFrame {
    DecodedFrame(HeaderOf(o), o.payload)
  }

  lemma HeadParts(o: Outgoing, tail: Bytes)
    requires InRange(o)
    ensures var b := Head(o) + tail;
            && |b| >= HEADER_SIZE && b[..4] == MAGIC && b[4..6] == U16(o.version) && b[6..8] == U16(o.frameType)
            && b[8..24] == IdBytes(o.id) && b[24..28] == U32(|o.payload|) && b[28..32] == U32(o.flags)
  {
  }

  lemma HeadDecodes(o: Outgoing, tail: Bytes)
    requires InRange(o)
    ensures DecodeHeader(Head(o) + tail) == Ok(HeaderOf(o))
  {
    HeadParts(o, tail);
    var b := Head(o) + tail;
    hide Head, U16, U32, ReadU16, ReadU32, IdBytes, FormatUuid;
    ReadsBackU16(o.version, b, 4);
    ReadsBackU16(o.frameType, b, 6);
    ReadsBackU32(|o.payload|, b, 24);
    ReadsBackU32(o.flags, b, 28);
    assert b[0] == b[..4][0] && b[1] == b[..4][1] && b[2] == b[..4][2] && b[3] == b[..4][3];
  }

  function EncodeAll(os: seq<Outgoing>): Bytes
    requires forall o | o in os :: InRange(o)
  {
    if os == [] then []
    else
      assert os[0] in os;
      Head(os[0]) + os[0].payload + EncodeAll(os[1..])
  }

  function ReceivedAll(os: seq<Outgoing>): seq<DecodedFrame> {
    if os == [] then [] else [Received(os[0])] + ReceivedAll(os[1..])
  }

  lemma {:induction false} EncodedDecodes(os: seq<Outgoing>, max: nat)
    requires forall o | o in os :: InRange(o) && |o.payload| <= max
    ensures Decode(EncodeAll(os), max) == Decoding(ReceivedAll(os), [], None)
  {
    if os != [] {
      var o := os[0];
      assert o in os && forall x | x in os[1..] :: x in os;
      EncodedDecodes(os[1..], max);
      var b := EncodeAll(os);
      Associate(Head(o), o.payload, EncodeAll(os[1..]));
      HeadDecodes(o, o.payload + EncodeAll(os[1..]));
      var total := HEADER_SIZE + |o.payload|;
      assert b[total..] == EncodeAll(os[1..]) && b[HEADER_SIZE..total] == o.payload;
      DecodeCases(b, max);
    }
  }

  /** Round trip over any chunking: exactly the frames sent, in order, and nothing left over. */
  lemma FramesRoundTrip(os: seq<Outgoing>, chunks: seq<Bytes>, max: nat)
    requires forall o | o in os :: InRange(o) && |o.payload| <= max
    requires Join(chunks) == EncodeAll(os)
    ensures FeedAll([], chunks, max) == Decoding(ReceivedAll(os), [], None)
  {
    EncodedDecodes(os, max);
    assert [] + Join(chunks) == Join(chunks);
    ChunkingIrrelevant([], chunks, max);
  }

  /** A canonical lower-case UUID arrives as it was sent. */
  lemma IdentifierArrives(o: Outgoing, b: Bytes)
    requires |b| == 16 && o.id == FormatUuid(b)
    ensures HeaderOf(o).requestId == o.id
  {
    UuidRoundTrip(b);
  }

  /** An identifier arrives unchanged exactly when it is the text form of some sixteen bytes. */
  lemma OnlyCanonicalIdentifiersArrive(o: Outgoing)
    ensures HeaderOf(o).requestId == o.id <==> exists b: Bytes :: |b| == 16 && o.id == FormatUuid(b)
  {
    if b: Bytes :| |b| == 16 && o.id == FormatUuid(b) {
      IdentifierArrives(o, b);
    }
  }

  /** The magic is accepted if and only if the four bytes agree with it modulo 128, and the frames of a
      buffer so accepted are those of the buffer that starts with the magic itself. */
  lemma MagicIsReadModulo128(b: Bytes, max: nat)
    requires |b| >= HEADER_SIZE
    ensures DecodeHeader(b) != Err(InvalidMagic) <==> forall i | 0 <= i < 4 :: b[i] % 128 == MAGIC[i] % 128
    ensures DecodeHeader(b).Ok? ==>
              var d, marked := Decode(b, max), Decode(MAGIC + b[4..], max);
              d.frames == marked.frames && d.error == marked.error
  {
    assert MagicMatches(MAGIC + b[4..]);
    assert MagicMatches(b) <==> forall i | 0 <= i < 4 :: b[i] % 128 == MAGIC[i] % 128;
    if DecodeHeader(b).Ok? { MagicAloneDiffers(b, MAGIC + b[4..], max); }
  }

  lemma HeadersAgree(a: Bytes, b: Bytes)
    requires |a| == |b| >= HEADER_SIZE && MagicMatches(a) && MagicMatches(b) && a[4..] == b[4..]
    ensures DecodeHeader(a) == DecodeHeader(b)
  {
    hide FormatUuid, MagicMatches;
    assert forall i | 4 <= i < |a| :: a[i] == a[4..][i - 4] && b[i] == b[4..][i - 4];
    SlicesAgree(a, b, 8, 24);
  }

  lemma SlicesAgree(a: Bytes, b: Bytes, i: nat, j: nat)
    requires |a| == |b| && 4 <= i <= j <= |a| && a[4..] == b[4..]
    ensures a[i..j] == b[i..j] && a[j..] == b[j..]
  {
    forall k | 4 <= k < |a| ensures a[k] == b[k] { assert a[4..][k - 4] == b[4..][k - 4]; }
  }

  lemma MagicAloneDiffers(a: Bytes, b: Bytes, max: nat)
    requires |a| == |b| >= HEADER_SIZE && MagicMatches(a) && MagicMatches(b) && a[4..] == b[4..]
    ensures Decode(a, max).frames == Decode(b, max).frames && Decode(a, max).error == Decode(b, max).error
  {
    hide Decode, DecodeHeader, MagicMatches;
    HeadersAgree(a, b);
    DecodeCases(a, max);
    DecodeCases(b, max);
    var size := FrameSize(a, max);
    assert FrameSize(b, max) == size;
    if size.Ok? && size.value.Some? {
      var n := size.value.value;
      SlicesAgree(a, b, HEADER_SIZE, n);
    }
  }
}
