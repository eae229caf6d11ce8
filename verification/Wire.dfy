/** The byte format of a frame: the packed header of Message.hpp, the frame that
    a Message puts on the stream, and the decoder that a Session's read handlers
    perform on a stream, as one recursive function. */
module Wire {
  import opened Sequences

  type Byte = b: nat | b < 256
  type UInt16 = n: nat | n < 0x1_0000
  type UInt32 = n: nat | n < 0x1_0000_0000

  const INVALID: UInt16 := 0
  const DATA: UInt16 := 1
  const PING: UInt16 := 2
  const PONG: UInt16 := 3
  const LAST: UInt16 := 4

  const HEADER_SIZE := 12
  const SIZE_LIMIT := 0x1_0000_0000

  /** Header with its nested PayloadInfo, in declaration order. */
  datatype Header = Header(crc: UInt16, payloadCrc: UInt32, size: UInt32, kind: UInt16)

  /** What a message means to the application: its type and its payload. */
  datatype Frame = Frame(kind: UInt16, payload: seq<Byte>)

  // ----- fixed-width integers, least significant byte first

  function Encode16(n: UInt16): (bytes: seq<Byte>)
    ensures |bytes| == 2
  {
    [n % 256, n / 256]
  }

  function Encode32(n: UInt32): (bytes: seq<Byte>)
    ensures |bytes| == 4
  {
    [n % 256, n / 256 % 256, n / 65536 % 256, n / 16777216]
  }

  function Decode16(bytes: seq<Byte>): UInt16
    requires |bytes| == 2
  {
    var low: int, high: int := bytes[0], bytes[1];
    low + 256 * high
  }

  function Decode32(bytes: seq<Byte>): UInt32
    requires |bytes| == 4
  {
    var b0: int, b1: int, b2: int, b3: int := bytes[0], bytes[1], bytes[2], bytes[3];
    b0 + 256 * b1 + 65536 * b2 + 16777216 * b3
  }

  lemma Decode32Encode32(n: UInt32)
    ensures Decode32(Encode32(n)) == n
  {
    assert n / 256 == n / 65536 * 256 + n / 256 % 256;
    assert n / 65536 == n / 16777216 * 256 + n / 65536 % 256;
  }

  // ----- the packed header: 2 + 4 + 4 + 2 bytes

  function EncodeHeader(h: Header): (bytes: seq<Byte>)
    ensures |bytes| == HEADER_SIZE
  {
    Encode16(h.crc) + Encode32(h.payloadCrc) + Encode32(h.size) + Encode16(h.kind)
  }

  function DecodeHeader(bytes: seq<Byte>): Header
    requires |bytes| == HEADER_SIZE
  {
    Header(Decode16(bytes[0..2]), Decode32(bytes[2..6]), Decode32(bytes[6..10]), Decode16(bytes[10..12]))
  }

  lemma DecodeEncodeHeader(h: Header)
    ensures DecodeHeader(EncodeHeader(h)) == h
  {
    var bytes := EncodeHeader(h);
    assert bytes[0..2] == Encode16(h.crc);
    assert bytes[2..6] == Encode32(h.payloadCrc);
    assert bytes[6..10] == Encode32(h.size);
    assert bytes[10..12] == Encode16(h.kind);
    Decode32Encode32(h.payloadCrc);
    Decode32Encode32(h.size);
  }

  /** The value of bytes, least significant first. */
  function Little(bytes: seq<Byte>): nat {
    if bytes == [] then 0 else bytes[0] as int + 256 * Little(bytes[1..])
  }

  lemma {:induction false} LittleOfTwo(bytes: seq<Byte>)
    requires |bytes| == 2
    ensures Little(bytes) == bytes[0] as int + 256 * bytes[1] as int
  {
    var last := bytes[1..];
    assert last[0] == bytes[1] && last[1..] == [];
    assert Little(last) == bytes[1] as int;
  }

  lemma {:induction false} LittleOfFour(bytes: seq<Byte>)
    requires |bytes| == 4
    ensures Little(bytes) ==
      bytes[0] as int + 256 * bytes[1] as int + 65536 * bytes[2] as int + 16777216 * bytes[3] as int
  {
    LittleOfTwo(bytes[2..]);
    assert bytes[1..][1..] == bytes[2..];
    assert Little(bytes[1..]) == bytes[1] as int + 256 * Little(bytes[2..]);
  }

  /** The packed layout: each field at its place, in its width, least significant byte first. */
  lemma HeaderLayout(h: Header)
    ensures var bytes := EncodeHeader(h);
      && |bytes| == 12
      && Little(bytes[0..2]) == h.crc
      && Little(bytes[2..6]) == h.payloadCrc
      && Little(bytes[6..10]) == h.size
      && Little(bytes[10..12]) == h.kind
  {
    var bytes := EncodeHeader(h);
    assert bytes[0..2] == Encode16(h.crc) && bytes[10..12] == Encode16(h.kind);
    assert bytes[2..6] == Encode32(h.payloadCrc) && bytes[6..10] == Encode32(h.size);
    LittleOfTwo(Encode16(h.crc));
    LittleOfTwo(Encode16(h.kind));
    LittleOfFour(Encode32(h.payloadCrc));
    LittleOfFour(Encode32(h.size));
    Decode32Encode32(h.payloadCrc);
    Decode32Encode32(h.size);
  }

  // ----- frames

  /** The header a Message computes: both checksums are stubbed to 0 and the size
      is stored in 32 bits. */
  function HeaderOf(f: Frame): Header {
    Header(0, 0, |f.payload| % SIZE_LIMIT, f.kind)
  }

  function EncodeFrame(f: Frame): (bytes: seq<Byte>)
    ensures |bytes| == HEADER_SIZE + |f.payload|
  {
    EncodeHeader(HeaderOf(f)) + f.payload
  }

  /** What a message puts on the stream: no checksums, the length modulo 2^32, the type, and then
      the payload. */
  lemma FrameLayout(f: Frame)
    ensures var bytes := EncodeFrame(f);
      && |bytes| == 12 + |f.payload|
      && Little(bytes[0..2]) == 0 && Little(bytes[2..6]) == 0
      && Little(bytes[6..10]) == |f.payload| % 4294967296
      && Little(bytes[10..12]) == f.kind
      && bytes[12..] == f.payload
  {
    var bytes, head := EncodeFrame(f), EncodeHeader(HeaderOf(f));
    HeaderLayout(HeaderOf(f));
    assert bytes[0..2] == head[0..2] && bytes[2..6] == head[2..6];
    assert bytes[6..10] == head[6..10] && bytes[10..12] == head[10..12];
  }

  /** The types on the wire: Data is 1, Ping is 2, Pong is 3. */
  lemma TypesOnTheWire()
    ensures Little(EncodeFrame(Frame(DATA, []))[10..12]) == 1
    ensures Little(EncodeFrame(Frame(PING, []))[10..12]) == 2
    ensures Little(EncodeFrame(Frame(PONG, []))[10..12]) == 3
  {
    FrameLayout(Frame(DATA, []));
    FrameLayout(Frame(PING, []));
    FrameLayout(Frame(PONG, []));
  }

  function EncodeAll(fs: seq<Frame>): seq<Byte> {
    if fs == [] then [] else EncodeFrame(fs[0]) + EncodeAll(fs[1..])
  }

  predicate Fits(f: Frame) {
    |f.payload| < SIZE_LIMIT
  }

  predicate AllFit(fs: seq<Frame>) {
    forall f :: f in fs ==> Fits(f)
  }

  // ----- the decoder

  /** Where a reader stands when the bytes run out, or why it gave up. */
  datatype Stop =
    | AwaitHeader(got: seq<Byte>)
    | AwaitBody(head: seq<Byte>, got: seq<Byte>)
    | BadHeader
    | BadBody

  datatype Decoded = Decoded(frames: seq<Frame>, stop: Stop)

  function Prepend(fs: seq<Frame>, d: Decoded): Decoded {
    Decoded(fs + d.frames, d.stop)
  }

  /** The body check is made only on a body that has been read, so a frame
      that declares size 0 is never checked. */
  function Decode(stream: seq<Byte>): Decoded
    decreases |stream|
  {
    if |stream| < HEADER_SIZE then Decoded([], AwaitHeader(stream)) else
    var head := stream[..HEADER_SIZE];
    var h := DecodeHeader(head);
    var rest := stream[HEADER_SIZE..];
    if h.crc != 0 then Decoded([], BadHeader)
    else if h.size == 0 then Prepend([Frame(h.kind, [])], Decode(rest))
    else if |rest| < h.size then Decoded([], AwaitBody(head, rest))
    else if h.payloadCrc != 0 then Decoded([], BadBody)
    else Prepend([Frame(h.kind, rest[..h.size])], Decode(rest[h.size..]))
  }

  /** The stream ends exactly between two frames. */
  predicate Clean(stream: seq<Byte>, fs: seq<Frame>) {
    Decode(stream) == Decoded(fs, AwaitHeader([]))
  }

  /** One complete frame, as the two read handlers see it: a header that passes its
      check, and a body of the declared size that passes its own unless it is empty. */
  predicate Accepts(head: seq<Byte>, body: seq<Byte>) {
    && |head| == HEADER_SIZE
    && var h := DecodeHeader(head);
    && h.crc == 0
    && |body| == h.size
    && (h.size != 0 ==> h.payloadCrc == 0)
  }

  /** The decoder takes exactly one accepted frame off the front. */
  lemma {:induction false} DecodeNext(head: seq<Byte>, body: seq<Byte>, rest: seq<Byte>)
    requires Accepts(head, body)
    ensures Decode(head + body + rest) == Prepend([Frame(DecodeHeader(head).kind, body)], Decode(rest))
  {
    var stream := head + body + rest;
    assert stream[..HEADER_SIZE] == head;
    assert stream[HEADER_SIZE..] == body + rest;
    assert (body + rest)[..|body|] == body && (body + rest)[|body|..] == rest;
  }

  /** If the decoder gets past the first frame, that frame was accepted. */
  lemma FirstAccepted(stream: seq<Byte>) returns (head: seq<Byte>, body: seq<Byte>, rest: seq<Byte>)
    requires Decode(stream).frames != []
    ensures stream == head + body + rest && Accepts(head, body)
  {
    head := stream[..HEADER_SIZE];
    var h := DecodeHeader(head);
    body, rest := stream[HEADER_SIZE..][..h.size], stream[HEADER_SIZE..][h.size..];
  }

  predicate StartsWith(stream: seq<Byte>, head: seq<Byte>, body: seq<Byte>) {
    Accepts(head, body) && head + body <= stream
  }

  /** The decoder finds a frame exactly when the stream starts with an accepted one. */
  lemma {:induction false} TakesExactlyAccepted(stream: seq<Byte>)
    ensures Decode(stream).frames != [] <==> exists head, body :: StartsWith(stream, head, body)
  {
    if Decode(stream).frames != [] {
      var head, body, rest := FirstAccepted(stream);
      assert StartsWith(stream, head, body);
    }
    forall head, body | StartsWith(stream, head, body) ensures Decode(stream).frames != [] {
      var rest := stream[|head + body|..];
      assert stream == head + body + rest;
      DecodeNext(head, body, rest);
    }
  }

  /** Decoding resumes at a frame boundary. */
  lemma {:induction false} DecodeSplit(a: seq<Byte>, fs: seq<Frame>, b: seq<Byte>)
    requires Clean(a, fs)
    ensures Decode(a + b) == Prepend(fs, Decode(b))
    decreases |a|
  {
    if fs == [] {
      CleanNothing(a);
      assert a + b == b;
    } else {
      var head, body, rest := FirstAccepted(a);
      var first := [Frame(DecodeHeader(head).kind, body)];
      var later := Decode(rest).frames;
      assert fs == first + later && Clean(rest, later) by {
        DecodeNext(head, body, rest);
      }
      assert Decode(a + b) == Prepend(first, Decode(rest + b)) by {
        assert a + b == head + body + (rest + b);
        DecodeNext(head, body, rest + b);
      }
      DecodeSplit(rest, later, b);
      PrependPrepend(first, later, Decode(b));
    }
  }

  lemma PrependPrepend(fs: seq<Frame>, gs: seq<Frame>, d: Decoded)
    ensures Prepend(fs, Prepend(gs, d)) == Prepend(fs + gs, d)
  {
    assert fs + (gs + d.frames) == fs + gs + d.frames;
  }

  lemma CleanNothing(a: seq<Byte>)
    requires Clean(a, [])
    ensures a == []
  {
  }

  /** More input only extends the output, and a rejected stream stays rejected. */
  lemma {:induction false} DecodeMonotone(a: seq<Byte>, b: seq<Byte>)
    ensures Decode(a).frames <= Decode(a + b).frames
    ensures Decode(a).stop.BadHeader? || Decode(a).stop.BadBody? ==> Decode(a + b) == Decode(a)
    decreases |a|
  {
    if Decode(a).frames != [] {
      var head, body, rest := FirstAccepted(a);
      DecodeNext(head, body, rest);
      assert a + b == head + body + (rest + b);
      DecodeNext(head, body, rest + b);
      DecodeMonotone(rest, b);
    } else if |a| >= HEADER_SIZE {
      assert (a + b)[..HEADER_SIZE] == a[..HEADER_SIZE];
      assert (a + b)[HEADER_SIZE..] == a[HEADER_SIZE..] + b;
    }
  }

  lemma DecodeOne(head: seq<Byte>, body: seq<Byte>)
    requires Accepts(head, body)
    ensures Clean(head + body, [Frame(DecodeHeader(head).kind, body)])
  {
    DecodeNext(head, body, []);
    assert head + body + [] == head + body;
    assert Decode([]) == Decoded([], AwaitHeader([]));
  }

  /** A header and a body are read back as one frame exactly if they are accepted together. */
  lemma CleanIsAccepted(head: seq<Byte>, body: seq<Byte>, kind: UInt16)
    requires |head| == HEADER_SIZE
    ensures Clean(head + body, [Frame(kind, body)]) <==> Accepts(head, body) && DecodeHeader(head).kind == kind
  {
    if Clean(head + body, [Frame(kind, body)]) {
      var head', body', rest := FirstAccepted(head + body);
      DecodeNext(head', body', rest);
      assert head' == (head + body)[..HEADER_SIZE] == head;
      assert Decode(head + body).frames[0] == Frame(DecodeHeader(head).kind, body');
    }
    if Accepts(head, body) {
      DecodeOne(head, body);
    }
  }

  /** A reader that has finished some frames cleanly and accepts one more is
      again at a frame boundary. */
  lemma CleanExtends(done: seq<Byte>, fs: seq<Frame>, head: seq<Byte>, body: seq<Byte>)
    requires Clean(done, fs) && Accepts(head, body)
    ensures Clean(done + (head + body), fs + [Frame(DecodeHeader(head).kind, body)])
  {
    DecodeSplit(done, fs, head + body);
    DecodeOne(head, body);
  }

  // ----- the framing law

  lemma {:induction false} EncodeAllConcat(fs: seq<Frame>, gs: seq<Frame>)
    ensures EncodeAll(fs + gs) == EncodeAll(fs) + EncodeAll(gs)
  {
    if fs == [] {
      assert fs + gs == gs;
    } else {
      TailOfConcat(fs, gs);
      EncodeAllConcat(fs[1..], gs);
      Assoc(EncodeFrame(fs[0]), EncodeAll(fs[1..]), EncodeAll(gs));
    }
  }

  lemma {:induction false} EncodeAllAppend(fs: seq<Frame>, f: Frame)
    ensures EncodeAll(fs + [f]) == EncodeAll(fs) + EncodeFrame(f)
  {
    EncodeAllConcat(fs, [f]);
    assert EncodeAll([f]) == EncodeFrame(f);
  }

  /** What a reader makes of the first frame written, whatever follows it. */
  lemma {:induction false} DecodeFirst(f: Frame, rest: seq<Byte>)
    ensures Fits(f) ==> Decode(EncodeFrame(f) + rest) == Prepend([f], Decode(rest))
    ensures !Fits(f) ==> var d := Decode(EncodeFrame(f) + rest);
      d.frames != [] && |d.frames[0].payload| == |f.payload| % SIZE_LIMIT < |f.payload|
  {
    var stream := EncodeFrame(f) + rest;
    var head := EncodeHeader(HeaderOf(f));
    var n := |f.payload| % SIZE_LIMIT;
    assert stream[..HEADER_SIZE] == head;
    DecodeEncodeHeader(HeaderOf(f));
    assert stream[HEADER_SIZE..] == f.payload + rest;
    if Fits(f) {
      assert (f.payload + rest)[..n] == f.payload;
      assert (f.payload + rest)[n..] == rest;
    }
  }

  lemma {:induction false} CleanIffAllFit(fs: seq<Frame>)
    ensures Clean(EncodeAll(fs), fs) <==> AllFit(fs)
  {
    if fs == [] {
      assert Decode([]) == Decoded([], AwaitHeader([]));
    } else {
      var rest := EncodeAll(fs[1..]);
      DecodeFirst(fs[0], rest);
      CleanIffAllFit(fs[1..]);
      assert fs == [fs[0]] + fs[1..];
      if Fits(fs[0]) {
        assert Decode(EncodeAll(fs)).frames == [fs[0]] + Decode(rest).frames;
        assert Decode(EncodeAll(fs)).frames[1..] == Decode(rest).frames;
      }
    }
  }

  /** The framing law with its exact condition: a list of messages is read back with
      its types and payloads, leaving no byte over, if and only if every payload
      length fits the 32-bit size field. */
  lemma {:induction false} DecodeEncodeAll(fs: seq<Frame>)
    ensures Clean(EncodeAll(fs), fs) <==> forall f :: f in fs ==> |f.payload| < 4294967296
  {
    CleanIffAllFit(fs);
  }

  /** The concrete failing input: a payload of exactly 2^32 bytes announces size 0, so
      the reader sees an empty message and then takes the payload for further frames. */
  lemma {:induction false} OversizedPayloadIsLost(payload: seq<Byte>)
    requires |payload| == 4294967296
    ensures Decode(EncodeFrame(Frame(DATA, payload))) == Prepend([Frame(DATA, [])], Decode(payload))
    ensures !Clean(EncodeFrame(Frame(DATA, payload)), [Frame(DATA, payload)])
  {
    var f := Frame(DATA, payload);
    DecodeFirst(f, []);
    assert EncodeFrame(f) + [] == EncodeFrame(f);
    DecodeEncodeHeader(HeaderOf(f));
    assert EncodeFrame(f)[..HEADER_SIZE] == EncodeHeader(HeaderOf(f));
    assert EncodeFrame(f)[HEADER_SIZE..] == payload;
  }

  /** Every cut of a well-formed stream decodes to a prefix of its frames. */
  lemma {:induction false} DecodePrefixOfEncoding(bytes: seq<Byte>, fs: seq<Frame>)
    requires AllFit(fs) && bytes <= EncodeAll(fs)
    ensures Decode(bytes).frames <= fs
    ensures !Decode(bytes).stop.BadHeader? && !Decode(bytes).stop.BadBody?
  {
    DecodeEncodeAll(fs);
    var rest := EncodeAll(fs)[|bytes|..];
    assert bytes + rest == EncodeAll(fs);
    DecodeMonotone(bytes, rest);
  }
}
