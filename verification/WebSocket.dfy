/** WebSocket framing: the masked text frame the client sends and the incremental decoder of what it receives
    (sections 5.2 and 5.3 of RFC 6455). JSON decoding of a text payload is not part of this model. */
module WebSocket {
  import opened Sequences
  import opened Wrappers

  type Bytes = seq<bv8>

  const TEXT: bv8 := 0x1
  const CLOSE: bv8 := 0x8

  // ---- byte arithmetic ----

  /** `struct.unpack` of a big-endian unsigned integer. */
  function FromBigEndian(s: Bytes): nat {
    if |s| == 0 then 0 else FromBigEndian(s[..|s| - 1]) * 256 + s[|s| - 1] as nat
  }

  /** `struct.pack` into `width` big-endian bytes. */
  function ToBigEndian(n: nat, width: nat): Bytes {
    if width == 0 then [] else ToBigEndian(n / 256, width - 1) + [(n % 256) as bv8]
  }

  function Pow256(width: nat): nat {
    if width == 0 then 1 else 256 * Pow256(width - 1)
  }

  lemma ByteValue(n: nat)
    requires n < 256
    ensures (n as bv8) as nat == n
  {
    var wide := n as bv16;
    assert wide as nat == n;
  }

  lemma ShiftBound(n: nat, width: nat)
    requires width > 0 && n < Pow256(width)
    ensures n / 256 < Pow256(width - 1)
  {
  }

  lemma {:induction false} BigEndianRoundTrip(n: nat, width: nat)
    requires n < Pow256(width)
    ensures |ToBigEndian(n, width)| == width
    ensures FromBigEndian(ToBigEndian(n, width)) == n
  {
    if width > 0 {
      ShiftBound(n, width);
      BigEndianRoundTrip(n / 256, width - 1);
      var high, low := ToBigEndian(n / 256, width - 1), (n % 256) as bv8;
      assert (high + [low])[..width - 1] == high;
      ByteValue(n % 256);
    }
  }

  /** Network byte order written from the front: the most significant byte first. */
  function Network(n: nat, width: nat): Bytes
    requires n < Pow256(width)
  {
    if width == 0 then [] else
    FrontByte(n, width);
    [(n / Pow256(width - 1)) as bv8] + Network(n % Pow256(width - 1), width - 1)
  }

  lemma FrontByte(n: nat, width: nat)
    requires width > 0 && n < Pow256(width)
    ensures Pow256(width - 1) > 0 && n / Pow256(width - 1) < 256 && n % Pow256(width - 1) < Pow256(width - 1)
  {
    PowPositive(width - 1);
    DivBound(n, Pow256(width - 1));
  }

  lemma {:induction false} PowPositive(width: nat)
    ensures Pow256(width) > 0
    decreases width
  {
    if width > 0 {
      PowPositive(width - 1);
    }
  }

  lemma DivBound(n: nat, p: nat)
    requires 0 < p && n < 256 * p
    ensures n / p < 256
  {
    DivParts(n, p);
    LessByFactor(n / p, 256, p);
  }

  lemma DivParts(n: nat, p: nat)
    requires 0 < p
    ensures (n / p) * p + n % p == n
  {}

  lemma LessByFactor(q: nat, a: nat, p: nat)
    requires q * p < a * p
    ensures q < a
  {}

  lemma {:induction false} FrontOfNumber(b: bv8, s: Bytes)
    ensures FromBigEndian([b] + s) == b as nat * Pow256(|s|) + FromBigEndian(s)
    decreases |s|
  {
    var all := [b] + s;
    if s == [] {
      assert all[..0] == [] && FromBigEndian(all[..0]) == 0;
    } else {
      assert all[..|all| - 1] == [b] + s[..|s| - 1];
      FrontOfNumber(b, s[..|s| - 1]);
      MoveFactor(b as nat, Pow256(|s| - 1));
    }
  }

  lemma MoveFactor(b: nat, p: nat)
    ensures (b * p) * 256 == b * (256 * p)
  {}

  lemma FrontRead(q: nat, r: nat, p: nat, rest: Bytes)
    requires q < 256 && FromBigEndian(rest) == r && Pow256(|rest|) == p
    ensures FromBigEndian([q as bv8] + rest) == q * p + r
  {
    ByteValue(q);
    FrontOfNumber(q as bv8, rest);
  }

  lemma NetworkParts(n: nat, width: nat) returns (q: nat, r: nat, p: nat)
    requires width > 0 && n < Pow256(width)
    ensures q < 256 && p == Pow256(width - 1) && r < p && q * p + r == n
    ensures Network(n, width) == [q as bv8] + Network(r, width - 1)
  {
    FrontByte(n, width);
    p := Pow256(width - 1);
    q, r := n / p, n % p;
    DivParts(n, p);
  }

  /** The decoder's number is the one in network byte order. */
  lemma {:induction false} NetworkRead(n: nat, width: nat)
    requires n < Pow256(width)
    ensures |Network(n, width)| == width && FromBigEndian(Network(n, width)) == n
    decreases width
  {
    if width > 0 {
      var q, r, p := NetworkParts(n, width);
      NetworkRead(r, width - 1);
      FrontRead(q, r, p, Network(r, width - 1));
    }
  }

  /** Masking is its own inverse. */
  function Masked(payload: Bytes, mask: Bytes): Bytes
    requires |mask| == 4
  {
    seq(|payload|, i requires 0 <= i < |payload| => payload[i] ^ mask[i % 4])
  }

  lemma MaskTwice(payload: Bytes, mask: Bytes)
    requires |mask| == 4
    ensures Masked(Masked(payload, mask), mask) == payload
  {
    forall i | 0 <= i < |payload| ensures (payload[i] ^ mask[i % 4]) ^ mask[i % 4] == payload[i] {
      XorTwice(payload[i], mask[i % 4]);
    }
  }

  lemma XorTwice(a: bv8, m: bv8)
    ensures (a ^ m) ^ m == a
  {
  }

  // ---- the frames ----

  /** The length part of the header: 7 bits, or 126 and 2 bytes, or 127 and 8 bytes. */
  function LengthField(n: nat): Bytes
    requires n < Pow256(8)
  {
    if n < 126 then [0x80 | (n as bv8)]
    else if n < 65536 then [0x80 | 126] + ToBigEndian(n, 2)
    else [0x80 | 127] + ToBigEndian(n, 8)
  }

  /** `_ws_mask_frame` for a given random mask. */
  function MaskFrame(payload: Bytes, mask: Bytes): Bytes
    requires |mask| == 4 && |payload| < Pow256(8)
  {
    [0x81] + LengthField(|payload|) + mask + Masked(payload, mask)
  }

  /** What the decoder reads off a frame's first bytes: opcode, mask flag, payload length, offset after the length. */
  datatype Header = Header(opcode: bv8, masked: bool, n: nat, off: nat)

  function Code(b: bv8): nat {
    (b & 0x7F) as nat
  }

  function ParseHeader(buf: Bytes): (h: Option<Header>)
    ensures h.Some? ==> 2 <= h.value.off <= |buf|
  {
    if |buf| < 2 then None
    else
      var opcode := buf[0] & 0x0F;
      var masked := buf[1] & 0x80 != 0;
      var code := Code(buf[1]);
      if code < 126 then Some(Header(opcode, masked, code, 2))
      else if code == 126 && |buf| >= 4 then Some(Header(opcode, masked, FromBigEndian(buf[2..4]), 4))
      else if code == 127 && |buf| >= 10 then Some(Header(opcode, masked, FromBigEndian(buf[2..10]), 10))
      else None
  }

  datatype Parsed = Incomplete | Frame(opcode: bv8, payload: Bytes, size: nat)

  /** The payload under its mask, which is empty on an unmasked frame. */
  function Unmasked(mask: Bytes, body: Bytes): Bytes
    requires |mask| == 0 || |mask| == 4
  {
    if |mask| == 0 then body else Masked(body, mask)
  }

  /** The frame a header announces, if all of it has arrived. */
  function FrameAt(buf: Bytes, h: Header): (f: Parsed)
    requires 2 <= h.off <= |buf|
    ensures f.Frame? ==> 2 <= f.size <= |buf|
  {
    var start := h.off + if h.masked then 4 else 0;
    if |buf| < start + h.n then Incomplete
    else Frame(h.opcode, Unmasked(buf[h.off..start], buf[start..start + h.n]), start + h.n)
  }

  /** One look of the decoder at its buffer: the first frame, if all of it has arrived. */
  function ParseFrame(buf: Bytes): (f: Parsed)
    ensures f.Frame? ==> 2 <= f.size <= |buf|
  {
    var header := ParseHeader(buf);
    if header.None? then Incomplete else FrameAt(buf, header.value)
  }

  lemma HeaderIgnoresRest(buf: Bytes, more: Bytes)
    requires ParseHeader(buf).Some?
    ensures ParseHeader(buf + more) == ParseHeader(buf)
  {
    var all := buf + more;
    if Code(buf[1]) == 126 {
      assert all[2..4] == buf[2..4];
    } else if Code(buf[1]) == 127 {
      assert all[2..10] == buf[2..10];
    }
  }

  /** A complete frame stays what it is, whatever arrives after it. */
  lemma ParseIgnoresRest(buf: Bytes, more: Bytes)
    requires ParseFrame(buf).Frame?
    ensures ParseFrame(buf + more) == ParseFrame(buf)
  {
    HeaderIgnoresRest(buf, more);
    FrameIgnoresRest(buf, more, ParseHeader(buf).value);
  }

  lemma SliceIgnoresRest(buf: Bytes, more: Bytes, i: nat, j: nat)
    requires i <= j <= |buf|
    ensures (buf + more)[i..j] == buf[i..j]
  {}

  lemma FrameIgnoresRest(buf: Bytes, more: Bytes, h: Header)
    requires 2 <= h.off <= |buf| && FrameAt(buf, h).Frame?
    ensures FrameAt(buf + more, h) == FrameAt(buf, h)
  {
    var start := h.off + if h.masked then 4 else 0;
    SliceIgnoresRest(buf, more, h.off, start);
    SliceIgnoresRest(buf, more, start, start + h.n);
  }

  lemma LengthBits(b: bv8)
    requires b < 128
    ensures (0x80 | b) & 0x7F == b && (0x80 | b) & 0x80 != 0
  {
  }

  lemma LengthCode(n: nat)
    requires n < 128
    ensures Code(0x80 | (n as bv8)) == n && (0x80 | (n as bv8)) & 0x80 != 0
  {
    ByteValue(n);
    SmallByte(n as bv8);
    LengthBits(n as bv8);
  }

  lemma SmallByte(b: bv8)
    requires b as nat < 128
    ensures b < 128
  {
  }

  /** The decoder reads back the length the encoder wrote, in each of the three encodings. */
  lemma HeaderRoundTrip(n: nat, rest: Bytes)
    requires n < Pow256(8)
    ensures ParseHeader([0x81] + LengthField(n) + rest) == Some(Header(TEXT, true, n, 1 + |LengthField(n)|))
  {
    var buf := [0x81] + LengthField(n) + rest;
    assert buf[0] == 0x81 && buf[1] == LengthField(n)[0];
    if n < 126 {
      LengthCode(n);
    } else if n < 65536 {
      LengthCode(126);
      assert Pow256(2) == 65536;
      BigEndianRoundTrip(n, 2);
      assert buf[2..4] == ToBigEndian(n, 2);
    } else {
      LengthCode(127);
      BigEndianRoundTrip(n, 8);
      assert buf[2..10] == ToBigEndian(n, 8);
    }
  }

  /** Round trip: whatever follows it, an encoded frame decodes to its payload and exactly its own bytes. */
  lemma MaskFrameRoundTrip(payload: Bytes, mask: Bytes, rest: Bytes)
    requires |mask| == 4 && |payload| < Pow256(8)
    ensures ParseFrame(MaskFrame(payload, mask) + rest) == Frame(TEXT, payload, |MaskFrame(payload, mask)|)
    ensures (MaskFrame(payload, mask) + rest)[|MaskFrame(payload, mask)|..] == rest
  {
    WholeFrame(payload, mask);
    ParseIgnoresRest(MaskFrame(payload, mask), rest);
  }

  /** Where the three parts of an encoded frame lie. */
  lemma FrameParts(head: Bytes, mask: Bytes, body: Bytes)
    requires |mask| == 4
    ensures var frame := head + (mask + body); var off := |head|;
      frame[off..off + 4] == mask && frame[off + 4..off + 4 + |body|] == body && |frame| == off + 4 + |body|
  {}

  lemma MaskedFrameAt(frame: Bytes, h: Header, mask: Bytes, body: Bytes)
    requires 2 <= h.off && h.masked && |frame| == h.off + 4 + h.n
    requires frame[h.off..h.off + 4] == mask && frame[h.off + 4..h.off + 4 + h.n] == body
    ensures FrameAt(frame, h) == Frame(h.opcode, Masked(body, mask), |frame|)
  {
    var start := h.off + if h.masked then 4 else 0;
    assert start == h.off + 4;
  }

  lemma WholeFrame(payload: Bytes, mask: Bytes)
    requires |mask| == 4 && |payload| < Pow256(8)
    ensures ParseFrame(MaskFrame(payload, mask)) == Frame(TEXT, payload, |MaskFrame(payload, mask)|)
  {
    var head, body := [0x81] + LengthField(|payload|), Masked(payload, mask);
    MaskTwice(payload, mask);
    HeaderRoundTrip(|payload|, mask + body);
    ConcatAssoc(head, mask, body);
    FrameParts(head, mask, body);
    MaskedFrameAt(head + (mask + body), Header(TEXT, true, |payload|, |head|), mask, body);
  }

  // ---- frames of a server ----

  /** A frame as a server sends it, complete and never masked (section 5.2 of RFC 6455). */
  function ServerFrame(opcode: bv8, payload: Bytes): Bytes
    requires opcode < 16 && |payload| < Pow256(8)
  {
    ServerHeader(opcode, |payload|) + payload
  }

  function ServerHeader(opcode: bv8, n: nat): Bytes
    requires n < Pow256(8)
  {
    [0x80 | opcode]
    + if n < 126 then [n as bv8]
      else if n < 65536 then TwoBytes(); [126] + Network(n, 2)
      else [127] + Network(n, 8)
  }

  lemma TwoBytes()
    ensures Pow256(2) == 65536
  {}

  lemma OpcodeBits(opcode: bv8)
    requires opcode < 16
    ensures (0x80 | opcode) & 0x0F == opcode
  {}

  lemma PlainBits(b: bv8)
    requires b < 128
    ensures b & 0x7F == b && b & 0x80 == 0
  {}

  lemma PlainCode(n: nat)
    requires n < 128
    ensures Code(n as bv8) == n && (n as bv8) & 0x80 == 0
  {
    ByteValue(n);
    SmallByte(n as bv8);
    PlainBits(n as bv8);
  }

  lemma ShortHeaderRead(opcode: bv8, n: nat, payload: Bytes)
    requires opcode < 16 && n < 126
    ensures ParseHeader([0x80 | opcode] + [n as bv8] + payload) == Some(Header(opcode, false, n, 2))
  {
    OpcodeBits(opcode);
    PlainCode(n);
  }

  lemma LongHeaderRead(opcode: bv8, code: nat, width: nat, n: nat, payload: Bytes)
    requires opcode < 16 && n < Pow256(width) && ((code == 126 && width == 2) || (code == 127 && width == 8))
    ensures ParseHeader([0x80 | opcode] + ([code as bv8] + Network(n, width)) + payload)
            == Some(Header(opcode, false, n, 2 + width))
  {
    OpcodeBits(opcode);
    PlainCode(code);
    NetworkRead(n, width);
    var buf := [0x80 | opcode] + ([code as bv8] + Network(n, width)) + payload;
    assert buf[2..2 + width] == Network(n, width);
  }

  lemma ServerHeaderRead(opcode: bv8, n: nat, payload: Bytes)
    requires opcode < 16 && n < Pow256(8)
    ensures var head := ServerHeader(opcode, n);
      ParseHeader(head + payload) == Some(Header(opcode, false, n, |head|)) && |head| >= 2
  {
    if n < 126 {
      ShortHeaderRead(opcode, n, payload);
    } else if n < 65536 {
      TwoBytes();
      NetworkRead(n, 2);
      LongHeaderRead(opcode, 126, 2, n, payload);
    } else {
      NetworkRead(n, 8);
      LongHeaderRead(opcode, 127, 8, n, payload);
    }
  }

  lemma PlainFrameAt(head: Bytes, h: Header, payload: Bytes)
    requires 2 <= h.off == |head| && !h.masked && h.n == |payload|
    ensures FrameAt(head + payload, h) == Frame(h.opcode, payload, |head + payload|)
  {
    var buf := head + payload;
    assert buf[h.off..h.off] == [] && buf[h.off..h.off + h.n] == payload;
  }

  /** The counterpart of the masked round trip: whatever follows it, a server's frame of any opcode decodes to its
      payload as it is and exactly its own bytes. */
  lemma ServerFrameRead(opcode: bv8, payload: Bytes, rest: Bytes)
    requires opcode < 16 && |payload| < Pow256(8)
    ensures ParseFrame(ServerFrame(opcode, payload) + rest)
            == Frame(opcode, payload, |ServerFrame(opcode, payload)|)
    ensures (ServerFrame(opcode, payload) + rest)[|ServerFrame(opcode, payload)|..] == rest
  {
    var head := ServerHeader(opcode, |payload|);
    ServerHeaderRead(opcode, |payload|, payload);
    PlainFrameAt(head, Header(opcode, false, |payload|, |head|), payload);
    ParseIgnoresRest(ServerFrame(opcode, payload), rest);
  }

  /** What the client sends, byte by byte: a final text frame, its length in network order, the mask, and each byte of
      the payload under its byte of the mask. */
  lemma MaskFrameBytes(payload: Bytes, mask: Bytes, i: nat)
    requires |mask| == 4 && |payload| < Pow256(8) && i < |payload|
    ensures var frame, n := MaskFrame(payload, mask), |payload|;
      var off := if n < 126 then 2 else if n < 65536 then 4 else 10;
      && |frame| == off + 4 + n
      && frame[0] == 0x81 && frame[off..off + 4] == mask && frame[off + 4 + i] == payload[i] ^ mask[i % 4]
      && frame[1] == (if n < 126 then 0x80 | (n as bv8) else if n < 65536 then 0xFE else 0xFF)
      && FromBigEndian(frame[2..off]) == if n < 126 then 0 else n
  {
    var frame, n := MaskFrame(payload, mask), |payload|;
    TwoBytes();
    if n < 126 {
      assert frame[2..2] == [];
    } else if n < 65536 {
      BigEndianRoundTrip(n, 2);
      assert frame[2..4] == ToBigEndian(n, 2);
    } else {
      BigEndianRoundTrip(n, 8);
      assert frame[2..10] == ToBigEndian(n, 8);
    }
  }

  // ---- streams ----

  /** What a caller can observe of a byte stream: its text frames and close frames, in order. */
  datatype Item = Text(payload: Bytes) | Closed

  function ItemOf(opcode: bv8, payload: Bytes): seq<Item> {
    if opcode == CLOSE then [Closed] else if opcode == TEXT then [Text(payload)] else []
  }

  function Items(stream: Bytes): seq<Item>
    decreases |stream|
  {
    match ParseFrame(stream)
    case Incomplete => []
    case Frame(opcode, payload, size) => ItemOf(opcode, payload) + Items(stream[size..])
  }

  /** The bytes after the last complete frame. */
  function Leftover(stream: Bytes): Bytes
    decreases |stream|
  {
    match ParseFrame(stream)
    case Incomplete => stream
    case Frame(_, _, size) => Leftover(stream[size..])
  }

  function FrameCount(stream: Bytes): nat
    decreases |stream|
  {
    match ParseFrame(stream)
    case Incomplete => 0
    case Frame(_, _, size) => 1 + FrameCount(stream[size..])
  }

  /** Complete frames at the front of a stream keep their items, whatever bytes follow. */
  lemma {:induction false} ItemsConcat(a: Bytes, b: Bytes)
    requires Leftover(a) == []
    ensures Items(a + b) == Items(a) + Items(b) && Leftover(a + b) == Leftover(b)
    decreases |a|
  {
    match ParseFrame(a)
    case Incomplete =>
      assert a + b == b;
    case Frame(_, _, size) =>
      ParseIgnoresRest(a, b);
      assert (a + b)[size..] == a[size..] + b;
      ItemsConcat(a[size..], b);
  }

  function EncodeAll(payloads: seq<Bytes>, masks: seq<Bytes>): Bytes
    requires |masks| == |payloads|
    requires forall i :: 0 <= i < |payloads| ==> |masks[i]| == 4 && |payloads[i]| < Pow256(8)
  {
    if |payloads| == 0 then [] else MaskFrame(payloads[0], masks[0]) + EncodeAll(payloads[1..], masks[1..])
  }

  function Texts(payloads: seq<Bytes>): seq<Item> {
    if |payloads| == 0 then [] else [Text(payloads[0])] + Texts(payloads[1..])
  }

  lemma EncodedFront(payload: Bytes, mask: Bytes, rest: Bytes)
    requires |mask| == 4 && |payload| < Pow256(8)
    ensures Items(MaskFrame(payload, mask) + rest) == [Text(payload)] + Items(rest)
  {
    MaskFrameRoundTrip(payload, mask, rest);
  }

  /** A stream of encoded frames carries exactly the payloads, in order, and nothing else. */
  lemma {:induction false} EncodedItems(payloads: seq<Bytes>, masks: seq<Bytes>, rest: Bytes)
    requires |masks| == |payloads|
    requires forall i :: 0 <= i < |payloads| ==> |masks[i]| == 4 && |payloads[i]| < Pow256(8)
    ensures Items(EncodeAll(payloads, masks) + rest) == Texts(payloads) + Items(rest)
  {
    if |payloads| == 0 {
      assert EncodeAll(payloads, masks) + rest == rest;
    } else {
      EncodedItems(payloads[1..], masks[1..], rest);
      EncodedFirst(payloads, masks, rest);
    }
  }

  lemma EncodedFirst(payloads: seq<Bytes>, masks: seq<Bytes>, rest: Bytes)
    requires |masks| == |payloads| > 0
    requires forall i :: 0 <= i < |payloads| ==> |masks[i]| == 4 && |payloads[i]| < Pow256(8)
    requires Items(EncodeAll(payloads[1..], masks[1..]) + rest) == Texts(payloads[1..]) + Items(rest)
    ensures Items(EncodeAll(payloads, masks) + rest) == Texts(payloads) + Items(rest)
  {
    var tail := EncodeAll(payloads[1..], masks[1..]);
    ConcatAssoc(MaskFrame(payloads[0], masks[0]), tail, rest);
    EncodedFront(payloads[0], masks[0], tail + rest);
    ConcatAssoc([Text(payloads[0])], Texts(payloads[1..]), Items(rest));
  }

  /** What a server sends over a connection. */
  datatype Sent = Sent(opcode: bv8, payload: Bytes)

  predicate Sendable(frames: seq<Sent>) {
    forall i :: 0 <= i < |frames| ==> frames[i].opcode < 16 && |frames[i].payload| < Pow256(8)
  }

  function Serve(frames: seq<Sent>): Bytes
    requires Sendable(frames)
  {
    if frames == [] then [] else ServerFrame(frames[0].opcode, frames[0].payload) + Serve(frames[1..])
  }

  /** The texts a client is to get: the payloads of the text frames before the first close. */
  function Messages(frames: seq<Sent>): seq<Bytes> {
    if frames == [] || frames[0].opcode == 0x8 then []
    else (if frames[0].opcode == 0x1 then [frames[0].payload] else []) + Messages(frames[1..])
  }

  /** The text payloads before the first close. */
  function UpToClose(items: seq<Item>): seq<Bytes> {
    if |items| == 0 || items[0].Closed? then [] else [items[0].payload] + UpToClose(items[1..])
  }

  lemma ServedFront(frame: Sent, more: Bytes)
    requires frame.opcode < 16 && |frame.payload| < Pow256(8)
    ensures Items(ServerFrame(frame.opcode, frame.payload) + more)
            == (if frame.opcode == 0x8 then [Closed] else if frame.opcode == 0x1 then [Text(frame.payload)] else [])
               + Items(more)
  {
    ServerFrameRead(frame.opcode, frame.payload, more);
  }

  /** Read from a server's stream, up to a frame still incomplete, the texts are the ones to get. */
  lemma {:induction false} ServedTexts(frames: seq<Sent>, rest: Bytes)
    requires Sendable(frames) && ParseFrame(rest).Incomplete?
    ensures UpToClose(Items(Serve(frames) + rest)) == Messages(frames)
    decreases |frames|
  {
    if frames == [] {
      assert Serve(frames) + rest == rest;
    } else {
      var more := Serve(frames[1..]) + rest;
      ConcatAssoc(ServerFrame(frames[0].opcode, frames[0].payload), Serve(frames[1..]), rest);
      ServedFront(frames[0], more);
      ServedTexts(frames[1..], rest);
      TextsFront(frames[0], Items(more));
    }
  }

  lemma TextsFront(frame: Sent, items: seq<Item>)
    ensures UpToClose((if frame.opcode == 0x8 then [Closed]
                       else if frame.opcode == 0x1 then [Text(frame.payload)] else [])
                      + items)
            == if frame.opcode == 0x8 then []
               else (if frame.opcode == 0x1 then [frame.payload] else []) + UpToClose(items)
  {
    if frame.opcode == 0x8 {
      assert ([Closed] + items)[0] == Closed;
    } else if frame.opcode == 0x1 {
      assert ([Text(frame.payload)] + items)[1..] == items;
    } else {
      ConcatEmpty(items);
      ConcatEmpty(UpToClose(items));
    }
  }

  /** The stream is what a server sent, up to a frame still incomplete. */
  ghost predicate ServedBy(stream: Bytes, frames: seq<Sent>, rest: Bytes) {
    Sendable(frames) && ParseFrame(rest).Incomplete? && stream == Serve(frames) + rest
  }

  // ---- the receiver ----

  function Flat(chunks: seq<Bytes>): Bytes {
    if |chunks| == 0 then [] else chunks[0] + Flat(chunks[1..])
  }

  /** The chunks the socket is still going to hand out; an empty one is a timeout or a closed connection,
      and so is reading past the last one. */
  class Socket {
    var incoming: seq<Bytes>

    method Recv() returns (chunk: Bytes)
      modifies this
      ensures chunk + Flat(incoming) == Flat(old(incoming))
      ensures |old(incoming)| > 0 ==> chunk == old(incoming)[0] && incoming == old(incoming)[1..]
      ensures |old(incoming)| == 0 ==> chunk == [] && incoming == []
    {
      if |incoming| == 0 {
        return [];
      }
      chunk := incoming[0];
      incoming := incoming[1..];
    }
  }

  /** Every chunk still to come carries bytes. */
  predicate NoGap(chunks: seq<Bytes>) {
    forall i :: 0 <= i < |chunks| ==> chunks[i] != []
  }

  ghost predicate Suffix(before: Bytes, after: Bytes) {
    |after| <= |before| && before[|before| - |after|..] == after
  }

  /** Between the two streams lie complete frames carrying exactly `items`; no byte of an unfinished frame is lost. */
  ghost predicate Consumed(before: Bytes, items: seq<Item>, after: Bytes) {
    Items(before) == items + Items(after) && Leftover(before) == Leftover(after) && Suffix(before, after)
  }

  /** How many passes a receiver needs at most: one per frame and one per chunk. */
  function Work(buf: Bytes, chunks: seq<Bytes>): nat {
    FrameCount(buf + Flat(chunks)) + |chunks|
  }

  lemma ConsumedTrans(a: Bytes, b: Bytes, items: seq<Item>, c: Bytes)
    requires Consumed(a, [], b) && Consumed(b, items, c)
    ensures Consumed(a, items, c)
  {
    assert a[|a| - |c|..] == a[|a| - |b|..][|b| - |c|..];
  }

  /** Taking the first complete frame off the buffer takes it off the stream. */
  lemma FrontFrame(buf: Bytes, more: Bytes)
    requires ParseFrame(buf).Frame?
    ensures var f := ParseFrame(buf);
            && Consumed(buf + more, ItemOf(f.opcode, f.payload), buf[f.size..] + more)
            && FrameCount(buf + more) == 1 + FrameCount(buf[f.size..] + more)
  {
    var f := ParseFrame(buf);
    ParseIgnoresRest(buf, more);
    assert (buf + more)[f.size..] == buf[f.size..] + more;
  }

  /** A chunk moved from the wire to the buffer takes nothing off the stream. */
  lemma NothingTaken(stream: Bytes)
    ensures Consumed(stream, [], stream)
  {
    assert [] + Items(stream) == Items(stream);
    assert stream[0..] == stream;
  }

  /** How one pass of the receive loop ends. */
  datatype Pass = Again | Found(payload: Bytes) | SawClose | NoData

  function ItemsOf(p: Pass): seq<Item> {
    match p
    case Found(payload) => [Text(payload)]
    case SawClose => [Closed]
    case _ => []
  }

  /** The loop body: decode the first complete frame of the buffer, or read one more chunk into it. */
  method OnePass(sock: Socket, buf0: Bytes) returns (p: Pass, buf: Bytes)
    modifies sock
    ensures Consumed(buf0 + Flat(old(sock.incoming)), ItemsOf(p), buf + Flat(sock.incoming))
    ensures NoGap(old(sock.incoming)) ==> NoGap(sock.incoming)
    ensures Work(buf, sock.incoming) + (if p.Again? then 1 else 0) <= Work(buf0, old(sock.incoming))
    ensures p.NoData? && NoGap(old(sock.incoming)) ==> Items(buf0 + Flat(old(sock.incoming))) == []
  {
    var f := ParseFrame(buf0);
    if f.Frame? {
      FrontFrame(buf0, Flat(sock.incoming));
      buf := buf0[f.size..];
      p := if f.opcode == CLOSE then SawClose else if f.opcode == TEXT then Found(f.payload) else Again;
    } else {
      var more;
      more, buf := ReadMore(sock, buf0);
      p := if more then Again else NoData;
    }
  }

  /** Reads one chunk into the buffer; without one there is nothing to come, or a gap. */
  method ReadMore(sock: Socket, buf0: Bytes) returns (more: bool, buf: Bytes)
    modifies sock
    ensures buf + Flat(sock.incoming) == buf0 + Flat(old(sock.incoming))
    ensures Consumed(buf0 + Flat(old(sock.incoming)), [], buf + Flat(sock.incoming))
    ensures NoGap(old(sock.incoming)) ==> NoGap(sock.incoming)
    ensures |sock.incoming| + (if more then 1 else 0) <= |old(sock.incoming)|
    ensures !more && NoGap(old(sock.incoming)) ==> buf + Flat(sock.incoming) == buf0 && sock.incoming == []
  {
    var chunk := sock.Recv();
    ConcatAssoc(buf0, chunk, Flat(sock.incoming));
    NothingTaken((buf0 + chunk) + Flat(sock.incoming));
    more, buf := |chunk| > 0, buf0 + chunk;
  }

  /** `_ws_recv_json`: decode one text frame from the buffer and the socket, skipping other frames.
      `passes` is how often the loop head is reached before the deadline.

      Whatever the chunking, the stream (buffer and bytes still to come) loses a text result's frame, or a close,
      or nothing but skipped frames; with enough passes and no gap in the data the call fails only at a close
      or when no further item has arrived. */
  method RecvText(sock: Socket, buf0: Bytes, passes: nat) returns (text: Option<Bytes>, buf: Bytes)
    modifies sock
    ensures text.Some? ==> Consumed(buf0 + Flat(old(sock.incoming)), [Text(text.value)], buf + Flat(sock.incoming))
    ensures text.None? ==> Consumed(buf0 + Flat(old(sock.incoming)), [], buf + Flat(sock.incoming))
                           || Consumed(buf0 + Flat(old(sock.incoming)), [Closed], buf + Flat(sock.incoming))
    ensures NoGap(old(sock.incoming)) ==> NoGap(sock.incoming)
    ensures Work(buf, sock.incoming) <= Work(buf0, old(sock.incoming))
    ensures text.None? && NoGap(old(sock.incoming)) && passes > Work(buf0, old(sock.incoming)) ==>
              Items(buf0 + Flat(old(sock.incoming))) == []
              || Consumed(buf0 + Flat(old(sock.incoming)), [Closed], buf + Flat(sock.incoming))
    ensures forall frames, rest :: ServedBy(buf0 + Flat(old(sock.incoming)), frames, rest) ==>
              && (text.Some? ==> Messages(frames) != [] && text.value == Messages(frames)[0])
              && (text.None? && NoGap(old(sock.incoming)) && passes > Work(buf0, old(sock.incoming)) ==>
                    Messages(frames) == [])
  {
    ghost var stream := buf0 + Flat(sock.incoming);
    text, buf := RunPasses(sock, buf0, passes);
    ghost var left := buf + Flat(sock.incoming);
    forall frames, rest | ServedBy(stream, frames, rest)
      ensures text.Some? ==> Messages(frames) != [] && text.value == Messages(frames)[0]
      ensures text.None? && (Items(stream) == [] || Consumed(stream, [Closed], left)) ==> Messages(frames) == []
    {
      ServedTexts(frames, rest);
    }
  }

  /** The passes of one call. */
  method RunPasses(sock: Socket, buf0: Bytes, passes: nat) returns (text: Option<Bytes>, buf: Bytes)
    modifies sock
    ensures text.Some? ==> Consumed(buf0 + Flat(old(sock.incoming)), [Text(text.value)], buf + Flat(sock.incoming))
    ensures text.None? ==> Consumed(buf0 + Flat(old(sock.incoming)), [], buf + Flat(sock.incoming))
                           || Consumed(buf0 + Flat(old(sock.incoming)), [Closed], buf + Flat(sock.incoming))
    ensures NoGap(old(sock.incoming)) ==> NoGap(sock.incoming)
    ensures Work(buf, sock.incoming) <= Work(buf0, old(sock.incoming))
    ensures text.None? && NoGap(old(sock.incoming)) && passes > Work(buf0, old(sock.incoming)) ==>
              Items(buf0 + Flat(old(sock.incoming))) == []
              || Consumed(buf0 + Flat(old(sock.incoming)), [Closed], buf + Flat(sock.incoming))
  {
    text, buf := None, buf0;
    var left := passes;
    while left > 0
      invariant text == None && Consumed(buf0 + Flat(old(sock.incoming)), [], buf + Flat(sock.incoming))
      invariant NoGap(old(sock.incoming)) ==> NoGap(sock.incoming)
      invariant left <= passes && left + Work(buf0, old(sock.incoming)) >= passes + Work(buf, sock.incoming)
    {
      left := left - 1;
      ghost var stream := buf + Flat(sock.incoming);
      var p;
      p, buf := OnePass(sock, buf);
      ConsumedTrans(buf0 + Flat(old(sock.incoming)), stream, ItemsOf(p), buf + Flat(sock.incoming));
      match p {
        case Again =>
        case Found(payload) => return Some(payload), buf;
        case SawClose => return;
        case NoData => return;
      }
    }
  }

  /** Successive decodes over one connection, each starting from the buffer the last one returned, until one yields
      no text: however the stream was cut into chunks, the texts are its text frames in order, up to a close. */
  method Converse(sock: Socket, passes: nat) returns (texts: seq<Bytes>)
    requires NoGap(sock.incoming) && passes > Work([], sock.incoming)
    modifies sock
    ensures texts == UpToClose(Items(Flat(old(sock.incoming))))
    ensures forall frames, rest :: ServedBy(Flat(old(sock.incoming)), frames, rest) ==> texts == Messages(frames)
  {
    ghost var sent := Flat(sock.incoming);
    forall frames, rest | ServedBy(sent, frames, rest) ensures UpToClose(Items(sent)) == Messages(frames) {
      ServedTexts(frames, rest);
    }
    texts := [];
    var buf: Bytes := [];
    ghost var all := UpToClose(Items(Flat(sock.incoming)));
    ConcatEmpty(Flat(sock.incoming));
    ConcatEmpty(all);
    while true
      invariant NoGap(sock.incoming) && passes > Work(buf, sock.incoming)
      invariant all == texts + UpToClose(Items(buf + Flat(sock.incoming)))
      decreases |Items(buf + Flat(sock.incoming))|
    {
      ghost var stream := buf + Flat(sock.incoming);
      var text;
      text, buf := RecvText(sock, buf, passes);
      if text.None? {
        NoText(stream, buf + Flat(sock.incoming));
        ConcatEmpty(texts);
        return;
      }
      NextText(texts, stream, text.value, buf + Flat(sock.incoming));
      texts := texts + [text.value];
    }
  }

  lemma NextText(texts: seq<Bytes>, stream: Bytes, payload: Bytes, rest: Bytes)
    requires Consumed(stream, [Text(payload)], rest)
    ensures |Items(rest)| < |Items(stream)|
    ensures texts + UpToClose(Items(stream)) == (texts + [payload]) + UpToClose(Items(rest))
  {
    PrefixText(texts, payload, UpToClose(Items(rest)));
    assert Items(stream)[1..] == Items(rest);
  }

  lemma PrefixText(texts: seq<Bytes>, payload: Bytes, more: seq<Bytes>)
    ensures texts + ([payload] + more) == (texts + [payload]) + more
  {
    ConcatAssoc(texts, [payload], more);
  }

  lemma NoText(stream: Bytes, rest: Bytes)
    requires Items(stream) == [] || Consumed(stream, [Closed], rest)
    ensures UpToClose(Items(stream)) == []
  {}
}
