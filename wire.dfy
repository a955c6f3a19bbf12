/** Wire framing of one FlashStream packet: the one-byte message type tag,
    the big-endian 32-bit timestamp, the two-byte raw sub-code, and the
    span an AMF reader is given over an invocation payload.
    Tag values are the RTMP message type ids of section 7.1 of the Adobe
    RTMP Specification 1.0. */
module Wire {

  type UInt16 = bv16
  type UInt32 = bv32
  type UInt64 = bv64

  /** An IEEE-754 double (loss rate, correlation token) kept as its raw bits:
      the core only passes these values through. */
  datatype Double = Double(bits: bv64)

  const ZERO_RATE: Double := Double(0)

  const TYPE_EMPTY: bv8 := 0x00
  const TYPE_RAW: bv8 := 0x04
  const TYPE_AUDIO: bv8 := 0x08
  const TYPE_VIDEO: bv8 := 0x09
  const TYPE_DATA_AMF3: bv8 := 0x0F
  const TYPE_INVOCATION_AMF3: bv8 := 0x11
  const TYPE_DATA: bv8 := 0x12
  const TYPE_INVOCATION: bv8 := 0x14

  /** The low eight bits of a word. */
  function Low8(v: bv32): bv8
  {
    (v & 0xFF) as bv8
  }

  /** Big-endian value of two bytes. */
  function ReadU16(b: seq<bv8>): (v: UInt16)
    requires |b| == 2
    ensures Low8(v as bv32 >> 8) == b[0] && Low8(v as bv32) == b[1]
  {
    (b[0] as bv16 << 8) | b[1] as bv16
  }

  /** Big-endian value of four bytes. */
  function ReadU32(b: seq<bv8>): (v: UInt32)
    requires |b| == 4
    ensures Low8(v >> 24) == b[0] && Low8(v >> 16) == b[1]
    ensures Low8(v >> 8) == b[2] && Low8(v) == b[3]
  {
    (b[0] as bv32 << 24) | (b[1] as bv32 << 16) | (b[2] as bv32 << 8) | b[3] as bv32
  }

  function WriteU16(v: UInt16): (b: seq<bv8>)
    ensures |b| == 2 && ReadU16(b) == v
  {
    [Low8(v as bv32 >> 8), Low8(v as bv32)]
  }

  function WriteU32(v: UInt32): (b: seq<bv8>)
    ensures |b| == 4 && ReadU32(b) == v
  {
    [Low8(v >> 24), Low8(v >> 16), Low8(v >> 8), Low8(v)]
  }

  /** What the full-packet process reads before dispatching: the type tag,
      the timestamp and the rest of the packet. */
  datatype Header = Header(tag: bv8, time: UInt32, payload: seq<bv8>)

  function JoinHeader(h: Header): (packet: seq<bv8>)
    ensures |packet| == 5 + |h.payload|
  {
    [h.tag] + WriteU32(h.time) + h.payload
  }

  /** Splits a framed packet into tag, timestamp and payload. */
  function SplitHeader(packet: seq<bv8>): (h: Header)
    requires |packet| >= 5
    ensures JoinHeader(h) == packet
    ensures |h.payload| == |packet| - 5
  {
    var h := Header(packet[0], ReadU32(packet[1..5]), packet[5..]);
    WriteU32Inverse(packet[1..5]);
    assert JoinHeader(h) == [packet[0]] + packet[1..5] + packet[5..];
    h
  }

  /** Four bytes read as a timestamp and written back are the same bytes. */
  lemma WriteU32Inverse(b: seq<bv8>)
    requires |b| == 4
    ensures WriteU32(ReadU32(b)) == b
  {
  }

  /** Splitting an encoded header gives back the same tag, timestamp and payload. */
  lemma HeaderRoundTrip(h: Header)
    ensures SplitHeader(JoinHeader(h)) == h
  {
    var packet := JoinHeader(h);
    var s := SplitHeader(packet);
    assert packet[1..5] == WriteU32(h.time);
    assert packet[5..] == h.payload;
  }

  /** The RAW sub-code and what the raw handler is given. */
  datatype RawMessage = RawMessage(code: UInt16, rest: seq<bv8>)

  function SplitRaw(payload: seq<bv8>): (m: RawMessage)
    requires |payload| >= 2
    ensures WriteU16(m.code) + m.rest == payload
  {
    var m := RawMessage(ReadU16(payload[..2]), payload[2..]);
    assert WriteU16(m.code) == payload[..2];
    m
  }

  lemma RawRoundTrip(code: UInt16, rest: seq<bv8>)
    ensures SplitRaw(WriteU16(code) + rest) == RawMessage(code, rest)
  {
    var p := WriteU16(code) + rest;
    assert p[..2] == WriteU16(code);
    assert p[2..] == rest;
  }

  /** The marker bit of an invocation tag: `type & 1` is 1 for the AMF3
      variant (0x11) and 0 for the plain one (0x14). */
  function MarkerBit(tag: bv8): (n: nat)
    ensures n <= 1
    ensures n == 1 <==> tag & 1 == 1
    ensures tag == TYPE_INVOCATION_AMF3 ==> n == 1
    ensures tag == TYPE_INVOCATION ==> n == 0
  {
    if tag & 1 == 1 then 1 else 0
  }

  /** Span handed to the AMF reader for an invocation as the code computes it:
      the payload size minus `type & 1`, in unsigned 32-bit arithmetic. */
  function AmfSpanAsWritten(size: nat, tag: bv8): (span: nat)
    requires size < 0x1_0000_0000
    ensures span < 0x1_0000_0000
  {
    (size - MarkerBit(tag)) % 0x1_0000_0000
  }

  /** An AMF3 invocation whose payload is empty: the span wraps to 2^32 - 1
      while no byte follows the marker position. */
  lemma AmfSpanOverrunsEmptyPayload()
    ensures MarkerBit(TYPE_INVOCATION_AMF3) == 1 && MarkerBit(TYPE_INVOCATION) == 0
    ensures AmfSpanAsWritten(0, TYPE_INVOCATION_AMF3) == 0xFFFF_FFFF
  {
  }

  /** Number of marker bytes skipped before the AMF reader: one for the odd
      (AMF3) invocation tag, but never more bytes than there are. */
  function MarkerSkip(tag: bv8, payload: seq<bv8>): (n: nat)
    ensures n <= |payload| && n <= MarkerBit(tag)
    ensures |payload| > 0 ==> n == MarkerBit(tag)
  {
    if |payload| == 0 then 0 else MarkerBit(tag)
  }

  /** The bytes the AMF reader decodes for an invocation message. */
  function InvocationBody(tag: bv8, payload: seq<bv8>): (body: seq<bv8>)
    ensures |body| + MarkerSkip(tag, payload) == |payload|
    ensures payload == payload[..MarkerSkip(tag, payload)] + body
  {
    payload[MarkerSkip(tag, payload)..]
  }

  /** The clamped span never leaves the payload, and it is the span the code
      computes whenever a marker byte is present (or none is skipped). */
  lemma InvocationBodyAgreesWhenMarkerPresent(tag: bv8, payload: seq<bv8>)
    requires |payload| < 0x1_0000_0000
    requires |payload| >= 1 || tag & 1 == 0
    ensures |InvocationBody(tag, payload)| == AmfSpanAsWritten(|payload|, tag)
  {
  }
}
