/**
 The framing of the memcached binary protocol: a 24 byte header whose big-endian
 body length says how many bytes follow it.
 */
module Mcbp {

  type byte = b: int | 0 <= b < 256

  const HEADER_SIZE := 24

  const CLIENT_REQUEST: byte := 0x80
  const ALT_CLIENT_REQUEST: byte := 0x08
  const CLIENT_RESPONSE: byte := 0x81
  const ALT_CLIENT_RESPONSE: byte := 0x18
  const SERVER_REQUEST: byte := 0x82
  const SERVER_RESPONSE: byte := 0x83

  predicate IsRequestMagic(magic: byte) {
    magic in {CLIENT_REQUEST, ALT_CLIENT_REQUEST, SERVER_REQUEST}
  }

  predicate IsResponseMagic(magic: byte) {
    magic in {CLIENT_RESPONSE, ALT_CLIENT_RESPONSE, SERVER_RESPONSE}
  }

  predicate IsAlternativeEncoding(magic: byte) {
    magic in {ALT_CLIENT_REQUEST, ALT_CLIENT_RESPONSE}
  }

  function BodyLength(buffer: seq<byte>): nat
    requires |buffer| >= HEADER_SIZE
  {
    0x100_0000 * buffer[8] as int + 0x1_0000 * buffer[9] as int + 0x100 * buffer[10] as int + buffer[11] as int
  }

  function KeyLength(buffer: seq<byte>): nat
    requires |buffer| >= HEADER_SIZE
  {
    if IsAlternativeEncoding(buffer[0]) then buffer[3] else 0x100 * buffer[2] as int + buffer[3] as int
  }

  function FramingExtrasLength(buffer: seq<byte>): nat
    requires |buffer| >= HEADER_SIZE
  {
    if IsAlternativeEncoding(buffer[0]) then buffer[2] else 0
  }

  /** The magic is legal and the length fields fit in the body. */
  predicate ValidHeader(buffer: seq<byte>)
    requires |buffer| >= HEADER_SIZE
  {
    && (IsRequestMagic(buffer[0]) || IsResponseMagic(buffer[0]))
    && FramingExtrasLength(buffer) + buffer[4] + KeyLength(buffer) <= BodyLength(buffer)
  }

  function FrameSize(buffer: seq<byte>): (size: nat)
    requires |buffer| >= HEADER_SIZE
    ensures size >= HEADER_SIZE
  {
    HEADER_SIZE + BodyLength(buffer)
  }

  datatype Availability = Incomplete | Complete(size: nat) | Malformed

  /** What the head of a buffer holds. A frame is recognised from its header alone, so
      bytes that arrive later never change an answer other than Incomplete. */
  function NextFrame(buffer: seq<byte>): (a: Availability)
    ensures a.Complete? ==> HEADER_SIZE <= a.size <= |buffer|
  {
    if |buffer| < HEADER_SIZE then Incomplete
    else if !ValidHeader(buffer) then Malformed
    else if FrameSize(buffer) <= |buffer| then Complete(FrameSize(buffer))
    else Incomplete
  }

  lemma NextFrameIsStable(buffer: seq<byte>, more: seq<byte>)
    requires !NextFrame(buffer).Incomplete?
    ensures NextFrame(buffer + more) == NextFrame(buffer)
  {
  }

  // ---------------------------------------------------------------- packets

  /** A packet as whoever sends it sees it: the lengths of its parts, the fields the framing does
      not look at (datatype and status, opaque and CAS), and the body. */
  datatype Packet = Packet(magic: byte, opcode: byte, framing: nat, key: nat, extras: nat,
                           status: seq<byte>, ident: seq<byte>, body: seq<byte>)

  /** Every length fits its field. Only the alternative encoding has framing extras, and its key
      is at most 255 bytes long. */
  predicate Encodable(p: Packet) {
    && |p.status| == 3 && |p.ident| == 12 && p.extras < 0x100 && |p.body| < 0x1_0000_0000
    && if IsAlternativeEncoding(p.magic) then p.framing < 0x100 && p.key < 0x100
       else p.framing == 0 && p.key < 0x1_0000
  }

  /** The parts fit in the body. */
  predicate Sized(p: Packet) {
    p.framing + p.extras + p.key <= |p.body|
  }

  /** Network byte order: the most significant of `digits` bytes first. */
  function BigEndian(n: nat, digits: nat): (r: seq<byte>)
    ensures |r| == digits
  {
    if digits == 0 then [] else BigEndian(n / 0x100, digits - 1) + [n % 0x100]
  }

  function Encode(p: Packet): (r: seq<byte>)
    requires Encodable(p)
    ensures |r| == 24 + |p.body|
  {
    [p.magic, p.opcode]
    + (if IsAlternativeEncoding(p.magic) then [p.framing, p.key] else BigEndian(p.key, 2))
    + [p.extras] + p.status + BigEndian(|p.body|, 4) + p.ident + p.body
  }

  /** Requests and responses are told apart by their magic, and so are the two encodings. */
  lemma MagicsAreTold(m: byte)
    ensures !(IsRequestMagic(m) && IsResponseMagic(m))
    ensures IsAlternativeEncoding(m) ==> IsRequestMagic(m) || IsResponseMagic(m)
    ensures IsRequestMagic(m) <==> m == 0x80 || m == 0x82 || m == 0x08
    ensures IsResponseMagic(m) <==> m == 0x81 || m == 0x83 || m == 0x18
    ensures IsAlternativeEncoding(m) <==> m < 0x20 && (IsRequestMagic(m) || IsResponseMagic(m))
  {
  }

  lemma BigEndianOfTwo(n: nat)
    requires n < 0x1_0000
    ensures BigEndian(n, 2) == [n / 0x100, n % 0x100]
  {
    assert BigEndian(n, 2) == BigEndian(n / 0x100, 1) + [n % 0x100];
    assert BigEndian(n / 0x100, 1) == BigEndian(n / 0x100 / 0x100, 0) + [n / 0x100 % 0x100];
  }

  lemma BigEndianOfFour(n: nat)
    requires n < 0x1_0000_0000
    ensures BigEndian(n, 4) == [n / 0x100 / 0x100 / 0x100, n / 0x100 / 0x100 % 0x100, n / 0x100 % 0x100, n % 0x100]
  {
    var a := n / 0x100;
    var b := a / 0x100;
    assert BigEndian(n, 4) == BigEndian(a, 3) + [n % 0x100];
    assert BigEndian(a, 3) == BigEndian(b, 2) + [a % 0x100];
    BigEndianOfTwo(b);
  }

  /** The header of an encoded packet reads as it was written. */
  lemma HeaderReadsBack(p: Packet, more: seq<byte>)
    requires Encodable(p)
    ensures var buffer := Encode(p) + more;
            && buffer[0] == p.magic && buffer[1] == p.opcode && buffer[4] == p.extras
            && FramingExtrasLength(buffer) == p.framing && KeyLength(buffer) == p.key
            && BodyLength(buffer) == |p.body|
  {
    BigEndianOfFour(|p.body|);
    if !IsAlternativeEncoding(p.magic) {
      BigEndianOfTwo(p.key);
    }
  }

  /** Whoever receives a packet, whatever follows it, recognises it as a whole exactly if its magic
      is legal and its parts fit in its body; otherwise as malformed. */
  lemma EncodedIsFramed(p: Packet, more: seq<byte>)
    requires Encodable(p)
    ensures NextFrame(Encode(p) + more) ==
            if (IsRequestMagic(p.magic) || IsResponseMagic(p.magic)) && Sized(p) then Complete(24 + |p.body|)
            else Malformed
  {
    HeaderReadsBack(p, more);
    hide BodyLength, KeyLength, FramingExtrasLength, Encode;
  }

  /** And as incomplete until its last byte is there. */
  lemma CutIsIncomplete(p: Packet, n: nat)
    requires Encodable(p) && (IsRequestMagic(p.magic) || IsResponseMagic(p.magic)) && Sized(p)
    requires n < |Encode(p)|
    ensures NextFrame(Encode(p)[..n]) == Incomplete
  {
    if n >= HEADER_SIZE {
      HeaderReadsBack(p, []);
      assert Encode(p) + [] == Encode(p);
    }
  }

  // ---------------------------------------------------------------- streams of packets

  predicate Legal(p: Packet) {
    Encodable(p) && (IsRequestMagic(p.magic) || IsResponseMagic(p.magic)) && Sized(p)
  }

  predicate AllLegal(packets: seq<Packet>) {
    forall i :: 0 <= i < |packets| ==> Legal(packets[i])
  }

  function EncodeAll(packets: seq<Packet>): seq<byte>
    requires AllLegal(packets)
  {
    if packets == [] then [] else Encode(packets[0]) + EncodeAll(packets[1..])
  }

  lemma EncodeAllNext(packets: seq<Packet>, tail: seq<byte>)
    requires AllLegal(packets) && packets != []
    ensures AllLegal(packets[1..])
    ensures var s, p := EncodeAll(packets) + tail, packets[0];
            && NextFrame(s) == Complete(|Encode(p)|) && |Encode(p)| <= |s|
            && s[..|Encode(p)|] == Encode(p) && s[|Encode(p)|..] == EncodeAll(packets[1..]) + tail
  {
    hide NextFrame, Encode, Encodable, Sized;
    var first, rest := Encode(packets[0]), EncodeAll(packets[1..]);
    SplitAfter(first, rest, tail);
    EncodedIsFramed(packets[0], rest + tail);
  }

  lemma SplitAfter(a: seq<byte>, b: seq<byte>, c: seq<byte>)
    ensures (a + b) + c == a + (b + c) && (a + (b + c))[..|a|] == a && (a + (b + c))[|a|..] == b + c
  {
  }

  /** Each is one whole frame. */
  predicate Whole(frames: seq<seq<byte>>) {
    forall i :: 0 <= i < |frames| ==> NextFrame(frames[i]) == Complete(|frames[i]|)
  }

  function Concat(frames: seq<seq<byte>>): seq<byte> {
    if frames == [] then [] else frames[0] + Concat(frames[1..])
  }

  /** A stream of packets can be cut into whole frames in one way only: any frames it was cut into,
      with whatever is left over, are the first of its packets. */
  lemma {:induction false} CutIsUnique(frames: seq<seq<byte>>, rest: seq<byte>, packets: seq<Packet>)
    requires Whole(frames) && AllLegal(packets) && Concat(frames) + rest <= EncodeAll(packets)
    ensures |frames| <= |packets| && forall i :: 0 <= i < |frames| ==> frames[i] == Encode(packets[i])
    ensures rest <= EncodeAll(packets[|frames|..])
    decreases |frames|
  {
    hide NextFrame, Encode, Encodable, Sized;
    if frames == [] {
      assert packets[0..] == packets && Concat(frames) + rest == rest;
    } else {
      FirstCut(frames, rest, packets);
      CutIsUnique(frames[1..], rest, packets[1..]);
      assert packets[1..][|frames| - 1..] == packets[|frames|..];
      forall i | 0 < i < |frames| ensures frames[i] == Encode(packets[i]) {
        assert frames[1..][i - 1] == Encode(packets[1..][i - 1]);
      }
    }
  }

  lemma FirstCut(frames: seq<seq<byte>>, rest: seq<byte>, packets: seq<Packet>)
    requires Whole(frames) && AllLegal(packets) && Concat(frames) + rest <= EncodeAll(packets) && frames != []
    ensures packets != [] && frames[0] == Encode(packets[0])
    ensures Whole(frames[1..]) && AllLegal(packets[1..]) && Concat(frames[1..]) + rest <= EncodeAll(packets[1..])
  {
    assert |frames[0]| > 0;
    hide NextFrame, Encode, Legal;
    var all, frame := EncodeAll(packets), frames[0];
    SplitAfter(frame, Concat(frames[1..]), rest);
    assert all == frame + all[|frame|..];
    NextFrameIsStable(frame, all[|frame|..]);
    EncodeAllNext(packets, []);
    assert all + [] == all && EncodeAll(packets[1..]) + [] == EncodeAll(packets[1..]);
  }
}
