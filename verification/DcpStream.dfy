/**
 * What a DCP proxy makes of the bytes that arrive on one of its two sides, as functions of
 * the whole byte stream.
 */
module DcpStream {
  import opened Mcbp
  import opened Wrappers

  const DCP_ADD_STREAM: byte := 0x51

  datatype Side = Producer | Consumer

  type Bytes = seq<byte>

  /** A packet filter returns the packet to send in place of the one it is shown, or nothing. */
  type Filter = (Side, Bytes) -> Bytes

  predicate IsAddStream(frame: Bytes) {
    |frame| >= HEADER_SIZE && frame[1] == DCP_ADD_STREAM
  }

  function Filtered(filter: Option<Filter>, side: Side, frame: Bytes): Bytes {
    if filter.None? then frame else filter.value(side, frame)
  }

  /** The bytes the other side gets: every complete frame but the ones about adding streams. */
  function Forwarded(filter: Option<Filter>, side: Side, s: Bytes): Bytes
    decreases |s|
  {
    match NextFrame(s)
    case Complete(size) =>
      var frame := Filtered(filter, side, s[..size]);
      (if IsAddStream(frame) then [] else frame) + Forwarded(filter, side, s[size..])
    case _ => []
  }

  /** How many streams were reported as added. */
  function Adds(filter: Option<Filter>, side: Side, s: Bytes): nat
    decreases |s|
  {
    match NextFrame(s)
    case Complete(size) =>
      (if IsAddStream(Filtered(filter, side, s[..size])) then 1 else 0) + Adds(filter, side, s[size..])
    case _ => 0
  }

  /** What is left after the last complete frame. */
  function Tail(s: Bytes): Bytes
    decreases |s|
  {
    match NextFrame(s)
    case Complete(size) => Tail(s[size..])
    case _ => s
  }

  /** No illegal header where a frame starts, and no add stream that is not a response. */
  predicate Clean(filter: Option<Filter>, side: Side, s: Bytes)
    decreases |s|
  {
    match NextFrame(s)
    case Complete(size) =>
      var frame := Filtered(filter, side, s[..size]);
      (IsAddStream(frame) ==> IsResponseMagic(frame[0])) && Clean(filter, side, s[size..])
    case Incomplete => true
    case Malformed => false
  }

  /** Bytes that arrive later continue what was left over. */
  lemma {:induction false} StreamAppend(filter: Option<Filter>, side: Side, s: Bytes, more: Bytes)
    requires Clean(filter, side, s)
    ensures Forwarded(filter, side, s + more) == Forwarded(filter, side, s) + Forwarded(filter, side, Tail(s) + more)
    ensures Adds(filter, side, s + more) == Adds(filter, side, s) + Adds(filter, side, Tail(s) + more)
    ensures Tail(s + more) == Tail(Tail(s) + more)
    ensures Clean(filter, side, s + more) <==> Clean(filter, side, Tail(s) + more)
    decreases |s|
  {
    hide NextFrame, IsAddStream, Filtered;
    match NextFrame(s)
    case Complete(size) =>
      NextFrameIsStable(s, more);
      assert (s + more)[..size] == s[..size] && (s + more)[size..] == s[size..] + more;
      StreamAppend(filter, side, s[size..], more);
      var frame := Filtered(filter, side, s[..size]);
      Associate(if IsAddStream(frame) then [] else frame, Forwarded(filter, side, s[size..]),
                Forwarded(filter, side, Tail(s[size..]) + more));
    case _ =>
  }

  lemma Associate(a: Bytes, b: Bytes, c: Bytes)
    ensures a + (b + c) == (a + b) + c
  {
  }

  /** What is wrong with the beginning of a stream is wrong with the stream. */
  lemma {:induction false} CleanPrefix(filter: Option<Filter>, side: Side, s: Bytes, whole: Bytes)
    requires s <= whole && Clean(filter, side, whole)
    ensures Clean(filter, side, s)
    decreases |s|
  {
    hide IsAddStream, Filtered;
    var more := whole[|s|..];
    assert whole == s + more;
    if !NextFrame(s).Incomplete? { NextFrameIsStable(s, more); }
    match NextFrame(s)
    case Complete(size) =>
      assert whole[..size] == s[..size];
      CleanPrefix(filter, side, s[size..], whole[size..]);
    case _ =>
  }

  /** Without a filter the bytes that are not forwarded are those of the add stream frames
      and the incomplete frame at the end, so a stream without the former is copied. */
  lemma {:induction false} NothingButAddStreamsIsLost(side: Side, s: Bytes)
    requires Clean(None, side, s)
    ensures |Forwarded(None, side, s)| + |Tail(s)| + HEADER_SIZE * Adds(None, side, s) <= |s|
    ensures Adds(None, side, s) == 0 ==> Forwarded(None, side, s) + Tail(s) == s
    decreases |s|
  {
    match NextFrame(s)
    case Complete(size) =>
      NothingButAddStreamsIsLost(side, s[size..]);
      assert s[..size] + s[size..] == s;
      assert s[..size] + (Forwarded(None, side, s[size..]) + Tail(s[size..])) ==
             s[..size] + Forwarded(None, side, s[size..]) + Tail(s[size..]);
    case _ =>
  }

  /** Both directions: copying the rest of a stream is what looking at each frame would do
      exactly if no add stream is in it. */
  lemma CopyIsExact(side: Side, s: Bytes)
    requires Clean(None, side, s)
    ensures Forwarded(None, side, s) + Tail(s) == s <==> Adds(None, side, s) == 0
  {
    NothingButAddStreamsIsLost(side, s);
  }

  function Identity(side: Side, frame: Bytes): Bytes {
    frame
  }

  /** A filter that returns what it was shown does not change what is forwarded. */
  lemma {:induction false} IdentityFilter(side: Side, s: Bytes)
    ensures Forwarded(Some(Identity), side, s) == Forwarded(None, side, s)
    ensures Adds(Some(Identity), side, s) == Adds(None, side, s)
    ensures Clean(Some(Identity), side, s) == Clean(None, side, s)
    decreases |s|
  {
    match NextFrame(s)
    case Complete(size) => IdentityFilter(side, s[size..]);
    case _ =>
  }

  // ---------------------------------------------------------------- streams of packets

  /** The packets but the ones about adding streams. */
  function Without(packets: seq<Packet>): (r: seq<Packet>)
    requires AllLegal(packets)
    ensures AllLegal(r)
  {
    if packets == [] then []
    else (if packets[0].opcode == 0x51 then [] else [packets[0]]) + Without(packets[1..])
  }

  function AddStreams(packets: seq<Packet>): nat {
    if packets == [] then 0 else (if packets[0].opcode == 0x51 then 1 else 0) + AddStreams(packets[1..])
  }

  predicate OnlyResponses(packets: seq<Packet>) {
    forall i :: 0 <= i < |packets| && packets[i].opcode == 0x51 ==> IsResponseMagic(packets[i].magic)
  }

  lemma OnlyResponsesNext(packets: seq<Packet>)
    requires packets != []
    ensures OnlyResponses(packets) <==>
            (packets[0].opcode == 0x51 ==> IsResponseMagic(packets[0].magic)) && OnlyResponses(packets[1..])
  {
    assert packets == [packets[0]] + packets[1..];
  }

  lemma EncodeAllAfter(p: Packet, packets: seq<Packet>)
    requires Legal(p) && AllLegal(packets)
    ensures AllLegal([p] + packets) && EncodeAll([p] + packets) == Encode(p) + EncodeAll(packets)
  {
    assert ([p] + packets)[1..] == packets;
  }

  lemma PacketIsAddStream(p: Packet)
    requires Legal(p)
    ensures IsAddStream(Encode(p)) <==> p.opcode == 0x51
    ensures Encode(p) != [] && Encode(p)[0] == p.magic
  {
    HeaderReadsBack(p, []);
    assert Encode(p) + [] == Encode(p);
  }

  lemma NextPacket(side: Side, s: Bytes, size: nat)
    requires NextFrame(s) == Complete(size) && 0 < size <= |s|
    ensures Forwarded(None, side, s) ==
            (if IsAddStream(s[..size]) then [] else s[..size]) + Forwarded(None, side, s[size..])
    ensures Adds(None, side, s) == (if IsAddStream(s[..size]) then 1 else 0) + Adds(None, side, s[size..])
    ensures Tail(s) == Tail(s[size..])
    ensures Clean(None, side, s) <==>
            (IsAddStream(s[..size]) ==> IsResponseMagic(s[0])) && Clean(None, side, s[size..])
  {
    hide NextFrame, IsAddStream;
  }

  /** Of a stream of packets all but those about adding streams are forwarded, as they are and in
      order. */
  lemma {:induction false} PacketsAreForwarded(side: Side, packets: seq<Packet>, tail: Bytes)
    requires AllLegal(packets)
    ensures Forwarded(None, side, EncodeAll(packets) + tail) ==
            EncodeAll(Without(packets)) + Forwarded(None, side, tail)
    ensures Adds(None, side, EncodeAll(packets) + tail) == AddStreams(packets) + Adds(None, side, tail)
    ensures Tail(EncodeAll(packets) + tail) == Tail(tail)
    ensures Clean(None, side, EncodeAll(packets) + tail) <==> OnlyResponses(packets) && Clean(None, side, tail)
    decreases |packets|
  {
    if packets == [] {
      assert EncodeAll(packets) + tail == tail && Without(packets) == [];
      assert EncodeAll(Without(packets)) + Forwarded(None, side, tail) == Forwarded(None, side, tail);
      assert AddStreams(packets) == 0 && OnlyResponses(packets);
    }
    hide NextFrame, Encode, OnlyResponses, Legal, EncodeAll, Forwarded, Adds, Tail, Clean, IsAddStream;
    if packets != [] {
      var p, rest := packets[0], packets[1..];
      EncodeAllNext(packets, tail);
      PacketIsAddStream(p);
      OnlyResponsesNext(packets);
      NextPacket(side, EncodeAll(packets) + tail, |Encode(p)|);
      PacketsAreForwarded(side, rest, tail);
      if p.opcode == 0x51 {
        assert Without(packets) == Without(rest);
      } else {
        EncodeAllAfter(p, Without(rest));
        Associate(Encode(p), EncodeAll(Without(rest)), Forwarded(None, side, tail));
      }
    }
  }

  /** What a filter makes of a stream of packets: it is shown each of them and the side it came
      from; what it returns is sent instead, unless that is about adding a stream; nothing is sent
      for nothing. */
  function Replaced(filter: Filter, side: Side, packets: seq<Packet>): Bytes
    requires AllLegal(packets)
  {
    if packets == [] then [] else
    var r := filter(side, Encode(packets[0]));
    (if |r| >= 24 && r[1] == 0x51 then [] else r) + Replaced(filter, side, packets[1..])
  }

  lemma {:induction false} PacketsAreFiltered(filter: Filter, side: Side, packets: seq<Packet>, tail: Bytes)
    requires AllLegal(packets)
    ensures Forwarded(Some(filter), side, EncodeAll(packets) + tail) ==
            Replaced(filter, side, packets) + Forwarded(Some(filter), side, tail)
    decreases |packets|
  {
    if packets == [] {
      assert EncodeAll(packets) + tail == tail;
      assert Replaced(filter, side, packets) == [];
      assert [] + Forwarded(Some(filter), side, tail) == Forwarded(Some(filter), side, tail);
    } else {
      EncodeAllNext(packets, tail);
      PacketsAreFiltered(filter, side, packets[1..], tail);
      hide NextFrame, Encode;
      var r := filter(side, Encode(packets[0]));
      Associate(if |r| >= 24 && r[1] == 0x51 then [] else r, Replaced(filter, side, packets[1..]),
                Forwarded(Some(filter), side, tail));
    }
  }
}
