/**
 * The proxy between a DCP producer and a DCP consumer. It looks at every frame until all the
 * streams it asked for were added; then, if there is no packet filter, it only copies bytes.
 */
module DcpPipe {
  import opened Mcbp
  import opened Wrappers
  import opened DcpStream

  datatype Both<T> = Both(producer: T, consumer: T) {
    function Of(side: Side): T {
      if side.Producer? then producer else consumer
    }

    function With(side: Side, value: T): Both<T> {
      if side.Producer? then this.(producer := value) else this.(consumer := value)
    }
  }

  /** awaiting is a size_t. */
  const SIZE_LIMIT := 0x1_0000_0000_0000_0000

  /** The first `framed` bytes of what was received were taken frame by frame; the others were
      copied or are still in the input buffer. */
  ghost predicate Split(filter: Option<Filter>, side: Side, received: Bytes, framed: nat, input: Bytes, output: Bytes) {
    && framed <= |received|
    && Clean(filter, side, received[..framed]) && Tail(received[..framed]) == []
    && output + input == Forwarded(filter, side, received[..framed]) + received[framed..]
    && |Forwarded(filter, side, received[..framed])| <= |output|
  }

  /** The running callback fires when the count of awaited streams gets to zero. */
  predicate Counting(awaited: nat, notify: bool, adds: nat, awaiting: nat, ready: nat) {
    adds < awaited + SIZE_LIMIT ==>
      && awaiting == (if adds <= awaited then awaited - adds else awaited - adds + SIZE_LIMIT)
      && ready == if notify && 0 < awaited <= adds then 1 else 0
  }

  lemma NotCopiedYet(filter: Option<Filter>, side: Side, received: Bytes, framed: nat, input: Bytes, output: Bytes)
    requires Split(filter, side, received, framed, input, output) && |input| == |received| - framed
    ensures output == Forwarded(filter, side, received[..framed]) && input == received[framed..]
  {
    var head, rest := Forwarded(filter, side, received[..framed]), received[framed..];
    assert |output + input| == |head + rest|;
    assert output == (output + input)[..|head|] == head;
    assert input == (output + input)[|head|..] == rest;
  }

  lemma Arrives(filter: Option<Filter>, side: Side, received: Bytes, framed: nat, input: Bytes, output: Bytes,
                chunk: Bytes)
    requires Split(filter, side, received, framed, input, output)
    ensures Split(filter, side, received + chunk, framed, input + chunk, output)
  {
    assert (received + chunk)[..framed] == received[..framed];
    assert (received + chunk)[framed..] == received[framed..] + chunk;
    Associate(output, input, chunk);
    Associate(Forwarded(filter, side, received[..framed]), received[framed..], chunk);
  }

  lemma Copied(filter: Option<Filter>, side: Side, received: Bytes, framed: nat, input: Bytes, output: Bytes)
    requires Split(filter, side, received, framed, input, output)
    ensures Split(filter, side, received, framed, [], output + input)
  {
  }

  /** What becomes of one frame: it is passed on, unless it is about adding streams. */
  lemma OneFrame(filter: Option<Filter>, side: Side, input: Bytes, size: nat)
    requires NextFrame(input) == Complete(size)
    ensures var packet := input[..size];
            var frame := Filtered(filter, side, packet);
            && Forwarded(filter, side, packet) == (if IsAddStream(frame) then [] else frame)
            && Adds(filter, side, packet) == (if IsAddStream(frame) then 1 else 0)
            && Tail(packet) == []
            && (Clean(filter, side, packet) <==> (IsAddStream(frame) ==> IsResponseMagic(frame[0])))
            && (Clean(filter, side, input) ==> Clean(filter, side, packet))
  {
    var packet := input[..size];
    assert forall i :: 0 <= i < HEADER_SIZE ==> packet[i] == input[i];
    assert NextFrame(packet) == Complete(size);
    hide NextFrame, Filtered, IsAddStream;
    assert packet[..size] == packet && packet[size..] == [];
    var frame := Filtered(filter, side, packet);
    assert NextFrame([]) == Incomplete by { EmptyIsIncomplete(); }
    assert (if IsAddStream(frame) then [] else frame) + [] == if IsAddStream(frame) then [] else frame;
  }

  lemma EmptyIsIncomplete()
    ensures NextFrame([]) == Incomplete
  {
  }

  lemma Framed(filter: Option<Filter>, side: Side, received: Bytes, framed: nat, input: Bytes, output: Bytes, size: nat)
    requires Split(filter, side, received, framed, input, output) && |input| == |received| - framed
    requires NextFrame(input) == Complete(size)
    ensures framed + size <= |received|
    ensures var packet := input[..size];
            if Clean(filter, side, packet) then
              && Split(filter, side, received, framed + size, input[size..], output + Forwarded(filter, side, packet))
              && Adds(filter, side, received[..framed + size]) ==
                 Adds(filter, side, received[..framed]) + Adds(filter, side, packet)
            else !Clean(filter, side, received)
  {
    hide NextFrame, Forwarded, Adds, Tail, Clean, Filtered, IsAddStream;
    NotCopiedYet(filter, side, received, framed, input, output);
    OneFrame(filter, side, input, size);
    var head, packet := received[..framed], input[..size];
    assert received == head + input;
    assert [] + packet == packet && [] + input == input;
    StreamAppend(filter, side, head, input);
    assert received[..framed + size] == head + packet && received[framed + size..] == input[size..];
    if Clean(filter, side, packet) {
      StreamAppend(filter, side, head, packet);
    }
  }

  lemma AddStreamHasHeader(frame: Bytes)
    requires IsAddStream(frame)
    ensures |frame| >= HEADER_SIZE
  {
  }

  /** The rest of a stream, after what was taken frame by frame. */
  lemma RestOfStream(filter: Option<Filter>, side: Side, received: Bytes, framed: nat, input: Bytes, output: Bytes)
    requires Split(filter, side, received, framed, input, output)
    ensures var rest := received[framed..];
            && Forwarded(filter, side, received) ==
               Forwarded(filter, side, received[..framed]) + Forwarded(filter, side, rest)
            && Adds(filter, side, received) == Adds(filter, side, received[..framed]) + Adds(filter, side, rest)
            && Tail(received) == Tail(rest)
            && (Clean(filter, side, received) <==> Clean(filter, side, rest))
  {
    hide Forwarded, Adds, Tail, Clean;
    StreamAppend(filter, side, received[..framed], received[framed..]);
    assert received == received[..framed] + received[framed..] && [] + received[framed..] == received[framed..];
  }

  /** A side read frame by frame passed on all there was to pass on. */
  lemma AllFramed(filter: Option<Filter>, side: Side, received: Bytes, framed: nat, input: Bytes, output: Bytes)
    requires Split(filter, side, received, framed, input, output) && |input| == |received| - framed
    requires NextFrame(input).Incomplete?
    ensures Clean(filter, side, received)
    ensures output == Forwarded(filter, side, received) && input == Tail(received)
    ensures Adds(filter, side, received) == Adds(filter, side, received[..framed])
  {
    NotCopiedYet(filter, side, received, framed, input, output);
    RestOfStream(filter, side, received, framed, input, output);
  }

  lemma MalformedIsNotClean(filter: Option<Filter>, side: Side, received: Bytes, framed: nat, input: Bytes,
                            output: Bytes)
    requires Split(filter, side, received, framed, input, output) && |input| == |received| - framed
    requires NextFrame(input).Malformed?
    ensures !Clean(filter, side, received)
  {
    NotCopiedYet(filter, side, received, framed, input, output);
    RestOfStream(filter, side, received, framed, input, output);
  }

  /** A side that was copied from some point on. */
  lemma CopiedRest(side: Side, received: Bytes, framed: nat, input: Bytes, output: Bytes)
    requires Split(None, side, received, framed, input, output) && Clean(None, side, received)
    ensures output + input == Forwarded(None, side, received) + Tail(received)
        <==> Adds(None, side, received) == Adds(None, side, received[..framed])
  {
    RestOfStream(None, side, received, framed, input, output);
    var head, rest := Forwarded(None, side, received[..framed]), received[framed..];
    CopyIsExact(side, rest);
    hide Forwarded, Adds, Tail, Clean;
    var alt := Forwarded(None, side, rest) + Tail(rest);
    Associate(head, Forwarded(None, side, rest), Tail(rest));
    assert (head + rest)[|head|..] == rest && (head + alt)[|head|..] == alt;
  }

  class Pipe {
    const filter: Option<Filter>
    const notify: bool
    const awaited: nat

    // what each side sent and the other did not get yet, and what the other got of it
    var input: Both<Bytes>
    var output: Both<Bytes>
    var awaiting: nat
    var passthrough: bool
    var shutdown: bool

    // history: calls of the running callback, bytes read and taken as frames, streams added
    var ready: nat
    var received: Both<Bytes>
    var framed: Both<nat>
    var adds: nat

    ghost predicate Coherent()
      reads this
    {
      && Split(filter, Producer, received.producer, framed.producer, input.producer, output.producer)
      && Split(filter, Consumer, received.consumer, framed.consumer, input.consumer, output.consumer)
      && adds == Adds(filter, Producer, received.producer[..framed.producer])
                 + Adds(filter, Consumer, received.consumer[..framed.consumer])
      && Counting(awaited, notify, adds, awaiting, ready)
      && (!passthrough ==> |input.producer| == |received.producer| - framed.producer)
      && (!passthrough ==> |input.consumer| == |received.consumer| - framed.consumer)
      && (passthrough ==> filter.None? && notify)
      && (awaited > 0 && filter.None? && notify ==> if passthrough then adds == awaited else adds < awaited)
    }

    /** Between two events a side that is read frame by frame holds no complete frame. */
    ghost predicate Valid()
      reads this
    {
      && Coherent()
      && (!passthrough && !shutdown ==> NextFrame(input.producer).Incomplete? && NextFrame(input.consumer).Incomplete?)
    }

    /** A pipe whose addStreams() asked for `streams` streams. */
    constructor (filter: Option<Filter>, notify: bool, streams: nat)
      requires streams < SIZE_LIMIT
      ensures Valid() && received == Both([], []) && output == Both([], [])
      ensures this.filter == filter && this.notify == notify && awaited == streams && !passthrough && !shutdown
      ensures ready == 0
    {
      this.filter, this.notify, awaited := filter, notify, streams;
      input, output, received, framed := Both([], []), Both([], []), Both([], []), Both(0, 0);
      awaiting, passthrough, shutdown, ready, adds := streams, false, false, 0, 0;
    }

    method Close()
      requires Valid()
      modifies this`shutdown
      ensures Valid() && shutdown
    {
      shutdown := true;
    }

    /** Takes the frame at the head of the input, if a whole one is there. */
    method GetFrame(side: Side) returns (frame: Bytes, threw: bool)
      requires Coherent() && !passthrough
      modifies this`input
      ensures threw <==> old(NextFrame(input.Of(side)).Malformed?)
      ensures frame == [] <==> !old(NextFrame(input.Of(side)).Complete?)
      ensures frame == [] ==> input == old(input)
      ensures frame != [] ==>
                NextFrame(old(input.Of(side))) == Complete(|frame|) && old(input.Of(side)) == frame + input.Of(side)
      ensures frame != [] ==> input == old(input).With(side, old(input.Of(side))[|frame|..])
    {
      frame, threw := [], false;
      var buffer := input.Of(side);
      if |buffer| < HEADER_SIZE {
        return;
      }
      if !ValidHeader(buffer) {
        threw := true;
        return;
      }
      var size := HEADER_SIZE + BodyLength(buffer);
      if |buffer| >= size {
        frame := buffer[..size];
        input := input.With(side, buffer[size..]);
      }
    }

    /** A DcpAddStream arrived: one stream less to wait for. */
    method StreamAdded() returns (running: bool)
      modifies this`awaiting, this`ready, this`adds
      ensures adds == old(adds) + 1
      ensures old(Counting(awaited, notify, adds, awaiting, ready)) ==> Counting(awaited, notify, adds, awaiting, ready)
      ensures old(Counting(awaited, notify, adds, awaiting, ready)) && awaited > 0 && old(adds) < awaited ==>
                (running <==> notify && adds == awaited)
      ensures running ==> notify
    {
      awaiting := if awaiting == 0 then SIZE_LIMIT - 1 else awaiting - 1;
      adds := adds + 1;
      running := awaiting == 0 && notify;
      if running {
        ready := ready + 1;
      }
    }

    /** One turn of the loop in read_callback(). */
    method TakeFrame(side: Side) returns (more: bool, threw: bool)
      requires Coherent() && !passthrough
      modifies this`input, this`output, this`awaiting, this`ready, this`adds, this`framed, this`passthrough
      ensures threw ==> !Clean(filter, side, received.Of(side))
      ensures !threw ==> Coherent()
      ensures !threw && !more ==> !passthrough && input == old(input) && NextFrame(input.Of(side)).Incomplete?
      ensures !threw && passthrough ==> input.Of(side) == []
      ensures !threw && more && !passthrough ==>
                input == old(input).With(side, input.Of(side)) && |input.Of(side)| < |old(input.Of(side))|
    {
      hide NextFrame, Split, Clean, Adds, Forwarded, IsAddStream, Filtered, Counting;
      ghost var before, out0, done := input.Of(side), output.Of(side), framed.Of(side);
      var packet;
      packet, threw := GetFrame(side);
      if packet == [] {
        if threw { MalformedIsNotClean(filter, side, received.Of(side), done, before, out0); }
        return false, threw;
      }
      more := true;
      var size := |packet|;
      assert before[..size] == packet;
      Framed(filter, side, received.Of(side), done, before, out0, size);
      OneFrame(filter, side, before, size);
      framed := framed.With(side, framed.Of(side) + size);
      var frame := Filtered(filter, side, packet);
      if IsAddStream(frame) {
        AddStreamHasHeader(frame);
        if !IsResponseMagic(frame[0]) {
          return true, true;
        }
        var running := StreamAdded();
        assert out0 + [] == out0;
        if running && filter.None? {
          passthrough := true;
          PassThrough(side);
        }
      } else {
        output := output.With(side, output.Of(side) + frame);
      }
    }

    /** Moves whatever is in the input. */
    method PassThrough(side: Side)
      requires Coherent() && passthrough
      modifies this`input, this`output
      ensures Coherent()
      ensures input == old(input).With(side, [])
      ensures output == old(output).With(side, old(output.Of(side)) + old(input.Of(side)))
    {
      hide Split, Adds, Counting;
      Copied(filter, side, received.Of(side), framed.Of(side), input.Of(side), output.Of(side));
      output := output.With(side, output.Of(side) + input.Of(side));
      input := input.With(side, []);
    }

    method ReadCallback(side: Side) returns (threw: bool)
      requires Coherent() && !passthrough
      requires !shutdown ==> NextFrame(input.Of(if side.Producer? then Consumer else Producer)).Incomplete?
      modifies this`input, this`output, this`awaiting, this`ready, this`adds, this`framed, this`passthrough
      ensures threw ==> !shutdown && !Clean(filter, side, received.Of(side))
      ensures !threw ==> Valid()
      ensures shutdown ==> output == old(output)
      ensures !threw && passthrough ==> input.Of(side) == []
    {
      if shutdown {
        return false;
      }
      hide NextFrame, Split, Clean, Adds, Forwarded, IsAddStream, Filtered, Counting;
      var more;
      more, threw := TakeFrame(side);
      while !threw && more && !passthrough
        invariant threw ==> !Clean(filter, side, received.Of(side))
        invariant !threw ==> Coherent()
        invariant !threw && !passthrough ==> input == old(input).With(side, input.Of(side))
        invariant !threw && passthrough ==> input.Of(side) == []
        invariant !threw && !passthrough && !more ==> NextFrame(input.Of(side)).Incomplete?
        decreases !threw && !passthrough, |input.Of(side)|, more
      {
        more, threw := TakeFrame(side);
      }
    }

    /** Bytes arrive on one side. */
    method Deliver(side: Side, chunk: Bytes) returns (threw: bool)
      requires Valid()
      modifies this
      ensures received == old(received).With(side, old(received.Of(side)) + chunk) && shutdown == old(shutdown)
      ensures threw ==> !old(passthrough) && !shutdown && !Clean(filter, side, received.Of(side))
      ensures !threw ==> Valid()
      ensures !threw && !passthrough && !shutdown ==> Clean(filter, side, received.Of(side))
      ensures old(passthrough) ==> ready == old(ready)
      ensures shutdown && !old(passthrough) ==> output == old(output)
      // once bytes are copied none that came from this side is held back
      ensures !threw && passthrough ==> input.Of(side) == []
      ensures old(passthrough) ==>
                passthrough && output == old(output).With(side, old(output.Of(side)) + old(input.Of(side)) + chunk)
    {
      hide NextFrame, Split, Clean, Adds, Forwarded, Counting;
      Arrives(filter, side, received.Of(side), framed.Of(side), input.Of(side), output.Of(side), chunk);
      assert (received.Of(side) + chunk)[..framed.Of(side)] == received.Of(side)[..framed.Of(side)] by {
        hide *;
        SplitIsInRange(side);
      }
      received := received.With(side, received.Of(side) + chunk);
      input := input.With(side, input.Of(side) + chunk);
      if passthrough {
        threw := false;
        Associate(old(output.Of(side)), old(input.Of(side)), chunk);
        PassThrough(side);
      } else {
        threw := ReadCallback(side);
        if !threw && !passthrough && !shutdown {
          AllFramed(filter, side, received.Of(side), framed.Of(side), input.Of(side), output.Of(side));
        }
      }
    }

    lemma SplitIsInRange(side: Side)
      requires Coherent()
      ensures framed.Of(side) <= |received.Of(side)|
    {
    }

    /** The proxy forwards, in order, exactly what it is meant to: while it looks at frames,
        every frame but the add streams; once it copies, that and the incomplete frame at the
        end, if and only if there were no more add streams than it had asked for. */
    lemma ForwardsAllButAddStreams()
      requires Valid() && !shutdown && filter.None? && notify && awaited > 0
      requires Clean(None, Producer, received.producer) && Clean(None, Consumer, received.consumer)
      ensures var total := Adds(None, Producer, received.producer) + Adds(None, Consumer, received.consumer);
              && (passthrough <==> total >= awaited)
              && (passthrough <==> ready == 1) && ready <= 1
              && (total < awaited ==> forall side ::
                    && output.Of(side) == Forwarded(None, side, received.Of(side))
                    && input.Of(side) == Tail(received.Of(side)))
              && (total >= awaited ==>
                    (total == awaited <==> forall side ::
                       output.Of(side) + input.Of(side) ==
                       Forwarded(None, side, received.Of(side)) + Tail(received.Of(side))))
    {
      hide NextFrame, Clean, Adds, Forwarded, Split;
      if passthrough {
        CopiedRest(Producer, received.producer, framed.producer, input.producer, output.producer);
        CopiedRest(Consumer, received.consumer, framed.consumer, input.consumer, output.consumer);
        RestOfStream(None, Producer, received.producer, framed.producer, input.producer, output.producer);
        RestOfStream(None, Consumer, received.consumer, framed.consumer, input.consumer, output.consumer);
        assert (forall side :: output.Of(side) + input.Of(side) ==
                               Forwarded(None, side, received.Of(side)) + Tail(received.Of(side))) ==>
            && output.Of(Producer) + input.Of(Producer) ==
               Forwarded(None, Producer, received.producer) + Tail(received.producer)
            && output.Of(Consumer) + input.Of(Consumer) ==
               Forwarded(None, Consumer, received.consumer) + Tail(received.consumer);
      } else {
        AllFramed(None, Producer, received.producer, framed.producer, input.producer, output.producer);
        AllFramed(None, Consumer, received.consumer, framed.consumer, input.consumer, output.consumer);
      }
    }

    /** With a filter it never stops looking at frames, and passes on what the filter returns. */
    lemma ForwardsWhatTheFilterReturns()
      requires Valid() && !shutdown && filter.Some?
      ensures !passthrough
      ensures forall side ::
                && output.Of(side) == Forwarded(filter, side, received.Of(side))
                && input.Of(side) == Tail(received.Of(side))
      ensures Counting(awaited, notify,
                       Adds(filter, Producer, received.producer) + Adds(filter, Consumer, received.consumer),
                       awaiting, ready)
    {
      hide NextFrame, Clean, Adds, Forwarded, Split, Counting;
      AllFramed(filter, Producer, received.producer, framed.producer, input.producer, output.producer);
      AllFramed(filter, Consumer, received.consumer, framed.consumer, input.consumer, output.consumer);
    }

    /** In terms of packets, however they were cut into chunks: the other side gets every one of them
        but those about adding streams, unchanged and in order, and nothing is left in the buffers,
        for as long as streams are awaited. Once exactly the awaited ones were added some of that may
        still be in a buffer. */
    lemma ForwardsThePackets(ps: seq<Packet>, cs: seq<Packet>)
      requires Valid() && !shutdown && filter.None? && notify && awaited > 0
      requires AllLegal(ps) && AllLegal(cs) && received == Both(EncodeAll(ps), EncodeAll(cs))
      requires OnlyResponses(ps) && OnlyResponses(cs)
      ensures passthrough <==> AddStreams(ps) + AddStreams(cs) >= awaited
      ensures AddStreams(ps) + AddStreams(cs) < awaited ==>
                output == Both(EncodeAll(Without(ps)), EncodeAll(Without(cs))) && input == Both([], [])
      ensures AddStreams(ps) + AddStreams(cs) == awaited ==>
                && output.producer + input.producer == EncodeAll(Without(ps))
                && output.consumer + input.consumer == EncodeAll(Without(cs))
    {
      hide NextFrame, Clean, Adds, Forwarded, Split, Tail, OnlyResponses, AddStreams, EncodeAll, Without, Valid;
      OnlyPackets(Producer, ps);
      OnlyPackets(Consumer, cs);
      ForwardsAllButAddStreams();
      assert received.Of(Producer) == received.producer && received.Of(Consumer) == received.consumer;
      assert output.Of(Producer) == output.producer && output.Of(Consumer) == output.consumer;
      assert input.Of(Producer) == input.producer && input.Of(Consumer) == input.consumer;
    }

    /** And with a filter exactly what the filter makes of them. */
    lemma ForwardsTheFilteredPackets(ps: seq<Packet>, cs: seq<Packet>)
      requires Valid() && !shutdown && filter.Some?
      requires AllLegal(ps) && AllLegal(cs) && received == Both(EncodeAll(ps), EncodeAll(cs))
      ensures output == Both(Replaced(filter.value, Producer, ps), Replaced(filter.value, Consumer, cs))
    {
      hide NextFrame, Clean, Adds, Split, Tail, EncodeAll, Replaced, Valid, Counting;
      ForwardsWhatTheFilterReturns();
      PacketsAreFiltered(filter.value, Producer, ps, []);
      PacketsAreFiltered(filter.value, Consumer, cs, []);
      NothingIsForwarded(filter);
      assert EncodeAll(ps) + [] == EncodeAll(ps) && EncodeAll(cs) + [] == EncodeAll(cs) && filter == Some(filter.value);
      assert Forwarded(filter, Producer, EncodeAll(ps)) == Replaced(filter.value, Producer, ps);
      assert Forwarded(filter, Consumer, EncodeAll(cs)) == Replaced(filter.value, Consumer, cs);
      assert received.Of(Producer) == received.producer && received.Of(Consumer) == received.consumer;
      assert output.Of(Producer) == output.producer && output.Of(Consumer) == output.consumer;
    }
  }

  lemma NothingIsForwarded(filter: Option<Filter>)
    ensures forall side :: Forwarded(filter, side, []) == []
  {
  }

  lemma OnlyPackets(side: Side, packets: seq<Packet>)
    requires AllLegal(packets) && OnlyResponses(packets)
    ensures var s := EncodeAll(packets);
            && Clean(None, side, s) && Adds(None, side, s) == AddStreams(packets) && Tail(s) == []
            && Forwarded(None, side, s) == EncodeAll(Without(packets))
  {
    hide NextFrame, OnlyResponses, EncodeAll, Without, AddStreams;
    PacketsAreForwarded(side, packets, []);
    NothingIsClean(side);
    assert EncodeAll(packets) + [] == EncodeAll(packets);
    assert EncodeAll(Without(packets)) + [] == EncodeAll(Without(packets));
  }

  /** Copying refines looking at every frame: a pipe without a filter and one whose filter
      returns every packet unchanged, fed the same bytes in any two ways, forward the same up
      to the incomplete frame at the end, and both report once that they are running. */
  lemma CopyingRefinesFraming(p: Pipe, q: Pipe)
    requires p.Valid() && q.Valid() && !p.shutdown && !q.shutdown && p.notify && q.notify
    requires p.filter == None && q.filter == Some(Identity) && p.received == q.received && p.awaited == q.awaited > 0
    requires Clean(None, Producer, p.received.producer) && Clean(None, Consumer, p.received.consumer)
    requires Adds(None, Producer, p.received.producer) + Adds(None, Consumer, p.received.consumer) == p.awaited
    ensures forall side :: p.output.Of(side) + p.input.Of(side) == q.output.Of(side) + q.input.Of(side)
    ensures p.ready == q.ready == 1
  {
    hide Clean, Adds, Forwarded, Split, NextFrame, Tail, Pipe.Valid, Pipe.Coherent;
    p.ForwardsAllButAddStreams();
    q.ForwardsWhatTheFilterReturns();
    IdentityFilter(Producer, p.received.producer);
    IdentityFilter(Consumer, p.received.consumer);
    forall side ensures p.output.Of(side) + p.input.Of(side) == q.output.Of(side) + q.input.Of(side) {
      if side.Producer? {
        assert p.received.Of(side) == p.received.producer;
      } else {
        assert p.received.Of(side) == p.received.consumer;
      }
    }
  }

  /** The two streams a sequence of chunks adds up to. */
  function Streams(chunks: seq<(Side, Bytes)>): Both<Bytes> {
    if chunks == [] then Both([], [])
    else
      var (side, chunk) := chunks[|chunks| - 1];
      var before := Streams(chunks[..|chunks| - 1]);
      before.With(side, before.Of(side) + chunk)
  }

  lemma StreamsNext(chunks: seq<(Side, Bytes)>, i: nat)
    requires i < |chunks|
    ensures var (side, chunk) := chunks[i];
            var before := Streams(chunks[..i]);
            Streams(chunks[..i + 1]) == before.With(side, before.Of(side) + chunk)
  {
    assert chunks[..i + 1][..i] == chunks[..i];
  }

  lemma {:induction false} StreamsGrow(chunks: seq<(Side, Bytes)>, i: nat, side: Side)
    requires i <= |chunks|
    ensures Streams(chunks[..i]).Of(side) <= Streams(chunks).Of(side)
    decreases |chunks| - i
  {
    if i == |chunks| {
      assert chunks[..i] == chunks;
    } else {
      StreamsNext(chunks, i);
      StreamsGrow(chunks, i + 1, side);
    }
  }

  predicate AllClean(filter: Option<Filter>, streams: Both<Bytes>) {
    Clean(filter, Producer, streams.producer) && Clean(filter, Consumer, streams.consumer)
  }

  lemma UncleanSoFar(filter: Option<Filter>, chunks: seq<(Side, Bytes)>, n: nat, side: Side)
    requires n <= |chunks| && !Clean(filter, side, Streams(chunks[..n]).Of(side))
    ensures !AllClean(filter, Streams(chunks))
  {
    hide Clean;
    StreamsGrow(chunks, n, side);
    if Clean(filter, side, Streams(chunks).Of(side)) {
      CleanPrefix(filter, side, Streams(chunks[..n]).Of(side), Streams(chunks).Of(side));
    }
  }

  /** Any chunking of the two streams. */
  method Run(filter: Option<Filter>, notify: bool, streams: nat, chunks: seq<(Side, Bytes)>)
    returns (p: Pipe, threw: bool)
    requires streams < SIZE_LIMIT
    ensures !threw ==> p.Valid() && !p.shutdown && p.filter == filter && p.notify == notify && p.awaited == streams
    ensures !threw ==> p.received == Streams(chunks)
    ensures threw ==> !AllClean(filter, Streams(chunks))
  {
    hide Clean, AllClean, Streams, Pipe.Valid;
    p := new Pipe(filter, notify, streams);
    threw := false;
    assert Streams(chunks[..0]) == Both([], []) by { NoStreams(chunks); }
    for i := 0 to |chunks|
      invariant fresh(p) && p.Valid() && !p.shutdown && p.filter == filter && p.notify == notify && p.awaited == streams
      invariant p.received == Streams(chunks[..i])
    {
      StreamsNext(chunks, i);
      threw := p.Deliver(chunks[i].0, chunks[i].1);
      if threw {
        UncleanSoFar(filter, chunks, i + 1, chunks[i].0);
        return;
      }
    }
    assert chunks[..|chunks|] == chunks;
  }

  lemma NoStreams(chunks: seq<(Side, Bytes)>)
    ensures Streams(chunks[..0]) == Both([], [])
  {
  }

  /** A successful DcpAddStream response without a body. */
  const ADDED: Bytes := [0x81, 0x51, 0, 0, 0, 0, 0, 0, 0, 0, 0, 0, 0, 0, 0, 0, 0, 0, 0, 0, 0, 0, 0, 0]

  lemma AddedIsOneFrame(side: Side)
    ensures NextFrame(ADDED) == Complete(|ADDED|) && IsAddStream(ADDED) && IsResponseMagic(ADDED[0])
    ensures Clean(None, side, ADDED) && Adds(None, side, ADDED) == 1
    ensures Forwarded(None, side, ADDED) == [] && Tail(ADDED) == []
  {
    assert BodyLength(ADDED) == 0;
    assert ADDED[..|ADDED|] == ADDED && ADDED[|ADDED|..] == [];
  }

  lemma NothingIsClean(side: Side)
    ensures Clean(None, side, []) && Adds(None, side, []) == 0 && Forwarded(None, side, []) == [] && Tail([]) == []
  {
  }

  /** The response after the last awaited one is forwarded to the producer, which did not ask. */
  method ExtraAddStream() returns (p: Pipe)
    ensures p.Valid() && p.awaited == 1 && p.passthrough && p.ready == 1
    ensures p.received == Both([], ADDED + ADDED) && p.output == Both([], ADDED)
  {
    hide Pipe.Valid, Clean, Adds, Forwarded, Tail, IsAddStream, NextFrame;
    AddedIsOneFrame(Consumer);
    NothingIsClean(Producer);
    p := new Pipe(None, true, 1);
    var threw := p.Deliver(Consumer, ADDED);
    assert [] + ADDED == ADDED;
    p.ForwardsAllButAddStreams();
    OnlyEmpty(p.output.Of(Producer), p.input.Of(Producer));
    OnlyEmpty(p.output.Of(Consumer), p.input.Of(Consumer));
    threw := p.Deliver(Consumer, ADDED);
    assert [] + [] + ADDED == ADDED;
  }

  lemma OnlyEmpty(a: Bytes, b: Bytes)
    requires a + b == []
    ensures a == [] && b == []
  {
    assert |a + b| == |a| + |b|;
  }
}
