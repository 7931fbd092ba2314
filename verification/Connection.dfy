/**
 The per-connection command pipeline: the read loop that takes frames off the wire, the
 scan over the commands already accepted, the engine's notifications, and close. The
 engine, the network and the tenant are nondeterministic.
 */
module Connection {
  import opened Mcbp
  import opened CommandLog
  import opened CookieDeque

  datatype State = Running | Closing | PendingClose | ImmediateClose

  datatype Kind = Normal | Producer | Consumer

  /** The settings one callback reads. */
  datatype Limits = Limits(maxActive: nat, maxSendQueue: nat, maxPacket: nat, dcpMaxQueue: nat)

  /** Connection::isPacketAvailable(): an incomplete frame that is too big is an error too. */
  function PacketAvailable(input: seq<byte>, maxPacket: nat): (a: Availability)
    ensures a.Complete? <==> NextFrame(input).Complete?
    ensures a.Complete? ==> a == NextFrame(input)
    ensures NextFrame(input).Malformed? ==> a.Malformed?
    ensures NextFrame(input).Incomplete? ==> (a.Malformed? <==> |input| >= 24 && 24 + BodyLength(input) > maxPacket)
  {
    if NextFrame(input).Incomplete? && |input| >= HEADER_SIZE && FrameSize(input) > maxPacket then Malformed
    else NextFrame(input)
  }

  lemma NothingIsNotMalformed(maxPacket: nat)
    ensures !PacketAvailable([], maxPacket).Malformed?
  {
  }

  datatype RateLimit = Unlimited | Ingress | Egress | Operations | Connections

  /** What the validator says about a packet, and the tenant's rate limits; and the output that
      is queued once a packet that is refused was answered. */
  datatype Judgement = Judgement(valid: bool, barrier: bool, limit: RateLimit, queue: nat)

  /** What an execution does: whether it completes, the references left on the cookie, whether
      it shuts the connection down, the output queued, the mode and kind it leaves, and the
      budget of a callback, which goes with the priority of the connection. */
  datatype Effects = Effects(done: bool, references: nat, stop: bool, queue: nat, unordered: bool, kind: Kind,
                             maxReqs: nat)

  /** Hello refuses the unordered mode on a DCP channel, and the validator to open one in it. */
  predicate Compatible(kind: Kind, unordered: bool) {
    kind != Normal ==> !unordered
  }

  type Outcome = e: Effects | Compatible(e.kind, e.unordered) witness Effects(true, 0, false, 0, false, Normal, 1)

  datatype Choice = Choice(judgement: Judgement, outcome: Outcome)

  /** What the engine does when it may produce a DCP message, and the output queued then. */
  datatype DcpStep = DcpStep(success: bool, wouldBlock: bool, queue: nat)

  /** What an execution may change of a connection. */
  datatype Mode = Mode(unordered: bool, kind: Kind, state: State, queue: nat, maxReqs: nat)

  /** Response packets are never refused, nor made barriers by the validator. */
  function Judged(magic: byte, unordered: bool, j: Judgement): Verdict {
    if IsResponseMagic(magic) then Accepted(!unordered)
    else if !j.valid then Rejected
    else if j.limit != Unlimited then Throttled
    else Accepted(!(unordered && !j.barrier))
  }

  /** What a frame was judged with: what validator and rate limiter said of it, and whether the
      connection executed commands out of order. */
  datatype Term = Term(judgement: Judgement, unordered: bool)

  /** A response is never refused, and waits in ordered mode only. A request is rejected exactly if
      it is not valid, throttled exactly if it is and a limit is exceeded, and otherwise a barrier
      exactly in ordered mode or if the validator says that it may not be reordered. */
  predicate Follows(a: Arrival, t: Term)
    requires |a.frame| > 0
  {
    if IsResponseMagic(a.frame[0]) then a.verdict == Accepted(!t.unordered)
    else
      && (a.verdict.Rejected? <==> !t.judgement.valid)
      && (a.verdict.Throttled? <==> t.judgement.valid && t.judgement.limit != Unlimited)
      && (a.verdict.Accepted? ==> (a.verdict.barrier <==> !t.unordered || t.judgement.barrier))
  }

  /** Every arrival is one whole frame and was judged as it should be. */
  ghost predicate AllFollow(arrivals: seq<Arrival>, terms: seq<Term>) {
    && |terms| == |arrivals|
    && forall i :: 0 <= i < |arrivals| ==> Follow(arrivals[i], terms[i])
  }

  predicate Follow(a: Arrival, t: Term) {
    |a.frame| > 0 && NextFrame(a.frame) == Complete(|a.frame|) && Follows(a, t)
  }

  lemma AllFollowNext(arrivals: seq<Arrival>, terms: seq<Term>, a: Arrival, t: Term)
    requires AllFollow(arrivals, terms) && Follow(a, t)
    ensures AllFollow(arrivals + [a], terms + [t])
  {
    hide Follow;
  }

  /** The arrivals of a callback are judged by its oracle. */
  ghost predicate JudgedBy(before: seq<Term>, after: seq<Term>, oracle: nat -> Choice) {
    before <= after && forall i :: |before| <= i < |after| ==> after[i].judgement == oracle(i).judgement
  }

  lemma JudgedNothing(terms: seq<Term>, oracle: nat -> Choice)
    ensures JudgedBy(terms, terms, oracle)
  {
  }

  lemma JudgedNext(before: seq<Term>, after: seq<Term>, oracle: nat -> Choice, t: Term)
    requires JudgedBy(before, after, oracle) && t.judgement == oracle(|after|).judgement
    ensures JudgedBy(before, after + [t], oracle)
  {
  }

  lemma FrameIsWhole(input: seq<byte>)
    requires NextFrame(input).Complete?
    ensures var size := NextFrame(input).size;
            size > 0 && NextFrame(input[..size]) == Complete(|input[..size]|) && input[..size][0] == input[0]
  {
    var size := NextFrame(input).size;
    var frame := input[..size];
    assert forall i :: 0 <= i < HEADER_SIZE ==> frame[i] == input[i];
  }

  function Frames(arrivals: seq<Arrival>): seq<seq<byte>> {
    seq(|arrivals|, i requires 0 <= i < |arrivals| => arrivals[i].frame)
  }

  lemma {:induction false} ConcatAppend(frames: seq<seq<byte>>, frame: seq<byte>)
    ensures Concat(frames + [frame]) == Concat(frames) + frame
    decreases |frames|
  {
    if frames == [] {
      assert (frames + [frame])[1..] == [];
    } else {
      assert (frames + [frame])[1..] == frames[1..] + [frame];
      ConcatAppend(frames[1..], frame);
    }
  }

  lemma {:induction false} WireIsConcat(arrivals: seq<Arrival>)
    ensures Wire(arrivals) == Concat(Frames(arrivals))
    decreases |arrivals|
  {
    if arrivals != [] {
      var before := arrivals[..|arrivals| - 1];
      WireIsConcat(before);
      ConcatAppend(Frames(before), arrivals[|arrivals| - 1].frame);
      assert Frames(arrivals) == Frames(before) + [arrivals[|arrivals| - 1].frame];
    }
  }

  ghost predicate AreTheFirst(arrivals: seq<Arrival>, packets: seq<Mcbp.Packet>)
    requires AllLegal(packets)
  {
    |arrivals| <= |packets| && forall i :: 0 <= i < |arrivals| ==> arrivals[i].frame == Encode(packets[i])
  }

  /** A client's stream of packets is taken apart into exactly those packets, in order, however it
      arrives and whatever of it is still to come. */
  lemma PacketsAreTaken(arrivals: seq<Arrival>, terms: seq<Term>, input: seq<byte>, packets: seq<Mcbp.Packet>)
    requires AllFollow(arrivals, terms) && AllLegal(packets) && Wire(arrivals) + input <= EncodeAll(packets)
    ensures AreTheFirst(arrivals, packets)
  {
    hide AllFollow, NextFrame, Whole, Encode, Encodable, Sized, Wire, Concat, EncodeAll;
    var frames := Frames(arrivals);
    AllAreWhole(arrivals, terms);
    WireIsConcat(arrivals);
    CutIsUnique(frames, input, packets);
    forall i | 0 <= i < |arrivals| ensures arrivals[i].frame == Encode(packets[i]) {
      assert frames[i] == Encode(packets[i]);
    }
  }

  lemma AllAreWhole(arrivals: seq<Arrival>, terms: seq<Term>)
    requires AllFollow(arrivals, terms)
    ensures Whole(Frames(arrivals))
  {
    hide NextFrame, Follows;
    var frames := Frames(arrivals);
    forall i | 0 <= i < |frames| ensures NextFrame(frames[i]) == Complete(|frames[i]|) {
      assert Follow(arrivals[i], terms[i]);
    }
  }

  /** A frame is accepted, need not wait, and leaves the connection running. */
  predicate Starts(ch: Choice, magic: byte, active: bool, m: Mode) {
    var v, o := Judged(magic, m.unordered, ch.judgement), ch.outcome;
    v.Accepted? && !(active && v.barrier) && !o.stop && (if v.barrier then o.kind else m.kind) == Normal
  }

  lemma StartsAndRuns(ch: Choice, magic: byte, active: bool, before: seq<Cookie>, after: seq<Cookie>, m: Mode, m': Mode)
    requires |before| > 0 && Took(ch, magic, active, before, after, m, m')
    requires Starts(ch, magic, active, m)
    ensures m'.state == Running && m'.kind == Normal
  {
  }

  /** A frame that may start is executed in the back cookie, or in a new one behind it. */
  ghost predicate Took(ch: Choice, magic: byte, active: bool, before: seq<Cookie>, after: seq<Cookie>, m: Mode,
                       m': Mode)
    requires |before| > 0
  {
    var v, o := Judged(magic, m.unordered, ch.judgement), ch.outcome;
    v.Accepted? && !(active && v.barrier) ==>
      && |after| == |before| + (if before[|before| - 1].Busy() then 1 else 0)
      && after[..|after| - 1] == (if before[|before| - 1].Busy() then before else before[..|before| - 1])
      && after[|after| - 1].Busy() == after[|after| - 1].blocked == !o.done
      && (!o.done ==> after[|after| - 1].reorder == !v.barrier && after[|after| - 1].refcount == o.references)
      && m'.unordered == (if v.barrier then o.unordered else m.unordered)
      && m'.kind == (if v.barrier then o.kind else m.kind)
      && m'.state == (if o.stop then Closing else Running)
      && m'.queue == o.queue && m'.maxReqs == o.maxReqs
  }

  function Max(a: int, b: int): int { if a < b then b else a }

  /** As long as the unordered mode was never switched on every accepted command was a barrier. */
  ghost predicate OrderedSoFar(everUnordered: bool, unordered: bool, arrivals: seq<Arrival>) {
    !everUnordered ==> !unordered && forall a :: a in arrivals && a.verdict.Accepted? ==> a.verdict.barrier
  }

  /** Nothing that is in flight stands in the way of a further command. */
  predicate MayAdd(cookies: seq<Cookie>) {
    |cookies| > 0 && (AnyBlocked(cookies) ==> cookies[|cookies| - 1].reorder)
  }

  lemma SomeBlocked(cookies: seq<Cookie>, k: nat)
    requires k < |cookies| && cookies[k].blocked
    ensures AnyBlocked(cookies)
  {
  }

  lemma FrontIsKept(before: seq<Cookie>, after: seq<Cookie>)
    requires |before| == |after| > 0 && before[..|before| - 1] == after[..|before| - 1]
    requires before[|before| - 1].id == after[|before| - 1].id
    ensures after[0].id == before[0].id
  {
    if |before| > 1 { assert before[..|before| - 1][0] == after[..|before| - 1][0]; }
  }

  lemma MayAddIs(cookies: seq<Cookie>)
    ensures MayAdd(cookies) <==> |cookies| > 0 && (AnyBlocked(cookies) ==> cookies[|cookies| - 1].reorder)
  {
  }

  /** Nothing waits, and a further command may be read. */
  predicate Accepting(cookies: seq<Cookie>) {
    |cookies| > 0 && !cookies[|cookies| - 1].Queued() && AnyBusy(cookies) == AnyBlocked(cookies) && MayAdd(cookies)
  }

  lemma OrderedAfterArrival(everUnordered: bool, unordered: bool, arrivals: seq<Arrival>, a: Arrival)
    requires OrderedSoFar(everUnordered, unordered, arrivals)
    requires a.verdict.Accepted? && !a.verdict.barrier ==> unordered
    ensures OrderedSoFar(everUnordered, unordered, arrivals + [a])
  {
  }

  lemma OrderedAfterRun(everUnordered: bool, unordered: bool, unordered': bool, arrivals: seq<Arrival>)
    requires OrderedSoFar(everUnordered, unordered, arrivals)
    ensures OrderedSoFar(everUnordered || unordered', unordered', arrivals)
  {
  }

  /** References counted by close(): it stops after the first blocked cookie. */
  function CountedReferences(cookies: seq<Cookie>): nat {
    if cookies == [] then 0
    else cookies[0].refcount + if cookies[0].blocked then 0 else CountedReferences(cookies[1..])
  }

  lemma CountedNext(cookies: seq<Cookie>, i: nat)
    requires i < |cookies|
    ensures CountedReferences(cookies[i..]) ==
            cookies[i].refcount + if cookies[i].blocked then 0 else CountedReferences(cookies[i + 1..])
    ensures CountedReferences(cookies[|cookies|..]) == 0
  {
    assert cookies[i..][1..] == cookies[i + 1..];
  }

  predicate Unreferenced(cookies: seq<Cookie>) {
    forall i :: 0 <= i < |cookies| ==> cookies[i].refcount == 0
  }

  /** A cookie that close() counted to nothing is not referenced. */
  lemma {:induction false} NoCountedReferences(cookies: seq<Cookie>)
    requires !AnyBlocked(cookies) && CountedReferences(cookies) == 0
    ensures Unreferenced(cookies)
  {
    if cookies != [] {
      assert !AnyBlocked(cookies[1..]);
      NoCountedReferences(cookies[1..]);
      assert forall i :: 0 < i < |cookies| ==> cookies[i] == cookies[1..][i - 1];
    }
  }

  /** Up to the first blocked cookie all are counted. */
  lemma {:induction false} CountedUpToBlocked(cookies: seq<Cookie>)
    requires cookies != [] && !AnyBlocked(cookies[..|cookies| - 1]) && CountedReferences(cookies) == 0
    ensures Unreferenced(cookies)
  {
    if |cookies| > 1 {
      assert !cookies[..|cookies| - 1][0].blocked;
      assert cookies[1..][..|cookies| - 2] == cookies[..|cookies| - 1][1..];
      CountedUpToBlocked(cookies[1..]);
      assert forall i :: 0 < i < |cookies| ==> cookies[i] == cookies[1..][i - 1];
    }
  }

  /** In the ordered mode only the last cookie can be blocked, so all are counted. */
  lemma AllCounted(cookies: seq<Cookie>, log: Log, unordered: bool)
    requires Inv(cookies, log, unordered)
    ensures CountedReferences(cookies) == 0 && (!unordered || !AnyBlocked(cookies)) ==> Unreferenced(cookies)
  {
    if CountedReferences(cookies) == 0 && !AnyBlocked(cookies) {
      NoCountedReferences(cookies);
    } else if CountedReferences(cookies) == 0 && !unordered {
      assert !AnyBlocked(cookies[..|cookies| - 1]);
      CountedUpToBlocked(cookies);
    }
  }

  datatype Event =
    | Callback(limits: Limits, oracle: nat -> Choice, queued: Outcome, dcp: nat -> DcpStep, dying: bool, stuck: bool)
    | Notify(cookie: nat, outcome: Outcome)
    | Bytes(bytes: seq<byte>)
    | Others(queue: nat, references: nat, cookieReferences: nat -> nat)

  /** The bytes an event brings. */
  function Payload(e: Event): seq<byte> {
    if e.Bytes? then e.bytes else []
  }

  function Payloads(events: seq<Event>): seq<byte> {
    if events == [] then [] else Payloads(events[..|events| - 1]) + Payload(events[|events| - 1])
  }

  function WithReferences(cookies: seq<Cookie>, references: nat -> nat): (r: seq<Cookie>)
    ensures |r| == |cookies| && (|r| > 0 ==> r[0].id == cookies[0].id)
  {
    seq(|cookies|, i requires 0 <= i < |cookies| => cookies[i].(refcount := references(i)))
  }

  /** No claim depends on the references of cookies. */
  lemma ReferencesKeepInv(cookies: seq<Cookie>, references: nat -> nat, log: Log, unordered: bool)
    requires Inv(cookies, log, unordered)
    ensures Inv(WithReferences(cookies, references), log, unordered)
    ensures AnyBlocked(cookies) ==> AnyBlocked(WithReferences(cookies, references))
  {
    var cookies' := WithReferences(cookies, references);
    assert forall i :: 0 <= i < |cookies| ==> cookies'[i] == cookies[i].(refcount := references(i));
    ReferencesKeepShape(cookies, cookies', unordered);
    ReferencesKeepHolds(cookies, cookies', log);
    assert AnyBlocked(cookies) ==> AnyBlocked(cookies') by {
      if AnyBlocked(cookies) {
        var i :| 0 <= i < |cookies| && cookies[i].blocked;
        assert cookies'[i].blocked;
      }
    }
  }

  ghost predicate SameButReferences(cookies: seq<Cookie>, cookies': seq<Cookie>) {
    && |cookies'| == |cookies|
    && forall i :: 0 <= i < |cookies| ==> cookies'[i] == cookies[i].(refcount := cookies'[i].refcount)
  }

  lemma ReferencesKeepShape(cookies: seq<Cookie>, cookies': seq<Cookie>, unordered: bool)
    requires Shape(cookies, unordered) && SameButReferences(cookies, cookies')
    ensures Shape(cookies', unordered)
  {
    var rest, rest' := cookies[..|cookies| - 1], cookies'[..|cookies| - 1];
    assert forall i :: 0 <= i < |rest| ==> rest[i] == cookies[i] && rest'[i] == cookies'[i];
    assert AnyBusy(rest') ==> AnyBusy(rest) by {
      if AnyBusy(rest') {
        var i :| 0 <= i < |rest'| && rest'[i].Busy();
        assert rest[i].Busy();
      }
    }
  }

  lemma ReferencesKeepHolds(cookies: seq<Cookie>, cookies': seq<Cookie>, log: Log)
    requires Holds(cookies, log) && Accounted(cookies, log) && SameButReferences(cookies, cookies')
    ensures Holds(cookies', log) && Accounted(cookies', log)
  {
    forall i: nat | log.IsAccepted(i) && Pending(cookies, i) ensures Pending(cookies', i) {
      var k :| 0 <= k < |cookies| && cookies[k].Busy() && cookies[k].command == i;
      assert cookies'[k].Busy() && cookies'[k].command == i;
    }
  }

  class Connection {
    var cookies: seq<Cookie>
    var nextCookie: nat
    var input: seq<byte>
    var numEvents: int
    var maxReqs: nat
    var state: State
    var unordered: bool
    var kind: Kind
    var refcount: nat
    var sendQueue: nat
    var sendTerminated: bool
    var readEnabled: bool
    var triggered: bool

    ghost var received: seq<byte>
    ghost var terms: seq<Term>
    var log: Log
    ghost var everUnordered: bool

    function Now(): Mode
      reads this
    {
      Mode(unordered, kind, state, sendQueue, maxReqs)
    }

    ghost predicate Coherent()
      reads this
    {
      && Inv(cookies, log, unordered) && Compatible(kind, unordered)
      && Wire(log.arrivals) + input == received && AllFollow(log.arrivals, terms)
      && (state == Running ==> log.dropped == {})
      && OrderedSoFar(everUnordered, unordered, log.arrivals)
      && refcount >= 1
    }

    /** Between callbacks a queued command has something that will wake it up. */
    ghost predicate Valid()
      reads this
    {
      && Coherent()
      && (cookies[|cookies| - 1].Queued() ==> AnyBlocked(cookies) || triggered)
    }

    constructor (maxReqs: nat)
      ensures Valid() && state == Running && log == EMPTY_LOG && received == [] && terms == []
      ensures |cookies| == 1 && cookies[0].id == 0
      ensures this.maxReqs == maxReqs && input == [] && !cookies[0].Busy() && !cookies[0].blocked
      ensures !unordered && kind == Normal && sendQueue == 0 && !triggered && refcount == 1
      ensures cookies == [Cookie(0, 0, Absent, false, false, 0)] && nextCookie == 1 && numEvents == 0
      ensures readEnabled && !sendTerminated && !everUnordered
    {
      this.maxReqs := maxReqs;
      cookies := [Cookie(0, 0, Absent, false, false, 0)];
      nextCookie := 1;
      input, received, terms := [], [], [];
      numEvents := 0;
      state, unordered, kind := Running, false, Normal;
      refcount, sendQueue, sendTerminated := 1, 0, false;
      readEnabled, triggered := true, false;
      log := EMPTY_LOG;
      everUnordered := false;
    }

    /** Cookie::execute(), with the outcome `o`. Only commands that cannot be reordered (Hello,
        opening a DCP channel) switch the execution mode. */
    method Execute(k: nat, o: Outcome)
      requires k < |cookies| && cookies[k].Busy()
      modifies this`cookies, this`log, this`state, this`unordered, this`kind, this`maxReqs, this`sendQueue,
               this`everUnordered
      ensures log == old(log).AddRun(Run(old(cookies[k].command), o.done))
      ensures cookies == old(cookies)[k := old(cookies[k]).(blocked := !o.done, refcount := o.references)]
      ensures unordered == (if old(cookies[k].reorder) then old(unordered) else o.unordered)
      ensures kind == (if old(cookies[k].reorder) then old(kind) else o.kind)
      ensures state == (if o.stop then Closing else old(state)) && sendQueue == o.queue && maxReqs == o.maxReqs
      ensures old(Compatible(kind, unordered)) ==> Compatible(kind, unordered)
      ensures everUnordered == (old(everUnordered) || unordered)
    {
      sendQueue, maxReqs := o.queue, o.maxReqs;
      if o.stop {
        state := Closing;
      }
      if !cookies[k].reorder {
        unordered, kind := o.unordered, o.kind;
      }
      log := log.AddRun(Run(cookies[k].command, o.done));
      cookies := cookies[k := cookies[k].(blocked := !o.done, refcount := o.references)];
      everUnordered := everUnordered || unordered;
    }

    /** The scan reached a queued barrier with nothing blocked before it. A completed cookie
        is kept for reuse when it is the front or referenced, and erased otherwise; `next`
        is where the scan goes on. */
    method ExecuteQueued(k: nat, o: Outcome) returns (next: nat)
      requires Inv(cookies, log, unordered) && log.dropped == {} && OrderedSoFar(everUnordered, unordered, log.arrivals)
      requires k < |cookies| && cookies[k].Queued() && !AnyBlocked(cookies)
      modifies this`cookies, this`log, this`state, this`unordered, this`kind, this`maxReqs, this`sendQueue,
               this`everUnordered
      ensures Inv(cookies, log, unordered) && log.dropped == {} && OrderedSoFar(everUnordered, unordered, log.arrivals)
      ensures log == old(log).AddRun(Run(old(cookies[k].command), o.done))
      ensures state == old(state) || state == Closing
      ensures old(Compatible(kind, unordered)) ==> Compatible(kind, unordered)
      ensures !o.done == AnyBlocked(cookies) == AnyBusy(cookies)
      ensures 1 <= |cookies| <= |old(cookies)| && cookies[0].id == old(cookies[0].id)
      ensures next == |cookies|
      ensures o.done ==> |cookies| == |old(cookies)| - (if k == 0 || o.references != 0 then 0 else 1)
      ensures !o.done ==> !cookies[|cookies| - 1].reorder
    {
      hide Holds, Accounted, OrderedSoFar, AllFollow;
      ghost var before, log0, mode := cookies, log, unordered;
      QueuedIsLast(before, k, mode);
      Execute(k, o);
      OrderedAfterRun(old(everUnordered), mode, unordered, log0.arrivals);
      if o.done {
        if k == 0 || cookies[k].refcount != 0 {
          ResetKeepsInv(before, k, cookies[k].Reset(unordered), log0, mode, unordered);
          cookies := cookies[k := cookies[k].Reset(unordered)];
          assert cookies == before[k := cookies[k]];
          next := k + 1;
        } else {
          EraseKeepsInv(before, k, log0, mode, unordered);
          cookies := Erase(cookies, k);
          assert cookies == Erase(before, k) == before[..k];
          next := k;
        }
      } else {
        BlockedKeepsInv(before, k, cookies[k].refcount, log0, mode, unordered);
        assert cookies[k].blocked && cookies[k].Busy();
        next := k + 1;
      }
    }

    /** Under the invariant the whole scan is at most one execute(): a queued barrier is
        started when nothing is blocked, and otherwise nothing happens. */
    method ProcessAllReadyCookies(o: Outcome) returns (active: bool)
      requires Coherent() && state == Running
      modifies this`cookies, this`log, this`state, this`unordered, this`kind, this`maxReqs, this`sendQueue,
               this`everUnordered, this`numEvents
      ensures Inv(cookies, log, unordered) && log.dropped == {} && OrderedSoFar(everUnordered, unordered, log.arrivals)
      ensures state == old(state) || state == Closing
      ensures 1 <= |cookies| <= |old(cookies)| && cookies[0].id == old(cookies[0].id)
      ensures active == AnyBlocked(cookies) == AnyBusy(cookies) && Compatible(kind, unordered)
      ensures old(!cookies[|cookies| - 1].Queued() || AnyBlocked(cookies)) ==>
                unchanged(this)
      ensures old(cookies[|cookies| - 1].Queued() && !AnyBlocked(cookies)) ==>
                && numEvents == old(numEvents) - 1
                && log == old(log).AddRun(Run(old(cookies[|cookies| - 1].command), !active))
                && (active ==> !cookies[|cookies| - 1].reorder)
    {
      hide Holds, Accounted, OrderedSoFar, AllFollow;
      active := false;
      var iter := 0;
      ghost var before := cookies;
      while iter < |cookies|
        invariant 0 <= iter <= |cookies| && unchanged(this)
        invariant active == AnyBlocked(before[..iter])
        invariant forall i :: 0 <= i < iter ==> !before[i].Queued()
      {
        assert before[..iter + 1] == before[..iter] + [before[iter]];
        if !cookies[iter].Busy() {
          iter := iter + 1;
          continue;
        }
        if cookies[iter].blocked {
          iter := iter + 1;
          active := true;
          continue;
        }
        QueuedIsLast(cookies, iter, unordered);
        if active && !cookies[iter].reorder {
          break;
        }
        iter := ExecuteQueued(iter, o);
        if !o.done {
          active := true;
        }
        numEvents := numEvents - 1;
        if numEvents == 0 || iter == |cookies| {
          break;
        }
      }
    }

    /** The cookie the next command goes into: an unused back cookie, or a new one. */
    method EmplaceCookie()
      requires Inv(cookies, log, unordered) && log.dropped == {}
      requires AnyBlocked(cookies) == AnyBusy(cookies) && MayAdd(cookies)
      modifies this`cookies, this`nextCookie
      ensures |cookies| > 0 && !cookies[|cookies| - 1].Busy()
      ensures Open(cookies[..|cookies| - 1], log, unordered)
      ensures AnyBusy(cookies[..|cookies| - 1]) == AnyBusy(old(cookies))
      ensures |cookies| == |old(cookies)| + (if old(cookies[|cookies| - 1].Busy()) then 1 else 0)
      ensures cookies[0].id == old(cookies[0].id)
      ensures old(cookies[|cookies| - 1].Busy()) ==>
                cookies[|cookies| - 1].id == old(nextCookie) && nextCookie == old(nextCookie) + 1
      ensures !old(cookies[|cookies| - 1].Busy()) ==> cookies == old(cookies) && nextCookie == old(nextCookie)
      ensures cookies[..|cookies| - 1] ==
              if old(cookies[|cookies| - 1].Busy()) then old(cookies) else old(cookies[..|cookies| - 1])
    {
      hide Holds, Accounted, OrderedSoFar, AllFollow;
      ghost var before := cookies;
      if cookies[|cookies| - 1].Busy() {
        OpenBehindBack(cookies, log, unordered);
        cookies := cookies + [Cookie(nextCookie, 0, Absent, false, false, 0)];
        nextCookie := nextCookie + 1;
        assert cookies[..|cookies| - 1] == before;
      } else {
        OpenAtUnusedBack(cookies, log, unordered);
        assert forall i :: 0 <= i < |before| - 1 ==> before[..|before| - 1][i] == before[i];
      }
    }

    /** The back cookie holds an accepted command that has not been started. */
    ghost predicate Arrived(a: Arrival)
      reads this
    {
      && |cookies| > 0 && Open(cookies[..|cookies| - 1], log, unordered)
      && OrderedSoFar(everUnordered, unordered, log.arrivals)
      && log.dropped == {}
      && var c := cookies[|cookies| - 1];
         && !c.blocked && c.packet.Borrowed? && c.command == |log.arrivals|
         && a.verdict == Accepted(!c.reorder) && (c.reorder ==> unordered)
    }

    /** A command that may start: its cookie is reset if it completes; otherwise its frame is
        copied, as it is about to be drained. */
    method Start(a: Arrival, o: Outcome)
      requires Arrived(a) && (AnyBusy(cookies[..|cookies| - 1]) ==> cookies[|cookies| - 1].reorder)
      modifies this`cookies, this`log, this`state, this`unordered, this`kind, this`maxReqs, this`sendQueue,
               this`everUnordered
      ensures Inv(cookies, log, unordered) && log.dropped == {} && OrderedSoFar(everUnordered, unordered, log.arrivals)
      ensures |cookies| == |old(cookies)| && cookies[..|cookies| - 1] == old(cookies[..|cookies| - 1])
      ensures log == old(log).AddArrival(a).AddRun(Run(|old(log.arrivals)|, o.done))
      ensures cookies[|cookies| - 1].id == old(cookies[|cookies| - 1].id)
      ensures cookies[|cookies| - 1].Busy() == cookies[|cookies| - 1].blocked == !o.done
      ensures !o.done ==>
                cookies[|cookies| - 1].reorder == !a.verdict.barrier && cookies[|cookies| - 1].refcount == o.references
      ensures unordered == (if a.verdict.barrier then o.unordered else old(unordered))
      ensures kind == (if a.verdict.barrier then o.kind else old(kind))
      ensures state == (if o.stop then Closing else old(state)) && sendQueue == o.queue && maxReqs == o.maxReqs
      ensures old(Compatible(kind, unordered)) ==> Compatible(kind, unordered)
    {
      hide Inv, Open, OrderedSoFar, AllFollow, AnyBlocked, AnyBusy;
      var k := |cookies| - 1;
      ghost var rest, log0, mode := cookies[..k], log, unordered;
      log := log.AddArrival(a);
      OrderedAfterArrival(everUnordered, mode, log0.arrivals, a);
      ghost var arrived := log;
      Execute(k, o);
      OrderedAfterRun(old(everUnordered), mode, unordered, arrived.arrivals);
      assert cookies[..k] == rest;
      if o.done {
        cookies := cookies[k := cookies[k].Reset(unordered)];
      } else {
        cookies := cookies[k := cookies[k].(packet := Owned(a.frame))];
      }
      assert cookies == rest + [cookies[k]];
      ExecutedKeepsInv(rest, cookies[k], log0, mode, unordered, a, o.done);
    }

    /** A barrier behind commands in flight waits, with a copy of its frame. */
    method Postpone(a: Arrival)
      requires Arrived(a) && AnyBusy(cookies[..|cookies| - 1]) && !cookies[|cookies| - 1].reorder
      modifies this`cookies, this`log
      ensures Inv(cookies, log, unordered) && log == old(log).AddArrival(a)
      ensures OrderedSoFar(everUnordered, unordered, log.arrivals)
      ensures |cookies| == |old(cookies)| && cookies[..|cookies| - 1] == old(cookies[..|cookies| - 1])
      ensures cookies[|cookies| - 1].id == old(cookies[|cookies| - 1].id) && cookies[|cookies| - 1].Queued()
      ensures !cookies[|cookies| - 1].reorder
    {
      hide Inv, Open, OrderedSoFar, AllFollow, AnyBlocked, AnyBusy;
      var k := |cookies| - 1;
      ghost var rest, log0 := cookies[..k], log;
      log := log.AddArrival(a);
      OrderedAfterArrival(everUnordered, unordered, log0.arrivals, a);
      cookies := cookies[k := cookies[k].(packet := Owned(a.frame))];
      assert cookies == rest + [cookies[k]];
      QueuedKeepsInv(rest, cookies[k], log0, unordered, a);
    }

    /** An accepted command in the back cookie: it is started unless it is a barrier and
        something is in flight. */
    method Dispatch(active: bool, a: Arrival, limits: Limits, o: Outcome) returns (active': bool, stop: bool)
      requires Arrived(a) && active == AnyBusy(cookies[..|cookies| - 1])
      modifies this`cookies, this`log, this`state, this`unordered, this`kind, this`maxReqs, this`sendQueue,
               this`everUnordered
      ensures Inv(cookies, log, unordered) && log.dropped == {} && OrderedSoFar(everUnordered, unordered, log.arrivals)
      ensures |cookies| == |old(cookies)| && cookies[0].id == old(cookies[0].id)
      ensures active' == AnyBlocked(cookies) == AnyBusy(cookies)
      ensures log.arrivals == old(log.arrivals) + [a]
      ensures if active && a.verdict.barrier then log.runs == old(log.runs)
              else log.runs == old(log.runs) + [Run(|old(log.arrivals)|, !cookies[|cookies| - 1].Busy())]
      ensures state == old(state) || state == Closing
      ensures cookies[..|cookies| - 1] == old(cookies[..|cookies| - 1])
      ensures !(active && a.verdict.barrier) ==>
                && cookies[|cookies| - 1].Busy() == cookies[|cookies| - 1].blocked == !o.done
                && (!o.done ==> cookies[|cookies| - 1].reorder == !a.verdict.barrier
                                && cookies[|cookies| - 1].refcount == o.references)
                && unordered == (if a.verdict.barrier then o.unordered else old(unordered))
                && kind == (if a.verdict.barrier then o.kind else old(kind))
                && state == (if o.stop then Closing else old(state)) && sendQueue == o.queue && maxReqs == o.maxReqs
      ensures old(Compatible(kind, unordered)) ==> Compatible(kind, unordered)
      ensures !stop ==> MayAdd(cookies)
      ensures stop ==> !MayAdd(cookies) || (kind == Normal && sendQueue >= limits.maxSendQueue)
      // the read loop goes on unless output has to wait or something in flight forbids it
      ensures stop <==> if cookies[|cookies| - 1].Busy() then a.verdict.barrier
                        else kind == Normal && sendQueue >= limits.maxSendQueue
    {
      hide Inv, Open, OrderedSoFar, AllFollow, AnyBlocked, AnyBusy, MayAdd;
      var k := |cookies| - 1;
      ghost var rest := cookies[..k];
      if !active || cookies[k].reorder {
        Start(a, o);
        active' := active || !o.done;
        stop := if o.done then kind == Normal && sendQueue >= limits.maxSendQueue else !cookies[k].reorder;
      } else {
        Postpone(a);
        active', stop := true, true;
      }
      FrontIsKept(old(cookies), cookies);
      assert cookies == rest + [cookies[k]];
      InFlight(rest, cookies[k], log, unordered);
      MayAddIs(cookies);
    }

    /** The state between two rounds of the read loop. */
    ghost predicate Ready(active: bool)
      reads this
    {
      && Inv(cookies, log, unordered) && log.dropped == {} && OrderedSoFar(everUnordered, unordered, log.arrivals)
      && Wire(log.arrivals) + input == received && AllFollow(log.arrivals, terms)
      && active == AnyBlocked(cookies) == AnyBusy(cookies)
      && (state == Running || state == Closing) && refcount >= 1 && Compatible(kind, unordered)
    }

    /** A frame that was answered with an error, or rate limited: its cookie is reset. */
    method Refuse(a: Arrival, queue: nat)
      requires |cookies| > 0 && Open(cookies[..|cookies| - 1], log, unordered)
      requires OrderedSoFar(everUnordered, unordered, log.arrivals)
      requires !a.verdict.Accepted?
      modifies this`cookies, this`log, this`sendQueue
      ensures Inv(cookies, log, unordered) && log == old(log).AddArrival(a)
      ensures OrderedSoFar(everUnordered, unordered, log.arrivals)
      ensures |cookies| == |old(cookies)|
      ensures cookies == old(cookies)[|cookies| - 1 := old(cookies[|cookies| - 1]).Reset(unordered)]
      ensures AnyBlocked(cookies) == AnyBusy(cookies) == AnyBusy(old(cookies[..|cookies| - 1]))
      ensures MayAdd(cookies) && sendQueue == queue
    {
      hide Holds, Accounted, Overtakable, OrderedSoFar, AllFollow;
      sendQueue := queue;
      var k := |cookies| - 1;
      ghost var rest, log0 := cookies[..k], log;
      log := log.AddArrival(a);
      cookies := cookies[k := cookies[k].Reset(unordered)];
      assert cookies == rest + [cookies[k]];
      RefusedKeepsInv(rest, cookies[k], log0, unordered, a);
      OrderedAfterArrival(everUnordered, unordered, log0.arrivals, a);
      BusyAndBlocked(cookies, unordered);
      assert cookies[..k] == rest;
    }

    /** The next command gets a cookie: initialize() points it at the head of the input, and
        validate() judges the frame and may turn it into a barrier. */
    method TakeFrame(j: Judgement) returns (a: Arrival)
      requires Inv(cookies, log, unordered) && log.dropped == {} && NextFrame(input).Complete?
      requires AnyBlocked(cookies) == AnyBusy(cookies) && MayAdd(cookies)
      modifies this`cookies, this`nextCookie
      ensures |cookies| == |old(cookies)| + (if old(cookies[|cookies| - 1].Busy()) then 1 else 0)
      ensures Open(cookies[..|cookies| - 1], log, unordered)
      ensures AnyBusy(cookies[..|cookies| - 1]) == AnyBusy(old(cookies))
      ensures cookies[0].id == old(cookies[0].id)
      ensures a.frame == input[..NextFrame(input).size]
      ensures var c := cookies[|cookies| - 1];
              && !c.blocked && c.packet.Borrowed? && c.command == |log.arrivals| && (c.reorder ==> unordered)
              && (a.verdict.Accepted? ==> a.verdict.barrier == !c.reorder)
      ensures a.verdict == Judged(input[0], unordered, j) && Follow(a, Term(j, unordered))
      ensures cookies[..|cookies| - 1] ==
              if old(cookies[|cookies| - 1].Busy()) then old(cookies) else old(cookies[..|cookies| - 1])
    {
      hide Inv, Open, AnyBlocked, AnyBusy, MayAdd;
      EmplaceCookie();
      var k := |cookies| - 1;
      var drainSize := NextFrame(input).size;
      var valid, barrier, limit := j.valid, j.barrier, j.limit;
      if IsResponseMagic(input[0]) {
        valid, barrier, limit := true, false, Unlimited;
      }
      ghost var rest := cookies[..k];
      cookies := cookies[k := Cookie(cookies[k].id, |log.arrivals|, Borrowed(drainSize), unordered && !barrier, false,
                                     cookies[k].refcount)];
      assert cookies[..k] == rest;
      a := Arrival(input[..drainSize],
                   if !valid then Rejected else if limit != Unlimited then Throttled
                   else Accepted(!cookies[k].reorder));
    }

    /** The frame at the head of the input is judged, and executed, queued or refused. */
    method Handle(active: bool, limits: Limits, ch: Choice) returns (a: Arrival, active': bool, stop: bool)
      requires Ready(active) && MayAdd(cookies) && NextFrame(input).Complete? && state == Running
      modifies this`cookies, this`nextCookie, this`log, this`state, this`unordered, this`kind, this`maxReqs,
               this`sendQueue, this`everUnordered, this`numEvents
      ensures Inv(cookies, log, unordered) && log.dropped == {} && OrderedSoFar(everUnordered, unordered, log.arrivals)
      ensures active' == AnyBlocked(cookies) == AnyBusy(cookies) && (state == Running || state == Closing)
      ensures Compatible(kind, unordered)
      ensures log.arrivals == old(log.arrivals) + [a] && a.frame == input[..NextFrame(input).size]
      ensures |cookies| == |old(cookies)| + (if old(cookies[|cookies| - 1].Busy()) then 1 else 0)
      ensures cookies[0].id == old(cookies[0].id)
      ensures if a.verdict.Accepted? then
                && numEvents == old(numEvents) - 1
                && log.runs == if active && a.verdict.barrier then old(log.runs)
                               else old(log.runs) + [Run(|old(log.arrivals)|, !cookies[|cookies| - 1].Busy())]
              else
                && numEvents == old(numEvents) && log.runs == old(log.runs)
                && cookies[|cookies| - 1].packet.Absent?
      ensures Took(ch, old(input[0]), active, old(cookies), cookies, old(Now()), Now())
      ensures Follow(a, Term(ch.judgement, old(unordered)))
      // a frame that is refused is answered, and the connection is closed if there are too many
      ensures !a.verdict.Accepted? ==>
                && sendQueue == ch.judgement.queue && unordered == old(unordered) && kind == old(kind)
                && state == (if a.verdict.Throttled? && ch.judgement.limit == Connections then Closing else old(state))
                && !stop
      ensures a.verdict.Accepted? ==>
                (stop <==> if cookies[|cookies| - 1].Busy() then a.verdict.barrier
                           else kind == Normal && sendQueue >= limits.maxSendQueue)
      ensures !stop ==> MayAdd(cookies)
      ensures stop ==> !MayAdd(cookies) || (kind == Normal && sendQueue >= limits.maxSendQueue)
    {
      hide Inv, Open, NextFrame, OrderedSoFar, AllFollow, Wire, AnyBlocked, AnyBusy, MayAdd, Judged, Compatible, Follow;
      a := TakeFrame(ch.judgement);
      if a.verdict.Accepted? {
        active', stop := Dispatch(active, a, limits, ch.outcome);
        numEvents := numEvents - 1;
      } else {
        active', stop := active, false;
        if a.verdict.Throttled? && ch.judgement.limit == Connections {
          state := Closing;
        }
        Refuse(a, ch.judgement.queue);
      }
    }

    /** One round of the read loop: a frame is handled, then drained. */
    method HandlePacket(active: bool, limits: Limits, ch: Choice) returns (active': bool, stop: bool)
      requires Ready(active) && MayAdd(cookies) && NextFrame(input).Complete? && state == Running
      modifies this`cookies, this`nextCookie, this`input, this`terms, this`log, this`state, this`unordered, this`kind,
               this`maxReqs, this`sendQueue, this`everUnordered, this`numEvents
      ensures Ready(active')
      ensures |log.arrivals| == |old(log.arrivals)| + 1 && log.arrivals[..|old(log.arrivals)|] == old(log.arrivals)
      ensures log.arrivals[|old(log.arrivals)|].frame == old(input[..NextFrame(input).size])
      ensures input == old(input[NextFrame(input).size..])
      ensures var verdict := log.arrivals[|old(log.arrivals)|].verdict;
              if verdict.Accepted? then
                && numEvents == old(numEvents) - 1
                && log.runs == if active && verdict.barrier then old(log.runs)
                               else old(log.runs) + [Run(|old(log.arrivals)|, !cookies[|cookies| - 1].Busy())]
              else
                && numEvents == old(numEvents) && log.runs == old(log.runs)
                && cookies[|cookies| - 1].packet.Absent?
      ensures Took(ch, old(input[0]), active, old(cookies), cookies, old(Now()), Now())
      ensures terms == old(terms) + [Term(ch.judgement, old(unordered))]
      ensures var verdict := log.arrivals[|old(log.arrivals)|].verdict;
              !verdict.Accepted? ==>
                state == if verdict.Throttled? && ch.judgement.limit == Connections then Closing else old(state)
      ensures !stop ==> MayAdd(cookies)
      ensures stop ==> !MayAdd(cookies) || (kind == Normal && sendQueue >= limits.maxSendQueue)
      ensures |cookies| == |old(cookies)| + (if old(cookies[|cookies| - 1].Busy()) then 1 else 0)
      ensures cookies[0].id == old(cookies[0].id)
    {
      hide Inv, Open, NextFrame, OrderedSoFar, AllFollow, Wire, AnyBlocked, AnyBusy, MayAdd;
      var drainSize := NextFrame(input).size;
      var a;
      a, active', stop := Handle(active, limits, ch);
      WireAppend(old(log.arrivals), a);
      AllFollowNext(old(log.arrivals), terms, a, Term(ch.judgement, old(unordered)));
      terms := terms + [Term(ch.judgement, old(unordered))];
      assert a.frame + input[drainSize..] == input;
      input := input[drainSize..];
    }

    /** Room for more output: DCP channels have a limit of their own. */
    predicate SendQueueFull(limits: Limits)
      reads this
    {
      kind == Normal && sendQueue >= limits.maxSendQueue
    }

    /** The input is one frame, and there is room for it. */
    predicate OneFrame(limits: Limits)
      reads this
    {
      && |input| > 0 && |cookies| > 0 && NextFrame(input) == Complete(|input|)
      && !SendQueueFull(limits) && |cookies| < limits.maxActive
    }

    /** The read loop. Frames that are refused cost no budget, but each round drains one. */
    method ReadPackets(active: bool, limits: Limits, oracle: nat -> Choice) returns (active': bool, threw: bool)
      requires Ready(active) && MayAdd(cookies)
      modifies this`cookies, this`nextCookie, this`input, this`terms, this`log, this`state, this`unordered, this`kind,
               this`maxReqs, this`sendQueue, this`everUnordered, this`numEvents
      ensures Ready(active')
      ensures threw ==> PacketAvailable(input, limits.maxPacket).Malformed?
      ensures !threw && PacketAvailable(input, limits.maxPacket).Malformed? ==>
                |cookies| >= limits.maxActive || !MayAdd(cookies) || SendQueueFull(limits)
      ensures old(kind == Normal && sendQueue >= limits.maxSendQueue) ==> unchanged(this)
      ensures old(log.arrivals) <= log.arrivals && old(log.runs) <= log.runs
      ensures |log.runs| - |old(log.runs)| <= old(numEvents) - numEvents
      ensures numEvents < 0 ==> numEvents == old(numEvents)
      ensures |cookies| > 0
      ensures JudgedBy(old(terms), terms, oracle)
      ensures cookies[0].id == old(cookies[0].id) && |cookies| <= Max(|old(cookies)|, limits.maxActive)
      ensures !threw && state == Running && NextFrame(input).Complete? ==>
                numEvents <= 0 || |cookies| >= limits.maxActive || !MayAdd(cookies) || SendQueueFull(limits)
      ensures |log.arrivals| == |old(log.arrivals)| ==> unchanged(this)
      ensures |old(cookies)| >= limits.maxActive || old(numEvents) <= 0 ==> unchanged(this)
      ensures old(OneFrame(limits) && numEvents > 0 && state == Running) ==>
                && input == [] && |log.arrivals| == |old(log.arrivals)| + 1
                && Took(oracle(|old(log.arrivals)|), old(input[0]), active, old(cookies), cookies,
                        old(Now()), Now())
    {
      hide Inv, Wire, OrderedSoFar, Took, JudgedBy, Follow;
      assert JudgedBy(terms, terms, oracle) by { JudgedNothing(terms, oracle); }
      active', threw := active, false;
      ghost var single := OneFrame(limits) && numEvents > 0 && state == Running;
      var stop := SendQueueFull(limits);
      while !stop && |cookies| < limits.maxActive
        invariant Ready(active')
        invariant JudgedBy(old(terms), terms, oracle)
        invariant !stop ==> MayAdd(cookies)
        invariant stop ==> !MayAdd(cookies) || SendQueueFull(limits)
        invariant old(log.arrivals) <= log.arrivals && old(log.runs) <= log.runs
        invariant |log.runs| - |old(log.runs)| <= old(numEvents) - numEvents
        invariant numEvents < 0 ==> numEvents == old(numEvents)
        invariant |cookies| > 0 && cookies[0].id == old(cookies[0].id)
        invariant |cookies| <= Max(|old(cookies)|, limits.maxActive)
        invariant |log.arrivals| == |old(log.arrivals)| ==> unchanged(this)
        invariant |old(cookies)| >= limits.maxActive || old(numEvents) <= 0 ==> unchanged(this)
        invariant old(kind == Normal && sendQueue >= limits.maxSendQueue) ==> stop && unchanged(this)
        invariant |log.arrivals| == |old(log.arrivals)| ==> active' == active && stop == SendQueueFull(limits)
        invariant single ==>
                    || |log.arrivals| == |old(log.arrivals)|
                    || (input == [] && |log.arrivals| == |old(log.arrivals)| + 1
                        && Took(oracle(|old(log.arrivals)|), old(input[0]), active, old(cookies), cookies,
                                old(Now()), Now()))
        decreases |input|
      {
        var next := PacketAvailable(input, limits.maxPacket);
        if next.Malformed? {
          threw := true;
          return;
        }
        if !(next.Complete? && numEvents > 0 && state == Running) {
          break;
        }
        JudgedNext(old(terms), terms, oracle, Term(oracle(|terms|).judgement, unordered));
        active', stop := HandlePacket(active', limits, oracle(|log.arrivals|));
      }
    }

    lemma ReadyIsValid(active: bool)
      requires Ready(active)
      ensures Valid() && |cookies| > 0
    {
    }

    /** The end of a pass: decide whether the connection waits for the network, for the
        engine, or has more to do right away. */
    method Rearm(active: bool, limits: Limits) returns (threw: bool)
      requires Ready(active)
      modifies this`readEnabled, this`triggered
      ensures Valid()
      ensures threw ==> PacketAvailable(input, limits.maxPacket).Malformed?
      ensures !threw ==>
                (triggered <==> old(triggered) ||
                                (readEnabled && (!active || numEvents == 0) && NextFrame(input).Complete?))
      ensures threw ==> triggered == old(triggered) && readEnabled
      ensures !threw && readEnabled && (!active || numEvents == 0) ==>
                !PacketAvailable(input, limits.maxPacket).Malformed?
      ensures !threw ==>
                (readEnabled <==>
                   && !(kind == Normal && sendQueue >= limits.maxSendQueue)
                   && (!active || (MayAdd(cookies) && |cookies| < limits.maxActive)))
    {
      hide Inv, Wire, OrderedSoFar, AllFollow;
      threw := false;
      ReadyIsValid(active);
      if !SendQueueFull(limits) && (!active || (cookies[|cookies| - 1].reorder && |cookies| < limits.maxActive)) {
        readEnabled := true;
        if !active || numEvents == 0 {
          var next := PacketAvailable(input, limits.maxPacket);
          if next.Malformed? {
            threw := true;
            return;
          }
          if next.Complete? {
            triggered := true;
          }
        }
      } else {
        readEnabled := false;
      }
    }

    /** How a pass leaves a connection that goes on: it will be called again if there is something to
        take, everything that may be taken was, and a bad header that was looked at does not stay. */
    ghost predicate Attended(limits: Limits)
      reads this
    {
      && (if readEnabled then NextFrame(input).Complete? ==> triggered
          else AnyBlocked(cookies) || SendQueueFull(limits))
      && (NextFrame(input).Complete? || PacketAvailable(input, limits.maxPacket).Malformed? ==>
            || |cookies| >= limits.maxActive || !MayAdd(cookies) || SendQueueFull(limits)
            || (numEvents <= 0 && NextFrame(input).Complete?))
      && (triggered ==> NextFrame(input).Complete?)
    }

    /** The rest of a pass: new commands are read, unless what is in flight forbids it. */
    method ReadAndRearm(active: bool, limits: Limits, oracle: nat -> Choice) returns (threw: bool)
      requires Ready(active) && |cookies| > 0
      requires numEvents >= 0 || !active || !cookies[|cookies| - 1].reorder
      modifies this`cookies, this`nextCookie, this`input, this`terms, this`log, this`state, this`unordered, this`kind,
               this`maxReqs, this`sendQueue, this`everUnordered, this`numEvents, this`readEnabled, this`triggered
      ensures Valid() && (state == Running || state == Closing) && log.dropped == {}
      ensures threw ==> PacketAvailable(input, limits.maxPacket).Malformed?
      ensures JudgedBy(old(terms), terms, oracle)
      // a header that was looked at and is bad shows
      ensures !threw && PacketAvailable(input, limits.maxPacket).Malformed? ==>
                |cookies| >= limits.maxActive || !MayAdd(cookies) || SendQueueFull(limits)
      // another callback is asked for only if there is a frame to take
      ensures triggered ==> old(triggered) || NextFrame(input).Complete?
      ensures old(log.arrivals) <= log.arrivals && old(log.runs) <= log.runs
      ensures |log.runs| - |old(log.runs)| <= old(numEvents) - numEvents
      ensures numEvents < 0 ==> numEvents == old(numEvents)
      ensures |cookies| > 0 && cookies[0].id == old(cookies[0].id) && |cookies| <= Max(|old(cookies)|, limits.maxActive)
      ensures !threw && state == Running ==>
                if readEnabled then NextFrame(input).Complete? ==> triggered
                else AnyBlocked(cookies) || SendQueueFull(limits)
      ensures !threw && state == Running && NextFrame(input).Complete? ==>
                numEvents <= 0 || |cookies| >= limits.maxActive || !MayAdd(cookies) || SendQueueFull(limits)
      ensures |old(cookies)| >= limits.maxActive ==> |log.arrivals| == |old(log.arrivals)|
      ensures |log.arrivals| == |old(log.arrivals)| ==>
                cookies == old(cookies) && log == old(log) && input == old(input) && state == old(state)
                && kind == old(kind) && sendQueue == old(sendQueue) && numEvents == old(numEvents)
                && maxReqs == old(maxReqs)
      ensures old(OneFrame(limits) && numEvents > 0 && MayAdd(cookies) && state == Running) ==>
                && input == [] && |log.arrivals| == |old(log.arrivals)| + 1
                && Took(oracle(|old(log.arrivals)|), old(input[0]), active, old(cookies), cookies,
                        old(Now()), Now())
    {
      hide Inv, Wire, OrderedSoFar, AllFollow, NextFrame, Took;
      var active', failed := active, false;
      if !active || cookies[|cookies| - 1].reorder {
        active', failed := ReadPackets(active, limits, oracle);
      }
      if failed {
        ReadyIsValid(active');
        return true;
      }
      threw := Rearm(active', limits);
    }

    /** One pass over the pipeline; `threw` when a packet header was malformed. */
    method ExecuteCommandPipeline(limits: Limits, oracle: nat -> Choice, queued: Outcome, dying: bool)
      returns (threw: bool)
      requires Coherent() && state == Running
      modifies this`cookies, this`nextCookie, this`input, this`terms, this`log, this`state, this`unordered, this`kind,
               this`maxReqs, this`sendQueue, this`everUnordered, this`numEvents, this`readEnabled, this`triggered
      ensures Valid() && (state == Running || state == Closing) && log.dropped == {}
      ensures threw ==> PacketAvailable(input, limits.maxPacket).Malformed?
      ensures JudgedBy(old(terms), terms, oracle)
      // a header that was looked at and is bad shows
      ensures !threw && !dying && PacketAvailable(input, limits.maxPacket).Malformed? ==>
                |cookies| >= limits.maxActive || !MayAdd(cookies) || SendQueueFull(limits)
      // another callback is asked for only if there is a frame to take
      ensures triggered ==> old(triggered) || NextFrame(input).Complete?
      ensures old(log.arrivals) <= log.arrivals && old(log.runs) <= log.runs
      // the budget pays for every execute()
      ensures old(maxReqs) >= 1 ==> 0 <= numEvents && |log.runs| - |old(log.runs)| <= old(maxReqs) - numEvents
      // the front cookie stays, and the deque grows to the limit only
      ensures |cookies| > 0 && cookies[0].id == old(cookies[0].id) && |cookies| <= Max(|old(cookies)|, limits.maxActive)
      // no lost wakeup
      ensures !threw && state == Running ==>
                if readEnabled then NextFrame(input).Complete? ==> triggered
                else AnyBlocked(cookies) || SendQueueFull(limits)
      // everything that may be read is read
      ensures !threw && state == Running && NextFrame(input).Complete? ==>
                numEvents <= 0 || |cookies| >= limits.maxActive || !MayAdd(cookies) || SendQueueFull(limits)
      // an idle pipeline takes a frame exactly when the deque is below the limit
      ensures !threw && state == Running && old(maxReqs) >= 1 && !AnyBusy(old(cookies))
              && old(NextFrame(input).Complete? && !SendQueueFull(limits)) ==>
                (|log.arrivals| > |old(log.arrivals)| <==> |old(cookies)| < limits.maxActive)
      // and otherwise stays as it is
      ensures !dying && !AnyBusy(old(cookies)) && |old(cookies)| >= limits.maxActive ==>
                && cookies == old(cookies) && log == old(log) && input == old(input) && state == old(state)
                && kind == old(kind) && sendQueue == old(sendQueue) && maxReqs == old(maxReqs)
                && (!threw && !SendQueueFull(limits) && NextFrame(input).Complete? ==> triggered)
      ensures !threw && state == Running && !old(triggered) ==> Attended(limits)
      // a connection whose bucket is going away is closed, and executes nothing behind a blocked command
      ensures dying ==> state == Closing
      ensures dying && AnyBlocked(old(cookies)) ==>
                && cookies == old(cookies) && log == old(log) && state == Closing && kind == old(kind)
                && sendQueue == old(sendQueue)
      // a single frame that may start is executed
      ensures !dying && old(maxReqs >= 1 && OneFrame(limits) && Accepting(cookies)) ==>
                && input == [] && |log.arrivals| == |old(log.arrivals)| + 1
                && Took(oracle(|old(log.arrivals)|), old(input[0]), AnyBusy(old(cookies)), old(cookies), cookies,
                        old(Now()), Now())
    {
      hide Inv, Wire, OrderedSoFar, AllFollow, NextFrame, Took;
      threw := false;
      numEvents := maxReqs;
      var active := ProcessAllReadyCookies(queued);
      assert !AnyBusy(old(cookies)) ==> !active;
      if dying {
        state := Closing;
        ReadyIsValid(active);
        return;
      }
      threw := ReadAndRearm(active, limits, oracle);
    }

    /** The engine's completion of a blocked command: it is executed once more, and retired if
        it completes. The front cookie is reset, any other one erased. A notification for a
        cookie that is not in use makes execute() throw, and that is all. */
    method ProcessNotifiedCookie(k: nat, o: Outcome)
      requires Valid() && k < |cookies| && !cookies[k].Queued()
      modifies this`cookies, this`log, this`state, this`unordered, this`kind, this`maxReqs, this`sendQueue,
               this`everUnordered, this`triggered
      ensures Valid()
      ensures !old(cookies[k]).blocked ==> unchanged(this)
      ensures old(cookies[k]).blocked ==>
                && log == old(log).AddRun(Run(old(cookies[k].command), o.done))
                && state == (if o.stop then Closing else old(state)) && sendQueue == o.queue && maxReqs == o.maxReqs
                && unordered == (if old(cookies[k].reorder) then old(unordered) else o.unordered)
                && kind == (if old(cookies[k].reorder) then old(kind) else o.kind)
                && if o.done then
                     && triggered
                     && if k == 0
                        then && cookies == old(cookies)[0 := cookies[0]]
                             && cookies[0].packet == Absent && !cookies[0].blocked
                        else cookies == Erase(old(cookies), k)
                   else cookies == old(cookies)[k := old(cookies[k]).(refcount := o.references)]
                        && triggered == old(triggered)
      ensures cookies[0].id == old(cookies[0].id) && 1 <= |cookies| <= |old(cookies)|
      ensures input == old(input)
    {
      hide Inv, OrderedSoFar, AllFollow, Wire, AnyBlocked;
      if cookies[k].blocked { BlockedIsBusy(cookies, k, log, unordered); }
      if !cookies[k].Busy() {
        return;
      }
      ghost var before, log0, mode := cookies, log, unordered;
      cookies := cookies[k := cookies[k].(blocked := false)];
      Execute(k, o);
      OrderedAfterRun(old(everUnordered), mode, unordered, log0.arrivals);
      if o.done {
        if k == 0 {
          ResetKeepsInv(before, 0, cookies[0].Reset(unordered), log0, mode, unordered);
          cookies := cookies[0 := cookies[0].Reset(unordered)];
          assert cookies == before[0 := cookies[0]];
        } else {
          EraseKeepsInv(before, k, log0, mode, unordered);
          cookies := Erase(cookies, k);
          assert cookies == Erase(before, k);
        }
        triggered := true;
      } else {
        BlockedKeepsInv(before, k, cookies[k].refcount, log0, mode, unordered);
        assert cookies == before[k := before[k].(blocked := true, refcount := cookies[k].refcount)];
        SomeBlocked(cookies, k);
      }
    }

    /** Output that still has to be sent, unless the client was given up on. */
    predicate PendingData()
      reads this
    {
      !sendTerminated && sendQueue != 0
    }

    /** The loop of close(): count references and reset cookies, up to and including the first
        blocked one, which is left alone. */
    method ReleaseCookies() returns (rc: nat, ewb: bool)
      requires Inv(cookies, log, unordered)
      modifies this`cookies, this`log
      ensures Inv(cookies, log, unordered) && |cookies| == |old(cookies)|
      ensures ewb == AnyBlocked(old(cookies)) == AnyBlocked(cookies)
      ensures rc == refcount + CountedReferences(old(cookies))
      ensures if ewb then log == old(log) else !AnyBusy(cookies)
      ensures log.runs == old(log.runs) && log.arrivals == old(log.arrivals) && old(log.dropped) <= log.dropped
      ensures forall j :: 0 <= j < |cookies| ==>
                cookies[j].id == old(cookies[j].id) && cookies[j].refcount == old(cookies[j].refcount)
    {
      hide Holds, Accounted, CountedReferences, Overtakable;
      assert cookies[0..] == cookies;
      CountedNext(cookies, 0);
      ewb := false;
      rc := refcount;
      var i := 0;
      ghost var before := cookies;
      while i < |cookies|
        invariant 0 <= i <= |cookies| && !ewb
        invariant |cookies| == |before| > 0 && Inv(cookies, log, unordered)
        invariant forall j :: 0 <= j < |before| ==>
                  cookies[j] == if j < i then before[j].Reset(unordered) else before[j]
        invariant forall j :: 0 <= j < i ==> !before[j].blocked
        invariant rc + CountedReferences(before[i..]) == refcount + CountedReferences(before)
        invariant log == old(log) || !AnyBlocked(before)
        invariant log.runs == old(log.runs) && log.arrivals == old(log.arrivals) && old(log.dropped) <= log.dropped
      {
        CountedNext(before, i);
        rc := rc + cookies[i].refcount;
        if cookies[i].blocked {
          ewb := true;
          assert before[i].blocked;
          break;
        } else {
          DropKeepsInv(cookies, i, log, unordered);
          if cookies[i].Busy() {
            QueuedIsLast(cookies, i, unordered);
            log := log.(dropped := log.dropped + {cookies[i].command});
          }
          cookies := cookies[i := cookies[i].Reset(unordered)];
        }
        i := i + 1;
      }
    }

    /** Connection::close(): drop what was not started, and destroy the connection only when
        nobody refers to it any more. */
    method Close()
      requires Coherent() && state != Running
      modifies this`cookies, this`log, this`state, this`readEnabled
      ensures Valid() && |cookies| == |old(cookies)| && cookies[0].id == old(cookies[0].id)
      ensures state == PendingClose || state == ImmediateClose
      ensures readEnabled == (old(readEnabled) && old(state) != Closing)
      ensures state == ImmediateClose <==>
                && refcount + CountedReferences(old(cookies)) <= 1
                && (kind != Normal || !AnyBlocked(old(cookies)))
                && (sendTerminated || sendQueue == 0)
      ensures if AnyBlocked(old(cookies)) then log == old(log) && AnyBlocked(cookies) else !AnyBusy(cookies)
      ensures log.runs == old(log.runs) && log.arrivals == old(log.arrivals) && old(log.dropped) <= log.dropped
      ensures state == ImmediateClose ==> refcount == 1 && Unreferenced(cookies)
    {
      hide Holds, Accounted, OrderedSoFar, AllFollow, Wire, Overtakable;
      AllCounted(cookies, log, unordered);
      var rc, ewb := ReleaseCookies();
      if state == Closing {
        readEnabled := false;
      }
      if kind != Normal {
        ewb := false;
      }
      if rc > 1 || ewb || PendingData() {
        state := PendingClose;
      } else {
        state := ImmediateClose;
      }
    }

    /** The DCP part of a callback: let the engine produce messages within the budget.
        `asked` counts how often it was asked to, and `steps` how often it did. */
    method StepDcp(limits: Limits, dcp: nat -> DcpStep) returns (steps: nat, asked: nat)
      requires Valid() && state == Running && kind != Normal && |cookies| > 0 && !cookies[0].Busy()
      modifies this`cookies, this`numEvents, this`sendQueue, this`state, this`triggered
      ensures Valid() && (state == Running || state == Closing)
      ensures cookies == old(cookies)[0 := old(cookies[0]).Reset(unordered)]
      ensures kind == Consumer ==> steps <= maxReqs
      ensures kind == Producer ==> steps <= Max(0, old(numEvents))
      ensures forall i :: 0 <= i < steps ==> dcp(i).success
      ensures state == Closing ==> !dcp(steps).success && !dcp(steps).wouldBlock
      ensures numEvents == (if kind == Consumer then maxReqs else old(numEvents)) - steps
      ensures steps <= asked <= steps + 1 && (asked > steps ==> !dcp(steps).success)
      ensures sendQueue == if asked == 0 then old(sendQueue) else dcp(asked - 1).queue
      // it goes on for as long as there is a message, room for it and budget
      ensures state == Running && sendQueue < limits.dcpMaxQueue
              && steps < (if kind == Consumer then maxReqs else Max(0, old(numEvents))) ==>
                !dcp(steps).success && dcp(steps).wouldBlock
      ensures triggered <==> old(triggered) || (state == Running && sendQueue < limits.dcpMaxQueue && numEvents == 0)
    {
      hide Inv, Wire, OrderedSoFar, AllFollow, AnyBlocked;
      ResetUnusedFront(cookies, log, unordered);
      cookies := cookies[0 := cookies[0].Reset(unordered)];
      if kind == Consumer {
        numEvents := maxReqs;
      }
      var more;
      steps, asked, more := Produce(limits, dcp);
      if more && numEvents == 0 {
        triggered := true;
      }
    }

    /** The loop: `more` is whether there may be another message and there is room for it. */
    method Produce(limits: Limits, dcp: nat -> DcpStep) returns (steps: nat, asked: nat, more: bool)
      requires state == Running
      modifies this`numEvents, this`sendQueue, this`state
      ensures state == Running || (state == Closing && !dcp(steps).success && !dcp(steps).wouldBlock)
      ensures steps <= Max(0, old(numEvents)) && numEvents == old(numEvents) - steps
      ensures forall i :: 0 <= i < steps ==> dcp(i).success
      ensures steps <= asked <= steps + 1 && (asked > steps ==> !dcp(steps).success)
      ensures sendQueue == if asked == 0 then old(sendQueue) else dcp(asked - 1).queue
      ensures state == Running && sendQueue < limits.dcpMaxQueue && numEvents > 0 ==>
                !dcp(steps).success && dcp(steps).wouldBlock
      ensures numEvents == 0 ==> (more <==> state == Running && sendQueue < limits.dcpMaxQueue)
    {
      steps, asked := 0, 0;
      more := sendQueue < limits.dcpMaxQueue;
      while more && numEvents > 0
        invariant steps == old(numEvents) - numEvents && (numEvents >= 0 || steps == 0)
        invariant state == Running || (state == Closing && !more && !dcp(steps).success && !dcp(steps).wouldBlock)
        invariant forall i :: 0 <= i < steps ==> dcp(i).success
        invariant steps <= asked <= steps + 1 && (asked > steps ==> !more && !dcp(steps).success && numEvents > 0)
        invariant sendQueue == if asked == 0 then old(sendQueue) else dcp(asked - 1).queue
        invariant more ==> sendQueue < limits.dcpMaxQueue
        invariant !more && state == Running && sendQueue < limits.dcpMaxQueue ==>
                    numEvents > 0 && !dcp(steps).success && dcp(steps).wouldBlock
        decreases more, numEvents
      {
        var step := dcp(steps);
        asked := steps + 1;
        sendQueue := step.queue;
        if step.success {
          more := sendQueue < limits.dcpMaxQueue;
          numEvents := numEvents - 1;
          steps := steps + 1;
        } else {
          more := false;
          if !step.wouldBlock {
            state := Closing;
          }
        }
      }
    }

    /** The end of a callback of a connection that is going down. */
    method Teardown() returns (alive: bool)
      requires Coherent() && state != Running && state != ImmediateClose
      modifies this`cookies, this`log, this`state, this`readEnabled
      ensures Valid() && |cookies| == |old(cookies)| && cookies[0].id == old(cookies[0].id)
      ensures log.runs == old(log.runs) && log.arrivals == old(log.arrivals)
      ensures state == if alive then PendingClose else ImmediateClose
      ensures old(state) == Closing && kind != Normal && !PendingData()
              && refcount + CountedReferences(old(cookies)) <= 1 ==>
                !alive
      ensures AnyBlocked(old(cookies)) ==> AnyBlocked(cookies)
      ensures !alive ==> refcount == 1 && Unreferenced(cookies)
    {
      hide Inv, Wire, OrderedSoFar, AllFollow, AnyBlocked, AnyBusy;
      if state == Closing {
        Close();
      }
      if state == PendingClose {
        Close();
      }
      alive := state != ImmediateClose;
    }

    /** A single frame opens a DCP channel, or arrives on one, with nothing in flight, and the
        engine has no message to send. */
    ghost predicate Alone(limits: Limits, ch: Choice, dcp: nat -> DcpStep)
      reads this
    {
      && OneFrame(limits) && |cookies| == 1 && !cookies[0].Busy() && Accepting(cookies) && !unordered && maxReqs >= 1
      && Judged(input[0], false, ch.judgement).Accepted?
      && !ch.outcome.stop && ch.outcome.kind != Normal && ch.outcome.queue == 0 && dcp(0) == DcpStep(false, true, 0)
    }

    /** And that is what becomes of it. */
    ghost predicate Served(o: Outcome)
      reads this
    {
      && state == Running && input == [] && |cookies| == 1 && Mode(false, o.kind, Running, 0, o.maxReqs) == Now()
      && cookies[0].Busy() == cookies[0].blocked == !o.done && (!o.done ==> cookies[0].refcount == o.references)
    }

    lemma AloneIsTaken(ch: Choice, magic: byte, before: seq<Cookie>, m: Mode)
      requires |before| == 1 && !before[0].Busy() && !AnyBusy(before) && !m.unordered
      requires Judged(magic, false, ch.judgement).Accepted? && !ch.outcome.stop && ch.outcome.kind != Normal
      requires ch.outcome.queue == 0 && Took(ch, magic, AnyBusy(before), before, cookies, m, Now()) && input == []
      ensures Served(ch.outcome)
    {
    }

    /** A DCP channel whose front cookie is not in use lets the engine produce messages. */
    method ServeDcp(limits: Limits, dcp: nat -> DcpStep) returns (dcpSteps: nat)
      requires Valid() && |cookies| > 0 && (state == Running || state == Closing)
      modifies this`cookies, this`numEvents, this`sendQueue, this`state, this`triggered
      ensures Valid() && (state == Running || state == Closing)
      ensures old(kind == Normal || state != Running || cookies[0].Busy()) ==> unchanged(this) && dcpSteps == 0
      ensures old(kind != Normal && state == Running && !cookies[0].Busy()) ==>
                && cookies == old(cookies)[0 := old(cookies[0]).Reset(unordered)]
                && (kind == Consumer ==> dcpSteps <= maxReqs)
                && (kind == Producer ==> dcpSteps <= Max(0, old(numEvents)))
                && (state == Closing ==> !dcp(dcpSteps).success && !dcp(dcpSteps).wouldBlock)
                && (dcpSteps > 0 ==> dcp(0).success)
                && (old(sendQueue) == 0 == dcp(0).queue && dcpSteps == 0 ==> sendQueue == 0)
                && (state == Running && sendQueue < limits.dcpMaxQueue ==>
                      if numEvents > 0 then !dcp(dcpSteps).success else numEvents == 0 ==> triggered)
    {
      hide Inv, Wire, OrderedSoFar, AnyBlocked, AllFollow;
      dcpSteps := 0;
      if kind != Normal && state == Running {
        if !cookies[0].Busy() {
          var asked;
          dcpSteps, asked := StepDcp(limits, dcp);
        }
      }
    }

    /** The part of a callback while the connection is running. */
    method Serve(limits: Limits, oracle: nat -> Choice, queued: Outcome, dcp: nat -> DcpStep, dying: bool)
      returns (dcpSteps: nat)
      requires Coherent() && state == Running && !triggered
      modifies this`cookies, this`nextCookie, this`input, this`terms, this`log, this`state, this`unordered,
               this`kind, this`maxReqs, this`sendQueue, this`everUnordered, this`numEvents, this`readEnabled,
               this`triggered
      ensures Valid() && (state == Running || state == Closing)
      ensures cookies[0].id == old(cookies[0].id) && |cookies| <= Max(|old(cookies)|, limits.maxActive)
      ensures old(maxReqs) >= 1 ==>
                |log.runs| - |old(log.runs)| + dcpSteps <= old(maxReqs) + if kind == Consumer then maxReqs else 0
      ensures JudgedBy(old(terms), terms, oracle)
      ensures old(log.arrivals) <= log.arrivals && old(log.runs) <= log.runs
      ensures old(Starved(limits)) && !dying ==>
                Starved(limits) && triggered && log == old(log) && input == old(input) && cookies == old(cookies)
      ensures !dying && old(maxReqs >= 1 && OneFrame(limits) && Accepting(cookies))
              && Starts(oracle(|old(log.arrivals)|), old(input[0]), AnyBusy(old(cookies)), old(Now())) ==>
                && state == Running && input == [] && |log.arrivals| == |old(log.arrivals)| + 1
                && Took(oracle(|old(log.arrivals)|), old(input[0]), AnyBusy(old(cookies)), old(cookies), cookies,
                        old(Now()), Now())
      ensures !dying && old(Alone(limits, oracle(|log.arrivals|), dcp)) ==>
                Served(oracle(|old(log.arrivals)|).outcome) && |log.arrivals| == |old(log.arrivals)| + 1
      ensures dying && AnyBlocked(old(cookies)) ==>
                cookies == old(cookies) && state == Closing && kind == old(kind) && sendQueue == old(sendQueue)
      ensures dying ==> state == Closing
      ensures state == Running && kind == Normal ==> Attended(limits)
      // the engine of a DCP channel was asked until it had nothing to send, or will be asked again
      ensures state == Running && kind != Normal && !cookies[0].Busy() && sendQueue < limits.dcpMaxQueue ==>
                if numEvents > 0 then !dcp(dcpSteps).success else numEvents == 0 ==> triggered
    {
      hide Inv, Wire, OrderedSoFar, AnyBlocked, AnyBusy, NextFrame, MayAdd, Took, Starts, Accepting, Attended;
      hide AllFollow, JudgedBy;
      var threw := ExecuteCommandPipeline(limits, oracle, queued, dying);
      ghost var ch := oracle(|old(log.arrivals)|);
      if !dying && old(maxReqs >= 1 && OneFrame(limits) && Accepting(cookies))
         && Starts(ch, old(input[0]), AnyBusy(old(cookies)), old(Now())) {
        StartsAndRuns(ch, old(input[0]), AnyBusy(old(cookies)), old(cookies), cookies, old(Now()), Now());
        NothingIsNotMalformed(limits.maxPacket);
      }
      if !dying && old(Alone(limits, oracle(|log.arrivals|), dcp)) {
        SingleIsIdle(old(cookies));
        AloneIsTaken(ch, old(input[0]), old(cookies), old(Now()));
        NothingIsNotMalformed(limits.maxPacket);
      }
      hide Connection.Alone, Judged;
      if threw {
        state := Closing;
      }
      dcpSteps := ServeDcp(limits, dcp);
    }

    /** One callback. `dcpSteps` counts the DCP messages produced; the connection is to be
        deleted when it is not `alive` any more. */
    method ExecuteCommandsCallback(limits: Limits, oracle: nat -> Choice, queued: Outcome, dcp: nat -> DcpStep,
                                   dying: bool, stuck: bool)
      returns (alive: bool, dcpSteps: nat)
      requires Valid() && state != ImmediateClose
      modifies this`cookies, this`nextCookie, this`input, this`terms, this`log, this`state, this`unordered,
               this`kind, this`maxReqs, this`sendQueue, this`everUnordered, this`numEvents, this`readEnabled,
               this`triggered, this`sendTerminated
      ensures Valid()
      ensures cookies[0].id == old(cookies[0].id) && |cookies| <= Max(|old(cookies)|, limits.maxActive)
      // the time slice
      ensures old(maxReqs) >= 1 ==>
                |log.runs| - |old(log.runs)| + dcpSteps <= old(maxReqs) + if kind == Consumer then maxReqs else 0
      ensures JudgedBy(old(terms), terms, oracle)
      ensures old(log.arrivals) <= log.arrivals && old(log.runs) <= log.runs
      ensures old(state) != Running ==> log.runs == old(log.runs) && log.arrivals == old(log.arrivals)
      ensures alive <==> state != ImmediateClose
      ensures alive ==> state == Running || state == PendingClose
      // a connection that is stuck, or whose bucket is going away, does not stay; one that is stuck
      // executes nothing more and does not wait for its output
      ensures stuck || dying ==> state != Running
      ensures stuck ==> sendTerminated && log.runs == old(log.runs) && log.arrivals == old(log.arrivals)
      ensures !stuck ==> sendTerminated == old(sendTerminated)
      // no lost wakeup, nothing readable left unread, and no bad header that was looked at
      ensures state == Running && kind == Normal ==> Attended(limits)
      // the engine of a DCP channel was asked until it had nothing to send, or will be asked again
      ensures state == Running && kind != Normal && !cookies[0].Busy() && sendQueue < limits.dcpMaxQueue ==>
                if numEvents > 0 then !dcp(dcpSteps).success else numEvents == 0 ==> triggered
      ensures !alive ==> refcount == 1 && Unreferenced(cookies)
      // an idle pipeline at its limit stays as it is, and asks for another callback
      ensures old(Starved(limits)) && !stuck && !dying ==>
                Starved(limits) && triggered && log == old(log) && input == old(input) && cookies == old(cookies)
      // a single frame that may start is executed
      ensures !stuck && !dying && old(maxReqs >= 1 && state == Running && OneFrame(limits) && Accepting(cookies))
              && Starts(oracle(|old(log.arrivals)|), old(input[0]), AnyBusy(old(cookies)), old(Now())) ==>
                && input == [] && |log.arrivals| == |old(log.arrivals)| + 1
                && Took(oracle(|old(log.arrivals)|), old(input[0]), AnyBusy(old(cookies)), old(cookies), cookies,
                        old(Now()), Now())
      ensures !stuck && !dying && old(state == Running && Alone(limits, oracle(|log.arrivals|), dcp)) ==>
                Served(oracle(|old(log.arrivals)|).outcome) && |log.arrivals| == |old(log.arrivals)| + 1
      // a DCP connection that nobody refers to is destroyed with its bucket, whatever is blocked
      ensures !stuck && dying && AnyBlocked(old(cookies))
              && old(state == Running && kind != Normal && !PendingData())
              && old(refcount + CountedReferences(cookies)) <= 1 ==>
                !alive && AnyBlocked(cookies)
    {
      hide Inv, Wire, OrderedSoFar, AllFollow, AnyBlocked, AnyBusy, NextFrame, MayAdd, Took, Starts, Accepting;
      hide CountedReferences, Attended;
      dcpSteps := 0;
      triggered := false;
      if stuck {
        sendTerminated := true;
        state := Closing;
      }
      if state == Running {
        dcpSteps := Serve(limits, oracle, queued, dcp, dying);
      }
      alive := true;
      if state != Running {
        alive := Teardown();
      }
    }

    /** Nothing is in flight, a frame is there and its output has room; but the deque is as
        long as the limit. */
    predicate Starved(limits: Limits)
      reads this
    {
      && state == Running && kind == Normal && maxReqs >= 1 && !AnyBusy(cookies) && NextFrame(input).Complete?
      && !SendQueueFull(limits) && |cookies| >= limits.maxActive
    }

    /** Bytes arrive. */
    method Receive(bytes: seq<byte>)
      requires Valid()
      modifies this`input, this`received
      ensures Valid() && input == old(input) + bytes && received == old(received) + bytes
    {
      hide Inv, OrderedSoFar, AllFollow, Wire;
      assert Wire(log.arrivals) + input + bytes == Wire(log.arrivals) + (input + bytes);
      input := input + bytes;
      received := received + bytes;
    }

    lemma EnvironmentKeepsInv(references: nat -> nat)
      requires Coherent()
      ensures Inv(WithReferences(cookies, references), log, unordered) && |cookies| > 0
      ensures AnyBlocked(cookies) ==> AnyBlocked(WithReferences(cookies, references))
      ensures var cookies' := WithReferences(cookies, references);
              |cookies'| == |cookies| && (cookies'[|cookies| - 1].Queued() <==> cookies[|cookies| - 1].Queued())
    {
      assert |cookies| > 0;
      hide Inv, OrderedSoFar, Wire, AllFollow, AnyBlocked;
      ReferencesKeepInv(cookies, references, log, unordered);
    }

    /** Output is sent, and references to the connection and its cookies come and go. */
    method Environment(queue: nat, references: nat, cookieReferences: nat -> nat)
      requires Valid()
      modifies this`cookies, this`sendQueue, this`refcount
      ensures Valid() && cookies == WithReferences(old(cookies), cookieReferences)
      ensures refcount == Max(1, references) && sendQueue == queue
    {
      EnvironmentKeepsInv(cookieReferences);
      hide Inv, OrderedSoFar, Wire, AnyBlocked, AllFollow, WithReferences;
      sendQueue := queue;
      refcount := Max(1, references);
      cookies := WithReferences(cookies, cookieReferences);
    }

    /** One event of the environment. */
    method Step(e: Event, bound: nat) returns (alive: bool)
      requires Valid() && state != ImmediateClose
      modifies this
      ensures Valid() && |cookies| > 0 && cookies[0].id == old(cookies[0].id) && |cookies| <= Max(|old(cookies)|, bound)
      ensures alive <==> state != ImmediateClose
      ensures received == old(received) + Payload(e)
      ensures e.Callback? && e.limits.maxActive <= bound && state == Running && kind == Normal ==> Attended(e.limits)
      ensures e.Notify? && e.cookie < |old(cookies)| && old(cookies[e.cookie]).blocked ==>
                log == old(log).AddRun(Run(old(cookies[e.cookie]).command, e.outcome.done))
      ensures e.Others? ==> sendQueue == e.queue && refcount == Max(1, e.references)
      ensures if e.Callback? then JudgedBy(old(terms), terms, e.oracle) else terms == old(terms)
      ensures old(log.runs) <= log.runs && old(log.arrivals) <= log.arrivals
    {
      assert |cookies| > 0;
      hide Inv, OrderedSoFar, AllFollow, Wire;
      alive := true;
      match e {
        case Callback(limits, oracle, queued, dcp, dying, stuck) =>
          if limits.maxActive <= bound {
            var steps;
            alive, steps := ExecuteCommandsCallback(limits, oracle, queued, dcp, dying, stuck);
          }
        case Notify(k, o) =>
          if k < |cookies| && !cookies[k].Queued() {
            ProcessNotifiedCookie(k, o);
          }
        case Bytes(bytes) => Receive(bytes);
        case Others(queue, references, cookieReferences) => Environment(queue, references, cookieReferences);
      }
    }
  }

  /** Done, dropped at close or pending in one cookie: one of these, and only one. */
  ghost predicate OneFate(cookies: seq<Cookie>, log: Log, command: nat) {
    && (log.Finished(command) || command in log.dropped || Pending(cookies, command))
    && !(log.Finished(command) && command in log.dropped)
    && !(log.Finished(command) && Pending(cookies, command))
    && !(command in log.dropped && Pending(cookies, command))
    && (forall i, j :: 0 <= i < j < |cookies| && cookies[i].Busy() && cookies[j].Busy() ==>
          !(cookies[i].command == command == cookies[j].command))
  }

  /** What the invariant of a connection amounts to for its clients. */
  ghost predicate Promises(cookies: seq<Cookie>, log: Log, everUnordered: bool) {
    // barriers are never overtaken and never overtake
    && log.BarrierOrder()
    // in order execution unless the client asked for something else
    && (!everUnordered ==> StrictFifo(log))
    // every command accepted has one fate, and one cookie at most
    && (forall i: nat :: log.IsAccepted(i) ==> OneFate(cookies, log, i))
    // and every pending one a private copy of its frame
    && (forall i :: 0 <= i < |cookies| && cookies[i].Busy() ==>
          log.IsAccepted(cookies[i].command) && cookies[i].packet == Owned(log.arrivals[cookies[i].command].frame))
  }

  lemma HasOneFate(cookies: seq<Cookie>, log: Log, unordered: bool, command: nat)
    requires Inv(cookies, log, unordered) && log.IsAccepted(command)
    ensures OneFate(cookies, log, command)
  {
    ExactlyOneFate(cookies, log, unordered, command);
    hide Inv;
  }

  lemma InvKeepsPromises(cookies: seq<Cookie>, log: Log, unordered: bool, everUnordered: bool)
    requires Inv(cookies, log, unordered) && OrderedSoFar(everUnordered, unordered, log.arrivals)
    ensures Promises(cookies, log, everUnordered)
  {
    hide Shape, OneFate;
    forall i: nat | log.IsAccepted(i) ensures OneFate(cookies, log, i) {
      HasOneFate(cookies, log, unordered, i);
    }
    if !everUnordered {
      assert forall i: nat :: log.IsAccepted(i) ==> log.arrivals[i] in log.arrivals;
      BarriersOnlyIsFifo(log);
    }
  }

  /** Each arrival was judged by the oracle of one of the callbacks. */
  ghost predicate FromEvents(terms: seq<Term>, events: seq<Event>) {
    forall i: nat :: i < |terms| ==> FromEvent(terms[i].judgement, i, events)
  }

  ghost predicate FromEvent(j: Judgement, i: nat, events: seq<Event>) {
    exists k :: 0 <= k < |events| && events[k].Callback? && events[k].oracle(i).judgement == j
  }

  lemma NothingFromEvents(events: seq<Event>)
    ensures FromEvents([], events)
  {
  }

  lemma FromEventsNext(terms: seq<Term>, events: seq<Event>, n: nat, terms': seq<Term>)
    requires n < |events| && FromEvents(terms, events[..n])
    requires if events[n].Callback? then JudgedBy(terms, terms', events[n].oracle) else terms' == terms
    ensures FromEvents(terms', events[..n + 1])
  {
    forall i: nat | i < |terms'| ensures FromEvent(terms'[i].judgement, i, events[..n + 1]) {
      if i < |terms| {
        assert FromEvent(terms[i].judgement, i, events[..n]);
        var k :| 0 <= k < n && events[..n][k].Callback? && events[..n][k].oracle(i).judgement == terms[i].judgement;
        assert events[..n + 1][k] == events[..n][k];
      } else {
        assert events[..n + 1][n] == events[n];
      }
    }
  }

  /** Every run: a new connection, then any callbacks, notifications, network reads, sends and
      reference count changes in any order, with any engine and any settings whose
      concurrency limit stays within `bound`. All of them take effect, unless the connection is
      destroyed after the first `taken`. */
  method Run(maxReqs: nat, bound: nat, events: seq<Event>) returns (c: Connection, taken: nat)
    ensures fresh(c) && c.Valid()
    ensures taken <= |events| && (taken < |events| ==> c.state == ImmediateClose)
    ensures Promises(c.cookies, c.log, c.everUnordered)
    // every byte received is in a drained frame or still in the buffer
    ensures Wire(c.log.arrivals) + c.input == Payloads(events[..taken])
    // a stream of packets is taken apart into those packets
    ensures forall packets :: AllLegal(packets) && Payloads(events[..taken]) <= EncodeAll(packets) ==>
              AreTheFirst(c.log.arrivals, packets)
    // and each of them was judged as one of the callbacks says: in particular an accepted request is
    // a barrier whenever the validator says so
    ensures AllFollow(c.log.arrivals, c.terms) && FromEvents(c.terms, events[..taken])
    // the first cookie is never replaced, and the deque stays within its limit
    ensures 1 <= |c.cookies| <= Max(1, bound) && c.cookies[0].id == 0
    // a queued command always has something that will wake it up
    ensures c.cookies[|c.cookies| - 1].Queued() ==> AnyBlocked(c.cookies) || c.triggered
  {
    hide Inv, OrderedSoFar, Promises, AllFollow, JudgedBy, FromEvent, AllLegal, EncodeAll, Wire, AreTheFirst;
    hide Connection.Attended, FromEvents;
    c := new Connection(maxReqs);
    taken := 0;
    NothingFromEvents(events[..0]);
    while taken < |events| && c.state != ImmediateClose
      invariant taken <= |events| && fresh(c) && c.Valid()
      invariant 1 <= |c.cookies| <= Max(1, bound) && c.cookies[0].id == 0
      invariant c.received == Payloads(events[..taken]) && FromEvents(c.terms, events[..taken])
    {
      assert events[..taken + 1][..taken] == events[..taken];
      ghost var before := c.terms;
      var _ := c.Step(events[taken], bound);
      FromEventsNext(before, events, taken, c.terms);
      taken := taken + 1;
    }
    InvKeepsPromises(c.cookies, c.log, c.unordered, c.everUnordered);
    forall packets | AllLegal(packets) && Payloads(events[..taken]) <= EncodeAll(packets)
      ensures AreTheFirst(c.log.arrivals, packets)
    {
      PacketsAreTaken(c.log.arrivals, c.terms, c.input, packets);
    }
  }

  /** A packet without a body. */
  const PACKET: seq<byte> := [0x80, 0, 0, 0, 0, 0, 0, 0, 0, 0, 0, 0, 0, 0, 0, 0, 0, 0, 0, 0, 0, 0, 0, 0]

  lemma PacketIsComplete(more: seq<byte>)
    ensures NextFrame(PACKET) == Complete(|PACKET|) && NextFrame(PACKET + more) == Complete(|PACKET|)
    ensures !IsResponseMagic(PACKET[0])
  {
    assert BodyLength(PACKET) == 0;
    NextFrameIsStable(PACKET, more);
  }

  /** The three commands of the run below: one that switches to unordered execution, one that
      blocks, and one that completes. */
  function Script(command: nat): Choice {
    if command == 0 then Choice(Judgement(true, true, Unlimited, 0), Effects(true, 0, false, 0, true, Normal, 20))
    else if command == 1 then
      Choice(Judgement(true, false, Unlimited, 0), Effects(false, 0, false, 0, true, Normal, 20))
    else Choice(Judgement(true, false, Unlimited, 0), Effects(true, 0, false, 0, true, Normal, 20))
  }

  function NoMessage(step: nat): DcpStep { DcpStep(false, true, 0) }

  const TWO := Limits(2, 100, 100, 100)

  /** One packet arrives and is executed as the script says. */
  method Command(c: Connection)
    requires c.Valid() && c.state == Running && c.kind == Normal && c.maxReqs >= 1 && c.sendQueue == 0 && c.input == []
    requires Accepting(c.cookies) && |c.cookies| < 2
    requires Starts(Script(|c.log.arrivals|), PACKET[0], AnyBusy(c.cookies), c.Now())
    modifies c
    ensures c.Valid() && c.state == Running && c.input == [] && |c.log.arrivals| == |old(c.log.arrivals)| + 1
    ensures c.kind == Normal && |old(c.cookies)| > 0
    ensures Took(Script(|old(c.log.arrivals)|), PACKET[0], AnyBusy(old(c.cookies)), old(c.cookies), c.cookies,
                 old(c.Now()), c.Now())
  {
    hide Inv, AnyBusy, AnyBlocked, OrderedSoFar, AllFollow, Wire, NextFrame, Took, Starts, Accepting, Script;
    assert |c.cookies| > 0 by { AcceptingIsNotEmpty(c.cookies); }
    PacketIsComplete([]);
    c.Receive(PACKET);
    assert c.input == PACKET;
    var alive, steps := c.ExecuteCommandsCallback(TWO, Script, Script(2).outcome, NoMessage, false, false);
    StartsAndRuns(Script(|old(c.log.arrivals)|), PACKET[0], AnyBusy(old(c.cookies)), old(c.cookies), c.cookies,
                  old(c.Now()), c.Now());
  }

  lemma AcceptingIsNotEmpty(cookies: seq<Cookie>)
    requires Accepting(cookies)
    ensures |cookies| > 0
  {
  }

  lemma SingleIsIdle(cookies: seq<Cookie>)
    requires |cookies| == 1 && !cookies[0].Busy()
    ensures !AnyBusy(cookies)
  {
  }

  lemma IdleAccepts(cookies: seq<Cookie>)
    requires |cookies| > 0 && forall i :: 0 <= i < |cookies| ==> !cookies[i].Busy() && !cookies[i].blocked
    ensures Accepting(cookies) && !AnyBusy(cookies)
  {
  }

  lemma BlockedAccepts(cookies: seq<Cookie>)
    requires |cookies| == 1 && cookies[0].Busy() && cookies[0].blocked && cookies[0].reorder
    ensures Accepting(cookies) && AnyBusy(cookies)
  {
  }

  /** With a limit of two commands: the front cookie blocks, the next command completes behind
      it and leaves an unused cookie, the front is notified. Nothing is in flight, but the two
      cookies are as many as the limit allows, so the next frame is never taken, and every
      callback only asks for another. */
  method TwoCookiesStarve(callbacks: nat) returns (c: Connection)
    ensures c.Valid() && c.Starved(TWO) && c.input == PACKET && |c.cookies| == 2 && |c.log.arrivals| == 3
    ensures callbacks > 0 ==> c.triggered
  {
    hide Inv, OrderedSoFar, AllFollow, Wire, NextFrame;
    c := new Connection(20);
    IdleAccepts(c.cookies);
    // unordered execution is switched on
    Command(c);
    assert |c.cookies| == 1 && !c.cookies[0].Busy() && !c.cookies[0].blocked && c.unordered;
    IdleAccepts(c.cookies);
    // a command blocks in the front cookie
    Command(c);
    assert |c.cookies| == 1 && c.cookies[0].blocked && c.cookies[0].Busy();
    BlockedAccepts(c.cookies);
    // the next one completes behind it
    Command(c);
    assert c.cookies[..1][0] == c.cookies[0];
    // the first one is done
    c.ProcessNotifiedCookie(0, Script(2).outcome);
    assert |c.cookies| == 2 && !c.cookies[0].Busy() && !c.cookies[1].Busy();
    IdleAccepts(c.cookies);
    PacketIsComplete([]);
    c.Receive(PACKET);
    assert c.input == PACKET;
    hide Took, Accepting, AnyBusy, Script, Starts;
    for i := 0 to callbacks
      invariant fresh(c) && c.Valid() && c.Starved(TWO) && c.input == PACKET && |c.cookies| == 2
      invariant |c.log.arrivals| == 3
      invariant i > 0 ==> c.triggered
    {
      var alive, steps := c.ExecuteCommandsCallback(TWO, Script, Script(2).outcome, NoMessage, false, false);
    }
  }

  /** Opening a DCP channel, and a command on it that blocks. */
  function DcpScript(command: nat): Choice {
    Choice(Judgement(true, true, Unlimited, 0), Effects(command == 0, 0, false, 0, false, Producer, 20))
  }

  method DcpCommand(c: Connection)
    requires c.Valid() && c.state == Running && |c.cookies| == 1 && !c.cookies[0].Busy() && !c.cookies[0].blocked
    requires !c.unordered && c.sendQueue == 0 && c.maxReqs >= 1 && c.input == []
    modifies c
    ensures c.Valid() && c.Served(DcpScript(|old(c.log.arrivals)|).outcome) && c.refcount == old(c.refcount)
    ensures |c.log.arrivals| == |old(c.log.arrivals)| + 1
  {
    hide Inv, AnyBlocked, OrderedSoFar, AllFollow, Wire, NextFrame, AnyBusy, Accepting;
    PacketIsComplete([]);
    IdleAccepts(c.cookies);
    c.Receive(PACKET);
    assert c.input == PACKET;
    var alive, steps := c.ExecuteCommandsCallback(TWO, DcpScript, DcpScript(0).outcome, NoMessage, false, false);
  }

  /** A DCP connection is destroyed while the engine still has one of its commands blocked. */
  method BlockedDcpIsDestroyed() returns (c: Connection, alive: bool)
    ensures c.Valid() && c.state == ImmediateClose && !alive && AnyBlocked(c.cookies)
  {
    hide Inv, OrderedSoFar, AllFollow, Wire, NextFrame, Accepting;
    c := new Connection(20);
    DcpCommand(c);
    assert !c.cookies[0].blocked;
    DcpCommand(c);
    assert c.cookies[0].blocked && CountedReferences(c.cookies) == 0;
    var steps;
    alive, steps := c.ExecuteCommandsCallback(TWO, DcpScript, DcpScript(0).outcome, NoMessage, true, false);
  }
}
