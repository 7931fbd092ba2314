/**
 The deque of cookies (command contexts) of a connection, the invariant its out-of-order
 execution rests on, and the lemmas that say each thing the pipeline does keeps it.
 */
module CookieDeque {
  import opened Mcbp
  import opened CommandLog

  /** A cookie's packet points into the input buffer, or at a private copy. */
  datatype Packet = Absent | Borrowed(size: nat) | Owned(bytes: seq<byte>)

  /** `id` is the identity of the object; `command` the arrival number of the command the
      cookie currently holds. */
  datatype Cookie = Cookie(id: nat, command: nat, packet: Packet,
                           reorder: bool, blocked: bool, refcount: nat) {
    predicate Busy() { !packet.Absent? }

    /** Received, but not started: waiting for the commands before it. */
    predicate Queued() { Busy() && !blocked }

    /** Cookie::reset(): the reorder flag starts from the connection's mode. */
    function Reset(unordered: bool): Cookie {
      this.(packet := Absent, blocked := false, reorder := unordered)
    }
  }

  predicate AnyBusy(cookies: seq<Cookie>) {
    exists i :: 0 <= i < |cookies| && cookies[i].Busy()
  }

  predicate AnyBlocked(cookies: seq<Cookie>) {
    exists i :: 0 <= i < |cookies| && cookies[i].blocked
  }

  /** A prefix of the deque behind which a new command may be placed: everything but the
      front is in use, and whatever is in use is blocked in the engine and may be overtaken. */
  ghost predicate Overtakable(cookies: seq<Cookie>, unordered: bool) {
    && (forall i :: 0 < i < |cookies| ==> cookies[i].Busy())
    && (forall i :: 0 <= i < |cookies| && cookies[i].Busy() ==>
          cookies[i].blocked && cookies[i].reorder && unordered)
    && (forall i :: 0 <= i < |cookies| && !cookies[i].Busy() ==> !cookies[i].blocked)
  }

  /** The invariant the code never states: only the last cookie can be anything but blocked
      and overtakable, and a barrier that was started is alone. */
  ghost predicate Shape(cookies: seq<Cookie>, unordered: bool) {
    && |cookies| > 0
    && var rest, back := cookies[..|cookies| - 1], cookies[|cookies| - 1];
    && Overtakable(rest, unordered)
    && (back.blocked ==> back.Busy())
    && (back.Busy() && back.reorder ==> back.blocked && unordered)
    && (AnyBusy(rest) ==> if back.Busy() && !back.reorder then !back.blocked else back.reorder)
  }

  /** Every cookie in use holds its own copy of an accepted frame, the copies are in arrival
      order, and blocked means started. */
  ghost predicate Holds(cookies: seq<Cookie>, log: Log) {
    && (forall i :: 0 <= i < |cookies| && cookies[i].Busy() ==>
          var c := cookies[i];
          && log.IsAccepted(c.command)
          && log.IsBarrier(c.command) == !c.reorder
          && c.packet == Owned(log.arrivals[c.command].frame)
          && c.command !in log.dropped
          && !log.Finished(c.command)
          && c.blocked == log.Started(c.command))
    && (forall i, j :: 0 <= i < j < |cookies| && cookies[i].Busy() && cookies[j].Busy() ==>
          cookies[i].command < cookies[j].command)
  }

  predicate Pending(cookies: seq<Cookie>, command: nat) {
    exists i :: 0 <= i < |cookies| && cookies[i].Busy() && cookies[i].command == command
  }

  /** No accepted command is lost. */
  ghost predicate Accounted(cookies: seq<Cookie>, log: Log) {
    forall i: nat :: log.IsAccepted(i) ==> log.Finished(i) || i in log.dropped || Pending(cookies, i)
  }

  ghost predicate Inv(cookies: seq<Cookie>, log: Log, unordered: bool) {
    && Shape(cookies, unordered)
    && Holds(cookies, log)
    && Accounted(cookies, log)
    && log.WellFormed()
  }

  /** The state between two packets of the read loop, without the cookie the next command
      will be placed in. */
  ghost predicate Open(rest: seq<Cookie>, log: Log, unordered: bool) {
    && Overtakable(rest, unordered)
    && Holds(rest, log)
    && Accounted(rest, log)
    && log.WellFormed()
    && log.dropped == {}
  }

  /** An accepted command has exactly one of four fates: it never started and was dropped at
      close, it completed, or it is pending (queued or blocked) in exactly one cookie. */
  lemma ExactlyOneFate(cookies: seq<Cookie>, log: Log, unordered: bool, command: nat)
    requires Inv(cookies, log, unordered) && log.IsAccepted(command)
    ensures log.Finished(command) || command in log.dropped || Pending(cookies, command)
    ensures !(log.Finished(command) && command in log.dropped)
    ensures !(log.Finished(command) && Pending(cookies, command))
    ensures !(command in log.dropped && Pending(cookies, command))
    ensures forall i, j :: 0 <= i < j < |cookies| && cookies[i].Busy() && cookies[j].Busy() ==>
              !(cookies[i].command == command == cookies[j].command)
  {
  }

  /** With nothing in flight the deque has at most two entries. */
  lemma LongDequeIsBusy(cookies: seq<Cookie>, unordered: bool)
    requires Shape(cookies, unordered)
    ensures |cookies| > 2 ==> AnyBusy(cookies)
  {
    if |cookies| > 2 {
      assert cookies[..|cookies| - 1][1].Busy() && cookies[1].Busy();
    }
  }

  /** Something is in flight exactly when a cookie is blocked, or only a queued one is left. */
  lemma BusyAndBlocked(cookies: seq<Cookie>, unordered: bool)
    requires Shape(cookies, unordered)
    ensures AnyBlocked(cookies) ==> AnyBusy(cookies)
    ensures AnyBusy(cookies) ==> AnyBlocked(cookies) || cookies[|cookies| - 1].Queued()
    ensures AnyBusy(cookies[..|cookies| - 1]) ==> AnyBlocked(cookies)
    ensures AnyBusy(cookies) == (AnyBusy(cookies[..|cookies| - 1]) || cookies[|cookies| - 1].Busy())
  {
  }

  lemma BlockedIsBusy(cookies: seq<Cookie>, k: nat, log: Log, unordered: bool)
    requires Inv(cookies, log, unordered) && k < |cookies| && cookies[k].blocked
    ensures cookies[k].Busy()
  {
    var rest := cookies[..|cookies| - 1];
    assert forall i :: 0 <= i < |rest| ==> rest[i] == cookies[i];
  }

  lemma InFlight(rest: seq<Cookie>, back: Cookie, log: Log, unordered: bool)
    requires Inv(rest + [back], log, unordered)
    requires back.Queued() ==> AnyBusy(rest)
    ensures AnyBlocked(rest + [back]) == AnyBusy(rest + [back]) == (AnyBusy(rest) || back.Busy())
    ensures AnyBusy(rest) && !back.Busy() ==> back.reorder
  {
  }

  lemma OpenAtUnusedBack(cookies: seq<Cookie>, log: Log, unordered: bool)
    requires Inv(cookies, log, unordered) && log.dropped == {}
    requires !cookies[|cookies| - 1].Busy()
    ensures Open(cookies[..|cookies| - 1], log, unordered)
  {
  }

  lemma OpenBehindBack(cookies: seq<Cookie>, log: Log, unordered: bool)
    requires Inv(cookies, log, unordered) && log.dropped == {}
    requires cookies[|cookies| - 1].Busy() && cookies[|cookies| - 1].reorder
    ensures Open(cookies, log, unordered)
  {
  }

  /** A frame that was answered at once leaves an unused cookie behind. */
  lemma RefusedKeepsInv(rest: seq<Cookie>, back: Cookie, log: Log, unordered: bool, a: Arrival)
    requires Open(rest, log, unordered) && !a.verdict.Accepted?
    requires !back.Busy() && !back.blocked && back.reorder == unordered
    ensures Inv(rest + [back], log.AddArrival(a), unordered)
  {
  }

  lemma PendingIn(a: seq<Cookie>, b: seq<Cookie>, command: nat)
    ensures Pending(a, command) ==> Pending(a + b, command)
    ensures Pending(b, command) ==> Pending(a + b, command)
  {
    if Pending(a, command) {
      var k :| 0 <= k < |a| && a[k].Busy() && a[k].command == command;
      assert (a + b)[k] == a[k];
    }
    if Pending(b, command) {
      var k :| 0 <= k < |b| && b[k].Busy() && b[k].command == command;
      assert (a + b)[|a| + k] == b[k];
    }
  }

  lemma HoldsAfterArrival(rest: seq<Cookie>, log: Log, a: Arrival)
    requires Holds(rest, log)
    ensures Holds(rest, log.AddArrival(a))
  {
  }

  /** A run of one command changes nothing for the cookies that hold other commands. */
  lemma HoldsAfterRun(rest: seq<Cookie>, log: Log, r: Run)
    requires Holds(rest, log) && !Pending(rest, r.command)
    ensures Holds(rest, log.AddRun(r))
  {
    var log' := log.AddRun(r);
    assert log'.runs[..|log.runs|] == log.runs;
    forall i | 0 <= i < |rest| && rest[i].Busy()
      ensures log'.IsAccepted(rest[i].command) && log'.IsBarrier(rest[i].command) == !rest[i].reorder
              && !log'.Finished(rest[i].command)
              && rest[i].blocked == log'.Started(rest[i].command)
    {
      assert log.IsAccepted(rest[i].command) && rest[i].command != r.command;
      StartedAfterRun(log, r, rest[i].command);
    }
  }

  lemma StartedAfterRun(log: Log, r: Run, command: nat)
    ensures log.AddRun(r).Started(command) == (log.Started(command) || r.command == command)
    ensures log.AddRun(r).Finished(command) == (log.Finished(command) || r == Run(command, true))
  {
    var log' := log.AddRun(r);
    assert forall p :: 0 <= p < |log.runs| ==> log'.runs[p] == log.runs[p];
    assert log'.runs[|log.runs|] == r;
  }

  /** What the ordering of a new command rests on: if it is a barrier nothing is in flight,
      and nothing in flight is a barrier. */
  lemma FreshMayStart(rest: seq<Cookie>, log: Log, unordered: bool, command: nat)
    requires Overtakable(rest, unordered) && Holds(rest, log) && log.dropped == {}
    requires log.IsAccepted(command)
    requires forall i: nat :: log.IsAccepted(i) && i < command ==> log.Finished(i) || Pending(rest, i)
    requires log.IsBarrier(command) ==> !AnyBusy(rest)
    ensures forall i: nat :: log.MustWait(i, command) ==> log.Finished(i)
  {
  }

  /** A new command that was executed at once: `back` is its cookie afterwards, unused when
      the command completed and blocked when it did not. */
  lemma ExecutedKeepsInv(rest: seq<Cookie>, back: Cookie, log: Log, unordered: bool,
                         unordered': bool, a: Arrival, done: bool)
    requires Open(rest, log, unordered) && a.verdict.Accepted?
    requires a.verdict.barrier ==> !AnyBusy(rest)
    requires !a.verdict.barrier ==> unordered' == unordered && unordered
    requires done ==> !back.Busy() && !back.blocked && back.reorder == unordered'
    requires !done ==> back.blocked && back.packet == Owned(a.frame) && back.reorder == !a.verdict.barrier
                       && back.command == |log.arrivals|
    ensures Inv(rest + [back], log.AddArrival(a).AddRun(Run(|log.arrivals|, done)), unordered')
  {
    var command := |log.arrivals|;
    var log1 := log.AddArrival(a);
    var r := Run(command, done);
    var log2 := log1.AddRun(r);
    var cookies := rest + [back];
    ArrivalKeepsOrder(log, a);
    HoldsAfterArrival(rest, log, a);
    assert !log1.Started(command) && !log1.Finished(command) by {
      assert forall p :: 0 <= p < |log.runs| ==> log.IsAccepted(log.runs[p].command);
    }
    forall i: nat | log1.IsAccepted(i) && i < command ensures log1.Finished(i) || Pending(rest, i) {
      assert log.IsAccepted(i);
    }
    FreshMayStart(rest, log1, unordered, command);
    RunKeepsOrder(log1, command, done);
    assert !Pending(rest, command) by {
      assert forall i :: 0 <= i < |rest| && rest[i].Busy() ==> log.IsAccepted(rest[i].command);
    }
    HoldsAfterRun(rest, log1, r);
    StartedAfterRun(log1, r, command);
    assert cookies[..|cookies| - 1] == rest;
    HoldsAppend(rest, back, log2);
    forall i: nat | log2.IsAccepted(i) ensures log2.Finished(i) || Pending(cookies, i) {
      StartedAfterRun(log1, r, i);
      PendingIn(rest, [back], i);
      if i == command {
        assert !done ==> [back][0].Busy() && Pending([back], i);
      } else {
        assert log.IsAccepted(i);
      }
    }
  }

  lemma HoldsAppend(rest: seq<Cookie>, back: Cookie, log: Log)
    requires Holds(rest, log)
    requires back.Busy() ==> Holds([back], log) && log.IsAccepted(back.command)
    requires back.Busy() ==> forall i :: 0 <= i < |rest| && rest[i].Busy() ==> rest[i].command < back.command
    ensures Holds(rest + [back], log)
  {
  }

  /** A barrier that has to wait is placed at the back and not started. */
  lemma QueuedKeepsInv(rest: seq<Cookie>, back: Cookie, log: Log, unordered: bool, a: Arrival)
    requires Open(rest, log, unordered) && a.verdict == Accepted(true) && AnyBusy(rest)
    requires back.packet == Owned(a.frame) && !back.blocked && !back.reorder && back.command == |log.arrivals|
    ensures Inv(rest + [back], log.AddArrival(a), unordered)
  {
    var command := |log.arrivals|;
    var log' := log.AddArrival(a);
    var cookies := rest + [back];
    ArrivalKeepsOrder(log, a);
    HoldsAfterArrival(rest, log, a);
    assert !log'.Started(command) && !log'.Finished(command) by {
      assert forall p :: 0 <= p < |log.runs| ==> log.IsAccepted(log.runs[p].command);
    }
    assert forall i :: 0 <= i < |rest| && rest[i].Busy() ==> log.IsAccepted(rest[i].command);
    HoldsAppend(rest, back, log');
    assert cookies[..|cookies| - 1] == rest;
    forall i: nat | log'.IsAccepted(i) ensures log'.Finished(i) || Pending(cookies, i) {
      PendingIn(rest, [back], i);
      if i == command {
        assert [back][0].Busy() && Pending([back], i);
      } else {
        assert log.IsAccepted(i);
      }
    }
  }

  /** The cookie at `k` was executed again (or a queued barrier for the first time) and
      blocked: only its reference count may have changed. */
  lemma BlockedKeepsInv(cookies: seq<Cookie>, k: nat, refcount: nat, log: Log, unordered: bool, unordered': bool)
    requires Inv(cookies, log, unordered) && k < |cookies| && cookies[k].Busy()
    requires MayRun(cookies, k)
    requires cookies[k].reorder ==> unordered' == unordered
    requires log.dropped == {} || cookies[k].blocked
    ensures var c := cookies[k].(blocked := true, refcount := refcount);
            Inv(cookies[k := c], log.AddRun(Run(c.command, false)), unordered')
  {
    var c := cookies[k].(blocked := true, refcount := refcount);
    var r := Run(c.command, false);
    var cookies' := cookies[k := c];
    hide Shape, Holds, Accounted;
    RunKeepsWellFormed(cookies, k, log, unordered, false);
    BlockedKeepsHolds(cookies, k, c, log);
    forall m: nat | Pending(cookies, m) ensures Pending(cookies', m) {
      var n :| 0 <= n < |cookies| && cookies[n].Busy() && cookies[n].command == m;
      assert cookies'[n].Busy() && cookies'[n].command == m;
    }
    AccountedAfterRun(cookies, cookies', log, r);
    ShapeAfterUpdate(cookies, k, c, unordered, unordered');
  }

  lemma BlockedKeepsHolds(cookies: seq<Cookie>, k: nat, c: Cookie, log: Log)
    requires Holds(cookies, log) && k < |cookies| && cookies[k].Busy()
    requires c == cookies[k].(blocked := true, refcount := c.refcount)
    ensures Holds(cookies[k := c], log.AddRun(Run(c.command, false)))
  {
    var r := Run(c.command, false);
    var log' := log.AddRun(r);
    var cookies' := cookies[k := c];
    forall i | 0 <= i < |cookies| && cookies[i].Busy()
      ensures var d := cookies'[i];
              && d.command == cookies[i].command && !log'.Finished(d.command)
              && d.blocked == log'.Started(d.command)
    {
      StartedAfterRun(log, r, cookies[i].command);
    }
  }

  /** A run retires at most its own command. */
  lemma AccountedAfterRun(cookies: seq<Cookie>, cookies': seq<Cookie>, log: Log, r: Run)
    requires Accounted(cookies, log)
    requires forall m: nat :: Pending(cookies, m) ==> Pending(cookies', m) || r == Run(m, true)
    ensures Accounted(cookies', log.AddRun(r))
  {
    var log' := log.AddRun(r);
    forall i: nat | log'.IsAccepted(i) ensures log'.Finished(i) || i in log'.dropped || Pending(cookies', i) {
      assert log.IsAccepted(i);
      StartedAfterRun(log, r, i);
    }
  }

  /** What the code checks before it executes the cookie at `k`: it is blocked (and was
      notified), or it is queued and nothing is in flight. */
  predicate MayRun(cookies: seq<Cookie>, k: nat)
    requires k < |cookies|
  {
    cookies[k].blocked || !AnyBlocked(cookies)
  }

  lemma QueuedIsLast(cookies: seq<Cookie>, k: nat, unordered: bool)
    requires Shape(cookies, unordered) && k < |cookies| && cookies[k].Queued()
    ensures k == |cookies| - 1 && !cookies[k].reorder
    ensures !AnyBlocked(cookies) ==> forall i :: 0 <= i < k ==> !cookies[i].Busy()
  {
  }

  lemma StartedBarrierIsAlone(cookies: seq<Cookie>, k: nat, unordered: bool)
    requires Shape(cookies, unordered) && k < |cookies| && cookies[k].blocked && !cookies[k].reorder
    ensures k == |cookies| - 1 && forall i :: 0 <= i < k ==> !cookies[i].Busy()
  {
  }

  lemma RunKeepsWellFormed(cookies: seq<Cookie>, k: nat, log: Log, unordered: bool, done: bool)
    requires Inv(cookies, log, unordered) && k < |cookies| && cookies[k].Busy() && MayRun(cookies, k)
    requires log.dropped == {} || cookies[k].blocked
    ensures log.AddRun(Run(cookies[k].command, done)).WellFormed()
  {
    var command := cookies[k].command;
    if cookies[k].blocked {
      StartedNeedNotWait(log, command);
    } else {
      QueuedIsLast(cookies, k, unordered);
      forall i: nat | log.MustWait(i, command) ensures log.Finished(i) {
        assert !Pending(cookies, i);
      }
    }
    RunKeepsOrder(log, command, done);
  }

  lemma ShapeAfterUpdate(cookies: seq<Cookie>, k: nat, c: Cookie, unordered: bool, unordered': bool)
    requires Shape(cookies, unordered) && k < |cookies| && cookies[k].Busy() && MayRun(cookies, k)
    requires c.Busy() && c.blocked && c.reorder == cookies[k].reorder
    requires cookies[k].reorder ==> unordered' == unordered
    ensures Shape(cookies[k := c], unordered')
  {
  }

  /** The cookie at `k` completed and was reset in place; this happens to the front and to
      the back of the deque. */
  lemma ResetKeepsInv(cookies: seq<Cookie>, k: nat, c: Cookie, log: Log, unordered: bool, unordered': bool)
    requires Inv(cookies, log, unordered) && k < |cookies| && cookies[k].Busy() && MayRun(cookies, k)
    requires k == 0 || k == |cookies| - 1
    requires cookies[k].reorder ==> unordered' == unordered
    requires log.dropped == {} || cookies[k].blocked
    requires !c.Busy() && !c.blocked && c.reorder == unordered'
    ensures Inv(cookies[k := c], log.AddRun(Run(cookies[k].command, true)), unordered')
  {
    var r := Run(cookies[k].command, true);
    var cookies' := cookies[k := c];
    hide Shape, Accounted, Holds;
    RunKeepsWellFormed(cookies, k, log, unordered, true);
    ResetKeepsHolds(cookies, k, c, log);
    forall m: nat | Pending(cookies, m) && m != r.command ensures Pending(cookies', m) {
      var n :| 0 <= n < |cookies| && cookies[n].Busy() && cookies[n].command == m;
      assert cookies'[n] == cookies[n];
    }
    AccountedAfterRun(cookies, cookies', log, r);
    ShapeAfterReset(cookies, k, c, unordered, unordered');
  }

  lemma ResetKeepsHolds(cookies: seq<Cookie>, k: nat, c: Cookie, log: Log)
    requires Holds(cookies, log) && k < |cookies| && cookies[k].Busy() && !c.Busy()
    ensures Holds(cookies[k := c], log.AddRun(Run(cookies[k].command, true)))
  {
    var cookies' := cookies[k := c];
    HoldsWithout(cookies, k, log, Run(cookies[k].command, true));
    assert forall i :: 0 <= i < |cookies'| && cookies'[i].Busy() ==> i != k && cookies'[i] == cookies[i];
  }

  lemma ShapeAfterReset(cookies: seq<Cookie>, k: nat, c: Cookie, unordered: bool, unordered': bool)
    requires Shape(cookies, unordered) && k < |cookies| && cookies[k].Busy() && MayRun(cookies, k)
    requires k == 0 || k == |cookies| - 1
    requires cookies[k].reorder ==> unordered' == unordered
    requires !c.Busy() && !c.blocked && c.reorder == unordered'
    ensures Shape(cookies[k := c], unordered')
  {
  }

  lemma HoldsWithout(cookies: seq<Cookie>, k: nat, log: Log, r: Run)
    requires Holds(cookies, log) && k < |cookies| && cookies[k].Busy() && r.command == cookies[k].command
    ensures forall i :: 0 <= i < |cookies| && i != k && cookies[i].Busy() ==>
              !log.AddRun(r).Finished(cookies[i].command)
              && log.AddRun(r).Started(cookies[i].command) == log.Started(cookies[i].command)
  {
    forall i | 0 <= i < |cookies| && i != k && cookies[i].Busy()
      ensures !log.AddRun(r).Finished(cookies[i].command)
              && log.AddRun(r).Started(cookies[i].command) == log.Started(cookies[i].command)
    {
      StartedAfterRun(log, r, cookies[i].command);
    }
  }

  function Erase(cookies: seq<Cookie>, k: nat): seq<Cookie>
    requires k < |cookies|
  {
    cookies[..k] + cookies[k + 1..]
  }

  /** A cookie behind the front completed and was erased. */
  lemma EraseKeepsInv(cookies: seq<Cookie>, k: nat, log: Log, unordered: bool, unordered': bool)
    requires Inv(cookies, log, unordered) && 0 < k < |cookies| && cookies[k].Busy() && MayRun(cookies, k)
    requires cookies[k].reorder ==> unordered' == unordered
    requires log.dropped == {} || cookies[k].blocked
    ensures Inv(Erase(cookies, k), log.AddRun(Run(cookies[k].command, true)), unordered')
  {
    var r := Run(cookies[k].command, true);
    var cookies' := Erase(cookies, k);
    hide Shape, Accounted, Holds;
    RunKeepsWellFormed(cookies, k, log, unordered, true);
    EraseKeepsHolds(cookies, k, log);
    forall m: nat | Pending(cookies, m) && m != r.command ensures Pending(cookies', m) {
      var n :| 0 <= n < |cookies| && cookies[n].Busy() && cookies[n].command == m;
      assert cookies'[if n < k then n else n - 1] == cookies[n];
    }
    AccountedAfterRun(cookies, cookies', log, r);
    ShapeAfterErase(cookies, k, unordered, unordered');
  }

  lemma EraseKeepsHolds(cookies: seq<Cookie>, k: nat, log: Log)
    requires Holds(cookies, log) && k < |cookies| && cookies[k].Busy()
    ensures Holds(Erase(cookies, k), log.AddRun(Run(cookies[k].command, true)))
  {
    var cookies' := Erase(cookies, k);
    HoldsWithout(cookies, k, log, Run(cookies[k].command, true));
    assert forall i :: 0 <= i < |cookies'| ==> cookies'[i] == if i < k then cookies[i] else cookies[i + 1];
  }

  lemma ShapeAfterErase(cookies: seq<Cookie>, k: nat, unordered: bool, unordered': bool)
    requires Shape(cookies, unordered) && 0 < k < |cookies| && cookies[k].Busy() && MayRun(cookies, k)
    requires cookies[k].reorder ==> unordered' == unordered
    ensures Shape(Erase(cookies, k), unordered')
  {
    var cookies' := Erase(cookies, k);
    assert forall i :: 0 <= i < |cookies'| ==> cookies'[i] == if i < k then cookies[i] else cookies[i + 1];
    var rest, rest' := cookies[..|cookies| - 1], cookies'[..|cookies'| - 1];
    assert forall i :: 0 <= i < |rest| ==> rest[i] == cookies[i];
    assert forall i :: 0 <= i < |rest'| ==> rest'[i] == if i < k then rest[i] else rest[i + 1];
    if !cookies[k].reorder {
      if cookies[k].blocked {
        StartedBarrierIsAlone(cookies, k, unordered);
      } else {
        QueuedIsLast(cookies, k, unordered);
      }
    }
  }

  /** Connection::close() resets the front cookies up to the first blocked one. The only
      command that can hit is a queued barrier, and only when nothing is blocked. */
  lemma DropKeepsInv(cookies: seq<Cookie>, k: nat, log: Log, unordered: bool)
    requires Inv(cookies, log, unordered) && k < |cookies| && !cookies[k].blocked
    requires forall i :: 0 <= i < k ==> !cookies[i].blocked
    ensures var log' := if cookies[k].Busy() then log.(dropped := log.dropped + {cookies[k].command}) else log;
            Inv(cookies[k := cookies[k].Reset(unordered)], log', unordered)
  {
    var cookies' := cookies[k := cookies[k].Reset(unordered)];
    var log' := if cookies[k].Busy() then log.(dropped := log.dropped + {cookies[k].command}) else log;
    DropKeepsShape(cookies, k, unordered);
    DropKeepsHolds(cookies, k, log, unordered);
    forall i: nat | log'.IsAccepted(i) ensures log'.Finished(i) || i in log'.dropped || Pending(cookies', i) {
      assert log.IsAccepted(i);
      if Pending(cookies, i) && i !in log'.dropped {
        var m :| 0 <= m < |cookies| && cookies[m].Busy() && cookies[m].command == i;
        assert cookies'[m] == cookies[m];
      }
    }
  }

  lemma ResetUnusedFront(cookies: seq<Cookie>, log: Log, unordered: bool)
    requires Inv(cookies, log, unordered) && !cookies[0].Busy()
    ensures var cookies' := cookies[0 := cookies[0].Reset(unordered)];
            && Inv(cookies', log, unordered)
            && (AnyBlocked(cookies) ==> AnyBlocked(cookies'))
            && (cookies'[|cookies| - 1].Queued() ==> cookies[|cookies| - 1].Queued())
  {
    var cookies' := cookies[0 := cookies[0].Reset(unordered)];
    assert !cookies[0].blocked by {
      assert |cookies| > 1 ==> cookies[..|cookies| - 1][0] == cookies[0];
    }
    DropKeepsInv(cookies, 0, log, unordered);
    assert forall i :: 0 < i < |cookies| ==> cookies'[i] == cookies[i];
  }

  lemma DropKeepsShape(cookies: seq<Cookie>, k: nat, unordered: bool)
    requires Shape(cookies, unordered) && k < |cookies| && !cookies[k].blocked
    requires forall i :: 0 <= i < k ==> !cookies[i].blocked
    ensures Shape(cookies[k := cookies[k].Reset(unordered)], unordered)
  {
  }

  lemma DropKeepsHolds(cookies: seq<Cookie>, k: nat, log: Log, unordered: bool)
    requires Holds(cookies, log) && log.WellFormed() && k < |cookies| && !cookies[k].blocked
    ensures var log' := if cookies[k].Busy() then log.(dropped := log.dropped + {cookies[k].command}) else log;
            Holds(cookies[k := cookies[k].Reset(unordered)], log') && log'.WellFormed()
  {
  }
}
