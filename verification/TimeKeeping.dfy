/**
 * Expiry times, and how the server's idea of the wall clock is kept right while it runs.
 */
module TimeKeeping {

  const REL_LIMIT := 0x1_0000_0000
  const TIME_MAX := 0x7fff_ffff_ffff_ffff
  const MAX_RELATIVE := 60 * 60 * 24 * 30
  const CHECK_INTERVAL := 60

  predicate IsRelTime(t: int) {
    0 <= t < REL_LIMIT
  }

  predicate IsTime(t: int) {
    -TIME_MAX - 1 <= t <= TIME_MAX
  }

  // ---------------------------------------------------------------- expiry times

  /** Seconds since start for an expiry as clients send it: absolute if it is more than thirty
      days, otherwise relative; zero means never. */
  function ToRealTime(t: int, epoch: int, uptime: int): (r: int)
    requires IsRelTime(t) && IsTime(epoch) && IsRelTime(uptime)
    ensures IsRelTime(r)
  {
    if t > MAX_RELATIVE then
      if epoch > TIME_MAX - uptime then REL_LIMIT - 1
      else if t <= epoch then 1
      else (t - epoch) % REL_LIMIT
    else if t != 0 then
      if t > REL_LIMIT - 1 - uptime then REL_LIMIT - 1 else t + uptime
    else 0
  }

  function ToAbsTime(rel: int, epoch: int): int {
    epoch + rel
  }

  /** Only zero means never, exactly if no absolute expiry is a multiple of 2^32 seconds after
      the server started, which takes a start before 1970. */
  lemma OnlyZeroIsNever(epoch: int, uptime: int)
    requires IsTime(epoch) && IsRelTime(uptime)
    ensures (forall t :: IsRelTime(t) ==> (ToRealTime(t, epoch, uptime) == 0 <==> t == 0))
        <==> (epoch >= 0 || epoch % REL_LIMIT <= MAX_RELATIVE)
  {
    if epoch < 0 {
      var t := epoch % REL_LIMIT;
      assert (t - epoch) % REL_LIMIT == 0;
      if t > MAX_RELATIVE {
        assert ToRealTime(t, epoch, uptime) == 0;
      } else {
        forall u | IsRelTime(u) && u > MAX_RELATIVE ensures (u - epoch) % REL_LIMIT != 0 {
          assert (u - epoch) % REL_LIMIT == (u - t) % REL_LIMIT;
        }
      }
    }
  }

  /** An expiry in February 1970, with a clock 2^32 seconds earlier at the start. */
  lemma FebruaryIsNever()
    ensures MAX_RELATIVE < 3_000_000 && ToRealTime(3_000_000, 3_000_000 - REL_LIMIT, 0) == 0
  {
  }

  /** An expiry after the server started comes back as it was sent, an earlier one as the
      second after the start, a relative one as that much after now. */
  lemma RoundTrip(t: int, epoch: int, uptime: int)
    requires IsRelTime(t) && IsTime(epoch) && IsRelTime(uptime) && 0 <= epoch <= TIME_MAX - uptime
    ensures t > MAX_RELATIVE ==> ToAbsTime(ToRealTime(t, epoch, uptime), epoch) == if t > epoch then t else epoch + 1
    ensures 0 < t <= MAX_RELATIVE && t + uptime < REL_LIMIT ==>
              ToAbsTime(ToRealTime(t, epoch, uptime), epoch) == ToAbsTime(uptime, epoch) + t
  {
  }

  /** Whatever the clock says: a relative expiry is never in the past nor later than it says, and short
      of it only at the end of time; and if the clock is past the end of time an absolute one is there. */
  lemma NeverTooEarly(t: int, epoch: int, uptime: int)
    requires IsRelTime(t) && IsTime(epoch) && IsRelTime(uptime)
    ensures var r := ToRealTime(t, epoch, uptime);
            && (0 < t <= MAX_RELATIVE ==> uptime <= r <= uptime + t && (r < uptime + t ==> r == REL_LIMIT - 1))
            && (t > MAX_RELATIVE && epoch + uptime > TIME_MAX ==> r == REL_LIMIT - 1)
            && (t > MAX_RELATIVE && epoch + uptime <= TIME_MAX && t <= epoch ==> r == 1)
  {
  }

  // ---------------------------------------------------------------- the clock

  function Abs(n: int): nat {
    if n < 0 then -n else n
  }

  /** The clock moved by something other than a minute, give or take a second, either way. */
  predicate Suspicious(delta: int) {
    !(CHECK_INTERVAL - 1 <= Abs(delta) <= CHECK_INTERVAL + 1)
  }

  lemma SuspiciousIs(delta: int)
    ensures Suspicious(delta) <==> Abs(delta) > CHECK_INTERVAL + 1 || Abs(delta) < CHECK_INTERVAL - 1
  {
  }

  /** A change of the reading outside 59..61 is noticed exactly if it is not one of -61..-59. */
  lemma NoticedUnlessPutBack(delta: int)
    ensures (CHECK_INTERVAL - 1 <= delta <= CHECK_INTERVAL + 1 || Suspicious(delta))
        <==> !(-CHECK_INTERVAL - 1 <= delta <= -CHECK_INTERVAL + 1)
  {
  }

  /** A look at the system clock. */
  datatype Check = Check(wall: int, uptime: int)

  /** What the system clock gained on the uptime from one look to the next, over a sequence. */
  function Gained(checks: seq<Check>): int {
    if |checks| < 2 then 0
    else
      var a, b := checks[|checks| - 2], checks[|checks| - 1];
      Gained(checks[..|checks| - 1]) + (b.wall - a.wall) - (b.uptime - a.uptime)
  }

  /** How much it can gain or lose between two looks without being noticed: a second, and as
      much as the looks were not a minute of uptime apart; but for a clock put back by about a
      minute, that minute and all the uptime between them. */
  function Slack(a: Check, b: Check): nat {
    if b.wall >= a.wall then 1 + Abs(b.uptime - a.uptime - CHECK_INTERVAL)
    else 1 + Abs(b.uptime - a.uptime + CHECK_INTERVAL)
  }

  /** The same over a sequence; the first look after the start is compared with nothing. */
  function Allowance(checks: seq<Check>, fromStart: bool): nat {
    if |checks| < 2 then 0
    else if |checks| == 2 && fromStart then Abs(Gained(checks))
    else Allowance(checks[..|checks| - 1], fromStart) + Slack(checks[|checks| - 2], checks[|checks| - 1])
  }

  /** Not a pair of looks that were compared. */
  predicate Uncompared(checks: seq<Check>, fromStart: bool) {
    |checks| < 2 || (|checks| == 2 && fromStart)
  }

  /** No look that was compared with the one before it was suspicious. */
  predicate Unsuspicious(checks: seq<Check>, fromStart: bool) {
    Uncompared(checks, fromStart) ||
    (&& !Suspicious(checks[|checks| - 1].wall - checks[|checks| - 2].wall)
     && Unsuspicious(checks[..|checks| - 1], fromStart))
  }

  /** The looks are a minute of uptime apart, and the clock goes forward. */
  predicate Regular(checks: seq<Check>, fromStart: bool) {
    Uncompared(checks, fromStart) ||
    var a, b := checks[|checks| - 2], checks[|checks| - 1];
    b.uptime - a.uptime == CHECK_INTERVAL && b.wall >= a.wall && Regular(checks[..|checks| - 1], fromStart)
  }

  lemma NextLook(checks: seq<Check>, fromStart: bool, c: Check)
    requires |checks| > 0
    ensures var last := checks[|checks| - 1];
            && Gained(checks + [c]) == Gained(checks) + (c.wall - last.wall) - (c.uptime - last.uptime)
            && (Unsuspicious(checks, fromStart) && ((fromStart && |checks| == 1) || !Suspicious(c.wall - last.wall))
                ==> Unsuspicious(checks + [c], fromStart))
  {
    assert (checks + [c])[..|checks|] == checks;
  }

  lemma FirstLook(c: Check)
    ensures Gained([c]) == 0 && Unsuspicious([c], false) && [] + [c] == [c]
  {
  }

  /** Whatever the clock does between two looks, what goes unnoticed is bounded by the slack. */
  lemma {:induction false} UnnoticedDrift(checks: seq<Check>, fromStart: bool)
    requires Unsuspicious(checks, fromStart)
    ensures Abs(Gained(checks)) <= Allowance(checks, fromStart)
    decreases |checks|
  {
    if !Uncompared(checks, fromStart) {
      UnnoticedDrift(checks[..|checks| - 1], fromStart);
      PairDrift(checks[|checks| - 2], checks[|checks| - 1]);
    }
  }

  lemma PairDrift(a: Check, b: Check)
    requires !Suspicious(b.wall - a.wall)
    ensures Abs(b.wall - a.wall - (b.uptime - a.uptime)) <= Slack(a, b)
  {
  }

  /** With regular looks that is a second a look, on top of what it was off at the first. */
  lemma {:induction false} RegularAllowance(checks: seq<Check>, fromStart: bool)
    requires Regular(checks, fromStart)
    ensures Allowance(checks,
                      fromStart) <= |checks| + if |checks| >= 2 && fromStart then Abs(Gained(checks[..2])) else 0
    decreases |checks|
  {
    if |checks| == 2 && fromStart {
      assert checks[..2] == checks;
    } else if |checks| >= 2 {
      var init := checks[..|checks| - 1];
      if |checks| > 2 { assert init[..2] == checks[..2]; }
      RegularAllowance(init, fromStart);
    }
  }

  class Clock {
    var epoch: int
    var uptime: int
    var nextCheck: int
    var previous: int
    var previousValid: bool

    // history: the looks since the epoch was last set, starting with the one that set it, and
    // whether that was the start of the server
    var checks: seq<Check>
    var fromStart: bool

    /** The gap between the system clock and ours, at the last look. */
    function Gap(): int
      requires |checks| > 0
      reads this
    {
      var last := checks[|checks| - 1];
      last.wall - ToAbsTime(last.uptime, epoch)
    }

    /** The first of the looks set the epoch. The gap is what the system clock gained since then,
        without any look having been suspicious. */
    ghost predicate Valid()
      reads this
    {
      && |checks| > 0 && ToAbsTime(checks[0].uptime, epoch) == checks[0].wall
      && nextCheck >= 0 && previousValid == (nextCheck > 0)
      && (previousValid ==> previous == checks[|checks| - 1].wall)
      && (!previousValid ==> fromStart && |checks| == 1)
      && Gap() == Gained(checks) && Unsuspicious(checks, fromStart)
    }

    constructor (wall: int)
      ensures Valid() && epoch == wall && checks == [Check(wall, 0)] && fromStart && !previousValid && uptime == 0
    {
      epoch, uptime, nextCheck, previous, previousValid := wall, 0, 0, 0, false;
      checks, fromStart := [Check(wall, 0)], true;
    }

    /** One tick: `now` is the monotonic uptime, `wall` what the system clock would say. */
    method Tick(now: int, wall: int) returns (looked: bool)
      requires Valid() && now >= 0
      modifies this
      ensures Valid() && uptime == now
      ensures looked <==> now >= old(nextCheck)
      ensures nextCheck == if looked then old(nextCheck) + CHECK_INTERVAL else old(nextCheck)
      ensures !looked ==> epoch == old(epoch) && checks == old(checks) && previous == old(previous)
                          && previousValid == old(previousValid) && fromStart == old(fromStart)
      ensures looked ==> previousValid && previous == wall
      ensures looked ==>
                if old(previousValid) && Suspicious(wall - old(previous))
                then checks == [Check(wall, now)] && !fromStart && ToAbsTime(uptime, epoch) == wall
                else checks == old(checks) + [Check(wall, now)] && fromStart == old(fromStart) && epoch == old(epoch)
      ensures Abs(Gap()) <= Allowance(checks, fromStart)
    {
      hide Gained, Allowance, Unsuspicious, Suspicious, Abs;
      SuspiciousIs(wall - previous);
      uptime := now;
      looked := uptime >= nextCheck;
      if looked {
        var difference := Abs(wall - previous);
        if previousValid && (difference > CHECK_INTERVAL + 1 || difference < CHECK_INTERVAL - 1) {
          epoch := wall - uptime;
          checks, fromStart := [], false;
        }
        nextCheck := nextCheck + CHECK_INTERVAL;
        previousValid := true;
        previous := wall;
        if fromStart || checks != [] {
          NextLook(checks, fromStart, Check(wall, now));
        } else {
          FirstLook(Check(wall, now));
        }
        checks := checks + [Check(wall, now)];
      }
      UnnoticedDrift(checks, fromStart);
    }
  }

  /** The ticks at which the clock is looked at: the first look is due at once, every further one
      a minute after the one before it was due. */
  function Looks(ticks: seq<Check>): (r: seq<Check>)
    ensures |r| <= |ticks|
  {
    if ticks == [] then [] else
    var n := |ticks| - 1;
    var looks := Looks(ticks[..n]);
    if ticks[n].uptime >= CHECK_INTERVAL * |looks| then looks + [ticks[n]] else looks
  }

  /** A look is suspicious after others. */
  predicate Surprises(looks: seq<Check>, c: Check) {
    looks != [] && Suspicious(c.wall - looks[|looks| - 1].wall)
  }

  /** The looks since the last suspicious one, or since the start. */
  function Since(start: int, looks: seq<Check>): seq<Check> {
    if looks == [] then [Check(start, 0)] else
    var n := |looks| - 1;
    if Surprises(looks[..n], looks[n]) then [looks[n]] else Since(start, looks[..n]) + [looks[n]]
  }

  /** No look was suspicious. */
  predicate NeverSuspicious(looks: seq<Check>) {
    looks == [] || (!Surprises(looks[..|looks| - 1], looks[|looks| - 1]) && NeverSuspicious(looks[..|looks| - 1]))
  }

  lemma NextTick(start: int, ticks: seq<Check>, i: nat)
    requires i < |ticks|
    ensures var looks := Looks(ticks[..i]);
            if ticks[i].uptime < CHECK_INTERVAL * |looks| then Looks(ticks[..i + 1]) == looks
            else && Looks(ticks[..i + 1]) == looks + [ticks[i]]
                 && (NeverSuspicious(looks + [ticks[i]]) <==> !Surprises(looks, ticks[i]) && NeverSuspicious(looks))
                 && Since(start, looks + [ticks[i]]) ==
                    if Surprises(looks, ticks[i]) then [ticks[i]] else Since(start, looks) + [ticks[i]]
  {
    assert ticks[..i + 1][..i] == ticks[..i];
    var looks := Looks(ticks[..i]);
    assert (looks + [ticks[i]])[..|looks|] == looks;
  }

  /** Any run of ticks, each with its uptime and system clock: the epoch is the one the last
      suspicious look set, or the start if there was none, and the gap since then is within what
      the looks since then allow. */
  method Run(start: int, ticks: seq<Check>) returns (c: Clock)
    requires forall i :: 0 <= i < |ticks| ==> ticks[i].uptime >= 0
    ensures c.Valid() && c.checks == Since(start, Looks(ticks)) && (c.fromStart <==> NeverSuspicious(Looks(ticks)))
    ensures ToAbsTime(c.checks[0].uptime, c.epoch) == c.checks[0].wall
    ensures c.Gap() == Gained(c.checks) && Abs(c.Gap()) <= Allowance(c.checks, c.fromStart)
  {
    c := new Clock(start);
    hide Gained, Allowance, Unsuspicious, Suspicious;
    for i := 0 to |ticks|
      invariant fresh(c) && c.Valid()
      invariant c.checks == Since(start, Looks(ticks[..i])) && (c.fromStart <==> NeverSuspicious(Looks(ticks[..i])))
      invariant c.nextCheck == CHECK_INTERVAL * |Looks(ticks[..i])|
      invariant c.previousValid ==> c.previous == Looks(ticks[..i])[|Looks(ticks[..i])| - 1].wall
    {
      NextTick(start, ticks, i);
      hide Looks, Since, NeverSuspicious, Clock.Gap;
      var looked := c.Tick(ticks[i].uptime, ticks[i].wall);
    }
    assert ticks[..|ticks|] == ticks;
    UnnoticedDrift(c.checks, c.fromStart);
  }

  /** A clock put back by two minutes between two looks reads a minute less than before, and
      that goes unnoticed: the check looks at how far the reading moved, not at which way. */
  method PutBackUnnoticed() returns (c: Clock)
    ensures c.Valid() && c.previousValid && c.Gap() == -120
  {
    c := new Clock(1000);
    var looked := c.Tick(0, 1000);
    looked := c.Tick(60, 940);
  }

  /** A look that comes late lets the clock drift by as much as it is late. */
  method LateLookUnnoticed() returns (c: Clock)
    ensures c.Valid() && c.previousValid && c.Gap() == -30
  {
    c := new Clock(1000);
    var looked := c.Tick(0, 1000);
    looked := c.Tick(60, 1060);
    looked := c.Tick(150, 1120);
  }
}
