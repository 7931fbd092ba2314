/**
 * A delete waits for as long as, and no longer than, it takes the bucket to be released.
 */
module BucketProgress {
  import opened Wrappers
  import opened Buckets
  import opened BucketCounts
  import opened BucketInvariant
  import opened BucketSafety

  /** One if the step gives up a reference to slot `i`. */
  function LeavesBy(s: State, step: Step, i: nat): nat {
    One(Enabled(s, step) && ((step.Leave? && s.conns[step.c] == Bound(i)) || step == Unpin(i)))
  }

  function DeliversBy(s: State, step: Step, i: nat): nat {
    One(step == Sent(i) && Enabled(s, step))
  }

  /** References to slot `i` given up during a run. */
  function Leaves(s: State, steps: seq<Step>, i: nat): nat
    decreases |steps|
  {
    if steps == [] then 0 else LeavesBy(s, steps[0], i) + Leaves(Apply(s, steps[0]), steps[1..], i)
  }

  function Deliveries(s: State, steps: seq<Step>, i: nat): nat
    decreases |steps|
  {
    if steps == [] then 0 else DeliversBy(s, steps[0], i) + Deliveries(Apply(s, steps[0]), steps[1..], i)
  }

  /** A destroyer that waits for slot `i` to be released. */
  ghost predicate Waiting(s: State, t: nat, i: nat) {
    && t in s.threads && 0 < i < |s.slots|
    && s.threads[t].Destroyer? && s.threads[t].slot == i
    && s.slots[i].state == Destroying
    && (s.threads[t].dpc == WaitClients || (s.threads[t].dpc == WaitTransit && s.slots[i].clients == 0))
  }

  ghost predicate CountedDown(s: State, t: nat, i: nat, leaves: nat, deliveries: nat, s': State) {
    && Waiting(s, t, i) && Waiting(s', t, i) && s'.threads[t] == s.threads[t]
    && s'.slots[i].clients + leaves == s.slots[i].clients
    && (s.threads[t].dpc == WaitTransit ==> s'.slots[i].transit + deliveries == s.slots[i].transit)
  }

  lemma WaitingLeave(s: State, t: nat, i: nat, c: nat, target: Target)
    requires Waiting(s, t, i) && Enabled(s, Leave(c, target)) && (s.conns[c] == Bound(i) ==> 0 < s.slots[i].clients)
    requires s.conns[c].Leaving? ==> s.conns[c].slot != i
    ensures CountedDown(s, t, i, LeavesBy(s, Leave(c, target), i), 0, Apply(s, Leave(c, target)))
  {
    hide ApplyCreate, ApplyDestroy, Claim, Claims, Deleting;
  }

  /** While a delete waits nobody is half way out of its bucket on its account. */
  lemma NobodyDetaches(s: State, t: nat, i: nat, c: nat, target: Target)
    requires Inv(s) && Waiting(s, t, i) && Enabled(s, Leave(c, target)) && s.conns[c].Leaving?
    ensures s.conns[c].slot != i
  {
    LeaverIsDetaching(s, c);
    hide Inv;
    var u :| u in s.threads && s.threads[u] == Destroyer(s.conns[c].slot, Some(c), ClearIndex);
    if u != t {
      OthersOwnOtherSlots(s, t, i, u);
    }
  }

  lemma WaitingSend(s: State, t: nat, i: nat, c: nat)
    requires Waiting(s, t, i) && Enabled(s, Send(c)) && (s.conns[c] == Bound(i) ==> 0 < s.slots[i].clients)
    ensures CountedDown(s, t, i, 0, 0, Apply(s, Send(c)))
  {
    hide ApplyCreate, ApplyDestroy, Claim, Claims, Release, Deleting;
  }

  lemma WaitingSent(s: State, t: nat, i: nat, j: nat)
    requires Waiting(s, t, i) && Enabled(s, Sent(j))
    ensures CountedDown(s, t, i, 0, DeliversBy(s, Sent(j), i), Apply(s, Sent(j)))
  {
    hide ApplyCreate, ApplyDestroy, Claim, Claims, Release, Deleting;
  }

  lemma WaitingUnpin(s: State, t: nat, i: nat, j: nat)
    requires Waiting(s, t, i) && Enabled(s, Unpin(j)) && (j == i ==> 0 < s.slots[i].clients)
    ensures CountedDown(s, t, i, LeavesBy(s, Unpin(j), i), 0, Apply(s, Unpin(j)))
  {
    hide ApplyCreate, ApplyDestroy, Claim, Claims, Release, Deleting;
  }

  /** A step that leaves slot `i` and thread `t` alone. */
  ghost predicate Untouched(s: State, t: nat, i: nat, s': State) {
    && t in s.threads && t in s'.threads && s'.threads[t] == s.threads[t]
    && i < |s.slots| == |s'.slots| && s'.slots[i] == s.slots[i]
  }

  lemma OthersOwnOtherSlots(s: State, t: nat, i: nat, u: nat)
    requires Inv(s) && Waiting(s, t, i) && u in s.threads && u != t
    ensures s.threads[u].slot != i
  {
  }

  lemma WaitingCreate(s: State, t: nat, i: nat, u: nat, ok: bool)
    requires Inv(s) && Waiting(s, t, i) && Enabled(s, CreateNext(u, ok))
    ensures Untouched(s, t, i, Apply(s, CreateNext(u, ok)))
  {
    hide Inv, ApplyCreate;
    OthersOwnOtherSlots(s, t, i, u);
    CreateTouchesItsOwn(s, u, ok, t, i);
  }

  lemma WaitingDestroy(s: State, t: nat, i: nat, u: nat)
    requires Inv(s) && Waiting(s, t, i) && Enabled(s, DestroyNext(u)) && u != t
    ensures Untouched(s, t, i, Apply(s, DestroyNext(u)))
  {
    hide Inv, ApplyDestroy;
    OthersOwnOtherSlots(s, t, i, u);
    DestroyTouchesItsOwn(s, u, t, i);
  }

  lemma CreateTouchesItsOwn(s: State, u: nat, ok: bool, t: nat, i: nat)
    requires u in s.threads && s.threads[u].Creator? && s.threads[u].slot < |s.slots|
    requires t in s.threads && t != u && i < |s.slots| && s.threads[u].slot != i
    ensures Untouched(s, t, i, ApplyCreate(s, u, ok))
  {
  }

  lemma DestroyTouchesItsOwn(s: State, u: nat, t: nat, i: nat)
    requires u in s.threads && s.threads[u].Destroyer? && s.threads[u].slot < |s.slots|
    requires t in s.threads && t != u && i < |s.slots| && s.threads[u].slot != i
    ensures Untouched(s, t, i, ApplyDestroy(s, u))
  {
  }

  lemma WaitingBegin(s: State, t: nat, i: nat, step: Step)
    requires Waiting(s, t, i) && Enabled(s, step) && (step.CreateBegin? || step.DestroyBegin? || step.ShutdownDestroy?)
    ensures Untouched(s, t, i, Apply(s, step))
  {
    hide ApplyCreate, ApplyDestroy, Release, Deleting;
  }

  lemma WaitingMove(s: State, t: nat, i: nat, step: Step)
    requires Waiting(s, t, i) && Enabled(s, step) && Moving(step) && !step.Leave?
    ensures Untouched(s, t, i, Apply(s, step))
  {
    hide ApplyCreate, ApplyDestroy, Claim, Claims, Release, Deleting;
  }

  lemma WaitingIterate(s: State, t: nat, i: nat, step: Step)
    requires Inv(s) && Waiting(s, t, i) && Enabled(s, step)
    requires step.Pin? || step.IterateBegin? || step.IterateLook? || step.IterateRelease?
    ensures Untouched(s, t, i, Apply(s, step))
  {
    hide Owners, Accounted, CountersOk, DeletersOk, BuffersOk, PinsOk;
    hide ApplyCreate, ApplyDestroy, Claim, Claims, Release, Deleting;
  }

  lemma WaitingOther(s: State, t: nat, i: nat, step: Step)
    requires Inv(s) && Waiting(s, t, i) && Enabled(s, step)
    requires !step.Leave? && !step.Send? && !step.Sent? && !step.Unpin? && !step.CreateNext? && !step.DestroyNext?
    ensures Untouched(s, t, i, Apply(s, step))
  {
    hide Inv, Waiting, Untouched, ApplyCreate, ApplyDestroy, Claim, Claims, Release, Deleting;
    if Moving(step) {
      WaitingMove(s, t, i, step);
    } else if step.CreateBegin? || step.DestroyBegin? || step.ShutdownDestroy? {
      WaitingBegin(s, t, i, step);
    } else if step.Pin? || step.IterateBegin? || step.IterateLook? || step.IterateRelease? {
      WaitingIterate(s, t, i, step);
    } else {
      SlotsStay(s, t, i, Apply(s, step));
    }
  }

  lemma SlotsStay(s: State, t: nat, i: nat, s': State)
    requires Waiting(s, t, i) && s'.slots == s.slots && s'.threads == s.threads
    ensures Untouched(s, t, i, s')
  {
  }

  /** Whoever gives up a reference, or takes on a buffer, is counted. */
  lemma ReferenceIsCounted(s: State, t: nat, i: nat, step: Step)
    requires Inv(s) && Waiting(s, t, i) && Sound(s.doubled, i) && Enabled(s, step)
    ensures (step.Leave? || step.Send?) && s.conns[step.c] == Bound(i) ==> 0 < s.slots[i].clients
    ensures step == Unpin(i) ==> 0 < s.slots[i].clients
  {
    hide Inv;
    if (step.Leave? || step.Send?) && s.conns[step.c] == Bound(i) { HolderIsCounted(s, step.c, i); }
    if step == Unpin(i) { PinIsCounted(s, i); }
  }

  /** While a destroyer waits, a step of anyone else can only take references away. */
  lemma WaitingStep(s: State, t: nat, i: nat, step: Step)
    requires Inv(s) && Waiting(s, t, i) && Sound(s.doubled, i) && step != DestroyNext(t)
    ensures CountedDown(s, t, i, LeavesBy(s, step, i), DeliversBy(s, step, i), Apply(s, step))
  {
    hide Inv, Apply;
    if !Enabled(s, step) {
      assert Apply(s, step) == s by { hide *; ApplyWaits(s, step); }
    } else {
      ReferenceIsCounted(s, t, i, step);
      hide Enabled;
      match step
      case Leave(c, target) =>
        if s.conns[c].Leaving? { NobodyDetaches(s, t, i, c, target); }
        WaitingLeave(s, t, i, c, target);
      case Send(c) => WaitingSend(s, t, i, c);
      case Sent(j) => WaitingSent(s, t, i, j);
      case Unpin(j) => WaitingUnpin(s, t, i, j);
      case CreateNext(u, ok) => WaitingCreate(s, t, i, u, ok);
      case DestroyNext(u) => WaitingDestroy(s, t, i, u);
      case _ => WaitingOther(s, t, i, step);
    }
  }

  /** And nobody gives up the bucket twice. */
  lemma WaitingStaysSound(s: State, t: nat, i: nat, step: Step)
    requires Inv(s) && Waiting(s, t, i) && Sound(s.doubled, i) && step != DestroyNext(t)
    ensures Sound(Apply(s, step).doubled, i)
  {
    hide Inv, Apply, Waiting;
    DoubledGrows(s, step);
    if Doubles(s, step) && step.Leave? {
      NobodyDetaches(s, t, i, step.c, step.target);
    } else if Doubles(s, step) {
      OthersOwnOtherSlots(s, t, i, step.t);
    }
  }

  lemma ApplyWaits(s: State, step: Step)
    requires !Enabled(s, step)
    ensures Apply(s, step) == s
  {
  }

  /** A delete waits for its clients for as long as, and no longer than, it takes them to
      leave: over any run in which the destroyer itself takes no step, every client that was
      there either left or still is, and none was added; and likewise for the buffers being
      sent once the clients are gone. */
  lemma {:induction false} WaitCountsDown(s: State, t: nat, i: nat, steps: seq<Step>)
    requires Inv(s) && Waiting(s, t, i) && Sound(s.doubled, i) && DestroyNext(t) !in steps
    ensures CountedDown(s, t, i, Leaves(s, steps, i), Deliveries(s, steps, i), Run(s, steps))
    decreases |steps|
  {
    hide Inv, CountedDown, Waiting, Apply, LeavesBy, DeliversBy, Enabled, Sound;
    if steps == [] {
      CountedDownNothing(s, t, i);
    } else {
      var step, next, rest := steps[0], Apply(s, steps[0]), steps[1..];
      var leaves, deliveries := LeavesBy(s, step, i), DeliversBy(s, step, i);
      WaitingStep(s, t, i, step);
      WaitingStaysSound(s, t, i, step);
      StepOk(s, step);
      CountedDownStillWaits(s, t, i, leaves, deliveries, next);
      WaitCountsDown(next, t, i, rest);
      CountedDownTwice(s, t, i, leaves, deliveries, next, Leaves(next, rest, i), Deliveries(next, rest, i),
                       Run(next, rest));
    }
  }

  lemma CountedDownNothing(s: State, t: nat, i: nat)
    requires Waiting(s, t, i)
    ensures CountedDown(s, t, i, 0, 0, s)
  {
  }

  lemma CountedDownStillWaits(s: State, t: nat, i: nat, leaves: nat, deliveries: nat, s': State)
    requires CountedDown(s, t, i, leaves, deliveries, s')
    ensures Waiting(s', t, i)
  {
  }

  lemma CountedDownTwice(s: State, t: nat, i: nat, a: nat, b: nat, next: State, c: nat, d: nat, end: State)
    requires CountedDown(s, t, i, a, b, next) && CountedDown(next, t, i, c, d, end)
    ensures CountedDown(s, t, i, a + c, b + d, end)
  {
  }

  lemma CountedDownIsOver(s: State, t: nat, i: nat, leaves: nat, deliveries: nat, s': State)
    requires Waiting(s, t, i) && CountedDown(s, t, i, leaves, deliveries, s')
    ensures Enabled(s', DestroyNext(t)) <==>
            if s.threads[t].dpc == WaitClients then leaves == s.slots[i].clients
            else deliveries == s.slots[i].transit
  {
  }

  /** So the wait is over after exactly as many releases as there were clients. */
  lemma WaitEnds(s: State, t: nat, i: nat, steps: seq<Step>)
    requires Reachable(s) && Waiting(s, t, i) && Sound(s.doubled, i) && DestroyNext(t) !in steps
    ensures Enabled(Run(s, steps), DestroyNext(t)) <==>
            if s.threads[t].dpc == WaitClients then Leaves(s, steps, i) == s.slots[i].clients
            else Deliveries(s, steps, i) == s.slots[i].transit
  {
    ReachableIsOk(s);
    hide Inv, Reachable, Leaves, Deliveries, Run, CountedDown, Enabled, Sound;
    WaitCountsDown(s, t, i, steps);
    CountedDownIsOver(s, t, i, Leaves(s, steps, i), Deliveries(s, steps, i), Run(s, steps));
  }
}
