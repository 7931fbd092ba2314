/**
 * What holds of the bucket life cycle in every run, and exactly when the rest of what its
 * users rely on holds too.
 */
module BucketSafety {
  import opened Wrappers
  import opened Buckets
  import opened BucketCounts
  import opened BucketInvariant

  /** The states of all runs, with any number of slots. */
  ghost predicate Reachable(s: State) {
    exists slots: nat, steps: seq<Step> :: slots > 0 && s == Run(Init(slots), steps)
  }

  lemma {:induction false} RunAppend(s: State, steps: seq<Step>, step: Step)
    ensures Run(s, steps + [step]) == Apply(Run(s, steps), step)
    decreases |steps|
  {
    hide Apply;
    if steps == [] {
      assert (steps + [step])[1..] == [];
    } else {
      assert (steps + [step])[1..] == steps[1..] + [step];
      RunAppend(Apply(s, steps[0]), steps[1..], step);
    }
  }

  // ---------------------------------------------------------------- the no-bucket

  /** Slot 0 is the no-bucket until a delete claims it; it never is again. */
  ghost predicate NoBucketOk(s: State) {
    && |s.slots| > 0
    && if s.misfired then s.slots[0].state in {Destroying, Unused} || s.slots[0].name != ""
       else s.slots[0].state == Ready && s.slots[0].name == ""
  }

  lemma CreateKeepsNoBucket(s: State, t: nat, ok: bool)
    requires Inv(s) && NoBucketOk(s) && t in s.threads && s.threads[t].Creator? && s.threads[t].slot < |s.slots|
    ensures NoBucketOk(ApplyCreate(s, t, ok)) && ApplyCreate(s, t, ok).misfired == s.misfired
  {
    hide Inv;
    OwnSlot(s, t);
  }

  lemma DestroyKeepsNoBucket(s: State, t: nat)
    requires Inv(s) && NoBucketOk(s) && t in s.threads && s.threads[t].Destroyer? && s.threads[t].slot < |s.slots|
    ensures NoBucketOk(ApplyDestroy(s, t)) && ApplyDestroy(s, t).misfired == s.misfired
  {
    hide Inv;
    OwnSlot(s, t);
  }

  lemma CreateBeginKeepsNoBucket(s: State, t: nat, name: string, i: nat)
    requires Inv(s) && NoBucketOk(s) && Enabled(s, CreateBegin(t, name, i))
    ensures NoBucketOk(Apply(s, CreateBegin(t, name, i)))
    ensures Apply(s, CreateBegin(t, name, i)).misfired == s.misfired
  {
    assert s.slots[i].name == "";
    hide Inv, ApplyCreate, ApplyDestroy, Claim, Claims, Deleting;
  }

  lemma ClaimKeepsNoBucket(s: State, t: nat, name: string, conn: Option<nat>)
    requires NoBucketOk(s) && Claims(s.slots, name)
    ensures NoBucketOk(Claim(s, t, name, conn))
    ensures !s.misfired ==> (Claim(s, t, name, conn).misfired <==> name == "")
    ensures s.misfired ==> Claim(s, t, name, conn).misfired
  {
    if !s.misfired && name == "" {
      assert Find(s.slots, "", 0) == 0;
    }
  }

  /** destroyAll() deletes a bucket by a name it read without a lock, and the name is empty. */
  predicate Misfire(s: State, step: Step) {
    step.ShutdownDestroy? && Enabled(s, step) && s.shutdown.name == ""
  }

  /** Nothing but that makes a delete claim the no-bucket. */
  lemma StepKeepsNoBucket(s: State, step: Step)
    requires Inv(s) && NoBucketOk(s)
    ensures NoBucketOk(Apply(s, step))
    ensures s.misfired ==> Apply(s, step).misfired
    ensures !s.misfired ==> (Apply(s, step).misfired <==> Misfire(s, step))
  {
    hide Inv, ApplyCreate, ApplyDestroy, Claim, Claims, Release, Deleting;
    if Enabled(s, step) && Threadless(step) {
      ThreadlessKeepsStates(s, step);
      hide Apply;
    } else if Enabled(s, step) {
      match step
      case CreateBegin(t, name, i) => CreateBeginKeepsNoBucket(s, t, name, i);
      case CreateNext(t, ok) => CreateKeepsNoBucket(s, t, ok);
      case DestroyNext(t) => DestroyKeepsNoBucket(s, t);
      case DestroyBegin(t, name, conn) => if Claims(s.slots, name) { ClaimKeepsNoBucket(s, t, name, conn); }
      case ShutdownDestroy(t) =>
        if Claims(s.slots, s.shutdown.name) {
          ClaimKeepsNoBucket(s, t, s.shutdown.name, None);
        } else if !s.misfired {
          NoBucketIsFound(s.slots);
        }
    }
  }

  lemma NoBucketIsFound(slots: seq<Slot>)
    requires |slots| > 0 && slots[0].state == Ready && slots[0].name == ""
    ensures Claims(slots, "")
  {
    assert Find(slots, "", 0) == 0;
  }

  // ---------------------------------------------------------------- every run

  lemma {:induction false} RunOk(s: State, steps: seq<Step>)
    requires Inv(s) && NoBucketOk(s)
    ensures Inv(Run(s, steps)) && NoBucketOk(Run(s, steps))
    decreases |steps|
  {
    hide Inv, NoBucketOk, Apply, Misfire;
    if steps != [] {
      StepOk(s, steps[0]);
      StepKeepsNoBucket(s, steps[0]);
      RunOk(Apply(s, steps[0]), steps[1..]);
    }
  }

  lemma ReachableIsOk(s: State)
    requires Reachable(s)
    ensures Inv(s) && NoBucketOk(s)
  {
    hide Inv, Run;
    var slots: nat, steps: seq<Step> :| slots > 0 && s == Run(Init(slots), steps);
    InitIsOk(slots);
    RunOk(Init(slots), steps);
  }

  /** In every run buckets have different names, and none but slot 0 an empty one; slot 0 is the
      no-bucket exactly if no delete ever claimed it. */
  lemma NamesAreUnique(s: State)
    requires Reachable(s)
    ensures forall i, j :: 0 <= i < j < |s.slots| && s.slots[i].state != Unused && s.slots[j].state != Unused ==>
              s.slots[i].name != s.slots[j].name
    ensures forall i :: 0 < i < |s.slots| ==> (s.slots[i].name == "" <==> s.slots[i].state == Unused)
    ensures |s.slots| > 0 && (s.slots[0].state == Ready && s.slots[0].name == "" <==> !s.misfired)
  {
    ReachableIsOk(s);
    hide Reachable, Owning, Accounted, Core;
  }

  /** In every run a slot is in transition exactly when a thread owns it, no two threads own
      the same slot, and nothing is ever Stopping. */
  lemma OwnershipIsUnique(s: State)
    requires Reachable(s)
    ensures forall i :: 0 <= i < |s.slots| ==> (InTransition(s.slots[i]) <==> Owned(s.threads, i))
    ensures forall t, u :: t in s.threads && u in s.threads && s.threads[t].slot == s.threads[u].slot ==> t == u
    ensures forall i :: 0 <= i < |s.slots| ==> s.slots[i].state != Stopping
  {
    ReachableIsOk(s);
    hide Reachable, Accounted, Core;
    forall i | 0 <= i < |s.slots| && Owned(s.threads, i) ensures InTransition(s.slots[i]) {
      var t :| t in s.threads && s.threads[t].slot == i;
      assert OwnerState(s.slots[i], s.threads[t]);
    }
  }

  /** In every run the client count of a real bucket is the number of connections that hold
      it, the pin of forEach() and the pins of those that set or push a cluster configuration,
      less the times a connection gave it up twice; and its transit count the number of buffers
      being sent. */
  lemma CountsAreAccountedFor(s: State, i: nat)
    requires Reachable(s) && 0 < i < |s.slots|
    ensures s.slots[i].clients == |Holders(s.conns, i)| + Pins(s.iter, s.pins, i) - s.doubled[i] < UINT32
    ensures s.slots[i].clients == |Holders(s.conns, i)| + Pins(s.iter, s.pins, i) <==> Sound(s.doubled, i)
    ensures Sound(s.doubled, i) ==> 0 <= s.slots[i].clients
    ensures s.slots[i].transit == s.buffers[i]
  {
    ReachableIsOk(s);
    hide Reachable, Owners, CountersOk, DeletersOk, IterOk;
    HoldersAreBounded(s.conns, i);
    assert s.pins[i] <= MAX_PINS;
  }

  /** Connections that appear bound to slot 0. */
  function AtNoBucket(conns: map<nat, Phase>): set<nat> {
    Holders(conns, 0) + Orphans(conns)
  }

  /** In every run the count of slot 0 lags behind the connections bound to it by the number
      of connections that ever deleted their own bucket, and of those that gave it up twice; that
      is the number of those that are still there exactly when none of them has left yet. */
  lemma NoBucketDrift(s: State)
    requires Reachable(s)
    ensures |s.slots| > 0
    ensures s.slots[0].clients == |AtNoBucket(s.conns)| + Pins(s.iter, s.pins, 0) - s.orphaned - s.doubled[0]
    ensures s.departed + s.doubled[0] == 0 <==>
            s.slots[0].clients == |AtNoBucket(s.conns)| + Pins(s.iter, s.pins, 0) - |Orphans(s.conns)|
  {
    ReachableIsOk(s);
    hide Reachable, Owners, Core;
    assert Holders(s.conns, 0) !! Orphans(s.conns);
    assert |AtNoBucket(s.conns)| == |Holders(s.conns, 0)| + |Orphans(s.conns)|;
  }

  // ---------------------------------------------------------------- references

  /** Nothing holds a reference to the slot: no connection, no iterator, no pin, no buffer on
      its way out. */
  ghost predicate Unreferenced(s: State, i: nat) {
    && (forall c :: c in s.conns ==> !Holds(s.conns[c], i))
    && s.iter != Pinned(i)
    && s.pins[i] == 0
    && s.buffers[i] == 0
  }

  /** A connection whose index still names the slot has given up its reference and is about
      to clear the index. */
  ghost predicate OnlyLeaving(s: State, i: nat) {
    forall c :: c in s.conns && BucketIndex(s.conns[c]) == i ==> s.conns[c].Leaving?
  }

  lemma ZeroCountsMeanUnreferenced(s: State, i: nat)
    requires Inv(s) && Sound(s.doubled, i) && i < |s.slots| && s.slots[i].clients == 0 && s.slots[i].transit == 0
    ensures Unreferenced(s, i) && OnlyLeaving(s, i)
  {
    hide Owners, CountersOk, DeletersOk, IterOk, PinsOk;
    forall c | c in s.conns ensures !Holds(s.conns[c], i) {
      assert Holders(s.conns, i) == {};
      assert c !in Holders(s.conns, i);
    }
  }

  /** In every run, when a destroyer is about to destroy the engine of a bucket nobody gave up
      twice, and from then until it has reset the slot, nothing holds a reference to the bucket,
      and the connections that still carry its index are those on their way out. */
  lemma EngineIsDestroyedUnreferenced(s: State, t: nat)
    requires Reachable(s) && t in s.threads && s.threads[t].Destroyer? && Sound(s.doubled, s.threads[t].slot)
    requires s.threads[t].dpc == DestroyEngine || s.threads[t].dpc == Cleanup
    ensures 0 < s.threads[t].slot < |s.slots| && Unreferenced(s, s.threads[t].slot) && OnlyLeaving(s, s.threads[t].slot)
  {
    hide Reachable, Inv, Unreferenced, OnlyLeaving;
    ReachableIsOk(s);
    OwnSlot(s, t);
    ZeroCountsMeanUnreferenced(s, s.threads[t].slot);
  }

  /** In every run, whoever holds a reference to a bucket nobody gave up twice, or to a no-bucket
      no delete claimed, finds its engine alive. */
  lemma NoDanglingReference(s: State, i: nat)
    requires Reachable(s) && i < |s.slots| && !Unreferenced(s, i)
    requires if i == 0 then !s.misfired else Sound(s.doubled, i)
    ensures s.slots[i].engine && s.slots[i].state in {Ready, Destroying}
  {
    ReachableIsOk(s);
    hide Reachable, Unreferenced, OnlyLeaving, Accounted, DeletersOk, BuffersOk, IterOk, PinsOk, Settled;
    if i > 0 {
      if s.slots[i].clients == 0 && s.slots[i].transit == 0 {
        ZeroCountsMeanUnreferenced(s, i);
      } else if InTransition(s.slots[i]) {
        assert Owned(s.threads, i);
        var t :| t in s.threads && s.threads[t].slot == i;
        OwnerOfACountedSlot(s, t);
      }
    }
  }

  lemma OwnerOfACountedSlot(s: State, t: nat)
    requires Inv(s) && t in s.threads && Sound(s.doubled, s.threads[t].slot) && s.threads[t].slot < |s.slots|
    requires s.slots[s.threads[t].slot].clients != 0 || s.slots[s.threads[t].slot].transit != 0
    ensures s.slots[s.threads[t].slot].engine && s.slots[s.threads[t].slot].state == Destroying
  {
    hide Inv;
    OwnSlot(s, t);
  }

  /** In every run a bucket that is being created is seen by nobody: it has no reference until
      it is Ready, and then it has its engine. */
  lemma NobodySeesANewBucket(s: State, t: nat)
    requires Reachable(s) && t in s.threads && s.threads[t].Creator? && Sound(s.doubled, s.threads[t].slot)
    ensures var i := s.threads[t].slot;
            && 0 < i < |s.slots| && s.slots[i].state != Ready && s.slots[i].name != ""
            && Unreferenced(s, i) && OnlyLeaving(s, i)
  {
    hide Reachable, Inv, Unreferenced, OnlyLeaving;
    ReachableIsOk(s);
    OwnSlot(s, t);
    NamesAreUnique(s);
    ZeroCountsMeanUnreferenced(s, s.threads[t].slot);
  }

  /** In every run a free slot nobody gave up twice is as good as new, although resetting it
      leaves the counters alone. */
  lemma FreeSlotsAreClean(s: State, i: nat)
    requires Reachable(s) && i < |s.slots| && s.slots[i].state == Unused && Sound(s.doubled, i)
    ensures s.slots[i] == Slot(Unused, "", 0, 0, false) && Unreferenced(s, i) && OnlyLeaving(s, i)
  {
    ReachableIsOk(s);
    hide Reachable, Unreferenced, OnlyLeaving, Owning, Accounted, DeletersOk, BuffersOk, IterOk, PinsOk;
    ZeroCountsMeanUnreferenced(s, i);
  }

  /** In every run the bucket forEach() works on stays Ready, with its engine: no delete can
      even begin. */
  lemma IteratedBucketStaysReady(s: State)
    requires Reachable(s) && s.iter.Pinned?
    ensures s.iter.slot < |s.slots| && s.slots[s.iter.slot].state == Ready && s.slots[s.iter.slot].engine
    ensures Sound(s.doubled, s.iter.slot) ==> 0 < s.slots[s.iter.slot].clients
  {
    ReachableIsOk(s);
    hide Reachable, Owning, CountersOk, DeletersOk, BuffersOk, PinsOk;
  }

  // ---------------------------------------------------------------- promises

  /** What those who use the buckets rely on. */
  ghost predicate Promises(s: State) {
    && |s.slots| > 0 && s.slots[0].state == Ready && s.slots[0].name == "" && s.slots[0].engine
    // names are unique
    && (forall i, j :: 0 <= i < j < |s.slots| && s.slots[i].state != Unused && s.slots[j].state != Unused ==>
          s.slots[i].name != s.slots[j].name)
    // whoever holds a reference finds an engine
    && (forall i :: 0 <= i < |s.slots| && !Unreferenced(s, i) ==> s.slots[i].engine)
    // the count of a bucket is exact
    && (forall i :: 0 < i < |s.slots| ==> s.slots[i].clients == |Holders(s.conns, i)| + Pins(s.iter, s.pins, i))
    // no two threads own a slot
    && (forall t, u :: t in s.threads && u in s.threads && s.threads[t].slot == s.threads[u].slot ==> t == u)
    // an engine is destroyed when nothing refers to it
    && (forall t :: t in s.threads && s.threads[t].Destroyer? && s.threads[t].dpc in {DestroyEngine, Cleanup} ==>
          Unreferenced(s, s.threads[t].slot) && OnlyLeaving(s, s.threads[t].slot))
  }

  /** No delete ever claimed slot 0, and no connection gave up a bucket twice. */
  ghost predicate Intact(s: State) {
    !s.misfired && forall i :: 0 < i < |s.slots| ==> s.doubled[i] == 0
  }

  lemma IntactKeepsPromises(s: State)
    requires Reachable(s) && Intact(s)
    ensures Promises(s)
  {
    hide Reachable, Unreferenced, OnlyLeaving, Holders, Pins, Owned;
    NamesAreUnique(s);
    OwnershipIsUnique(s);
    NoBucketHasItsEngine(s);
    forall i | 0 <= i < |s.slots| && !Unreferenced(s, i) ensures s.slots[i].engine {
      NoDanglingReference(s, i);
    }
    forall i | 0 < i < |s.slots| ensures s.slots[i].clients == |Holders(s.conns, i)| + Pins(s.iter, s.pins, i) {
      CountsAreAccountedFor(s, i);
    }
    forall t | t in s.threads && s.threads[t].Destroyer? && s.threads[t].dpc in {DestroyEngine, Cleanup}
      ensures Unreferenced(s, s.threads[t].slot) && OnlyLeaving(s, s.threads[t].slot)
    {
      OwnedSlotIsReal(s, t);
      EngineIsDestroyedUnreferenced(s, t);
    }
  }

  lemma NoBucketHasItsEngine(s: State)
    requires Reachable(s) && !s.misfired
    ensures |s.slots| > 0 && s.slots[0].engine
  {
    ReachableIsOk(s);
    hide Reachable, Owning, Accounted, Core;
  }

  lemma OwnedSlotIsReal(s: State, t: nat)
    requires Reachable(s) && !s.misfired && t in s.threads
    ensures 0 < s.threads[t].slot < |s.slots|
  {
    hide Reachable, Inv;
    ReachableIsOk(s);
    OwnSlot(s, t);
  }

  /** In every run the promises hold exactly for as long as neither has happened. */
  lemma PromisesHoldExactly(s: State)
    requires Reachable(s)
    ensures Promises(s) <==> Intact(s)
  {
    hide Reachable, Unreferenced, OnlyLeaving, Holders, Pins;
    if Intact(s) {
      IntactKeepsPromises(s);
    } else if Promises(s) {
      NamesAreUnique(s);
      var i :| 0 < i < |s.slots| && s.doubled[i] != 0;
      CountsAreAccountedFor(s, i);
      assert false;
    }
  }

  // ---------------------------------------------------------------- the steps that break them

  /** A connection gives up a bucket for the second time: it is closed between the two halves of
      disassociate_bucket() in destroy(), or destroy() comes between the two halves of closing. */
  predicate Doubles(s: State, step: Step) {
    Enabled(s, step) &&
    match step
    case Leave(c, _) => s.conns[c].Leaving?
    case DestroyNext(t) =>
      s.threads[t].dpc.Detach? && Detaches(s, s.threads[t]) && s.conns[s.threads[t].conn.value].Leaving?
    case _ => false
  }

  function DoubledSlot(s: State, step: Step): nat
    requires Doubles(s, step)
  {
    if step.Leave? then BucketIndex(s.conns[step.c]) else s.threads[step.t].slot
  }

  ghost predicate DoubledBy(s: State, step: Step, s': State) {
    s'.doubled == if Doubles(s, step) then s.doubled + multiset{DoubledSlot(s, step)} else s.doubled
  }

  lemma MovingDoubles(s: State, step: Step)
    requires Enabled(s, step) && Moving(step)
    ensures DoubledBy(s, step, Apply(s, step))
  {
    hide ApplyCreate, ApplyDestroy, Claim, Claims, Deleting;
  }

  lemma DestroyDoubles(s: State, t: nat)
    requires Enabled(s, DestroyNext(t))
    ensures DoubledBy(s, DestroyNext(t), ApplyDestroy(s, t)) && |ApplyDestroy(s, t).slots| == |s.slots|
  {
    hide Deleting;
  }

  lemma CreateDoublesNothing(s: State, t: nat, ok: bool)
    requires Enabled(s, CreateNext(t, ok))
    ensures ApplyCreate(s, t, ok).doubled == s.doubled && |ApplyCreate(s, t, ok).slots| == |s.slots|
  {
    hide Deleting;
  }

  lemma BeginDoublesNothing(s: State, step: Step)
    requires Enabled(s, step) && (step.CreateBegin? || step.DestroyBegin? || step.ShutdownDestroy?)
    ensures Apply(s, step).doubled == s.doubled && |Apply(s, step).slots| == |s.slots|
  {
    hide ApplyCreate, ApplyDestroy, Release, Deleting;
  }

  lemma DoubledGrows(s: State, step: Step)
    ensures DoubledBy(s, step, Apply(s, step)) && |Apply(s, step).slots| == |s.slots|
  {
    if !Enabled(s, step) {
    } else if Threadless(step) {
      ThreadlessKeepsStates(s, step);
      hide Apply, Enabled, DoubledSlot;
      if Moving(step) {
        MovingDoubles(s, step);
      } else {
        OthersKeepStates(s, step);
      }
    } else {
      hide ApplyCreate, ApplyDestroy, Release, Claim, Claims, DoubledSlot, Deleting;
      match step
      case DestroyNext(t) => DestroyDoubles(s, t);
      case CreateNext(t, ok) => CreateDoublesNothing(s, t, ok);
      case _ => BeginDoublesNothing(s, step);
    }
  }

  /** The slot is a real bucket. */
  lemma DoubledIsReal(s: State, step: Step)
    requires Inv(s) && NoBucketOk(s) && !s.misfired && Doubles(s, step)
    ensures 0 < DoubledSlot(s, step) < |s.slots|
  {
    if step.Leave? {
      LeaverIsDetaching(s, step.c);
      hide Inv;
      var t :| t in s.threads && s.threads[t] == Destroyer(s.conns[step.c].slot, Some(step.c), ClearIndex);
      OwnSlot(s, t);
    } else {
      hide Inv;
      OwnSlot(s, step.t);
    }
  }

  /** Neither kind of step. */
  predicate Harmless(s: State, step: Step) {
    !Misfire(s, step) && !Doubles(s, step)
  }

  predicate AllHarmless(s: State, steps: seq<Step>)
    decreases |steps|
  {
    steps != [] ==> Harmless(s, steps[0]) && AllHarmless(Apply(s, steps[0]), steps[1..])
  }

  lemma IntactStep(s: State, step: Step)
    requires Inv(s) && NoBucketOk(s)
    ensures Intact(Apply(s, step)) <==> Intact(s) && Harmless(s, step)
  {
    hide Inv, Apply, Misfire, Doubles, DoubledSlot, NoBucketOk;
    StepKeepsNoBucket(s, step);
    DoubledGrows(s, step);
    var s' := Apply(s, step);
    if !Intact(s) && !s.misfired {
      var i :| 0 < i < |s.slots| && s.doubled[i] != 0;
      assert s'.doubled[i] != 0;
    } else if Intact(s) && Doubles(s, step) {
      DoubledIsReal(s, step);
      assert s'.doubled[DoubledSlot(s, step)] != 0;
    }
  }

  lemma {:induction false} IntactRun(s: State, steps: seq<Step>)
    requires Inv(s) && NoBucketOk(s)
    ensures Intact(Run(s, steps)) <==> Intact(s) && AllHarmless(s, steps)
    decreases |steps|
  {
    hide Inv, NoBucketOk, Intact, Apply, Misfire, Harmless;
    if steps != [] {
      StepOk(s, steps[0]);
      StepKeepsNoBucket(s, steps[0]);
      IntactStep(s, steps[0]);
      IntactRun(Apply(s, steps[0]), steps[1..]);
    }
  }

  /** Over every run: the promises hold at its end exactly if destroyAll() never deleted by an
      empty name and no connection ever gave up a bucket twice. */
  lemma PromisesHoldIffHarmless(slots: nat, steps: seq<Step>)
    requires slots > 0
    ensures Promises(Run(Init(slots), steps)) <==> AllHarmless(Init(slots), steps)
  {
    InitIsOk(slots);
    assert Intact(Init(slots)) && NoBucketOk(Init(slots));
    hide Inv, Promises, Intact, NoBucketOk, AllHarmless, Run, Init;
    IntactRun(Init(slots), steps);
    PromisesHoldExactly(Run(Init(slots), steps));
  }

  // ---------------------------------------------------------------- what a run must avoid

  /** destroyAll() finds the slot it saw Ready deleted and reset, and reads its name. */
  predicate LateRead(s: State, step: Step) {
    step.ShutdownRead? && Enabled(s, step) && s.slots[s.shutdown.slot].state == Unused
  }

  /** A connection is closed while its own delete has not yet cleared its index. */
  predicate EarlyLeave(s: State, step: Step) {
    && step.Leave? && Enabled(s, step)
    && exists t :: t in s.threads && s.threads[t].Destroyer? && s.threads[t].conn == Some(step.c)
                   && (s.threads[t].dpc.Detach? || s.threads[t].dpc.ClearIndex?)
  }

  predicate NeverLateNorEarly(s: State, steps: seq<Step>)
    decreases |steps|
  {
    steps != [] ==>
      && !LateRead(s, steps[0]) && !EarlyLeave(s, steps[0])
      && NeverLateNorEarly(Apply(s, steps[0]), steps[1..])
  }

  predicate Nameless(shutdown: Shutdown) {
    shutdown.Named? && shutdown.name == ""
  }

  /** The name destroyAll() reads is empty exactly if it reads it too late. */
  lemma EmptyNameIsALateRead(s: State, step: Step)
    requires Inv(s) && step.ShutdownRead? && Enabled(s, step)
    ensures Nameless(Apply(s, step).shutdown) <==> LateRead(s, step)
  {
    hide Owning, Accounted, CountersOk, DeletersOk, BuffersOk, IterOk, PinsOk, ApplyCreate, ApplyDestroy, Claim, Claims;
  }

  lemma NamedOnlyByReading(s: State, step: Step)
    requires Nameless(Apply(s, step).shutdown) && !Nameless(s.shutdown)
    ensures step.ShutdownRead? && Enabled(s, step)
  {
    hide Deleting;
  }

  /** The connection of a delete that has not started on it is bound. */
  ghost predicate DeletersBound(conns: map<nat, Phase>, threads: map<nat, Thread>) {
    forall t :: t in threads ==> DeleterBound(conns, threads[t])
  }

  predicate DeleterBound(conns: map<nat, Phase>, th: Thread) {
    th.Destroyer? && th.dpc.Detach? && th.conn.Some? && th.conn.value in conns ==>
      conns[th.conn.value].Bound? || conns[th.conn.value].Orphan?
  }

  lemma DeleterIsBound(s: State, t: nat)
    requires DeletersBound(s.conns, s.threads) && t in s.threads
    ensures DeleterBound(s.conns, s.threads[t])
  {
  }

  lemma LeaverIsDetaching(s: State, c: nat)
    requires Inv(s) && c in s.conns && s.conns[c].Leaving? && s.conns[c].target.ToNoBucket?
    ensures Detaching(s.threads, c, s.conns[c].slot)
  {
    hide Owners, Accounted, CountersOk, BuffersOk, IterOk, PinsOk, Detaching;
  }

  lemma BoundDeletersDoNotDouble(s: State, step: Step)
    requires Inv(s) && DeletersBound(s.conns, s.threads) && !EarlyLeave(s, step)
    ensures !Doubles(s, step)
  {
    hide Inv, DeletersBound, Deleting;
    if Doubles(s, step) && step.DestroyNext? {
      DeleterIsBound(s, step.t);
    } else if Doubles(s, step) {
      LeaverIsDetaching(s, step.c);
    }
  }

  /** Connection `c`, whose delete is not at that point, moves. */
  lemma MoveKeepsBound(s: State, c: nat, conns: map<nat, Phase>)
    requires DeletersBound(s.conns, s.threads)
    requires forall e :: e in conns && e != c ==> e in s.conns && conns[e] == s.conns[e]
    requires forall t :: t in s.threads ==>
               !(s.threads[t].Destroyer? && s.threads[t].dpc.Detach? && s.threads[t].conn == Some(c))
    ensures DeletersBound(conns, s.threads)
  {
    forall t | t in s.threads ensures DeleterBound(conns, s.threads[t]) {
      assert DeleterBound(s.conns, s.threads[t]);
    }
  }

  lemma NotAboutToDetach(s: State, step: Step)
    requires Enabled(s, step) && !EarlyLeave(s, step) && DeletersBound(s.conns, s.threads)
    requires Moving(step)
    ensures forall t :: t in s.threads ==>
              !(s.threads[t].Destroyer? && s.threads[t].dpc.Detach? && s.threads[t].conn == Some(step.c))
  {
    forall t | t in s.threads && s.threads[t].Destroyer? && s.threads[t].dpc.Detach?
      ensures s.threads[t].conn != Some(step.c)
    {
      assert DeleterBound(s.conns, s.threads[t]);
    }
  }

  lemma ConnectionKeepsBound(s: State, step: Step)
    requires Enabled(s, step) && !EarlyLeave(s, step) && DeletersBound(s.conns, s.threads)
    requires Moving(step)
    ensures DeletersBound(Apply(s, step).conns, Apply(s, step).threads)
  {
    NotAboutToDetach(s, step);
    hide DeletersBound, EarlyLeave, ApplyCreate, ApplyDestroy, Claim, Claims, Deleting;
    MoveKeepsBound(s, step.c, Apply(s, step).conns);
  }

  lemma CreateKeepsBound(s: State, t: nat, ok: bool)
    requires t in s.threads && s.threads[t].Creator? && s.threads[t].slot < |s.slots|
    requires DeletersBound(s.conns, s.threads)
    ensures DeletersBound(ApplyCreate(s, t, ok).conns, ApplyCreate(s, t, ok).threads)
  {
  }

  /** A delete works on its own connection only. */
  lemma DestroyMovesItsOwn(s: State, t: nat)
    requires t in s.threads && s.threads[t].Destroyer? && s.threads[t].slot < |s.slots|
    ensures var s' := ApplyDestroy(s, t);
            && (forall e :: e in s'.conns && s.threads[t].conn != Some(e) ==> e in s.conns && s'.conns[e] == s.conns[e])
            && (forall u :: u in s'.threads && u != t ==> u in s.threads && s'.threads[u] == s.threads[u])
            && (t in s'.threads ==> s'.threads[t].Destroyer? && !s'.threads[t].dpc.Detach?)
  {
    if s.threads[t].dpc.Detach? || s.threads[t].dpc.ClearIndex? {
      DetachChanges(s, t);
    } else {
      hide Release, Cleared, Detaches;
    }
  }

  lemma DestroyKeepsBound(s: State, t: nat)
    requires Inv(s) && t in s.threads && s.threads[t].Destroyer? && s.threads[t].slot < |s.slots|
    requires DeletersBound(s.conns, s.threads)
    ensures DeletersBound(ApplyDestroy(s, t).conns, ApplyDestroy(s, t).threads)
  {
    hide Owners, Accounted, CountersOk, BuffersOk, IterOk, PinsOk, Detaching;
    DestroyMovesItsOwn(s, t);
    var s' := ApplyDestroy(s, t);
    hide ApplyDestroy;
    forall u | u in s'.threads ensures DeleterBound(s'.conns, s'.threads[u]) {
      if u != t {
        assert !SameDeleter(s.threads[u], s.threads[t]);
        assert DeleterBound(s.conns, s.threads[u]);
      }
    }
  }

  lemma BeginKeepsBound(s: State, step: Step)
    requires Enabled(s, step) && (step.CreateBegin? || step.DestroyBegin? || step.ShutdownDestroy?)
    requires DeletersBound(s.conns, s.threads)
    ensures DeletersBound(Apply(s, step).conns, Apply(s, step).threads)
  {
    hide ApplyCreate, ApplyDestroy, Release, Claims, Deleting;
  }

  lemma StepKeepsBound(s: State, step: Step)
    requires Inv(s) && DeletersBound(s.conns, s.threads) && !EarlyLeave(s, step)
    ensures DeletersBound(Apply(s, step).conns, Apply(s, step).threads)
  {
    hide Inv, DeletersBound, EarlyLeave, ApplyCreate, ApplyDestroy, Release, Claim, Claims, Deleting;
    if !Enabled(s, step) {
    } else if Threadless(step) {
      hide Apply;
      if Moving(step) {
        ConnectionKeepsBound(s, step);
      } else {
        OthersKeepStates(s, step);
      }
    } else {
      match step
      case CreateNext(t, ok) => CreateKeepsBound(s, t, ok);
      case DestroyNext(t) => DestroyKeepsBound(s, t);
      case _ => BeginKeepsBound(s, step);
    }
  }

  lemma NotLateStep(s: State, step: Step)
    requires Inv(s) && !Nameless(s.shutdown) && !LateRead(s, step)
    ensures !Misfire(s, step) && !Nameless(Apply(s, step).shutdown)
  {
    hide Inv, Apply;
    if Nameless(Apply(s, step).shutdown) {
      NamedOnlyByReading(s, step);
      EmptyNameIsALateRead(s, step);
    }
  }

  lemma {:induction false} NeverLateNorEarlyIsHarmless(s: State, steps: seq<Step>)
    requires Inv(s) && !Nameless(s.shutdown) && DeletersBound(s.conns, s.threads) && NeverLateNorEarly(s, steps)
    ensures AllHarmless(s, steps)
    decreases |steps|
  {
    hide Inv, Apply, Misfire, LateRead, EarlyLeave, Doubles, Enabled, Nameless, DeletersBound;
    if steps != [] {
      StepOk(s, steps[0]);
      NotLateStep(s, steps[0]);
      BoundDeletersDoNotDouble(s, steps[0]);
      StepKeepsBound(s, steps[0]);
      NeverLateNorEarlyIsHarmless(Apply(s, steps[0]), steps[1..]);
    }
  }

  /** So all is well if destroyAll() never reads a name too late, and if a connection is never
      closed while its own delete has yet to clear its index. */
  lemma NeverLateNorEarlyKeepsPromises(slots: nat, steps: seq<Step>)
    requires slots > 0 && NeverLateNorEarly(Init(slots), steps)
    ensures Promises(Run(Init(slots), steps))
  {
    InitIsOk(slots);
    assert DeletersBound(Init(slots).conns, Init(slots).threads) && !Nameless(Init(slots).shutdown);
    hide Inv, DeletersBound, Nameless, AllHarmless, Run, Init, Promises;
    NeverLateNorEarlyIsHarmless(Init(slots), steps);
    PromisesHoldIffHarmless(slots, steps);
  }

  // ---------------------------------------------------------------- the no-bucket, over a run

  ghost predicate ReadyThroughout(s: State, steps: seq<Step>)
    decreases |steps|
  {
    && |s.slots| > 0 && s.slots[0].state == Ready
    && (steps != [] ==> ReadyThroughout(Apply(s, steps[0]), steps[1..]))
  }

  predicate NeverMisfires(s: State, steps: seq<Step>)
    decreases |steps|
  {
    steps != [] ==> !Misfire(s, steps[0]) && NeverMisfires(Apply(s, steps[0]), steps[1..])
  }

  lemma MisfireClaimsNoBucket(s: State, step: Step)
    requires Inv(s) && NoBucketOk(s) && !s.misfired && Misfire(s, step)
    ensures |Apply(s, step).slots| > 0 && Apply(s, step).slots[0].state == Destroying
  {
    hide Inv, ApplyCreate, ApplyDestroy, Release, Deleting;
    NoBucketIsFound(s.slots);
    assert Find(s.slots, "", 0) == 0;
  }

  /** Slot 0 stays Ready all along a run exactly if destroyAll() never deletes by an empty name. */
  lemma {:induction false} NoBucketStaysReady(s: State, steps: seq<Step>)
    requires Inv(s) && NoBucketOk(s) && !s.misfired
    ensures ReadyThroughout(s, steps) <==> NeverMisfires(s, steps)
    ensures Run(s, steps).misfired <==> !NeverMisfires(s, steps)
    decreases |steps|
  {
    assert |s.slots| > 0 && s.slots[0].state == Ready;
    hide Inv, NoBucketOk, Apply, Misfire;
    if steps != [] {
      var next, rest := Apply(s, steps[0]), steps[1..];
      StepOk(s, steps[0]);
      StepKeepsNoBucket(s, steps[0]);
      if Misfire(s, steps[0]) {
        MisfireClaimsNoBucket(s, steps[0]);
        MisfiredForGood(next, rest);
      } else {
        NoBucketStaysReady(next, rest);
      }
    }
  }

  lemma {:induction false} MisfiredForGood(s: State, steps: seq<Step>)
    requires Inv(s) && NoBucketOk(s) && s.misfired
    ensures Run(s, steps).misfired
    decreases |steps|
  {
    hide Inv, NoBucketOk, Apply, Misfire;
    if steps != [] {
      StepOk(s, steps[0]);
      StepKeepsNoBucket(s, steps[0]);
      MisfiredForGood(Apply(s, steps[0]), steps[1..]);
    }
  }

  /** The slot a delete of `name` would take is slot 0 exactly for the empty name. */
  lemma OnlyTheEmptyNameHitsNoBucket(s: State, name: string)
    requires Reachable(s) && !s.misfired
    ensures |s.slots| > 0 && (Find(s.slots, name, 0) == 0 <==> name == "")
  {
    hide Inv, Reachable;
    ReachableIsOk(s);
  }

  lemma SlotCountStays(s: State, step: Step)
    ensures |Apply(s, step).slots| == |s.slots|
  {
    hide DoubledBy, Apply;
    DoubledGrows(s, step);
  }
}
