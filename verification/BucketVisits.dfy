/**
 * Walking over the buckets: forEach() visits every one, and destroyAll() leaves none.
 */
module BucketVisits {
  import opened Wrappers
  import opened Buckets
  import opened BucketCounts
  import opened BucketInvariant
  import opened BucketSafety

  predicate IsReady(s: State, i: nat) {
    i < |s.slots| && s.slots[i].state == Ready
  }

  // ---------------------------------------------------------------- becoming Ready

  lemma CreateOpens(s: State, t: nat, ok: bool, i: nat)
    requires Inv(s) && Enabled(s, CreateNext(t, ok))
    ensures IsReady(ApplyCreate(s, t, ok), i) <==> IsReady(s, i) || (ok && s.threads[t] == Creator(i, InitializeEngine))
  {
    hide Inv, Deleting;
    OwnSlot(s, t);
  }

  lemma DestroyOpensNothing(s: State, t: nat, i: nat)
    requires Inv(s) && Enabled(s, DestroyNext(t))
    ensures IsReady(ApplyDestroy(s, t), i) <==> IsReady(s, i)
  {
    hide Inv, Deleting;
    OwnSlot(s, t);
    if s.threads[t].dpc.Detach? || s.threads[t].dpc.ClearIndex? {
      DetachChanges(s, t);
      hide ApplyDestroy;
    } else {
      hide Release, Cleared, Detaches;
    }
  }

  lemma BeginOpensNothing(s: State, step: Step, i: nat)
    requires Enabled(s, step) && (step.CreateBegin? || step.DestroyBegin? || step.ShutdownDestroy?)
    ensures IsReady(Apply(s, step), i) ==> IsReady(s, i)
    ensures s.iter != Idle || step.CreateBegin? ==> (IsReady(Apply(s, step), i) <==> IsReady(s, i))
  {
    hide ApplyCreate, ApplyDestroy, Release, Deleting;
  }

  /** A bucket becomes Ready exactly by its engine being initialised with success, in a slot that
      a create() made its engine for. */
  lemma BecomesReady(s: State, step: Step, i: nat)
    requires Inv(s) && !IsReady(s, i)
    ensures IsReady(Apply(s, step), i) <==>
            Enabled(s, step) && step.CreateNext? && step.ok && s.threads[step.t] == Creator(i, InitializeEngine)
  {
    hide Inv, ApplyCreate, ApplyDestroy, Release, Claim, Claims, Deleting;
    if Enabled(s, step) && Threadless(step) {
      ThreadlessKeepsStates(s, step);
      hide Apply;
    } else if Enabled(s, step) {
      match step
      case CreateNext(t, ok) => CreateOpens(s, t, ok, i);
      case DestroyNext(t) => DestroyOpensNothing(s, t, i);
      case _ => BeginOpensNothing(s, step, i);
    }
  }

  /** And stays Ready while the global lock is taken. */
  lemma StaysReady(s: State, step: Step, i: nat)
    requires Inv(s) && IsReady(s, i) && s.iter != Idle
    ensures IsReady(Apply(s, step), i)
  {
    hide Inv, ApplyCreate, ApplyDestroy, Release, Claim, Claims, Deleting;
    if Enabled(s, step) && Threadless(step) {
      ThreadlessKeepsStates(s, step);
      hide Apply;
    } else if Enabled(s, step) {
      match step
      case CreateNext(t, ok) => CreateOpens(s, t, ok, i);
      case DestroyNext(t) => DestroyOpensNothing(s, t, i);
      case _ => BeginOpensNothing(s, step, i);
    }
  }

  // ---------------------------------------------------------------- forEach

  /** The buckets that were Ready when forEach() began, and those it has worked on since. */
  datatype Tour = Tour(ready: set<nat>, visited: set<nat>)

  function ReadyOnes(s: State): set<nat> {
    set i | 0 <= i < |s.slots| && s.slots[i].state == Ready
  }

  function Visited(s: State, step: Step, t: Tour): Tour {
    var s' := Apply(s, step);
    if step.IterateBegin? && Enabled(s, step) then Tour(ReadyOnes(s), {})
    else if s'.iter.Pinned? then t.(visited := t.visited + {s'.iter.slot})
    else t
  }

  function VisitedAll(s: State, steps: seq<Step>, t: Tour): Tour
    decreases |steps|
  {
    if steps == [] then t else VisitedAll(Apply(s, steps[0]), steps[1..], Visited(s, steps[0], t))
  }

  /** Everything that was Ready is still, and was visited up to where it has come. */
  ghost predicate TourOk(s: State, t: Tour) {
    && (s.iter != Idle ==> forall i :: i in t.ready ==> IsReady(s, i))
    && (s.iter.Looking? ==> forall i :: i in t.ready && i < s.iter.slot ==> i in t.visited)
    && (s.iter.Pinned? ==> forall i :: i in t.ready && i <= s.iter.slot ==> i in t.visited)
  }

  lemma IterMoves(s: State, step: Step)
    ensures var iter, iter' := s.iter, Apply(s, step).iter;
            if !Enabled(s, step) then iter' == iter
            else if step.IterateBegin? then iter == Idle && iter' == Looking(0)
            else if step.IterateLook? then
              && iter.Looking? && iter.slot <= |s.slots|
              && iter' == if iter.slot == |s.slots| then Idle
                          else if IsReady(s, iter.slot) then Pinned(iter.slot) else Looking(iter.slot + 1)
            else if step.IterateRelease? then iter.Pinned? && iter' == if step.go then Looking(iter.slot + 1) else Idle
            else iter' == iter
  {
    if step.DestroyNext? && Enabled(s, step) { IterStays(s, step.t); }
    hide ApplyDestroy, Release, Deleting;
  }

  lemma IterStays(s: State, t: nat)
    requires t in s.threads && s.threads[t].Destroyer? && s.threads[t].slot < |s.slots|
    ensures ApplyDestroy(s, t).iter == s.iter
  {
  }

  lemma StepTourOk(s: State, step: Step, t: Tour)
    requires Inv(s) && TourOk(s, t)
    ensures TourOk(Apply(s, step), Visited(s, step, t))
  {
    hide Inv, Apply, Enabled;
    IterMoves(s, step);
    var s', t' := Apply(s, step), Visited(s, step, t);
    forall i | s'.iter != Idle && i in t'.ready ensures IsReady(s', i) {
      if s.iter == Idle {
        BeginKeepsReady(s, step, i);
      } else {
        StaysReady(s, step, i);
      }
    }
  }

  lemma BeginKeepsReady(s: State, step: Step, i: nat)
    requires step.IterateBegin? && IsReady(s, i)
    ensures IsReady(Apply(s, step), i)
  {
  }

  lemma {:induction false} RunTourOk(s: State, steps: seq<Step>, t: Tour)
    requires Inv(s) && TourOk(s, t)
    ensures Inv(Run(s, steps)) && TourOk(Run(s, steps), VisitedAll(s, steps, t))
    decreases |steps|
  {
    hide Inv, TourOk, Apply, Visited;
    if steps != [] {
      StepOk(s, steps[0]);
      StepTourOk(s, steps[0], t);
      RunTourOk(Apply(s, steps[0]), steps[1..], Visited(s, steps[0], t));
    }
  }

  /** In every run forEach() has, when it comes to the end, worked on every bucket that was Ready
      when it began. All of them still are. */
  lemma ForEachVisitsAll(slots: nat, steps: seq<Step>)
    requires slots > 0
    ensures var s, t := Run(Init(slots), steps), VisitedAll(Init(slots), steps, Tour({}, {}));
            s.iter == Looking(|s.slots|) ==> t.ready <= t.visited && forall i :: i in t.ready ==> IsReady(s, i)
  {
    InitIsOk(slots);
    assert TourOk(Init(slots), Tour({}, {}));
    hide Inv, Run, VisitedAll, Init;
    RunTourOk(Init(slots), steps, Tour({}, {}));
  }

  // ---------------------------------------------------------------- destroyAll

  /** A bucket becomes Ready. */
  predicate Opens(s: State, step: Step) {
    step.CreateNext? && Enabled(s, step) && step.ok && s.threads[step.t].cpc.InitializeEngine?
  }

  /** None does in a run. */
  predicate NothingOpens(s: State, steps: seq<Step>)
    decreases |steps|
  {
    steps != [] ==> !Opens(s, steps[0]) && NothingOpens(Apply(s, steps[0]), steps[1..])
  }

  ghost predicate NoneReady(s: State, n: nat) {
    forall i :: 0 < i < n && i < |s.slots| ==> s.slots[i].state != Ready
  }

  /** destroyAll() leaves no bucket behind where it has been, and remembers the name of the one it is
      about to delete. */
  ghost predicate ClearedUp(s: State) {
    match s.shutdown
    case Serving => true
    case AtSlot(i) => NoneReady(s, i)
    case SawReady(i) => NoneReady(s, i)
    case Named(i, name) => NoneReady(s, i) && (IsReady(s, i) ==> s.slots[i].name == name)
    case Awaiting(i, _) => NoneReady(s, i + 1)
    case Stopped => NoneReady(s, |s.slots|)
  }

  lemma NoneReadyStays(s: State, step: Step, n: nat)
    requires Inv(s) && NoneReady(s, n) && !Opens(s, step)
    ensures NoneReady(Apply(s, step), n)
  {
    hide Inv, Apply, Enabled;
    forall i | 0 < i < n && i < |Apply(s, step).slots| ensures Apply(s, step).slots[i].state != Ready {
      assert !IsReady(s, i);
      BecomesReady(s, step, i);
    }
  }

  lemma ReadyKeepsName(s: State, step: Step, i: nat)
    requires Inv(s) && IsReady(s, i) && IsReady(Apply(s, step), i)
    ensures Apply(s, step).slots[i].name == s.slots[i].name
  {
    hide Inv, ApplyCreate, ApplyDestroy, Release, Claim, Claims, Deleting;
    if Enabled(s, step) && Threadless(step) {
      ThreadlessKeepsStates(s, step);
      hide Apply;
    } else if Enabled(s, step) {
      match step
      case CreateNext(t, ok) => CreateKeepsReadyName(s, t, ok, i);
      case DestroyNext(t) => DestroyKeepsReadyName(s, t, i);
      case _ => BeginKeepsReadyName(s, step, i);
    }
  }

  lemma CreateKeepsReadyName(s: State, t: nat, ok: bool, i: nat)
    requires Inv(s) && Enabled(s, CreateNext(t, ok)) && IsReady(s, i)
    ensures i < |ApplyCreate(s, t, ok).slots| && ApplyCreate(s, t, ok).slots[i].name == s.slots[i].name
  {
    hide Inv, Deleting;
    OwnSlot(s, t);
  }

  lemma DestroyKeepsReadyName(s: State, t: nat, i: nat)
    requires Inv(s) && Enabled(s, DestroyNext(t)) && IsReady(s, i)
    ensures i < |ApplyDestroy(s, t).slots| && ApplyDestroy(s, t).slots[i].name == s.slots[i].name
  {
    hide Inv, Deleting;
    OwnSlot(s, t);
    if s.threads[t].dpc.Detach? || s.threads[t].dpc.ClearIndex? {
      DetachChanges(s, t);
      hide ApplyDestroy;
    } else {
      hide Release, Cleared, Detaches;
    }
  }

  lemma BeginKeepsReadyName(s: State, step: Step, i: nat)
    requires Enabled(s, step) && (step.CreateBegin? || step.DestroyBegin? || step.ShutdownDestroy?) && IsReady(s, i)
    ensures i < |Apply(s, step).slots| && Apply(s, step).slots[i].name == s.slots[i].name
  {
    hide ApplyCreate, ApplyDestroy, Release, Deleting, Find;
  }

  /** A delete of the name of a Ready bucket takes that bucket. */
  lemma FindsTheReadyOne(s: State, i: nat)
    requires Inv(s) && 0 < i && IsReady(s, i)
    ensures Find(s.slots, s.slots[i].name, 0) == i && Claims(s.slots, s.slots[i].name)
  {
    hide Owning, Accounted, Core;
    var j := Find(s.slots, s.slots[i].name, 0);
    assert j <= i;
  }

  lemma NamedIsReal(s: State)
    requires Inv(s) && s.shutdown.Named?
    ensures 0 < s.shutdown.slot < |s.slots|
  {
    hide Owners, Accounted, CountersOk, DeletersOk, BuffersOk, IterOk, PinsOk;
  }

  lemma ClaimCloses(s: State, t: nat, name: string, i: nat)
    requires Claims(s.slots, name) && NoneReady(s, i) && (IsReady(s, i) ==> Find(s.slots, name, 0) == i)
    ensures NoneReady(Claim(s, t, name, None), i + 1)
  {
    hide Find;
  }

  lemma ShutdownClaims(s: State, t: nat)
    requires Inv(s) && ClearedUp(s) && Enabled(s, ShutdownDestroy(t))
    ensures ClearedUp(Apply(s, ShutdownDestroy(t)))
  {
    hide Inv, ApplyCreate, ApplyDestroy, Release, Deleting, Find, Claim, Claims;
    NamedIsReal(s);
    var i, name := s.shutdown.slot, s.shutdown.name;
    if IsReady(s, i) { FindsTheReadyOne(s, i); }
    if Claims(s.slots, name) {
      ClaimCloses(s, t, name, i);
    }
  }

  lemma ShutdownGoesOn(s: State, step: Step)
    requires Inv(s) && ClearedUp(s) && Enabled(s, step)
    requires step.ShutdownBegin? || step.ShutdownLook? || step.ShutdownRead? || step.ShutdownNext?
    ensures ClearedUp(Apply(s, step))
  {
    hide Inv, ApplyCreate, ApplyDestroy, Release, Claim, Claims, Deleting;
  }

  predicate OfMainThread(step: Step) {
    step.ShutdownBegin? || step.ShutdownLook? || step.ShutdownRead? || step.ShutdownNext? || step.ShutdownDestroy?
  }

  lemma ShutdownStays(s: State, step: Step)
    requires Enabled(s, step) && !OfMainThread(step)
    ensures Apply(s, step).shutdown == s.shutdown && |Apply(s, step).slots| == |s.slots|
  {
    hide ApplyCreate, ApplyDestroy, Release, Claim, Claims, Deleting;
    if Moving(step) {
      MoverKeepsShutdown(s, step);
    } else if Threadless(step) {
      OtherKeepsShutdown(s, step);
    } else {
      match step
      case CreateNext(t, ok) => CreateKeepsShutdown(s, t, ok);
      case DestroyNext(t) => DestroyKeepsShutdown(s, t);
      case _ => BeginKeepsShutdown(s, step);
    }
  }

  lemma MoverKeepsShutdown(s: State, step: Step)
    requires Enabled(s, step) && Moving(step)
    ensures Apply(s, step).shutdown == s.shutdown && |Apply(s, step).slots| == |s.slots|
  {
    hide ApplyCreate, ApplyDestroy, Claim, Claims, Deleting;
  }

  lemma OtherKeepsShutdown(s: State, step: Step)
    requires Enabled(s, step) && Threadless(step) && !Moving(step) && !OfMainThread(step)
    ensures Apply(s, step).shutdown == s.shutdown && |Apply(s, step).slots| == |s.slots|
  {
    hide ApplyCreate, ApplyDestroy, Release, Claim, Claims, Deleting;
    if step.IterateBegin? || step.IterateLook? || step.IterateRelease? {
      IterKeepsShutdown(s, step);
      hide Apply;
    }
  }

  lemma IterKeepsShutdown(s: State, step: Step)
    requires Enabled(s, step) && (step.IterateBegin? || step.IterateLook? || step.IterateRelease?)
    ensures Apply(s, step).shutdown == s.shutdown && |Apply(s, step).slots| == |s.slots|
  {
    hide ApplyCreate, ApplyDestroy, Release, Claim, Claims, Deleting;
  }

  lemma BeginKeepsShutdown(s: State, step: Step)
    requires Enabled(s, step) && (step.CreateBegin? || step.DestroyBegin?)
    ensures Apply(s, step).shutdown == s.shutdown && |Apply(s, step).slots| == |s.slots|
  {
    hide ApplyCreate, ApplyDestroy, Release, Deleting, Find;
  }

  lemma DestroyKeepsShutdown(s: State, t: nat)
    requires t in s.threads && s.threads[t].Destroyer? && s.threads[t].slot < |s.slots|
    ensures ApplyDestroy(s, t).shutdown == s.shutdown && |ApplyDestroy(s, t).slots| == |s.slots|
  {
  }

  lemma CreateKeepsShutdown(s: State, t: nat, ok: bool)
    requires t in s.threads && s.threads[t].Creator? && s.threads[t].slot < |s.slots|
    ensures ApplyCreate(s, t, ok).shutdown == s.shutdown && |ApplyCreate(s, t, ok).slots| == |s.slots|
  {
  }

  lemma OtherClearedUp(s: State, step: Step)
    requires Inv(s) && ClearedUp(s) && !Opens(s, step)
    requires Apply(s, step).shutdown == s.shutdown && |Apply(s, step).slots| == |s.slots|
    ensures ClearedUp(Apply(s, step))
  {
    hide Inv, Apply, Enabled, NoneReady, Opens;
    match s.shutdown
    case Serving =>
    case AtSlot(i) => NoneReadyStays(s, step, i);
    case SawReady(i) => NoneReadyStays(s, step, i);
    case Named(i, name) =>
      NoneReadyStays(s, step, i);
      if IsReady(Apply(s, step), i) {
        StillReady(s, step, i);
        ReadyKeepsName(s, step, i);
      }
    case Awaiting(i, _) => NoneReadyStays(s, step, i + 1);
    case Stopped => NoneReadyStays(s, step, |s.slots|);
  }

  lemma StillReady(s: State, step: Step, i: nat)
    requires Inv(s) && !Opens(s, step) && IsReady(Apply(s, step), i)
    ensures IsReady(s, i)
  {
    hide Inv, Apply, Enabled, IsReady;
    if !IsReady(s, i) { BecomesReady(s, step, i); }
  }

  lemma StepClearedUp(s: State, step: Step)
    requires Inv(s) && ClearedUp(s) && !Opens(s, step)
    ensures ClearedUp(Apply(s, step))
  {
    hide Inv, ClearedUp, Apply, Enabled, Opens;
    if !Enabled(s, step) {
      assert Apply(s, step) == s by { WaitingChangesNothing(s, step); }
    } else if step.ShutdownDestroy? {
      ShutdownClaims(s, step.t);
    } else if step.ShutdownBegin? || step.ShutdownLook? || step.ShutdownRead? || step.ShutdownNext? {
      ShutdownGoesOn(s, step);
    } else {
      ShutdownStays(s, step);
      OtherClearedUp(s, step);
    }
  }

  lemma WaitingChangesNothing(s: State, step: Step)
    requires !Enabled(s, step)
    ensures Apply(s, step) == s
  {
  }

  /** Over every run in which no bucket becomes Ready once destroyAll() has begun: where it has been no
      bucket is Ready, and when it is done none is but slot 0. */
  lemma {:induction false} DestroyAllLeavesNone(s: State, steps: seq<Step>)
    requires Inv(s) && ClearedUp(s) && NothingOpens(s, steps)
    ensures ClearedUp(Run(s, steps))
    ensures Run(s, steps).shutdown.Stopped? ==> NoneReady(Run(s, steps), |Run(s, steps).slots|)
    decreases |steps|
  {
    if steps == [] {
    } else {
      hide Inv, ClearedUp, Apply, Opens, NoneReady;
      StepOk(s, steps[0]);
      StepClearedUp(s, steps[0]);
      DestroyAllLeavesNone(Apply(s, steps[0]), steps[1..]);
    }
  }

  // ---------------------------------------------------------------- they end

  /** A bound on the steps forEach() still takes. */
  function ToGo(slots: nat, iter: Iterator): int {
    match iter
    case Idle => 0
    case Looking(i) => 2 * (slots - i) + 1
    case Pinned(i) => 2 * (slots - i)
  }

  predicate Iterates(s: State, step: Step) {
    Enabled(s, step) && (step.IterateLook? || step.IterateRelease?)
  }

  function Iterated(s: State, steps: seq<Step>): nat
    decreases |steps|
  {
    if steps == [] then 0 else One(Iterates(s, steps[0])) + Iterated(Apply(s, steps[0]), steps[1..])
  }

  /** forEach() is at it all through a run. */
  predicate Busy(s: State, steps: seq<Step>)
    decreases |steps|
  {
    s.iter != Idle && (steps != [] ==> Busy(Apply(s, steps[0]), steps[1..]))
  }

  /** forEach() never has to wait for anyone. */
  lemma ForEachNeverWaits(s: State, go: bool)
    requires Inv(s) && |s.slots| > 0
    ensures s.iter.Looking? ==> Enabled(s, IterateLook)
    ensures s.iter.Pinned? ==> Enabled(s, IterateRelease(go))
  {
    hide Owners, Accounted, CountersOk, DeletersOk, BuffersOk, PinsOk;
  }

  lemma ForEachGoesOn(s: State, step: Step)
    requires Inv(s) && s.iter != Idle
    ensures ToGo(|s.slots|, Apply(s, step).iter) + One(Iterates(s, step)) <= ToGo(|s.slots|, s.iter)
  {
    IterBound(s);
    hide Inv, Apply, Enabled;
    IterMoves(s, step);
  }

  lemma IterBound(s: State)
    requires Inv(s)
    ensures s.iter != Idle ==> 0 < ToGo(|s.slots|, s.iter) <= 2 * |s.slots| + 1
  {
    hide Owners, Accounted, CountersOk, DeletersOk, BuffersOk, PinsOk;
  }

  lemma {:induction false} IteratedIsBounded(s: State, steps: seq<Step>)
    requires Inv(s) && Busy(s, steps)
    ensures Iterated(s, steps) < ToGo(|s.slots|, s.iter)
    decreases |steps|
  {
    IterBound(s);
    hide Inv, Apply, Iterates, ToGo;
    if steps != [] {
      StepOk(s, steps[0]);
      ForEachGoesOn(s, steps[0]);
      SlotCountStays(s, steps[0]);
      IteratedIsBounded(Apply(s, steps[0]), steps[1..]);
    }
  }

  /** So in every run forEach() ends after twice as many of its own steps as there are slots, and one,
      whatever the others do. */
  lemma ForEachEnds(s: State, steps: seq<Step>)
    requires Reachable(s) && Busy(s, steps)
    ensures Iterated(s, steps) <= 2 * |s.slots|
  {
    ReachableIsOk(s);
    hide Inv, Reachable, Iterated, Busy, ToGo;
    IteratedIsBounded(s, steps);
    IterBound(s);
  }

  /** A bound on the steps destroyAll() still takes once it has begun. */
  function ToStop(slots: nat, shutdown: Shutdown): int {
    match shutdown
    case Serving => 4 * slots
    case AtSlot(i) => 4 * (slots - i) + 1
    case SawReady(i) => 4 * (slots - i)
    case Named(i, _) => 4 * (slots - i) - 1
    case Awaiting(i, _) => 4 * (slots - i) - 2
    case Stopped => 0
  }

  predicate Stops(s: State, step: Step) {
    Enabled(s, step) && OfMainThread(step)
  }

  function Stopping(s: State, steps: seq<Step>): nat
    decreases |steps|
  {
    if steps == [] then 0 else One(Stops(s, steps[0])) + Stopping(Apply(s, steps[0]), steps[1..])
  }

  /** destroyAll() waits for nothing but forEach(), before it starts a delete, and then for that delete
      to be done. */
  lemma DestroyAllWaitsFor(s: State, t: nat)
    requires Inv(s) && |s.slots| > 0
    ensures s.shutdown.AtSlot? ==> Enabled(s, ShutdownLook)
    ensures s.shutdown.SawReady? ==> Enabled(s, ShutdownRead)
    ensures s.shutdown.Named? && t !in s.threads ==> (Enabled(s, ShutdownDestroy(t)) <==> s.iter == Idle)
    ensures s.shutdown.Awaiting? ==>
              (Apply(s, ShutdownNext).shutdown == AtSlot(s.shutdown.slot + 1) <==> s.shutdown.t !in s.threads)
  {
    hide Owners, Accounted, CountersOk, DeletersOk, BuffersOk, PinsOk;
  }

  lemma DestroyAllGoesOn(s: State, step: Step)
    ensures ToStop(|s.slots|, Apply(s, step).shutdown) + One(Stops(s, step)) <= ToStop(|s.slots|, s.shutdown)
  {
    if Enabled(s, step) && OfMainThread(step) {
      MainThreadMoves(s, step);
    } else if Enabled(s, step) {
      ShutdownStays(s, step);
      hide Apply, Enabled;
    }
  }

  lemma MainThreadMoves(s: State, step: Step)
    requires Enabled(s, step) && OfMainThread(step)
    ensures ToStop(|s.slots|, Apply(s, step).shutdown) + 1 <= ToStop(|s.slots|, s.shutdown)
  {
    hide ApplyCreate, ApplyDestroy, Release, Deleting, Claims;
  }

  lemma StopBound(s: State)
    requires Inv(s)
    ensures 0 <= ToStop(|s.slots|, s.shutdown)
  {
    hide Owners, Accounted, CountersOk, DeletersOk, BuffersOk, PinsOk;
  }

  /** In every run destroyAll() is done after at most four steps of its own for every slot. */
  lemma {:induction false} DestroyAllEnds(s: State, steps: seq<Step>)
    requires Inv(s)
    ensures Stopping(s, steps) <= ToStop(|s.slots|, s.shutdown)
    decreases |steps|
  {
    StopBound(s);
    hide Inv, Apply, Stops, ToStop;
    if steps != [] {
      StepOk(s, steps[0]);
      DestroyAllGoesOn(s, steps[0]);
      SlotCountStays(s, steps[0]);
      DestroyAllEnds(Apply(s, steps[0]), steps[1..]);
    }
  }
}
