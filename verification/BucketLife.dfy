/**
 * How a bucket comes and goes: what create() and a delete lead to, whom a delete waits for, and that
 * the references that are counted are those that were taken and not given back.
 */
module BucketLife {
  import opened Wrappers
  import opened Buckets
  import opened BucketCounts
  import opened BucketInvariant
  import opened BucketSafety
  import opened BucketVisits

  // ---------------------------------------------------------------- create and delete go on

  function CreateLeft(pc: CreatePc): nat {
    match pc
    case MakeEngine => 4
    case MarkInitializing => 3
    case InitializeEngine => 2
    case Discard => 1
  }

  function DestroyLeft(pc: DestroyPc): nat {
    match pc
    case Detach => 6
    case ClearIndex => 5
    case WaitClients => 4
    case WaitTransit => 3
    case DestroyEngine => 2
    case Cleanup => 1
  }

  /** No slot but the one a thread owns is touched by it, and that keeps its name until it is free. */
  ghost predicate OnlyOwnSlot(s: State, t: nat, s': State)
    requires t in s.threads && s.threads[t].slot < |s.slots|
  {
    var i := s.threads[t].slot;
    && |s'.slots| == |s.slots| && s'.slots == s.slots[i := s'.slots[i]]
    && s'.slots[i].name == if s'.slots[i].state == Unused then "" else s.slots[i].name
  }

  /** A create() ends after at most four steps of its own, whatever others do in between: with the
      bucket Ready if its engine was made and initialised, and otherwise with the slot free again. */
  lemma CreateGoesOn(s: State, t: nat, ok: bool)
    requires Inv(s) && Enabled(s, CreateNext(t, ok))
    ensures var s', i, pc := Apply(s, CreateNext(t, ok)), s.threads[t].slot, s.threads[t].cpc;
            && OnlyOwnSlot(s, t, s') && s'.conns == s.conns
            && if t in s'.threads
               then s'.threads[t].Creator? && s'.threads[t].slot == i && CreateLeft(s'.threads[t].cpc) < CreateLeft(pc)
                    && s'.slots[i].state !in {Ready, Unused}
               else if ok && pc.InitializeEngine? then s'.slots[i].state == Ready && s'.slots[i].engine
               else s'.slots[i].state == Unused && !s'.slots[i].engine
  {
    hide Inv, ApplyDestroy, Deleting, Release, Claim, Claims;
    OwnSlot(s, t);
  }

  lemma DestroyGoesOnInPlace(s: State, t: nat)
    requires Inv(s) && Enabled(s, DestroyNext(t))
    ensures var s', i, pc := ApplyDestroy(s, t), s.threads[t].slot, s.threads[t].dpc;
            && OnlyOwnSlot(s, t, s')
            && if t in s'.threads
               then s'.threads[t].Destroyer? && s'.threads[t].slot == i
                    && DestroyLeft(s'.threads[t].dpc) < DestroyLeft(pc) && s'.slots[i].state == Destroying
               else pc.Cleanup? && s'.slots[i].state == Unused && !s'.slots[i].engine
  {
    hide Inv, Deleting;
    OwnSlot(s, t);
    if s.threads[t].dpc.Detach? || s.threads[t].dpc.ClearIndex? {
      DetachChanges(s, t);
      DetachAdvances(s, t);
      hide ApplyDestroy;
    } else {
      assert s.slots[s.threads[t].slot := s.slots[s.threads[t].slot]] == s.slots;
      hide Release, Cleared, Detaches;
    }
  }

  lemma DetachAdvances(s: State, t: nat)
    requires t in s.threads && s.threads[t].Destroyer? && s.threads[t].slot < |s.slots|
    requires s.threads[t].dpc.Detach? || s.threads[t].dpc.ClearIndex?
    ensures var threads' := ApplyDestroy(s, t).threads;
            t in threads' && threads'[t].Destroyer? && DestroyLeft(threads'[t].dpc) < DestroyLeft(s.threads[t].dpc)
  {
  }

  /** And a delete after at most six: with the slot free. */
  lemma DestroyGoesOn(s: State, t: nat)
    requires Inv(s) && Enabled(s, DestroyNext(t))
    ensures var s', i, pc := Apply(s, DestroyNext(t)), s.threads[t].slot, s.threads[t].dpc;
            && OnlyOwnSlot(s, t, s')
            && if t in s'.threads
               then s'.threads[t].Destroyer? && s'.threads[t].slot == i
                    && DestroyLeft(s'.threads[t].dpc) < DestroyLeft(pc) && s'.slots[i].state == Destroying
               else pc.Cleanup? && s'.slots[i].state == Unused && !s'.slots[i].engine
  {
    hide Inv, ApplyDestroy, OnlyOwnSlot;
    DestroyGoesOnInPlace(s, t);
  }

  // ---------------------------------------------------------------- delete

  /** A delete takes the bucket with that name if it is Ready, and nothing otherwise. */
  lemma DeleteTakesTheNamedOne(s: State, t: nat, name: string, conn: Option<nat>)
    requires Inv(s) && NoBucketOk(s) && !s.misfired && Enabled(s, DestroyBegin(t, name, conn))
    ensures forall i: nat :: IsReady(s, i) && s.slots[i].name == name ==>
              Apply(s, DestroyBegin(t, name, conn)) ==
              SetThread(SetSlot(s, i, s.slots[i].(state := Destroying)), t, Destroyer(i, conn, Detach))
    ensures (forall i: nat :: IsReady(s, i) ==> s.slots[i].name != name) ==> Apply(s, DestroyBegin(t, name, conn)) == s
  {
    forall i: nat | IsReady(s, i) && s.slots[i].name == name
      ensures 0 < i && Find(s.slots, name, 0) == i && Claims(s.slots, name)
    {
      FindsTheReadyOne(s, i);
    }
    hide Inv, ApplyCreate, ApplyDestroy, Release, Deleting;
    if Claims(s.slots, name) {
      assert IsReady(s, Find(s.slots, name, 0));
    }
  }

  // ---------------------------------------------------------------- whom a delete waits for

  /** Where a connection can be whose delete is not done: it selects nothing, and goes nowhere unless
      it is a DCP connection that is being closed. */
  predicate Patient(p: Phase, dcp: bool) {
    p.Bound? || p.Orphan? || (p.Leaving? && (p.target.ToNoBucket? || (p.target.ToClose? && dcp)))
  }

  /** The connection of a delete waits for it, and once the delete has looked at it does not hold the
      bucket. */
  ghost predicate NotForItself(conns: map<nat, Phase>, dcp: set<nat>, threads: map<nat, Thread>) {
    forall t :: t in threads ==> NotHeldBy(conns, dcp, threads[t])
  }

  predicate NotHeldBy(conns: map<nat, Phase>, dcp: set<nat>, th: Thread) {
    th.Destroyer? && th.conn.Some? && th.conn.value in conns ==>
      var p := conns[th.conn.value];
      Patient(p, th.conn.value in dcp) && (th.dpc.Detach? || p != Bound(th.slot))
  }

  /** Whoever deletes a bucket goes nowhere meanwhile, but to close a DCP connection. */
  lemma DeleterWaits(s: State, step: Step, c: nat)
    requires Enabled(s, step) && Moving(step) && Deleting(s.threads, c)
    requires c in s.conns ==> Patient(s.conns[c], c in s.dcp)
    ensures var s' := Apply(s, step);
            && (c in s'.conns ==> c in s.conns && (c in s.dcp <==> c in s'.dcp) && Patient(s'.conns[c], c in s.dcp))
            && (c in s'.conns ==> s'.conns[c] == s.conns[c] || s'.conns[c].Leaving?)
            && (c in s.conns && c !in s.dcp ==> c in s'.conns && s'.conns[c] == s.conns[c])
  {
    hide ApplyCreate, ApplyDestroy, Claim, Claims;
  }

  lemma MoverWaitsForOthers(s: State, step: Step)
    requires Enabled(s, step) && Moving(step) && NotForItself(s.conns, s.dcp, s.threads)
    ensures NotForItself(Apply(s, step).conns, Apply(s, step).dcp, Apply(s, step).threads)
  {
    hide Apply, Enabled, Deleting;
    ThreadlessKeepsStates(s, step);
    forall t | t in s.threads ensures NotHeldBy(Apply(s, step).conns, Apply(s, step).dcp, s.threads[t]) {
      var th := s.threads[t];
      assert NotHeldBy(s.conns, s.dcp, th);
      if th.Destroyer? && th.conn.Some? && th.conn.value in Apply(s, step).conns {
        IsDeleting(s.threads, t);
        DeleterWaits(s, step, th.conn.value);
      }
    }
  }

  lemma IsDeleting(threads: map<nat, Thread>, t: nat)
    requires t in threads && threads[t].Destroyer? && threads[t].conn.Some?
    ensures Deleting(threads, threads[t].conn.value)
  {
  }

  /** A step of a delete makes nobody hold anything, and its first step takes its own connection out. */
  lemma DestroyTakesOut(s: State, t: nat, u: nat)
    requires t in s.threads && s.threads[t].Destroyer? && s.threads[t].slot < |s.slots| && u in s.threads
    requires NotHeldBy(s.conns, s.dcp, s.threads[u])
    ensures var s' := ApplyDestroy(s, t);
            u in s'.threads ==> NotHeldBy(s'.conns, s'.dcp, s'.threads[u])
  {
    if s.threads[t].dpc.Detach? {
      hide Cleared;
    } else {
      hide Release, Detaches;
    }
  }

  lemma DestroyWaitsForOthers(s: State, t: nat)
    requires Enabled(s, DestroyNext(t)) && NotForItself(s.conns, s.dcp, s.threads)
    ensures NotForItself(ApplyDestroy(s, t).conns, ApplyDestroy(s, t).dcp, ApplyDestroy(s, t).threads)
  {
    hide Deleting, Detaches;
    DestroyMovesItsOwn(s, t);
    var s' := ApplyDestroy(s, t);
    hide ApplyDestroy;
    forall u | u in s'.threads ensures NotHeldBy(s'.conns, s'.dcp, s'.threads[u]) {
      assert u in s.threads && NotHeldBy(s.conns, s.dcp, s.threads[u]);
      DestroyTakesOut(s, t, u);
    }
  }

  lemma CreateWaitsForOthers(s: State, t: nat, ok: bool)
    requires Enabled(s, CreateNext(t, ok)) && NotForItself(s.conns, s.dcp, s.threads)
    ensures NotForItself(ApplyCreate(s, t, ok).conns, ApplyCreate(s, t, ok).dcp, ApplyCreate(s, t, ok).threads)
  {
    hide Deleting;
  }

  lemma BeginWaitsForOthers(s: State, step: Step)
    requires Enabled(s, step) && (step.CreateBegin? || step.DestroyBegin? || step.ShutdownDestroy?)
    requires NotForItself(s.conns, s.dcp, s.threads)
    ensures NotForItself(Apply(s, step).conns, Apply(s, step).dcp, Apply(s, step).threads)
  {
    hide ApplyCreate, ApplyDestroy, Release, Claims, Deleting;
  }

  lemma OtherWaitsForOthers(s: State, step: Step)
    requires Enabled(s, step) && Threadless(step) && !Moving(step) && NotForItself(s.conns, s.dcp, s.threads)
    ensures NotForItself(Apply(s, step).conns, Apply(s, step).dcp, Apply(s, step).threads)
  {
    OthersKeepStates(s, step);
    OthersKeepDcp(s, step);
    hide Apply, Enabled;
    var s' := Apply(s, step);
    forall t | t in s'.threads ensures NotHeldBy(s'.conns, s'.dcp, s'.threads[t]) {
      assert NotHeldBy(s.conns, s.dcp, s.threads[t]);
    }
  }

  lemma OthersKeepDcp(s: State, step: Step)
    requires Enabled(s, step) && Threadless(step) && !Moving(step)
    ensures s.dcp <= Apply(s, step).dcp
  {
    hide ApplyCreate, ApplyDestroy, Claim, Claims, Release, Deleting;
  }

  lemma StepWaitsForOthers(s: State, step: Step)
    requires Inv(s) && NotForItself(s.conns, s.dcp, s.threads)
    ensures NotForItself(Apply(s, step).conns, Apply(s, step).dcp, Apply(s, step).threads)
  {
    hide Inv, NotForItself, ApplyCreate, ApplyDestroy, Release, Claim, Claims, Deleting;
    if !Enabled(s, step) {
    } else if Threadless(step) {
      hide Apply;
      if Moving(step) {
        MoverWaitsForOthers(s, step);
      } else {
        OtherWaitsForOthers(s, step);
      }
    } else {
      match step
      case CreateNext(t, ok) => CreateWaitsForOthers(s, t, ok);
      case DestroyNext(t) => DestroyWaitsForOthers(s, t);
      case _ => BeginWaitsForOthers(s, step);
    }
  }

  lemma {:induction false} RunWaitsForOthers(s: State, steps: seq<Step>)
    requires Inv(s) && NotForItself(s.conns, s.dcp, s.threads)
    ensures NotForItself(Run(s, steps).conns, Run(s, steps).dcp, Run(s, steps).threads)
    decreases |steps|
  {
    hide Inv, NotForItself, Apply;
    if steps != [] {
      StepOk(s, steps[0]);
      StepWaitsForOthers(s, steps[0]);
      RunWaitsForOthers(Apply(s, steps[0]), steps[1..]);
    }
  }

  /** In every run a delete that waits for the clients of its bucket does not wait for the connection
      that asked for it. */
  lemma DeleteWaitsForOthers(s: State, t: nat)
    requires Reachable(s) && t in s.threads && s.threads[t].Destroyer? && s.threads[t].conn.Some?
    requires !s.threads[t].dpc.Detach?
    ensures s.threads[t].conn.value in s.conns ==> !Holds(s.conns[s.threads[t].conn.value], s.threads[t].slot)
  {
    ReachableWaits(s);
    assert NotHeldBy(s.conns, s.dcp, s.threads[t]);
  }

  lemma ReachableWaits(s: State)
    requires Reachable(s)
    ensures NotForItself(s.conns, s.dcp, s.threads)
  {
    var slots: nat, steps: seq<Step> :| slots > 0 && s == Run(Init(slots), steps);
    assert NotForItself(Init(slots).conns, Init(slots).dcp, Init(slots).threads);
    InitIsOk(slots);
    hide Inv, Run, Init, Reachable;
    RunWaitsForOthers(Init(slots), steps);
  }

  /** In every run a connection that is not a DCP connection and asked for a delete stays as it is until
      the delete is done: nothing but the delete itself moves it. */
  lemma NothingElseMovesIt(s: State, step: Step, t: nat)
    requires Reachable(s) && t in s.threads && s.threads[t].Destroyer? && s.threads[t].conn.Some?
    requires s.threads[t].conn.value in s.conns && s.threads[t].conn.value !in s.dcp && step != DestroyNext(t)
    ensures var c := s.threads[t].conn.value;
            c in Apply(s, step).conns && Apply(s, step).conns[c] == s.conns[c]
  {
    ReachableWaits(s);
    ReachableIsOk(s);
    var c := s.threads[t].conn.value;
    assert NotHeldBy(s.conns, s.dcp, s.threads[t]);
    IsDeleting(s.threads, t);
    hide Reachable, NotForItself, Deleting, ApplyCreate, ApplyDestroy, Claim, Claims, Release, Inv;
    if Enabled(s, step) {
      if Moving(step) {
        DeleterWaits(s, step, c);
      } else if Threadless(step) {
        OthersKeepStates(s, step);
      } else if step.DestroyNext? {
        OneDeleteEach(s, t, step.t);
        DestroyMovesNobodyElse(s, step.t, c);
      } else if step.CreateNext? {
        CreateMovesNobody(s, step.t, step.ok);
      } else {
        BeginMovesNobody(s, step);
      }
    }
  }

  lemma OneDeleteEach(s: State, t: nat, u: nat)
    requires Inv(s) && t in s.threads && u in s.threads && t != u
    ensures !SameDeleter(s.threads[t], s.threads[u])
  {
  }

  lemma DestroyMovesNobodyElse(s: State, t: nat, c: nat)
    requires t in s.threads && s.threads[t].Destroyer? && s.threads[t].slot < |s.slots|
    requires c in s.conns && s.threads[t].conn != Some(c)
    ensures c in ApplyDestroy(s, t).conns && ApplyDestroy(s, t).conns[c] == s.conns[c]
  {
  }

  lemma CreateMovesNobody(s: State, t: nat, ok: bool)
    requires t in s.threads && s.threads[t].Creator? && s.threads[t].slot < |s.slots|
    ensures ApplyCreate(s, t, ok).conns == s.conns
  {
  }

  lemma BeginMovesNobody(s: State, step: Step)
    requires step.CreateBegin? || step.DestroyBegin? || step.ShutdownDestroy?
    ensures Apply(s, step).conns == s.conns
  {
    hide ApplyCreate, ApplyDestroy, Release, Claims, Deleting;
  }

  // ---------------------------------------------------------------- taken and given back

  /** The buffers of slot `i` handed to the network by a step, and the pins taken on it, less those
      given back. */
  function SentBy(s: State, step: Step, i: nat): int {
    if !Enabled(s, step) then 0
    else if step.Send? && s.conns[step.c] == Bound(i) then 1
    else if step == Sent(i) then -1 else 0
  }

  function PinnedBy(s: State, step: Step, i: nat): int {
    if !Enabled(s, step) then 0 else if step == Pin(i) then 1 else if step == Unpin(i) then -1 else 0
  }

  function SentInAll(s: State, steps: seq<Step>, i: nat): int
    decreases |steps|
  {
    if steps == [] then 0 else SentBy(s, steps[0], i) + SentInAll(Apply(s, steps[0]), steps[1..], i)
  }

  function PinnedInAll(s: State, steps: seq<Step>, i: nat): int
    decreases |steps|
  {
    if steps == [] then 0 else PinnedBy(s, steps[0], i) + PinnedInAll(Apply(s, steps[0]), steps[1..], i)
  }

  lemma StepTakesAndGives(s: State, step: Step, i: nat)
    ensures Apply(s, step).buffers[i] == s.buffers[i] + SentBy(s, step, i)
    ensures Apply(s, step).pins[i] == s.pins[i] + PinnedBy(s, step, i)
  {
    hide ApplyCreate, ApplyDestroy, Deleting, Claim, Claims, Release;
    if !Enabled(s, step) {
    } else if step.Send? || step.Sent? || step.Pin? || step.Unpin? {
      TakesOrGives(s, step, i);
    } else {
      KeepsReferences(s, step);
    }
    hide Apply, Enabled;
  }

  lemma TakesOrGives(s: State, step: Step, i: nat)
    requires Enabled(s, step) && (step.Send? || step.Sent? || step.Pin? || step.Unpin?)
    ensures Apply(s, step).buffers[i] == s.buffers[i] + SentBy(s, step, i)
    ensures Apply(s, step).pins[i] == s.pins[i] + PinnedBy(s, step, i)
  {
    hide ApplyCreate, ApplyDestroy, Deleting, Claim, Claims, Release;
  }

  lemma KeepsReferences(s: State, step: Step)
    requires Enabled(s, step) && !(step.Send? || step.Sent? || step.Pin? || step.Unpin?)
    ensures Apply(s, step).buffers == s.buffers && Apply(s, step).pins == s.pins
  {
    hide ApplyCreate, ApplyDestroy, Deleting, Claim, Claims, Release;
    if Moving(step) {
      MoverKeepsReferences(s, step);
      hide Apply;
    } else {
      match step
      case DestroyNext(t) => DestroyKeepsReferences(s, t);
      case CreateNext(t, ok) => CreateKeepsReferences(s, t, ok);
      case DestroyBegin(_, _, _) => BeginKeepsReferences(s, step);
      case ShutdownDestroy(_) => BeginKeepsReferences(s, step);
      case _ =>
    }
  }

  lemma MoverKeepsReferences(s: State, step: Step)
    requires Enabled(s, step) && Moving(step)
    ensures Apply(s, step).buffers == s.buffers && Apply(s, step).pins == s.pins
  {
    hide ApplyCreate, ApplyDestroy, Deleting, Claim, Claims;
  }

  lemma BeginKeepsReferences(s: State, step: Step)
    requires Enabled(s, step) && (step.DestroyBegin? || step.ShutdownDestroy?)
    ensures Apply(s, step).buffers == s.buffers && Apply(s, step).pins == s.pins
  {
    hide ApplyCreate, ApplyDestroy, Deleting, Claims, Release, Find;
  }

  lemma DestroyKeepsReferences(s: State, t: nat)
    requires t in s.threads && s.threads[t].Destroyer? && s.threads[t].slot < |s.slots|
    ensures ApplyDestroy(s, t).buffers == s.buffers && ApplyDestroy(s, t).pins == s.pins
  {
  }

  lemma CreateKeepsReferences(s: State, t: nat, ok: bool)
    requires t in s.threads && s.threads[t].Creator? && s.threads[t].slot < |s.slots|
    ensures ApplyCreate(s, t, ok).buffers == s.buffers && ApplyCreate(s, t, ok).pins == s.pins
  {
  }

  lemma {:induction false} RunTakesAndGives(s: State, steps: seq<Step>, i: nat)
    ensures Run(s, steps).buffers[i] == s.buffers[i] + SentInAll(s, steps, i)
    ensures Run(s, steps).pins[i] == s.pins[i] + PinnedInAll(s, steps, i)
    decreases |steps|
  {
    hide Apply, SentBy, PinnedBy;
    if steps != [] {
      StepTakesAndGives(s, steps[0], i);
      RunTakesAndGives(Apply(s, steps[0]), steps[1..], i);
    }
  }

  /** In every run the transit count of a bucket is the buffers handed to the network less those that
      were sent, and its client count its connections, the pin of forEach() and the pins taken and not
      given back, less the times it was given up twice. */
  lemma CountsAreHistory(slots: nat, steps: seq<Step>, i: nat)
    requires 0 < i < slots && i < |Run(Init(slots), steps).slots|
    ensures var s := Run(Init(slots), steps);
            && s.slots[i].transit == SentInAll(Init(slots), steps, i)
            && s.slots[i].clients == |Holders(s.conns, i)| + One(s.iter == Pinned(i))
                                     + PinnedInAll(Init(slots), steps, i) - s.doubled[i]
  {
    RunTakesAndGives(Init(slots), steps, i);
    assert Init(slots).buffers[i] == 0 && Init(slots).pins[i] == 0;
    hide Run, SentInAll, PinnedInAll, Init;
    CountsAreAccountedFor(Run(Init(slots), steps), i);
  }
}
