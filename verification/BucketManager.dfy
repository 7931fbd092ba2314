/**
 * The bucket array and the fields the threads change in place. Every method is one region
 * under a lock, or one atomic access; one whose step is not enabled is waiting for a lock or
 * on a condition variable. The object always is in the state its trace of steps leads to, so
 * that what holds in every run of the step system holds of it.
 */
module BucketManager {
  import opened Wrappers
  import opened Buckets
  import opened BucketCounts
  import opened BucketInvariant
  import opened BucketSafety

  /** Steps that need no global lock. */
  predicate Local(step: Step) {
    !(step.CreateBegin? || step.DestroyBegin? || step.IterateBegin? || step.IterateLook? || step.IterateRelease?
      || step.ShutdownDestroy?)
  }

  /** What the holder of the global lock can rely on: names are only taken away, a free slot
      stays free, and no thread starts. */
  ghost predicate Quiet(s: State, s': State) {
    && |s'.slots| == |s.slots| && s'.iter == s.iter
    && s'.threads.Keys <= s.threads.Keys
    && (forall i :: 0 <= i < |s.slots| ==> s'.slots[i].name == s.slots[i].name || s'.slots[i].name == "")
    && (forall i :: 0 <= i < |s.slots| && s.slots[i].state == Unused ==> s'.slots[i].state == Unused)
  }

  lemma QuietTwice(a: State, b: State, c: State)
    requires Quiet(a, b) && Quiet(b, c)
    ensures Quiet(a, c)
  {
  }

  lemma QuietAtFirst(s: State)
    ensures Quiet(s, s)
  {
  }

  /** What a scan saw stays true. */
  lemma QuietKeepsScan(s: State, s': State, name: string, i: nat, firstFree: nat)
    requires Quiet(s, s') && i <= |s.slots|
    ensures |s'.slots| == |s.slots|
    ensures firstFree < |s.slots| && s.slots[firstFree].state == Unused ==> s'.slots[firstFree].state == Unused
    ensures name != "" && (forall j :: 0 <= j < i ==> s.slots[j].name != name) ==>
              forall j :: 0 <= j < i ==> s'.slots[j].name != name
  {
  }

  /** A thread works on its own slot. */
  lemma OwnerIsQuiet(s: State, t: nat, s': State)
    requires t in s.threads && s.threads[t].slot < |s.slots| && s.slots[s.threads[t].slot].state != Unused
    requires |s'.slots| == |s.slots| && s'.slots == s.slots[s.threads[t].slot := s'.slots[s.threads[t].slot]]
    requires s'.slots[s.threads[t].slot].name in {s.slots[s.threads[t].slot].name, ""}
    requires s'.iter == s.iter && s'.threads.Keys <= s.threads.Keys
    ensures Quiet(s, s')
  {
  }

  lemma CreateIsQuiet(s: State, t: nat, ok: bool)
    requires t in s.threads && s.threads[t].Creator? && s.threads[t].slot < |s.slots|
    requires s.slots[s.threads[t].slot].state != Unused
    ensures Quiet(s, ApplyCreate(s, t, ok))
  {
    hide Quiet;
    OwnerIsQuiet(s, t, ApplyCreate(s, t, ok));
  }

  lemma DestroyIsQuiet(s: State, t: nat)
    requires t in s.threads && s.threads[t].Destroyer? && s.threads[t].slot < |s.slots|
    requires s.slots[s.threads[t].slot].state != Unused
    ensures Quiet(s, ApplyDestroy(s, t))
  {
    hide Quiet;
    assert s.slots[s.threads[t].slot := s.slots[s.threads[t].slot]] == s.slots;
    OwnerIsQuiet(s, t, ApplyDestroy(s, t));
  }

  lemma SameStatesAreQuiet(s: State, s': State)
    requires SameStates(s.slots, s'.slots) && s'.threads == s.threads && s'.iter == s.iter
    ensures Quiet(s, s')
  {
  }

  lemma LocalKeepsIterator(s: State, step: Step)
    requires Enabled(s, step) && Local(step) && Threadless(step)
    ensures Apply(s, step).iter == s.iter
  {
    hide ApplyCreate, ApplyDestroy, Claim, Claims, Deleting;
  }

  lemma LocalIsQuiet(s: State, step: Step)
    requires Inv(s) && Enabled(s, step) && Local(step)
    ensures Quiet(s, Apply(s, step))
  {
    hide Inv, Quiet, ApplyCreate, ApplyDestroy, Claim, Claims, Release, Deleting;
    if step.CreateNext? {
      OwnSlot(s, step.t);
      CreateIsQuiet(s, step.t, step.ok);
    } else if step.DestroyNext? {
      OwnSlot(s, step.t);
      DestroyIsQuiet(s, step.t);
    } else {
      ThreadlessKeepsStates(s, step);
      LocalKeepsIterator(s, step);
      SameStatesAreQuiet(s, Apply(s, step));
    }
  }

  lemma StepIsQuiet(s: State, step: Step)
    requires Inv(s) && Local(step)
    ensures Quiet(s, Apply(s, step))
  {
    hide Inv, Apply, Local;
    if Enabled(s, step) {
      LocalIsQuiet(s, step);
    } else {
      hide Enabled;
      ApplyWaits(s, step);
    }
  }

  lemma TraceNext(n: nat, trace: seq<Step>, s: State, step: Step, s': State)
    requires n > 0 && s == Run(Init(n), trace) && s' == Apply(s, step)
    ensures s' == Run(Init(n), trace + [step])
  {
    RunAppend(Init(n), trace, step);
  }

  lemma NotFound(slots: seq<Slot>, name: string)
    requires forall j :: 0 <= j < |slots| ==> slots[j].name != name
    ensures Find(slots, name, 0) == |slots|
  {
  }

  lemma ClaimIsUnique(s: State, t: nat, name: string, i: nat)
    requires Enabled(s, CreateBegin(t, name, i))
    ensures var s' := Apply(s, CreateBegin(t, name, i));
            && |s'.slots| == |s.slots|
            && t in s'.threads && s'.threads[t] == Creator(i, MakeEngine)
            && s'.slots[i].state == Creating && s'.slots[i].name == name
            && forall j :: 0 <= j < |s'.slots| && s'.slots[j].name == name ==> j == i
  {
    hide ApplyCreate, ApplyDestroy;
  }

  lemma ReleaseIs(s: State, c: nat, p: Phase)
    requires c in s.conns && BucketIndex(s.conns[c]) < |s.slots|
    ensures var i := BucketIndex(s.conns[c]);
            Release(s, c, p) ==
            s.(slots := s.slots[i := s.slots[i].(clients := s.slots[i].clients - 1)], conns := s.conns[c := p],
               departed := s.departed + (if s.conns[c].Orphan? then 1 else 0),
               doubled := if s.conns[c].Leaving? then s.doubled + multiset{i} else s.doubled)
  {
  }

  lemma RunNothing(s: State)
    ensures Run(s, []) == s
  {
  }

  lemma ApplyWaits(s: State, step: Step)
    requires !Enabled(s, step)
    ensures Apply(s, step) == s
  {
  }

  lemma {:induction false} RunKeepsSize(s: State, steps: seq<Step>)
    ensures |Run(s, steps).slots| == |s.slots|
    decreases |steps|
  {
    hide Apply, DoubledBy;
    if steps != [] {
      DoubledGrows(s, steps[0]);
      RunKeepsSize(Apply(s, steps[0]), steps[1..]);
    }
  }

  // ---------------------------------------------------------------- create, as a function

  datatype CreateResult = AlreadyExists | TooMany | Claimed(slot: nat)

  datatype Scan = Scan(s: State, found: bool, firstFree: nat)

  /** Of a schedule, what others can do while the global lock is taken. */
  function Locals(schedule: seq<Step>): seq<Step> {
    if schedule == [] then [] else
    var n := |schedule| - 1;
    Locals(schedule[..n]) + if Local(schedule[n]) then [schedule[n]] else []
  }

  lemma LocalsNext(schedule: seq<Step>, i: nat)
    requires i < |schedule|
    ensures Locals(schedule[..i + 1]) ==
            if Local(schedule[i]) then Locals(schedule[..i]) + [schedule[i]] else Locals(schedule[..i])
  {
    assert schedule[..i + 1][..i] == schedule[..i];
  }

  /** The scan of create() from slot `i` on, with others at work before each slot. */
  ghost function Scanned(s: State, name: string, schedules: seq<seq<Step>>, i: nat, firstFree: nat): Scan
    requires i <= |s.slots| < |schedules|
    decreases |s.slots| - i
  {
    if i == |s.slots| then Scan(s, false, firstFree) else
    var next := Run(s, Locals(schedules[i]));
    RunKeepsSize(s, Locals(schedules[i]));
    var free := if firstFree == |s.slots| && next.slots[i].state == Unused then i else firstFree;
    if next.slots[i].name == name then Scan(next, true, free) else Scanned(next, name, schedules, i + 1, free)
  }

  /** And create() as a whole: others are at work once more before a slot is claimed. */
  ghost function Created(s: State, t: nat, name: string, schedules: seq<seq<Step>>): (State, CreateResult)
    requires |schedules| == |s.slots| + 1
  {
    var r := Scanned(s, name, schedules, 0, |s.slots|);
    if r.found then (r.s, AlreadyExists)
    else if r.firstFree == |s.slots| then (r.s, TooMany)
    else (Apply(Run(r.s, Locals(schedules[|s.slots|])), CreateBegin(t, name, r.firstFree)), Claimed(r.firstFree))
  }

  class Manager {
    const slots: array<Slot>
    var conns: map<nat, Phase>
    var dcp: set<nat>
    var threads: map<nat, Thread>
    var iter: Iterator
    var pins: multiset<nat>
    var buffers: multiset<nat>
    var shutdown: Shutdown
    var orphaned: nat
    var departed: nat
    var misfired: bool
    var doubled: multiset<nat>
    ghost var trace: seq<Step>

    function Value(): State
      reads this, slots
    {
      State(slots[..], conns, dcp, threads, iter, pins, buffers, shutdown, orphaned, departed, misfired, doubled)
    }

    ghost predicate Valid()
      reads this, slots
    {
      slots.Length > 0 && Value() == Run(Init(slots.Length), trace)
    }

    lemma ValidIsReachable()
      requires Valid()
      ensures Reachable(Value()) && Inv(Value())
    {
      hide Inv, Run;
      assert Reachable(Value());
      ReachableIsOk(Value());
    }

    constructor (size: nat)
      requires size > 0
      ensures fresh(slots) && slots.Length == size && Valid() && trace == [] && Value() == Init(size)
    {
      slots := new Slot[size](i => if i == 0 then Slot(Ready, "", 0, 0, true) else Slot(Unused, "", 0, 0, false));
      conns, dcp, threads, iter, pins, buffers := map[], {}, map[], Idle, multiset{}, multiset{};
      shutdown, orphaned, departed, misfired, doubled, trace := Serving, 0, 0, false, multiset{}, [];
      new;
      assert slots[..] == Init(size).slots;
    }

    // -------------------------------------------------------------- BucketManager::create

    /** Claims a free slot. */
    method ClaimForCreate(t: nat, name: string, i: nat)
      requires Enabled(Value(), CreateBegin(t, name, i))
      modifies this`threads, slots
      ensures Value() == Apply(old(Value()), CreateBegin(t, name, i))
    {
      slots[i] := slots[i].(state := Creating, name := name);
      threads := threads[t := Creator(i, MakeEngine)];
    }

    method ContinueCreate(t: nat, ok: bool)
      requires Enabled(Value(), CreateNext(t, ok))
      modifies this`threads, slots
      ensures Value() == Apply(old(Value()), CreateNext(t, ok))
    {
      var i := threads[t].slot;
      match threads[t].cpc
      case MakeEngine =>
        if ok {
          slots[i] := slots[i].(engine := true);
          threads := threads[t := Creator(i, MarkInitializing)];
        } else {
          Reset(i);
          threads := threads - {t};
        }
      case MarkInitializing =>
        slots[i] := slots[i].(state := Initializing);
        threads := threads[t := Creator(i, InitializeEngine)];
      case InitializeEngine =>
        if ok {
          slots[i] := slots[i].(state := Ready);
          threads := threads - {t};
        } else {
          slots[i] := slots[i].(state := Destroying);
          threads := threads[t := Creator(i, Discard)];
        }
      case Discard =>
        Reset(i);
        threads := threads - {t};
    }

    /** Bucket::reset() */
    method Reset(i: nat)
      requires i < slots.Length
      modifies slots
      ensures slots[..] == old(slots[..])[i := ResetSlot(old(slots[i]))]
    {
      slots[i] := slots[i].(engine := false, state := Unused, name := "");
    }

    // -------------------------------------------------------------- BucketManager::destroy

    /** The first slot with the name decides: it is claimed if it is Ready. */
    method ScanForDestroy(name: string) returns (claimed: bool, idx: nat)
      modifies slots
      ensures idx == Find(old(slots[..]), name, 0)
      ensures claimed <==> Claims(old(slots[..]), name)
      ensures slots[..] ==
              if claimed then old(slots[..])[idx := old(slots[..])[idx].(state := Destroying)] else old(slots[..])
    {
      claimed, idx := false, 0;
      ghost var before := slots[..];
      while idx < slots.Length
        invariant 0 <= idx <= slots.Length && slots[..] == before && !claimed
        invariant Find(before, name, 0) == Find(before, name, idx)
      {
        if slots[idx].name == name {
          if slots[idx].state == Ready {
            claimed := true;
            slots[idx] := slots[idx].(state := Destroying);
          }
          break;
        }
        idx := idx + 1;
      }
    }

    method ClaimForDestroy(t: nat, name: string, conn: Option<nat>) returns (claimed: bool)
      modifies this`threads, this`misfired, slots
      ensures claimed <==> Claims(old(slots[..]), name)
      ensures Value() == if claimed then Claim(old(Value()), t, name, conn) else old(Value())
    {
      hide Find;
      var i;
      claimed, i := ScanForDestroy(name);
      if claimed {
        threads := threads[t := Destroyer(i, conn, Detach)];
        misfired := misfired || i == 0;
      }
    }

    method BeginDestroy(t: nat, name: string, conn: Option<nat>)
      requires Enabled(Value(), DestroyBegin(t, name, conn))
      modifies this`threads, this`misfired, slots
      ensures Value() == Apply(old(Value()), DestroyBegin(t, name, conn))
    {
      hide Claim, Claims, ApplyCreate, ApplyDestroy, Release, Deleting;
      var _ := ClaimForDestroy(t, name, conn);
    }

    /** disconnect_bucket() */
    method DropOne(i: nat)
      requires i < slots.Length
      modifies slots
      ensures slots[..] == old(slots[..])[i := old(slots[i]).(clients := old(slots[i]).clients - 1)]
    {
      slots[i] := slots[i].(clients := slots[i].clients - 1);
    }

    /** The first half of disassociate_bucket() for connection `c`. */
    method DropReference(c: nat, p: Phase)
      requires c in conns && BucketIndex(conns[c]) < slots.Length
      modifies this`conns, this`departed, this`doubled, slots
      ensures Value() == Release(old(Value()), c, p)
    {
      var i := BucketIndex(conns[c]);
      ReleaseIs(Value(), c, p);
      hide Release;
      DropOne(i);
      departed := departed + (if conns[c].Orphan? then 1 else 0);
      doubled := if conns[c].Leaving? then doubled + multiset{i} else doubled;
      conns := conns[c := p];
    }

    /** The second half, in destroy(). */
    method ClearBucketIndex(conn: Option<nat>)
      modifies this`conns, this`orphaned
      ensures Value() == Cleared(old(Value()), conn)
    {
      if conn.Some? && conn.value in conns && conns[conn.value].Leaving? {
        var c := conn.value;
        if conns[c].target.ToNoBucket? {
          conns := conns[c := Orphan];
          orphaned := orphaned + 1;
        } else {
          conns := conns[c := Leaving(0, conns[c].target)];
        }
      }
    }

    method ContinueDestroy(t: nat)
      requires Enabled(Value(), DestroyNext(t))
      modifies this`threads, this`conns, this`orphaned, this`departed, this`doubled, slots
      ensures Value() == Apply(old(Value()), DestroyNext(t))
    {
      hide Release, Cleared, Deleting, Claim, Claims;
      var d := threads[t];
      var i := d.slot;
      match d.dpc
      case Detach =>
        if Detaches(Value(), d) {
          var c := d.conn.value;
          DropReference(c, Leaving(i, if conns[c].Leaving? then conns[c].target else ToNoBucket));
          threads := threads[t := d.(dpc := ClearIndex)];
        } else {
          threads := threads[t := d.(dpc := WaitClients)];
        }
      case ClearIndex =>
        ClearBucketIndex(d.conn);
        threads := threads[t := d.(dpc := WaitClients)];
      case WaitClients => threads := threads[t := d.(dpc := WaitTransit)];
      case WaitTransit => threads := threads[t := d.(dpc := DestroyEngine)];
      case DestroyEngine =>
        slots[i] := slots[i].(engine := false);
        threads := threads[t := d.(dpc := Cleanup)];
      case Cleanup =>
        Reset(i);
        threads := threads - {t};
    }

    // -------------------------------------------------------------- BucketManager::forEach

    method ContinueForEach(step: Step)
      requires Enabled(Value(), step) && (step.IterateBegin? || step.IterateLook? || step.IterateRelease?)
      modifies this`iter, slots
      ensures Value() == Apply(old(Value()), step)
    {
      hide ApplyCreate, ApplyDestroy, Claim, Claims;
      match step
      case IterateBegin => iter := Looking(0);
      case IterateLook =>
        var i := iter.slot;
        if i == slots.Length {
          iter := Idle;
        } else if slots[i].state == Ready {
          slots[i] := slots[i].(clients := slots[i].clients + 1);
          iter := Pinned(i);
        } else {
          iter := Looking(i + 1);
        }
      case IterateRelease(go) =>
        var i := iter.slot;
        slots[i] := slots[i].(clients := slots[i].clients - 1);
        iter := if go then Looking(i + 1) else Idle;
    }

    // -------------------------------------------------------------- BucketManager::destroyAll

    method ContinueShutdown(step: Step)
      requires Enabled(Value(), step)
      requires step.ShutdownBegin? || step.ShutdownLook? || step.ShutdownRead? || step.ShutdownDestroy?
               || step.ShutdownNext?
      modifies this`shutdown, this`threads, this`misfired, slots
      ensures Value() == Apply(old(Value()), step)
    {
      hide Claim, Claims, ApplyCreate, ApplyDestroy, Release, Deleting;
      match step
      case ShutdownBegin => shutdown := AtSlot(1);
      case ShutdownLook =>
        var i := shutdown.slot;
        shutdown := if i == slots.Length then Stopped
                    else if slots[i].state == Ready then SawReady(i) else AtSlot(i + 1);
      case ShutdownRead => shutdown := Named(shutdown.slot, slots[shutdown.slot].name);
      case ShutdownDestroy(t) =>
        var claimed := ClaimForDestroy(t, shutdown.name, None);
        if claimed {
          shutdown := Awaiting(shutdown.slot, t);
        } else {
          shutdown := AtSlot(shutdown.slot + 1);
        }
      case ShutdownNext => shutdown := AtSlot(shutdown.slot + 1);
    }

    // -------------------------------------------------------------- connections, buffers, pins

    method DisconnectBucket(c: nat, target: Target)
      requires Enabled(Value(), Leave(c, target))
      modifies this`conns, this`departed, this`doubled, slots
      ensures Value() == Apply(old(Value()), Leave(c, target))
    {
      hide Release, ApplyCreate, ApplyDestroy, Claim, Claims, Deleting;
      DropReference(c, Leaving(BucketIndex(conns[c]), target));
    }

    /** The loop of associate_bucket(): one slot, under its lock. */
    method TryAssociate(c: nat)
      requires Enabled(Value(), Probe(c))
      modifies this`conns, slots
      ensures Value() == Apply(old(Value()), Probe(c))
    {
      var name, i := conns[c].name, conns[c].next;
      if i == slots.Length {
        slots[0] := slots[0].(clients := slots[0].clients + 1);
        conns := conns[c := Joining(0)];
      } else if slots[i].state == Ready && slots[i].name == name {
        slots[i] := slots[i].(clients := slots[i].clients + 1);
        conns := conns[c := Joining(i)];
      } else {
        conns := conns[c := Scanning(name, i + 1)];
      }
    }

    method ChangePhase(step: Step)
      requires Enabled(Value(), step)
      requires step.Connect? || step.OpenDcp? || step.InitialBucket? || step.Left? || step.Joined?
      modifies this`conns, this`dcp, slots
      ensures Value() == Apply(old(Value()), step)
    {
      hide ApplyCreate, ApplyDestroy, Claim, Claims;
      match step
      case Connect(c) => conns := conns[c := Fresh];
      case OpenDcp(c) => dcp := dcp + {c};
      case InitialBucket(c) =>
        slots[0] := slots[0].(clients := slots[0].clients + 1);
        conns := conns[c := Bound(0)];
      case Left(c) =>
        if conns[c].target.ToSelect? {
          conns := conns[c := Scanning(conns[c].target.name, 1)];
        } else {
          conns, dcp := conns - {c}, dcp - {c};
        }
      case Joined(c) => conns := conns[c := Bound(conns[c].slot)];
    }

    method NewSendBuffer(c: nat)
      requires Enabled(Value(), Send(c))
      modifies this`buffers, slots
      ensures Value() == Apply(old(Value()), Send(c))
    {
      var i := conns[c].slot;
      slots[i] := slots[i].(transit := slots[i].transit + 1);
      buffers := buffers + multiset{i};
    }

    method FreeSendBuffer(i: nat)
      requires Enabled(Value(), Sent(i))
      modifies this`buffers, slots
      ensures Value() == Apply(old(Value()), Sent(i))
    {
      slots[i] := slots[i].(transit := slots[i].transit - 1);
      buffers := buffers - multiset{i};
    }

    /** A cluster configuration is about to be set or pushed. */
    method PinBucket(i: nat)
      requires Enabled(Value(), Pin(i))
      modifies this`pins, slots
      ensures Value() == Apply(old(Value()), Pin(i))
    {
      slots[i] := slots[i].(clients := slots[i].clients + 1);
      pins := pins + multiset{i};
    }

    method UnpinBucket(i: nat)
      requires Enabled(Value(), Unpin(i))
      modifies this`pins, slots
      ensures Value() == Apply(old(Value()), Unpin(i))
    {
      slots[i] := slots[i].(clients := slots[i].clients - 1);
      pins := pins - multiset{i};
    }

    // -------------------------------------------------------------- runs

    /** Any step that is enabled, carried out in place. */
    method TakeStep(step: Step)
      requires Valid() && Enabled(Value(), step)
      modifies this, slots
      ensures Valid() && trace == old(trace) + [step] && Value() == Apply(old(Value()), step)
    {
      hide Apply, Enabled, Run;
      match step {
        case Leave(c, target) => DisconnectBucket(c, target);
        case Probe(c) => TryAssociate(c);
        case CreateBegin(t, name, i) => ClaimForCreate(t, name, i);
        case CreateNext(t, ok) => ContinueCreate(t, ok);
        case DestroyBegin(t, name, conn) => BeginDestroy(t, name, conn);
        case DestroyNext(t) => ContinueDestroy(t);
        case Send(c) => NewSendBuffer(c);
        case Sent(i) => FreeSendBuffer(i);
        case Pin(i) => PinBucket(i);
        case Unpin(i) => UnpinBucket(i);
        case Connect(_) => ChangePhase(step);
        case OpenDcp(_) => ChangePhase(step);
        case InitialBucket(_) => ChangePhase(step);
        case Left(_) => ChangePhase(step);
        case Joined(_) => ChangePhase(step);
        case IterateBegin => ContinueForEach(step);
        case IterateLook => ContinueForEach(step);
        case IterateRelease(_) => ContinueForEach(step);
        case _ => ContinueShutdown(step);
      }
      TraceNext(slots.Length, trace, old(Value()), step, Value());
      trace := trace + [step];
    }

    /** A step is taken if it is possible. */
    method Attempt(step: Step)
      requires Valid()
      modifies this, slots
      ensures Valid() && trace == old(trace) + [step] && Value() == Apply(old(Value()), step)
    {
      hide Apply, Enabled, Run;
      if Enabled(Value(), step) {
        TakeStep(step);
      } else {
        ApplyWaits(Value(), step);
        TraceNext(slots.Length, trace, Value(), step, Value());
        trace := trace + [step];
      }
    }

    /** Of `schedule`, the steps that need no global lock. */
    method OtherThreads(schedule: seq<Step>)
      requires Valid()
      modifies this, slots
      ensures Valid() && old(trace) <= trace && Quiet(old(Value()), Value())
      ensures Value() == Run(old(Value()), Locals(schedule))
    {
      hide Valid, Apply, Enabled, Local, Run;
      ghost var before := Value();
      assert Run(before, []) == before by { RunNothing(before); }
      for i := 0 to |schedule|
        invariant Valid() && old(trace) <= trace && Quiet(before, Value())
        invariant Value() == Run(before, Locals(schedule[..i]))
      {
        LocalsNext(schedule, i);
        hide Locals;
        if Local(schedule[i]) {
          ghost var s := Value();
          RunAppend(before, Locals(schedule[..i]), schedule[i]);
          ValidIsReachable();
          StepIsQuiet(s, schedule[i]);
          Attempt(schedule[i]);
          QuietTwice(before, s, Value());
        }
      }
      assert schedule[..|schedule|] == schedule;
    }

    /** The scan of create() under the global lock, while other threads do what they can without
        it: in `schedules[i]` before slot `i` is looked at. It looks for the name and for the
        first free slot at the same time. */
    method ScanForCreate(name: string, schedules: seq<seq<Step>>) returns (found: bool, firstFree: nat)
      requires Valid() && |schedules| == slots.Length + 1
      modifies this, slots
      ensures Valid() && old(trace) <= trace && Quiet(old(Value()), Value())
      ensures Scan(Value(), found, firstFree) == Scanned(old(Value()), name, schedules, 0, slots.Length)
      ensures firstFree <= slots.Length && (firstFree < slots.Length ==> slots[firstFree].state == Unused)
      ensures !found && name != "" ==> forall j :: 0 <= j < slots.Length ==> slots[j].name != name
      ensures found ==> exists j :: 0 <= j < slots.Length && slots[j].name == name
    {
      hide Valid, Run, Locals, Quiet;
      QuietAtFirst(Value());
      var i := 0;
      firstFree := slots.Length;
      found := false;
      ghost var before := Value();
      while i < slots.Length && !found
        invariant 0 <= i <= slots.Length && Valid() && old(trace) <= trace && Quiet(before, Value())
        invariant firstFree <= slots.Length && (firstFree < slots.Length ==> slots[firstFree].state == Unused)
        invariant !found && name != "" ==> forall j :: 0 <= j < i ==> slots[j].name != name
        invariant found ==> 0 < i && slots[i - 1].name == name
        invariant Scanned(before, name, schedules, 0, slots.Length) ==
                  if found then Scan(Value(), true, firstFree) else Scanned(Value(), name, schedules, i, firstFree)
        decreases slots.Length - i, !found
      {
        ghost var s := Value();
        OtherThreads(schedules[i]);
        QuietTwice(before, s, Value());
        QuietKeepsScan(s, Value(), name, i, firstFree);
        if firstFree == slots.Length && slots[i].state == Unused {
          firstFree := i;
        }
        if slots[i].name == name {
          found := true;
        }
        i := i + 1;
      }
    }

    /** A slot that is claimed is free, and nobody else has the name: the name is unique
        although it was looked for slot by slot, with others at work until the slot is claimed. */
    method Create(t: nat, name: string, schedules: seq<seq<Step>>) returns (r: CreateResult)
      requires Valid() && t !in threads && iter == Idle && name != "" && |schedules| == slots.Length + 1
      modifies this, slots
      ensures Valid() && old(trace) <= trace
      ensures (Value(), r) == Created(old(Value()), t, name, schedules)
      ensures r.Claimed? <==> t in threads
      ensures r.AlreadyExists? <==> Find(slots[..], name, 0) < slots.Length && t !in threads
      ensures r.Claimed? ==> r.slot < slots.Length && threads[t] == Creator(r.slot, MakeEngine)
                             && slots[r.slot].state == Creating && slots[r.slot].name == name
                             && forall j :: 0 <= j < slots.Length && slots[j].name == name ==> j == r.slot
    {
      hide Valid, Run, Scanned, Locals;
      ghost var s0 := Value();
      var found, firstFree := ScanForCreate(name, schedules);
      if found {
        return AlreadyExists;
      }
      NotFound(slots[..], name);
      if firstFree == slots.Length {
        return TooMany;
      }
      ghost var scanned := Value();
      OtherThreads(schedules[slots.Length]);
      ghost var s := Value();
      QuietTwice(s0, scanned, s);
      NotFound(slots[..], name);
      ClaimIsUnique(s, t, name, firstFree);
      hide Apply, Enabled, Find;
      Attempt(CreateBegin(t, name, firstFree));
      return Claimed(firstFree);
    }
  }

  // ---------------------------------------------------------------- runs

  datatype Event = Take(step: Step) | CreateNamed(t: nat, name: string, schedules: seq<seq<Step>>)

  /** What an event does; a create() whose thread is busy, or that waits for the global lock, does
      nothing, and one without a name is refused. */
  ghost function Happens(s: State, e: Event): State {
    match e
    case Take(step) => Apply(s, step)
    case CreateNamed(t, name, schedules) =>
      if t !in s.threads && s.iter == Idle && name != "" && |schedules| == |s.slots| + 1
      then Created(s, t, name, schedules).0 else s
  }

  ghost function After(s: State, events: seq<Event>): State {
    if events == [] then s else
    Happens(After(s, events[..|events| - 1]), events[|events| - 1])
  }

  /** Every run on the array itself leads to where its events lead to, and what is promised of the
      buckets holds there exactly if every step it took was harmless. */
  method RunEvents(size: nat, events: seq<Event>) returns (m: Manager)
    requires size > 0
    ensures m.Valid() && m.slots.Length == size
    ensures m.Value() == After(Init(size), events)
    ensures Promises(m.Value()) <==> AllHarmless(Init(size), m.trace)
  {
    hide Promises, AllHarmless, Apply, Enabled, Created, Run;
    m := new Manager(size);
    for i := 0 to |events|
      invariant fresh(m) && fresh(m.slots) && m.Valid() && m.slots.Length == size
      invariant m.Value() == After(Init(size), events[..i])
    {
      assert events[..i + 1][..i] == events[..i];
      match events[i] {
        case Take(step) => m.Attempt(step);
        case CreateNamed(t, name, schedules) =>
          if t !in m.threads && m.iter == Idle && name != "" && |schedules| == size + 1 {
            var r := m.Create(t, name, schedules);
          }
      }
    }
    assert events[..|events|] == events;
    PromisesHoldIffHarmless(size, m.trace);
  }
}
