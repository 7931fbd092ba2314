/**
 * What holds of the buckets in every run without exception: names and owners of slots are
 * unique, and every client count is accounted for.
 */
module BucketCounts {
  import opened Wrappers
  import opened Buckets

  // ---------------------------------------------------------------- counting

  function Holders(conns: map<nat, Phase>, slot: nat): set<nat> {
    set c | c in conns && Holds(conns[c], slot)
  }

  function Orphans(conns: map<nat, Phase>): set<nat> {
    set c | c in conns && conns[c].Orphan?
  }

  function One(b: bool): nat { if b then 1 else 0 }

  /** References to a slot other than those of connections. */
  function Pins(iter: Iterator, pins: multiset<nat>, slot: nat): nat { One(iter == Pinned(slot)) + pins[slot] }

  lemma HoldersAfterUpdate(conns: map<nat, Phase>, c: nat, p: Phase, slot: nat)
    ensures |Holders(conns[c := p], slot)| ==
            |Holders(conns, slot)| - One(c in conns && Holds(conns[c], slot)) + One(Holds(p, slot))
  {
    var before, after := Holders(conns, slot), Holders(conns[c := p], slot);
    if Holds(p, slot) {
      assert after == before + {c};
    } else {
      assert after == before - {c};
    }
  }

  lemma OrphansAfterUpdate(conns: map<nat, Phase>, c: nat, p: Phase)
    ensures |Orphans(conns[c := p])| ==
            |Orphans(conns)| - One(c in conns && conns[c].Orphan?) + One(p.Orphan?)
  {
    var before, after := Orphans(conns), Orphans(conns[c := p]);
    if p.Orphan? {
      assert after == before + {c};
    } else {
      assert after == before - {c};
    }
  }

  /** A connection that goes away held nothing. */
  lemma CountsAfterRemoval(conns: map<nat, Phase>, c: nat)
    requires c in conns && conns[c].Leaving?
    ensures forall slot :: Holders(conns - {c}, slot) == Holders(conns, slot)
    ensures Orphans(conns - {c}) == Orphans(conns)
  {
  }

  lemma HoldersAreBounded(conns: map<nat, Phase>, slot: nat)
    ensures |Holders(conns, slot)| <= |conns|
  {
    SubsetSize(Holders(conns, slot), conns.Keys);
  }

  lemma SubsetSize(a: set<nat>, b: set<nat>)
    requires a <= b
    ensures |a| <= |b|
  {
    assert b == a + (b - a);
  }

  // ---------------------------------------------------------------- names and owners

  predicate InTransition(b: Slot) {
    b.state in {Creating, Initializing, Stopping, Destroying}
  }

  ghost predicate Owned(threads: map<nat, Thread>, i: nat) {
    exists t :: t in threads && threads[t].slot == i
  }

  predicate HasEngine(th: Thread) {
    match th
    case Creator(_, pc) => !pc.MakeEngine?
    case Destroyer(_, _, pc) => !pc.Cleanup?
  }

  /** The state of a slot, and whether it has an engine, while its owner is at a given point. */
  predicate OwnerState(b: Slot, th: Thread) {
    && b.engine == HasEngine(th)
    && match th
    case Creator(_, InitializeEngine) => b.state == Initializing
    case Creator(_, Discard) => b.state == Destroying
    case Creator(_, _) => b.state == Creating
    case Destroyer(_, _, _) => b.state == Destroying
  }

  ghost predicate ProperSlots(slots: seq<Slot>) {
    && (forall i :: 0 <= i < |slots| && slots[i].state == Unused ==> slots[i].name == "")
    && (forall i :: 0 < i < |slots| && slots[i].state != Unused ==> slots[i].name != "")
    && (forall i :: 0 <= i < |slots| && slots[i].state == Ready ==> slots[i].engine)
    && (forall i :: 0 <= i < |slots| && slots[i].state == Unused ==> !slots[i].engine)
    && (forall i :: 0 <= i < |slots| ==> slots[i].state != Stopping)
    && (forall i, j :: 0 <= i < j < |slots| && slots[i].state != Unused && slots[j].state != Unused ==>
          slots[i].name != slots[j].name)
  }

  ghost predicate Owning(slots: seq<Slot>, threads: map<nat, Thread>) {
    && (forall t :: t in threads ==> threads[t].slot < |slots| && OwnerState(slots[threads[t].slot], threads[t]))
    && (forall t, u :: t in threads && u in threads && t != u ==> threads[t].slot != threads[u].slot)
    && (forall i :: 0 <= i < |slots| && InTransition(slots[i]) ==> Owned(threads, i))
  }

  ghost predicate Owners(s: State) {
    |s.slots| > 0 && ProperSlots(s.slots) && Owning(s.slots, s.threads)
  }

  /** Nothing but counters changes. */
  ghost predicate SameStates(slots: seq<Slot>, slots': seq<Slot>) {
    && |slots'| == |slots|
    && forall i :: 0 <= i < |slots| ==>
         slots'[i] == slots[i].(clients := slots'[i].clients, transit := slots'[i].transit)
  }

  /** Nothing but counters of slots, pins, buffers, the iterator and the main thread changes. */
  ghost predicate SameElsewhere(s: State, s': State) {
    && SameStates(s.slots, s'.slots) && s'.threads == s.threads && s'.conns == s.conns
    && s'.misfired == s.misfired && s'.doubled == s.doubled
  }

  lemma SameStatesKeepOwners(s: State, s': State)
    requires Owners(s) && SameStates(s.slots, s'.slots) && s'.threads == s.threads
    ensures Owners(s')
  {
  }

  /** A free slot has no name, so that a name no slot has is not empty. */
  lemma StaysProper(slots: seq<Slot>, i: nat, b: Slot)
    requires ProperSlots(slots) && i < |slots|
    requires if b.state == Unused then b.name == ""
             else if slots[i].state == Unused then forall j :: 0 <= j < |slots| ==> slots[j].name != b.name
             else b.name == slots[i].name
    requires b.state != Stopping && (b.state == Ready ==> b.engine) && (b.state == Unused ==> !b.engine)
    ensures ProperSlots(slots[i := b])
  {
    assert slots[i].state == Unused ==> slots[i].name == "";
  }

  lemma StillOwned(threads: map<nat, Thread>, t: nat, th: Thread)
    requires t in threads ==> threads[t].slot == th.slot
    ensures forall i :: Owned(threads, i) || i == th.slot ==> Owned(threads[t := th], i)
  {
    forall i | Owned(threads, i) || i == th.slot ensures Owned(threads[t := th], i) {
      if i == th.slot {
        assert threads[t := th][t].slot == i;
      } else {
        var u :| u in threads && threads[u].slot == i;
        assert threads[t := th][u].slot == i;
      }
    }
  }

  /** The owner of a slot goes on. */
  lemma OwnerContinues(s: State, t: nat, th: Thread, b: Slot)
    requires Owners(s) && t in s.threads && th.slot == s.threads[t].slot && th.slot < |s.slots| && OwnerState(b, th)
    requires b.name == s.slots[th.slot].name
    ensures ProperSlots(s.slots[th.slot := b]) && Owning(s.slots[th.slot := b], s.threads[t := th])
  {
    assert OwnerState(s.slots[th.slot], s.threads[t]);
    StaysProper(s.slots, th.slot, b);
    hide ProperSlots;
    var slots', threads' := s.slots[th.slot := b], s.threads[t := th];
    StillOwned(s.threads, t, th);
    hide Owned;
  }

  /** The owner of a slot is done: the bucket is Ready, or the slot is free. */
  lemma OwnerStops(s: State, t: nat, b: Slot)
    requires Owners(s) && t in s.threads && s.threads[t].slot < |s.slots|
    requires if b.state == Unused then b.name == "" && !b.engine
             else b.state == Ready && b.engine && b.name == s.slots[s.threads[t].slot].name
    ensures ProperSlots(s.slots[s.threads[t].slot := b]) && Owning(s.slots[s.threads[t].slot := b], s.threads - {t})
  {
    assert OwnerState(s.slots[s.threads[t].slot], s.threads[t]);
    StaysProper(s.slots, s.threads[t].slot, b);
    hide ProperSlots;
    var slots', threads' := s.slots[s.threads[t].slot := b], s.threads - {t};
    forall i | 0 <= i < |slots'| && InTransition(slots'[i]) ensures Owned(threads', i) {
      assert InTransition(s.slots[i]);
      var u :| u in s.threads && s.threads[u].slot == i;
      assert u in threads';
    }
  }

  /** A thread takes a slot that is not in transition: a free one under a new name, or a Ready
      one under its own. */
  lemma OwnerStarts(s: State, t: nat, th: Thread, b: Slot)
    requires Owners(s) && t !in s.threads && th.slot < |s.slots| && OwnerState(b, th)
    requires if s.slots[th.slot].state == Unused then forall j :: 0 <= j < |s.slots| ==> s.slots[j].name != b.name
             else s.slots[th.slot].state == Ready && b.name == s.slots[th.slot].name
    ensures ProperSlots(s.slots[th.slot := b]) && Owning(s.slots[th.slot := b], s.threads[t := th])
  {
    StaysProper(s.slots, th.slot, b);
    hide ProperSlots;
    var slots', threads' := s.slots[th.slot := b], s.threads[t := th];
    forall u | u in s.threads ensures s.threads[u].slot != th.slot {
      assert OwnerState(s.slots[s.threads[u].slot], s.threads[u]);
    }
    StillOwned(s.threads, t, th);
    hide Owned;
  }

  lemma CreateKeepsOwners(s: State, t: nat, ok: bool)
    requires Owners(s) && t in s.threads && s.threads[t].Creator? && s.threads[t].slot < |s.slots|
    ensures Owners(ApplyCreate(s, t, ok))
  {
    var i := s.threads[t].slot;
    var b := s.slots[i];
    assert OwnerState(b, s.threads[t]);
    hide ProperSlots, Owning;
    match s.threads[t].cpc
    case MakeEngine =>
      if ok {
        OwnerContinues(s, t, Creator(i, MarkInitializing), b.(engine := true));
      } else {
        OwnerStops(s, t, ResetSlot(b));
      }
    case MarkInitializing => OwnerContinues(s, t, Creator(i, InitializeEngine), b.(state := Initializing));
    case InitializeEngine =>
      if ok {
        OwnerStops(s, t, b.(state := Ready));
      } else {
        OwnerContinues(s, t, Creator(i, Discard), b.(state := Destroying));
      }
    case Discard => OwnerStops(s, t, ResetSlot(b));
  }

  lemma DetachChanges(s: State, t: nat)
    requires t in s.threads && s.threads[t].Destroyer? && s.threads[t].slot < |s.slots|
    requires s.threads[t].dpc.Detach? || s.threads[t].dpc.ClearIndex?
    ensures var i, s' := s.threads[t].slot, ApplyDestroy(s, t);
            && t in s'.threads && s'.threads == s.threads[t := s.threads[t].(dpc := s'.threads[t].dpc)]
            && |s'.slots| == |s.slots| && s'.slots == s.slots[i := s.slots[i].(clients := s'.slots[i].clients)]
  {
    assert s.slots[s.threads[t].slot := s.slots[s.threads[t].slot]] == s.slots;
  }

  lemma DestroyKeepsOwners(s: State, t: nat)
    requires Owners(s) && t in s.threads && s.threads[t].Destroyer? && s.threads[t].slot < |s.slots|
    ensures Owners(ApplyDestroy(s, t))
  {
    var d := s.threads[t];
    var i := d.slot;
    var b := s.slots[i];
    assert OwnerState(b, d);
    assert s.slots[i := b] == s.slots;
    hide ProperSlots, Owning, Release, Cleared, Detaches;
    match d.dpc
    case Cleanup => OwnerStops(s, t, ResetSlot(b));
    case DestroyEngine => OwnerContinues(s, t, d.(dpc := Cleanup), b.(engine := false));
    case WaitTransit => OwnerContinues(s, t, d.(dpc := DestroyEngine), b);
    case WaitClients => OwnerContinues(s, t, d.(dpc := WaitTransit), b);
    case _ =>
      DetachChanges(s, t);
      var s' := ApplyDestroy(s, t);
      hide ApplyDestroy;
      OwnerContinues(s, t, d.(dpc := s'.threads[t].dpc), b.(clients := s'.slots[i].clients));
  }

  lemma ClaimKeepsOwners(s: State, t: nat, name: string, conn: Option<nat>)
    requires Owners(s) && Claims(s.slots, name) && t !in s.threads
    ensures Owners(Claim(s, t, name, conn))
  {
    var i := Find(s.slots, name, 0);
    assert s.slots[i].engine;
    hide ProperSlots, Owning;
    OwnerStarts(s, t, Destroyer(i, conn, Detach), s.slots[i].(state := Destroying));
  }

  lemma CreateBeginKeepsOwners(s: State, t: nat, name: string, i: nat)
    requires Owners(s) && Enabled(s, CreateBegin(t, name, i))
    ensures Owners(Apply(s, CreateBegin(t, name, i)))
  {
    assert !s.slots[i].engine;
    hide ProperSlots, Owning, ApplyCreate, ApplyDestroy;
    OwnerStarts(s, t, Creator(i, MakeEngine), s.slots[i].(state := Creating, name := name));
  }

  /** Steps that start, continue or end no thread. */
  predicate Threadless(step: Step) {
    !(step.CreateBegin? || step.CreateNext? || step.DestroyBegin? || step.DestroyNext? || step.ShutdownDestroy?)
  }

  /** Steps of a connection that may change its phase. */
  predicate Moving(step: Step) {
    step.Connect? || step.InitialBucket? || step.Leave? || step.Left? || step.Probe? || step.Joined?
  }

  lemma ConnectionKeepsStates(s: State, step: Step)
    requires Enabled(s, step) && Moving(step)
    ensures SameStates(s.slots, Apply(s, step).slots) && Apply(s, step).threads == s.threads
    ensures Apply(s, step).misfired == s.misfired
  {
    if step.Leave? {
      ReleaseKeepsStates(s, step.c, Leaving(BucketIndex(s.conns[step.c]), step.target));
    }
    hide ApplyCreate, ApplyDestroy, Claim, Claims, Release, Deleting;
  }

  lemma ReleaseKeepsStates(s: State, c: nat, p: Phase)
    requires c in s.conns && BucketIndex(s.conns[c]) < |s.slots|
    ensures var s' := Release(s, c, p);
            SameStates(s.slots, s'.slots) && s'.threads == s.threads && s'.misfired == s.misfired
  {
  }

  lemma SendingKeepsStates(s: State, step: Step)
    requires Enabled(s, step) && (step.OpenDcp? || step.Send? || step.Sent?)
    ensures SameElsewhere(s, Apply(s, step))
  {
    hide ApplyCreate, ApplyDestroy, Claim, Claims, Release, Deleting;
  }

  lemma PinningKeepsStates(s: State, step: Step)
    requires Enabled(s, step) && (step.Pin? || step.Unpin?)
    ensures SameElsewhere(s, Apply(s, step))
  {
    hide ApplyCreate, ApplyDestroy, Claim, Claims, Release, Deleting;
  }

  lemma IteratingKeepsStates(s: State, step: Step)
    requires Enabled(s, step) && (step.IterateBegin? || step.IterateLook? || step.IterateRelease?)
    ensures SameElsewhere(s, Apply(s, step))
  {
    hide ApplyCreate, ApplyDestroy, Claim, Claims, Release, Deleting;
  }

  lemma MainThreadKeepsStates(s: State, step: Step)
    requires Enabled(s, step) && (step.ShutdownBegin? || step.ShutdownLook? || step.ShutdownRead? || step.ShutdownNext?)
    ensures SameElsewhere(s, Apply(s, step))
  {
    hide ApplyCreate, ApplyDestroy, Claim, Claims, Release, Deleting;
  }

  lemma OthersKeepStates(s: State, step: Step)
    requires Enabled(s, step) && Threadless(step) && !Moving(step)
    ensures SameElsewhere(s, Apply(s, step))
  {
    hide Enabled, Apply, SameElsewhere;
    if step.OpenDcp? || step.Send? || step.Sent? {
      SendingKeepsStates(s, step);
    } else if step.Pin? || step.Unpin? {
      PinningKeepsStates(s, step);
    } else if step.IterateBegin? || step.IterateLook? || step.IterateRelease? {
      IteratingKeepsStates(s, step);
    } else {
      MainThreadKeepsStates(s, step);
    }
  }

  lemma ThreadlessKeepsStates(s: State, step: Step)
    requires Enabled(s, step) && Threadless(step)
    ensures SameStates(s.slots, Apply(s, step).slots) && Apply(s, step).threads == s.threads
    ensures Apply(s, step).misfired == s.misfired
  {
    hide Enabled, Apply, SameStates;
    if Moving(step) {
      ConnectionKeepsStates(s, step);
    } else {
      OthersKeepStates(s, step);
    }
  }

  lemma StepKeepsOwners(s: State, step: Step)
    requires Owners(s)
    ensures Owners(Apply(s, step))
  {
    hide Owners, ApplyCreate, ApplyDestroy, Claim, Claims;
    if Enabled(s, step) && Threadless(step) {
      ThreadlessKeepsStates(s, step);
      SameStatesKeepOwners(s, Apply(s, step));
    } else if Enabled(s, step) {
      match step
      case CreateBegin(t, name, i) => CreateBeginKeepsOwners(s, t, name, i);
      case CreateNext(t, ok) => CreateKeepsOwners(s, t, ok);
      case DestroyBegin(t, name, conn) => if Claims(s.slots, name) { ClaimKeepsOwners(s, t, name, conn); }
      case DestroyNext(t) => DestroyKeepsOwners(s, t);
      case ShutdownDestroy(t) =>
        if Claims(s.slots, s.shutdown.name) {
          ClaimKeepsOwners(s, t, s.shutdown.name, None);
          OwnersIgnoreShutdown(Claim(s, t, s.shutdown.name, None), Awaiting(s.shutdown.slot, t));
        } else {
          OwnersIgnoreShutdown(s, AtSlot(s.shutdown.slot + 1));
        }
    }
  }

  lemma OwnersIgnoreShutdown(s: State, shutdown: Shutdown)
    requires Owners(s)
    ensures Owners(s.(shutdown := shutdown))
  {
    hide ProperSlots, Owning;
  }

  // ---------------------------------------------------------------- counts

  /** Connections that gave up a slot without having been counted there, or a second time. */
  function Excess(departed: nat, doubled: multiset<nat>, i: nat): nat {
    doubled[i] + if i == 0 then departed else 0
  }

  /** The client count of a slot is the connections that hold it and the pins, less what was given
      up in excess. */
  ghost predicate Balanced(slots: seq<Slot>, conns: map<nat, Phase>, iter: Iterator, pins: multiset<nat>,
                           departed: nat, doubled: multiset<nat>) {
    forall i :: 0 <= i < |slots| ==>
      slots[i].clients == |Holders(conns, i)| + Pins(iter, pins, i) - Excess(departed, doubled, i)
  }

  /** And nobody is counted beyond what 32 bits can hold. */
  ghost predicate Bounded(slots: nat, conns: map<nat, Phase>, pins: multiset<nat>) {
    && |conns| <= MAX_CONNECTIONS
    && (forall i :: pins[i] <= MAX_PINS)
    && (forall c :: c in conns ==> ValidPhase(slots, conns[c]))
  }

  ghost predicate Accounted(s: State) {
    && |s.slots| > 0
    && Balanced(s.slots, s.conns, s.iter, s.pins, s.departed, s.doubled)
    && Bounded(|s.slots|, s.conns, s.pins)
    && s.orphaned == s.departed + |Orphans(s.conns)|
  }

  /** A connection changes its phase, and one slot its count, accordingly. */
  lemma PhaseBalances(s: State, c: nat, p: Phase, i: nat, b: Slot, departed: nat, doubled: multiset<nat>)
    requires Balanced(s.slots, s.conns, s.iter, s.pins, s.departed, s.doubled) && i < |s.slots|
    requires forall j: nat :: j != i ==> Holds(p, j) == (c in s.conns && Holds(s.conns[c], j))
    requires forall j: nat :: j != i ==> Excess(departed, doubled, j) == Excess(s.departed, s.doubled, j)
    requires b.clients == s.slots[i].clients + One(Holds(p, i)) - One(c in s.conns && Holds(s.conns[c], i))
                          - (Excess(departed, doubled, i) - Excess(s.departed, s.doubled, i))
    ensures Balanced(s.slots[i := b], s.conns[c := p], s.iter, s.pins, departed, doubled)
  {
    forall j: nat ensures |Holders(s.conns[c := p], j)|
        == |Holders(s.conns, j)| - One(c in s.conns && Holds(s.conns[c], j)) + One(Holds(p, j)) {
      HoldersAfterUpdate(s.conns, c, p, j);
    }
  }

  lemma PhaseStaysBounded(slots: nat, conns: map<nat, Phase>, pins: multiset<nat>, c: nat, p: Phase)
    requires Bounded(slots, conns, pins) && ValidPhase(slots, p) && (c in conns || |conns| < MAX_CONNECTIONS)
    ensures Bounded(slots, conns[c := p], pins)
  {
    assert conns[c := p].Keys == conns.Keys + {c};
    assert |conns[c := p]| == |conns[c := p].Keys| && |conns| == |conns.Keys|;
  }

  /** disassociate_bucket(), whoever calls it and in whatever phase. */
  lemma ReleaseAccounted(s: State, c: nat, p: Phase)
    requires Accounted(s) && c in s.conns && p.Leaving? && p.slot < |s.slots|
    requires s.conns[c].Bound? || s.conns[c].Orphan? || s.conns[c].Leaving?
    ensures BucketIndex(s.conns[c]) < |s.slots| && Accounted(Release(s, c, p))
  {
    assert ValidPhase(|s.slots|, s.conns[c]);
    var i := BucketIndex(s.conns[c]);
    var s' := Release(s, c, p);
    PhaseBalances(s, c, p, i, s'.slots[i], s'.departed, s'.doubled);
    PhaseStaysBounded(|s.slots|, s.conns, s.pins, c, p);
    OrphansAfterUpdate(s.conns, c, p);
    hide Balanced, Bounded;
  }

  /** A connection takes a reference, or moves without one. */
  lemma MoveAccounted(s: State, c: nat, p: Phase, i: nat, b: Slot)
    requires Accounted(s) && i < |s.slots| && ValidPhase(|s.slots|, p) && !p.Orphan?
    requires if c in s.conns then !s.conns[c].Orphan? else |s.conns| < MAX_CONNECTIONS
    requires forall j: nat :: j != i ==> Holds(p, j) == (c in s.conns && Holds(s.conns[c], j))
    requires b.clients == s.slots[i].clients + One(Holds(p, i)) - One(c in s.conns && Holds(s.conns[c], i))
    ensures Accounted(s.(slots := s.slots[i := b], conns := s.conns[c := p]))
  {
    PhaseBalances(s, c, p, i, b, s.departed, s.doubled);
    PhaseStaysBounded(|s.slots|, s.conns, s.pins, c, p);
    OrphansAfterUpdate(s.conns, c, p);
    hide Balanced, Bounded;
  }

  lemma StayAccounted(s: State, c: nat, p: Phase)
    requires Accounted(s) && c in s.conns && !s.conns[c].Orphan? && !p.Orphan? && ValidPhase(|s.slots|, p)
    requires forall j: nat :: Holds(p, j) == Holds(s.conns[c], j)
    ensures Accounted(SetPhase(s, c, p))
  {
    hide Balanced, Bounded;
    assert s.slots[0 := s.slots[0]] == s.slots;
    MoveAccounted(s, c, p, 0, s.slots[0]);
  }

  lemma GoneAccounted(s: State, c: nat)
    requires Accounted(s) && c in s.conns && s.conns[c].Leaving?
    ensures Accounted(s.(conns := s.conns - {c}, dcp := s.dcp - {c}))
  {
    CountsAfterRemoval(s.conns, c);
    assert (s.conns - {c}).Keys == s.conns.Keys - {c};
    assert |s.conns - {c}| == |(s.conns - {c}).Keys| && |s.conns| == |s.conns.Keys|;
  }

  lemma ClearedAccounted(s: State, conn: Option<nat>)
    requires Accounted(s)
    ensures Accounted(Cleared(s, conn))
  {
    if conn.Some? && conn.value in s.conns && s.conns[conn.value].Leaving? {
      var c := conn.value;
      var p := Cleared(s, conn).conns[c];
      assert s.slots[0 := s.slots[0]] == s.slots;
      PhaseBalances(s, c, p, 0, s.slots[0], s.departed, s.doubled);
      PhaseStaysBounded(|s.slots|, s.conns, s.pins, c, p);
      OrphansAfterUpdate(s.conns, c, p);
      hide Balanced, Bounded;
    }
  }

  /** Everything but states, names, engines, buffers and threads is as it was. */
  ghost predicate SameCounts(s: State, s': State) {
    && |s'.slots| == |s.slots| && (forall i :: 0 <= i < |s.slots| ==> s'.slots[i].clients == s.slots[i].clients)
    && s'.conns == s.conns && s'.iter == s.iter && s'.pins == s.pins
    && s'.orphaned == s.orphaned && s'.departed == s.departed && s'.doubled == s.doubled
  }

  lemma SameCountsAccounted(s: State, s': State)
    requires Accounted(s) && SameCounts(s, s')
    ensures Accounted(s')
  {
  }

  lemma PinAccounted(s: State, i: nat, b: Slot, iter: Iterator, pins: multiset<nat>)
    requires Accounted(s) && i < |s.slots| && (forall j :: pins[j] <= MAX_PINS)
    requires forall j: nat :: j != i ==> Pins(iter, pins, j) == Pins(s.iter, s.pins, j)
    requires b.clients == s.slots[i].clients + Pins(iter, pins, i) - Pins(s.iter, s.pins, i)
    ensures Accounted(s.(slots := s.slots[i := b], iter := iter, pins := pins))
  {
  }

  lemma ConnectionAccounted(s: State, step: Step)
    requires Accounted(s) && Enabled(s, step) && Moving(step)
    ensures Accounted(Apply(s, step))
  {
    assert step.c in s.conns ==> ValidPhase(|s.slots|, s.conns[step.c]);
    assert s.slots[0 := s.slots[0]] == s.slots;
    hide Balanced, Bounded, ApplyCreate, ApplyDestroy, Claim, Claims, Release;
    match step
    case Connect(c) => MoveAccounted(s, c, Fresh, 0, s.slots[0]);
    case InitialBucket(c) => MoveAccounted(s, c, Bound(0), 0, s.slots[0].(clients := s.slots[0].clients + 1));
    case Leave(c, target) => ReleaseAccounted(s, c, Leaving(BucketIndex(s.conns[c]), target));
    case Left(c) =>
      if s.conns[c].target.ToSelect? {
        StayAccounted(s, c, Scanning(s.conns[c].target.name, 1));
      } else {
        GoneAccounted(s, c);
      }
    case Probe(c) => ProbeAccounted(s, c);
    case Joined(c) => StayAccounted(s, c, Bound(s.conns[c].slot));
  }

  lemma ProbeAccounted(s: State, c: nat)
    requires Accounted(s) && Enabled(s, Probe(c))
    ensures Accounted(Apply(s, Probe(c)))
  {
    hide Balanced, Bounded, ApplyCreate, ApplyDestroy, Claim, Claims, Release;
    var i := s.conns[c].next;
    if i == |s.slots| {
      MoveAccounted(s, c, Joining(0), 0, s.slots[0].(clients := s.slots[0].clients + 1));
    } else if s.slots[i].state == Ready && s.slots[i].name == s.conns[c].name {
      MoveAccounted(s, c, Joining(i), i, s.slots[i].(clients := s.slots[i].clients + 1));
    } else {
      StayAccounted(s, c, Scanning(s.conns[c].name, i + 1));
    }
  }

  lemma PinningAccounted(s: State, step: Step)
    requires Accounted(s) && Enabled(s, step) && (step.Pin? || step.Unpin?)
    ensures Accounted(Apply(s, step))
  {
    assert forall j :: s.pins[j] <= MAX_PINS;
    hide Accounted, ApplyCreate, ApplyDestroy, Claim, Claims, Release;
    PinAccounted(s, step.slot, Apply(s, step).slots[step.slot], s.iter, Apply(s, step).pins);
  }

  lemma LookAccounted(s: State)
    requires Accounted(s) && Enabled(s, IterateLook)
    ensures Accounted(Apply(s, IterateLook))
  {
    assert forall j :: s.pins[j] <= MAX_PINS;
    assert |s.slots| > 0;
    hide Accounted, ApplyCreate, ApplyDestroy, Claim, Claims, Release, Deleting;
    var s' := Apply(s, IterateLook);
    var i := if s.iter.slot < |s.slots| then s.iter.slot else 0;
    assert s.slots[i := s.slots[i]] == s.slots;
    PinAccounted(s, i, s'.slots[i], s'.iter, s.pins);
  }

  lemma IteratingAccounted(s: State, step: Step)
    requires Accounted(s) && Enabled(s, step) && (step.IterateBegin? || step.IterateRelease?)
    ensures Accounted(Apply(s, step))
  {
    assert forall j :: s.pins[j] <= MAX_PINS;
    assert s.slots[0 := s.slots[0]] == s.slots;
    hide Accounted, ApplyCreate, ApplyDestroy, Claim, Claims, Release;
    if step.IterateBegin? {
      PinAccounted(s, 0, s.slots[0], Looking(0), s.pins);
    } else {
      PinAccounted(s, s.iter.slot, Apply(s, step).slots[s.iter.slot], Apply(s, step).iter, s.pins);
    }
  }

  lemma DestroyAccounted(s: State, t: nat)
    requires Accounted(s) && t in s.threads && s.threads[t].Destroyer? && s.threads[t].slot < |s.slots|
    ensures Accounted(ApplyDestroy(s, t))
  {
    hide Accounted;
    var d := s.threads[t];
    match d.dpc
    case Detach =>
      if Detaches(s, d) {
        var c := d.conn.value;
        var target := if s.conns[c].Leaving? then s.conns[c].target else ToNoBucket;
        ReleaseAccounted(s, c, Leaving(d.slot, target));
        SameCountsAccounted(Release(s, c, Leaving(d.slot, target)), ApplyDestroy(s, t));
      } else {
        SameCountsAccounted(s, ApplyDestroy(s, t));
      }
    case ClearIndex =>
      ClearedAccounted(s, d.conn);
      SameCountsAccounted(Cleared(s, d.conn), ApplyDestroy(s, t));
    case _ => SameCountsAccounted(s, ApplyDestroy(s, t));
  }

  lemma SendingAccounted(s: State, step: Step)
    requires Accounted(s) && Enabled(s, step) && (step.OpenDcp? || step.Send? || step.Sent?)
    ensures Accounted(Apply(s, step))
  {
    hide Accounted, ApplyCreate, ApplyDestroy, Claim, Claims, Release;
    SameCountsAccounted(s, Apply(s, step));
  }

  lemma BeginAccounted(s: State, step: Step)
    requires Accounted(s) && Enabled(s, step) && (step.CreateBegin? || step.DestroyBegin? || step.ShutdownDestroy?)
    ensures Accounted(Apply(s, step))
  {
    hide Accounted, ApplyCreate, ApplyDestroy, Release;
    SameCountsAccounted(s, Apply(s, step));
  }

  lemma CreateAccounted(s: State, t: nat, ok: bool)
    requires Accounted(s) && t in s.threads && s.threads[t].Creator? && s.threads[t].slot < |s.slots|
    ensures Accounted(ApplyCreate(s, t, ok))
  {
    hide Accounted;
    SameCountsAccounted(s, ApplyCreate(s, t, ok));
  }

  lemma MainThreadAccounted(s: State, step: Step)
    requires Accounted(s) && Enabled(s, step)
    requires step.ShutdownBegin? || step.ShutdownLook? || step.ShutdownRead? || step.ShutdownNext?
    ensures Accounted(Apply(s, step))
  {
    hide Accounted, ApplyCreate, ApplyDestroy, Claim, Claims, Release;
    SameCountsAccounted(s, Apply(s, step));
  }

  lemma StepAccounted(s: State, step: Step)
    requires Accounted(s)
    ensures Accounted(Apply(s, step))
  {
    hide Accounted, ApplyCreate, ApplyDestroy, Claim, Claims, Release;
    if Enabled(s, step) {
      match step
      case CreateNext(t, ok) => CreateAccounted(s, t, ok);
      case DestroyNext(t) => DestroyAccounted(s, t);
      case Pin(_) => PinningAccounted(s, step);
      case Unpin(_) => PinningAccounted(s, step);
      case IterateLook => LookAccounted(s);
      case IterateBegin => IteratingAccounted(s, step);
      case IterateRelease(_) => IteratingAccounted(s, step);
      case OpenDcp(_) => SendingAccounted(s, step);
      case Send(_) => SendingAccounted(s, step);
      case Sent(_) => SendingAccounted(s, step);
      case CreateBegin(_, _, _) => BeginAccounted(s, step);
      case DestroyBegin(_, _, _) => BeginAccounted(s, step);
      case ShutdownDestroy(_) => BeginAccounted(s, step);
      case ShutdownBegin => MainThreadAccounted(s, step);
      case ShutdownLook => MainThreadAccounted(s, step);
      case ShutdownRead => MainThreadAccounted(s, step);
      case ShutdownNext => MainThreadAccounted(s, step);
      case _ => ConnectionAccounted(s, step);
    }
  }

  lemma InitIsAccounted(slots: nat)
    requires slots > 0
    ensures Owners(Init(slots)) && Accounted(Init(slots))
  {
  }
}
