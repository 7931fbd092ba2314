/**
 * What keeps the engine of a bucket alive for as long as anybody refers to it, in every run.
 */
module BucketInvariant {
  import opened Wrappers
  import opened Buckets
  import opened BucketCounts

  // ---------------------------------------------------------------- invariant

  /** A bucket other than slot 0 that no connection gave up twice. */
  predicate Sound(doubled: multiset<nat>, i: nat) {
    0 < i && doubled[i] == 0
  }

  /** What the counters of a slot are while its owner is at a given point. */
  predicate Settled(b: Slot, th: Thread) {
    match th
    case Creator(_, _) => b.clients == 0 && b.transit == 0
    case Destroyer(_, _, pc) =>
      && (pc.WaitTransit? || pc.DestroyEngine? || pc.Cleanup? ==> b.clients == 0)
      && (pc.DestroyEngine? || pc.Cleanup? ==> b.transit == 0)
  }

  ghost predicate CountersOk(slots: seq<Slot>, threads: map<nat, Thread>, doubled: multiset<nat>) {
    && (forall i :: 0 < i < |slots| && Sound(doubled, i) && slots[i].state == Unused ==>
          slots[i].clients == 0 && slots[i].transit == 0)
    && (forall t :: t in threads && Sound(doubled, threads[t].slot) ==>
          threads[t].slot < |slots| && Settled(slots[threads[t].slot], threads[t]))
  }

  /** A delete is between the two halves of taking connection `c` out of slot `i`. */
  ghost predicate Detaching(threads: map<nat, Thread>, c: nat, i: nat) {
    exists t :: t in threads && threads[t] == Destroyer(i, Some(c), ClearIndex)
  }

  predicate SameDeleter(a: Thread, b: Thread) {
    a.Destroyer? && b.Destroyer? && a.conn.Some? && a.conn == b.conn
  }

  ghost predicate DeletersOk(conns: map<nat, Phase>, threads: map<nat, Thread>) {
    && (forall c :: c in conns && conns[c].Leaving? && conns[c].target.ToNoBucket? ==>
          Detaching(threads, c, conns[c].slot))
    && (forall t, u :: t in threads && u in threads && t != u ==> !SameDeleter(threads[t], threads[u]))
  }

  ghost predicate BuffersOk(slots: seq<Slot>, buffers: multiset<nat>) {
    && (forall i :: 0 <= i < |slots| ==> slots[i].transit == buffers[i])
    && (forall i :: i in buffers ==> i < |slots|)
  }

  ghost predicate IterOk(slots: seq<Slot>, iter: Iterator) {
    && (iter.Pinned? ==> iter.slot < |slots| && slots[iter.slot].state == Ready)
    && (iter.Looking? ==> iter.slot <= |slots|)
  }

  ghost predicate PinsOk(slots: nat, pins: multiset<nat>) {
    forall i :: i in pins ==> i < slots
  }

  predicate ShutdownOk(slots: nat, shutdown: Shutdown) {
    match shutdown
    case AtSlot(i) => 0 < i <= slots
    case SawReady(i) => 0 < i < slots
    case Named(i, _) => 0 < i < slots
    case Awaiting(i, _) => 0 < i < slots
    case _ => true
  }

  ghost predicate Core(slots: seq<Slot>, conns: map<nat, Phase>, threads: map<nat, Thread>, iter: Iterator,
                       pins: multiset<nat>, buffers: multiset<nat>, shutdown: Shutdown, doubled: multiset<nat>) {
    && CountersOk(slots, threads, doubled) && DeletersOk(conns, threads) && BuffersOk(slots, buffers)
    && IterOk(slots, iter) && PinsOk(|slots|, pins) && ShutdownOk(|slots|, shutdown)
  }

  ghost predicate CoreOk(s: State) {
    Core(s.slots, s.conns, s.threads, s.iter, s.pins, s.buffers, s.shutdown, s.doubled)
  }

  ghost predicate Inv(s: State) {
    Owners(s) && Accounted(s) && CoreOk(s)
  }

  lemma InitIsOk(slots: nat)
    requires slots > 0
    ensures Inv(Init(slots))
  {
    InitIsAccounted(slots);
    hide Owners, Accounted;
  }

  // ---------------------------------------------------------------- references are counted

  lemma HolderIsCounted(s: State, c: nat, i: nat)
    requires Inv(s) && c in s.conns && Holds(s.conns[c], i) && i < |s.slots| && Sound(s.doubled, i)
    ensures 0 < s.slots[i].clients
  {
    hide Owners, Core;
    assert c in Holders(s.conns, i);
  }

  lemma PinIsCounted(s: State, i: nat)
    requires Inv(s) && s.pins[i] > 0 && i < |s.slots| && Sound(s.doubled, i)
    ensures 0 < s.slots[i].clients
  {
    hide Owners, Core;
  }

  // ---------------------------------------------------------------- counters

  /** The counters of a slot may become those of `b'`: it is Ready, or somebody refers to it and
      its transit count does not drop, or only the transit count changes and something is in
      transit. */
  predicate MayCount(b: Slot, b': Slot) {
    || b.state == Ready
    || (0 < b.clients && b'.transit >= b.transit)
    || (b'.clients == b.clients && (b.transit != 0 || b' == b))
  }

  lemma CountersMayChange(s: State, i: nat, b: Slot, doubled: multiset<nat>)
    requires Inv(s) && i < |s.slots| && b == s.slots[i].(clients := b.clients, transit := b.transit)
    requires s.doubled <= doubled && (Sound(doubled, i) ==> MayCount(s.slots[i], b))
    ensures CountersOk(s.slots[i := b], s.threads, doubled)
  {
    hide Accounted, ProperSlots, DeletersOk, BuffersOk, IterOk, PinsOk;
    var slots := s.slots[i := b];
    forall t | t in s.threads && Sound(doubled, s.threads[t].slot)
      ensures Settled(slots[s.threads[t].slot], s.threads[t])
    {
      var j := s.threads[t].slot;
      assert OwnerState(s.slots[j], s.threads[t]) && Settled(s.slots[j], s.threads[t]);
    }
  }

  lemma CountersKeepRest(slots: seq<Slot>, iter: Iterator, buffers: multiset<nat>, i: nat, b: Slot)
    requires i < |slots| && b == slots[i].(clients := b.clients) && BuffersOk(slots, buffers) && IterOk(slots, iter)
    ensures BuffersOk(slots[i := b], buffers) && IterOk(slots[i := b], iter)
  {
  }

  lemma PhaseKeepsDeleters(conns: map<nat, Phase>, threads: map<nat, Thread>, c: nat, p: Phase)
    requires DeletersOk(conns, threads) && !(p.Leaving? && p.target.ToNoBucket?)
    ensures DeletersOk(conns[c := p], threads)
  {
    hide Detaching;
  }

  /** Slot `i` is counted differently, and connection `c` gets phase `p`. */
  lemma MoveOk(s: State, c: nat, p: Phase, i: nat, b: Slot, doubled: multiset<nat>)
    requires Inv(s) && i < |s.slots| && b == s.slots[i].(clients := b.clients)
    requires s.doubled <= doubled && (Sound(doubled, i) ==> MayCount(s.slots[i], b))
    requires !(p.Leaving? && p.target.ToNoBucket?)
    ensures Core(s.slots[i := b], s.conns[c := p], s.threads, s.iter, s.pins, s.buffers, s.shutdown, doubled)
  {
    CountersMayChange(s, i, b, doubled);
    hide Owners, Accounted, CountersOk, DeletersOk, BuffersOk, IterOk, PinsOk;
    CountersKeepRest(s.slots, s.iter, s.buffers, i, b);
    PhaseKeepsDeleters(s.conns, s.threads, c, p);
  }

  // ---------------------------------------------------------------- steps of connections

  /** A connection changes its phase. */
  lemma PhaseOk(s: State, c: nat, p: Phase)
    requires Inv(s) && !(p.Leaving? && p.target.ToNoBucket?)
    ensures CoreOk(SetPhase(s, c, p))
  {
    hide Owners, Accounted, CountersOk, DeletersOk, BuffersOk, IterOk, PinsOk;
    PhaseKeepsDeleters(s.conns, s.threads, c, p);
  }

  /** A connection takes a reference to slot 0 or to a Ready bucket. */
  lemma JoinOk(s: State, c: nat, i: nat, p: Phase)
    requires Inv(s) && !p.Leaving? && i < |s.slots| && (i == 0 || s.slots[i].state == Ready)
    ensures CoreOk(SetPhase(AddClient(s, i), c, p))
  {
    hide Owners, Accounted, Core;
    MoveOk(s, c, p, i, s.slots[i].(clients := s.slots[i].clients + 1), s.doubled);
  }

  lemma LeaveOk(s: State, c: nat, target: Target)
    requires Inv(s) && Enabled(s, Leave(c, target))
    ensures CoreOk(Apply(s, Leave(c, target)))
  {
    hide Inv, Core, ApplyCreate, ApplyDestroy, Claim, Claims, Deleting;
    ReleaseOk(s, c, Leaving(BucketIndex(s.conns[c]), target));
  }

  lemma ReleaseOk(s: State, c: nat, p: Phase)
    requires Inv(s) && c in s.conns && (s.conns[c].Bound? || s.conns[c].Orphan? || s.conns[c].Leaving?)
    requires BucketIndex(s.conns[c]) < |s.slots| && !(p.Leaving? && p.target.ToNoBucket?)
    ensures CoreOk(Release(s, c, p))
  {
    hide Owners, Accounted, Core;
    var i, doubled := BucketIndex(s.conns[c]), Release(s, c, p).doubled;
    if Sound(doubled, i) {
      HolderIsCounted(s, c, i);
    }
    MoveOk(s, c, p, i, s.slots[i].(clients := s.slots[i].clients - 1), doubled);
  }

  lemma LeftOk(s: State, c: nat)
    requires Inv(s) && Enabled(s, Left(c))
    ensures CoreOk(Apply(s, Left(c)))
  {
    hide Owners, Accounted, CountersOk, Detaching, BuffersOk, IterOk, PinsOk;
    hide ApplyCreate, ApplyDestroy, Claim, Claims, Release, Deleting;
  }

  lemma ProbeOk(s: State, c: nat)
    requires Inv(s) && Enabled(s, Probe(c))
    ensures CoreOk(Apply(s, Probe(c)))
  {
    hide Inv, Core, ApplyCreate, ApplyDestroy, Claim, Claims, Release, SetPhase, AddClient, Deleting;
    var i := s.conns[c].next;
    if i == |s.slots| {
      JoinOk(s, c, 0, Joining(0));
    } else if s.slots[i].state == Ready && s.slots[i].name == s.conns[c].name {
      JoinOk(s, c, i, Joining(i));
    } else {
      PhaseOk(s, c, Scanning(s.conns[c].name, i + 1));
    }
  }

  lemma ConnectionOk(s: State, step: Step)
    requires Inv(s) && Enabled(s, step) && (step.Connect? || step.OpenDcp? || step.InitialBucket? || step.Joined?)
    ensures CoreOk(Apply(s, step))
  {
    hide Owners, Accounted, Core, ApplyCreate, ApplyDestroy, Claim, Claims, Release, SetPhase, AddClient, Deleting;
    match step
    case Connect(c) => PhaseOk(s, c, Fresh);
    case OpenDcp(_) =>
    case InitialBucket(c) => JoinOk(s, c, 0, Bound(0));
    case Joined(c) => PhaseOk(s, c, Bound(s.conns[c].slot));
  }

  // ---------------------------------------------------------------- buffers and pins

  lemma BuffersAfter(slots: seq<Slot>, iter: Iterator, buffers: multiset<nat>, i: nat, b: Slot, buffers': multiset<nat>)
    requires BuffersOk(slots, buffers) && IterOk(slots, iter)
    requires i < |slots| && b == slots[i].(transit := b.transit) && b.transit == buffers'[i]
    requires buffers' == buffers + multiset{i} || (buffers[i] > 0 && buffers' == buffers - multiset{i})
    ensures BuffersOk(slots[i := b], buffers') && IterOk(slots[i := b], iter)
  {
    assert forall j: nat :: j != i ==> buffers'[j] == buffers[j];
  }

  lemma BufferOk(s: State, i: nat, b: Slot, buffers: multiset<nat>)
    requires Inv(s) && i < |s.slots| && b == s.slots[i].(transit := b.transit) && b.transit == buffers[i]
    requires Sound(s.doubled, i) ==> MayCount(s.slots[i], b)
    requires buffers == s.buffers + multiset{i} || (s.buffers[i] > 0 && buffers == s.buffers - multiset{i})
    ensures Core(s.slots[i := b], s.conns, s.threads, s.iter, s.pins, buffers, s.shutdown, s.doubled)
  {
    hide Owners, Accounted, CountersOk, DeletersOk, BuffersOk, IterOk, PinsOk, MayCount, Sound;
    CountersMayChange(s, i, b, s.doubled);
    BuffersAfter(s.slots, s.iter, s.buffers, i, b, buffers);
  }

  lemma SendOk(s: State, c: nat)
    requires Inv(s) && Enabled(s, Send(c))
    ensures CoreOk(Apply(s, Send(c)))
  {
    assert s.slots[s.conns[c].slot].transit == s.buffers[s.conns[c].slot];
    hide Owners, Accounted, Core, ApplyCreate, ApplyDestroy, Claim, Claims, Release, Deleting;
    var i := s.conns[c].slot;
    if Sound(s.doubled, i) {
      HolderIsCounted(s, c, i);
    }
    BufferOk(s, i, s.slots[i].(transit := s.slots[i].transit + 1), s.buffers + multiset{i});
  }

  lemma SentOk(s: State, i: nat)
    requires Inv(s) && Enabled(s, Sent(i))
    ensures CoreOk(Apply(s, Sent(i)))
  {
    assert s.slots[i].transit == s.buffers[i];
    hide Owners, Accounted, Core, ApplyCreate, ApplyDestroy, Claim, Claims, Release, Deleting;
    BufferOk(s, i, s.slots[i].(transit := s.slots[i].transit - 1), s.buffers - multiset{i});
  }

  lemma CountOk(s: State, i: nat, b: Slot, iter: Iterator, pins: multiset<nat>)
    requires Inv(s) && i < |s.slots| && b == s.slots[i].(clients := b.clients)
    requires Sound(s.doubled, i) ==> MayCount(s.slots[i], b)
    requires IterOk(s.slots, iter) && PinsOk(|s.slots|, pins)
    ensures Core(s.slots[i := b], s.conns, s.threads, iter, pins, s.buffers, s.shutdown, s.doubled)
  {
    CountersMayChange(s, i, b, s.doubled);
    hide Owners, Accounted, CountersOk, DeletersOk, BuffersOk, PinsOk;
    CountersKeepRest(s.slots, iter, s.buffers, i, b);
  }

  lemma PinningOk(s: State, step: Step)
    requires Inv(s) && Enabled(s, step) && (step.Pin? || step.Unpin?)
    ensures CoreOk(Apply(s, step))
  {
    var i := step.slot;
    hide Owners, Accounted, CountersOk, DeletersOk, BuffersOk, IterOk, ApplyCreate, ApplyDestroy, Claim, Claims;
    hide Release, Deleting;
    if Sound(s.doubled, i) && step.Unpin? {
      PinIsCounted(s, i);
    }
    CountOk(s, i, Apply(s, step).slots[i], s.iter, Apply(s, step).pins);
  }

  lemma IterateOk(s: State, step: Step)
    requires Inv(s) && Enabled(s, step) && (step.IterateBegin? || step.IterateLook? || step.IterateRelease?)
    ensures CoreOk(Apply(s, step))
  {
    hide Owners, Accounted, CountersOk, DeletersOk, BuffersOk, PinsOk, ApplyCreate, ApplyDestroy, Claim, Claims;
    hide Release, Deleting;
    var i := if step.IterateBegin? || s.iter.slot == |s.slots| then 0 else s.iter.slot;
    assert s.slots[i := s.slots[i]] == s.slots;
    CountOk(s, i, Apply(s, step).slots[i], Apply(s, step).iter, s.pins);
  }

  // ---------------------------------------------------------------- threads

  /** The owner of a slot goes on, or a new one starts. */
  lemma OwnerKeepsCounters(s: State, t: nat, th: Thread, b: Slot, doubled: multiset<nat>)
    requires Inv(s) && th.slot < |s.slots| && s.doubled <= doubled && b.state != Unused
    requires if t in s.threads then th.slot == s.threads[t].slot else !InTransition(s.slots[th.slot])
    requires Sound(doubled, th.slot) ==> Settled(b, th)
    ensures CountersOk(s.slots[th.slot := b], s.threads[t := th], doubled)
  {
    hide Accounted, ProperSlots, DeletersOk, BuffersOk, IterOk, PinsOk, Settled;
    forall u | u in s.threads && u != t ensures s.threads[u].slot != th.slot {
      assert OwnerState(s.slots[s.threads[u].slot], s.threads[u]);
    }
  }

  lemma EndKeepsCounters(s: State, t: nat, b: Slot)
    requires Inv(s) && t in s.threads && s.threads[t].slot < |s.slots|
    requires Sound(s.doubled, s.threads[t].slot) && b.state == Unused ==> b.clients == 0 && b.transit == 0
    ensures CountersOk(s.slots[s.threads[t].slot := b], s.threads - {t}, s.doubled)
  {
    hide Accounted, ProperSlots, DeletersOk, BuffersOk, IterOk, PinsOk, Settled, OwnerState;
  }

  lemma SlotKeepsRest(slots: seq<Slot>, iter: Iterator, buffers: multiset<nat>, i: nat, b: Slot)
    requires BuffersOk(slots, buffers) && IterOk(slots, iter) && i < |slots| && b.transit == slots[i].transit
    requires b.state == Ready || slots[i].state != Ready || iter == Idle
    ensures BuffersOk(slots[i := b], buffers) && IterOk(slots[i := b], iter)
  {
  }

  /** A connection on its way out of the bucket it deletes keeps its delete. */
  lemma StillDetaching(threads: map<nat, Thread>, t: nat, threads': map<nat, Thread>, c: nat, i: nat)
    requires Detaching(threads, c, i)
    requires forall u :: u in threads && u != t ==> u in threads' && threads'[u] == threads[u]
    requires t in threads ==> threads[t] != Destroyer(i, Some(c), ClearIndex)
    ensures Detaching(threads', c, i)
  {
    var u :| u in threads && threads[u] == Destroyer(i, Some(c), ClearIndex);
    assert u in threads';
  }

  /** A thread that is not in between the two halves goes on or starts. */
  lemma ThreadKeepsDeleters(conns: map<nat, Phase>, threads: map<nat, Thread>, t: nat, th: Thread)
    requires DeletersOk(conns, threads)
    requires if t in threads
             then && th.Destroyer? == threads[t].Destroyer?
                  && (th.Destroyer? ==> th.conn == threads[t].conn && !threads[t].dpc.ClearIndex?)
             else th.Destroyer? && th.conn.Some? ==> !Deleting(threads, th.conn.value)
    ensures DeletersOk(conns, threads[t := th])
  {
    forall c | c in conns && conns[c].Leaving? && conns[c].target.ToNoBucket?
      ensures Detaching(threads[t := th], c, conns[c].slot)
    {
      StillDetaching(threads, t, threads[t := th], c, conns[c].slot);
    }
  }

  lemma EndKeepsDeleters(conns: map<nat, Phase>, threads: map<nat, Thread>, t: nat)
    requires DeletersOk(conns, threads) && t in threads
    requires threads[t].Destroyer? ==> !threads[t].dpc.ClearIndex?
    ensures DeletersOk(conns, threads - {t})
  {
    forall c | c in conns && conns[c].Leaving? && conns[c].target.ToNoBucket?
      ensures Detaching(threads - {t}, c, conns[c].slot)
    {
      StillDetaching(threads, t, threads - {t}, c, conns[c].slot);
    }
  }

  lemma GoOnOk(s: State, t: nat, th: Thread, b: Slot)
    requires Inv(s) && th.slot < |s.slots| && b.transit == s.slots[th.slot].transit && b.state != Unused
    requires Sound(s.doubled, th.slot) ==> Settled(b, th)
    requires if t in s.threads
             then && th.slot == s.threads[t].slot && s.slots[th.slot].state != Ready
                  && th.Destroyer? == s.threads[t].Destroyer?
                  && (th.Destroyer? ==> th.conn == s.threads[t].conn && !s.threads[t].dpc.ClearIndex?)
             else && !InTransition(s.slots[th.slot]) && s.iter == Idle
                  && (th.Destroyer? && th.conn.Some? ==> !Deleting(s.threads, th.conn.value))
    ensures Core(s.slots[th.slot := b], s.conns, s.threads[t := th], s.iter, s.pins, s.buffers, s.shutdown, s.doubled)
  {
    hide Owners, Accounted, CountersOk, DeletersOk, BuffersOk, IterOk, PinsOk, Settled;
    OwnerKeepsCounters(s, t, th, b, s.doubled);
    SlotKeepsRest(s.slots, s.iter, s.buffers, th.slot, b);
    ThreadKeepsDeleters(s.conns, s.threads, t, th);
  }

  lemma EndOk(s: State, t: nat, b: Slot)
    requires Inv(s) && t in s.threads && s.threads[t].slot < |s.slots|
    requires b.transit == s.slots[s.threads[t].slot].transit && s.slots[s.threads[t].slot].state != Ready
    requires Sound(s.doubled, s.threads[t].slot) && b.state == Unused ==> b.clients == 0 && b.transit == 0
    requires s.threads[t].Destroyer? ==> !s.threads[t].dpc.ClearIndex?
    ensures Core(s.slots[s.threads[t].slot := b], s.conns, s.threads - {t}, s.iter, s.pins, s.buffers, s.shutdown,
                 s.doubled)
  {
    hide Owners, Accounted, CountersOk, DeletersOk, BuffersOk, IterOk, PinsOk;
    EndKeepsCounters(s, t, b);
    SlotKeepsRest(s.slots, s.iter, s.buffers, s.threads[t].slot, b);
    EndKeepsDeleters(s.conns, s.threads, t);
  }

  /** What is known of the slot a thread owns. */
  lemma OwnSlot(s: State, t: nat)
    requires Inv(s) && t in s.threads
    ensures s.threads[t].slot < |s.slots|
    ensures var b := s.slots[s.threads[t].slot];
            && OwnerState(b, s.threads[t]) && b.state != Ready && b.state != Unused
            && (Sound(s.doubled, s.threads[t].slot) ==> Settled(b, s.threads[t]))
  {
    hide Accounted, ProperSlots, DeletersOk, BuffersOk, IterOk, PinsOk;
  }

  lemma CreateNextOk(s: State, t: nat, ok: bool)
    requires Inv(s) && t in s.threads && s.threads[t].Creator? && s.threads[t].slot < |s.slots|
    ensures CoreOk(ApplyCreate(s, t, ok))
  {
    hide Inv, Core;
    OwnSlot(s, t);
    var i := s.threads[t].slot;
    var b := s.slots[i];
    match s.threads[t].cpc
    case MakeEngine =>
      if ok {
        GoOnOk(s, t, Creator(i, MarkInitializing), b.(engine := true));
      } else {
        EndOk(s, t, ResetSlot(b));
      }
    case MarkInitializing => GoOnOk(s, t, Creator(i, InitializeEngine), b.(state := Initializing));
    case InitializeEngine =>
      if ok {
        EndOk(s, t, b.(state := Ready));
      } else {
        GoOnOk(s, t, Creator(i, Discard), b.(state := Destroying));
      }
    case Discard => EndOk(s, t, ResetSlot(b));
  }

  lemma CreateBeginOk(s: State, t: nat, name: string, i: nat)
    requires Inv(s) && Enabled(s, CreateBegin(t, name, i))
    ensures CoreOk(Apply(s, CreateBegin(t, name, i)))
  {
    assert Sound(s.doubled, i) ==> s.slots[i].clients == 0 && s.slots[i].transit == 0;
    hide Inv, Core, ApplyCreate, ApplyDestroy, Claim, Claims, Release, Deleting;
    GoOnOk(s, t, Creator(i, MakeEngine), s.slots[i].(state := Creating, name := name));
  }

  lemma ClaimOk(s: State, t: nat, name: string, conn: Option<nat>)
    requires Inv(s) && Claims(s.slots, name) && t !in s.threads && s.iter == Idle
    requires conn.Some? ==> Free(s, conn.value)
    ensures CoreOk(Claim(s, t, name, conn))
  {
    hide Inv, Core, Deleting;
    var i := Find(s.slots, name, 0);
    GoOnOk(s, t, Destroyer(i, conn, Detach), s.slots[i].(state := Destroying));
  }

  // ---------------------------------------------------------------- the connection of a delete

  lemma DetachKeepsDeleters(conns: map<nat, Phase>, threads: map<nat, Thread>, t: nat, c: nat, p: Phase)
    requires DeletersOk(conns, threads) && t in threads && threads[t].Destroyer? && threads[t].conn == Some(c)
    requires p.Leaving? && p.slot == threads[t].slot
    ensures DeletersOk(conns[c := p], threads[t := threads[t].(dpc := ClearIndex)])
  {
    var conns', threads' := conns[c := p], threads[t := threads[t].(dpc := ClearIndex)];
    forall e | e in conns' && conns'[e].Leaving? && conns'[e].target.ToNoBucket?
      ensures Detaching(threads', e, conns'[e].slot)
    {
      if e == c {
        assert threads'[t] == Destroyer(p.slot, Some(c), ClearIndex);
      } else {
        StillDetaching(threads, t, threads', e, conns[e].slot);
      }
    }
  }

  lemma ClearKeepsDeleters(conns: map<nat, Phase>, threads: map<nat, Thread>, t: nat, conns': map<nat, Phase>)
    requires DeletersOk(conns, threads) && t in threads && threads[t].Destroyer?
    requires forall e :: e in conns' && conns'[e].Leaving? && conns'[e].target.ToNoBucket? ==>
               e in conns && conns'[e] == conns[e] && threads[t].conn != Some(e)
    ensures DeletersOk(conns', threads[t := threads[t].(dpc := WaitClients)])
  {
    var threads' := threads[t := threads[t].(dpc := WaitClients)];
    forall e | e in conns' && conns'[e].Leaving? && conns'[e].target.ToNoBucket?
      ensures Detaching(threads', e, conns'[e].slot)
    {
      StillDetaching(threads, t, threads', e, conns[e].slot);
    }
  }

  lemma DetachingOk(s: State, t: nat)
    requires Inv(s) && t in s.threads && s.threads[t].Destroyer? && s.threads[t].slot < |s.slots|
    requires s.threads[t].dpc == Detach && Detaches(s, s.threads[t])
    ensures CoreOk(ApplyDestroy(s, t))
  {
    hide Owners, Accounted, CountersOk, DeletersOk, BuffersOk, IterOk, PinsOk;
    OwnSlot(s, t);
    var d := s.threads[t];
    var c, s' := d.conn.value, ApplyDestroy(s, t);
    OwnerKeepsCounters(s, t, d.(dpc := ClearIndex), s'.slots[d.slot], s'.doubled);
    SlotKeepsRest(s.slots, s.iter, s.buffers, d.slot, s'.slots[d.slot]);
    DetachKeepsDeleters(s.conns, s.threads, t, c, s'.conns[c]);
  }

  lemma ClearIndexOk(s: State, t: nat)
    requires Inv(s) && t in s.threads && s.threads[t].Destroyer? && s.threads[t].slot < |s.slots|
    requires s.threads[t].dpc == ClearIndex
    ensures CoreOk(ApplyDestroy(s, t))
  {
    hide Owners, Accounted, CountersOk, BuffersOk, IterOk, PinsOk, Detaches, Release;
    OwnSlot(s, t);
    var d := s.threads[t];
    assert s.slots[d.slot := s.slots[d.slot]] == s.slots;
    OwnerKeepsCounters(s, t, d.(dpc := WaitClients), s.slots[d.slot], s.doubled);
    ClearedConns(s, t);
    hide DeletersOk;
    ClearKeepsDeleters(s.conns, s.threads, t, Cleared(s, d.conn).conns);
  }

  lemma ClearedConns(s: State, t: nat)
    requires Inv(s) && t in s.threads && s.threads[t].Destroyer?
    ensures var conns' := Cleared(s, s.threads[t].conn).conns;
            forall e :: e in conns' && conns'[e].Leaving? && conns'[e].target.ToNoBucket? ==>
              e in s.conns && conns'[e] == s.conns[e] && s.threads[t].conn != Some(e)
  {
    hide Inv;
  }

  lemma WaitOk(s: State, t: nat)
    requires Inv(s) && Enabled(s, DestroyNext(t)) && !s.threads[t].dpc.ClearIndex?
    requires s.threads[t].dpc.Detach? ==> !Detaches(s, s.threads[t])
    ensures CoreOk(ApplyDestroy(s, t))
  {
    hide Inv, Core, Detaches, Release, Cleared, Deleting;
    OwnSlot(s, t);
    var d := s.threads[t];
    var b := s.slots[d.slot];
    assert s.slots[d.slot := b] == s.slots;
    match d.dpc
    case Detach => GoOnOk(s, t, d.(dpc := WaitClients), b);
    case WaitClients => GoOnOk(s, t, d.(dpc := WaitTransit), b);
    case WaitTransit => GoOnOk(s, t, d.(dpc := DestroyEngine), b);
    case DestroyEngine => GoOnOk(s, t, d.(dpc := Cleanup), b.(engine := false));
    case Cleanup => EndOk(s, t, ResetSlot(b));
  }

  lemma DestroyNextOk(s: State, t: nat)
    requires Inv(s) && Enabled(s, DestroyNext(t))
    ensures CoreOk(ApplyDestroy(s, t))
  {
    hide Inv, Core, ApplyDestroy, Detaches, Release, Cleared;
    var d := s.threads[t];
    if d.dpc.ClearIndex? {
      ClearIndexOk(s, t);
    } else if d.dpc.Detach? && Detaches(s, d) {
      DetachingOk(s, t);
    } else {
      WaitOk(s, t);
    }
  }

  // ---------------------------------------------------------------- every step

  lemma ShutdownStepOk(s: State, step: Step)
    requires Inv(s) && Enabled(s, step)
    requires step.ShutdownBegin? || step.ShutdownLook? || step.ShutdownRead? || step.ShutdownNext?
    ensures CoreOk(Apply(s, step))
  {
    hide Owners, Accounted, CountersOk, DeletersOk, BuffersOk, IterOk, PinsOk, ApplyCreate, ApplyDestroy, Claim;
    hide Release;
  }

  lemma ShutdownDestroyOk(s: State, t: nat)
    requires Inv(s) && Enabled(s, ShutdownDestroy(t))
    ensures CoreOk(Apply(s, ShutdownDestroy(t)))
  {
    hide Owners, Accounted, CountersOk, DeletersOk, BuffersOk, IterOk, PinsOk, ApplyCreate, ApplyDestroy, Release;
    if Claims(s.slots, s.shutdown.name) {
      ClaimOk(s, t, s.shutdown.name, None);
    }
  }

  lemma StepKeepsCore(s: State, step: Step)
    requires Inv(s)
    ensures CoreOk(Apply(s, step))
  {
    hide Owners, Accounted, Core, ApplyCreate, ApplyDestroy, Claims, Claim, Detaches, Release, Deleting;
    if Enabled(s, step) {
      match step
      case Leave(c, target) => LeaveOk(s, c, target);
      case Left(c) => LeftOk(s, c);
      case Probe(c) => ProbeOk(s, c);
      case Send(c) => SendOk(s, c);
      case Sent(i) => SentOk(s, i);
      case Pin(_) => PinningOk(s, step);
      case Unpin(_) => PinningOk(s, step);
      case CreateBegin(t, name, i) => CreateBeginOk(s, t, name, i);
      case CreateNext(t, ok) => CreateNextOk(s, t, ok);
      case DestroyBegin(t, name, conn) => if Claims(s.slots, name) { ClaimOk(s, t, name, conn); }
      case DestroyNext(t) => DestroyNextOk(s, t);
      case IterateBegin => IterateOk(s, step);
      case IterateLook => IterateOk(s, step);
      case IterateRelease(_) => IterateOk(s, step);
      case ShutdownBegin => ShutdownStepOk(s, step);
      case ShutdownLook => ShutdownStepOk(s, step);
      case ShutdownRead => ShutdownStepOk(s, step);
      case ShutdownDestroy(t) => ShutdownDestroyOk(s, t);
      case ShutdownNext => ShutdownStepOk(s, step);
      case _ => ConnectionOk(s, step);
    }
  }

  /** Every step keeps the invariant. */
  lemma StepOk(s: State, step: Step)
    requires Inv(s)
    ensures Inv(Apply(s, step))
  {
    hide Owners, Accounted, CoreOk, Apply;
    StepKeepsOwners(s, step);
    StepAccounted(s, step);
    StepKeepsCore(s, step);
  }
}
