/**
 The life cycle of buckets and the references that keep their engines alive, as a step
 system: every region that runs under a lock (and every single atomic access) is one step,
 and any number of connections, creators, destroyers and iterators interleave.
 */
module Buckets {

  import opened Wrappers

  datatype BucketState = Unused | Creating | Initializing | Ready | Stopping | Destroying

  datatype Slot = Slot(state: BucketState, name: string, clients: int, transit: int, engine: bool)

  /** Bucket::reset() leaves the two counters alone. */
  function ResetSlot(b: Slot): Slot {
    b.(state := Unused, name := "", engine := false)
  }

  /** What a connection that is giving up its bucket does next. */
  datatype Target = ToClose | ToNoBucket | ToSelect(name: string)

  /** Where a connection is in associate/disassociate. Bound and Joining own a reference
      counted in `clients`; an Orphan deleted its own bucket and was moved to slot 0 without
      being counted there. */
  datatype Phase =
    | Fresh
    | Bound(slot: nat)
    | Orphan
    | Leaving(slot: nat, target: Target)
    | Scanning(name: string, next: nat)
    | Joining(slot: nat)

  predicate Holds(p: Phase, slot: nat) {
    p == Bound(slot) || p == Joining(slot)
  }

  datatype CreatePc = MakeEngine | MarkInitializing | InitializeEngine | Discard

  datatype DestroyPc = Detach | ClearIndex | WaitClients | WaitTransit | DestroyEngine | Cleanup

  datatype Thread =
    | Creator(slot: nat, cpc: CreatePc)
    | Destroyer(slot: nat, conn: Option<nat>, dpc: DestroyPc)

  /** BucketManager::forEach holds the global lock for as long as it is not Idle. */
  datatype Iterator = Idle | Looking(slot: nat) | Pinned(slot: nat)

  /** BucketManager::destroyAll(), on the main thread: it reads the state and then the name of
      a slot without a lock, deletes the bucket of that name and waits for it to be gone. */
  datatype Shutdown =
    | Serving
    | AtSlot(slot: nat)
    | SawReady(slot: nat)
    | Named(slot: nat, name: string)
    | Awaiting(slot: nat, t: nat)
    | Stopped

  /** `pins` are the references held while a cluster configuration is set or pushed;
      `orphaned` and `departed` count the connections that deleted their own bucket and those
      of them that left slot 0 again; `misfired` is whether a delete ever claimed slot 0, and
      `doubled` are the slots a connection gave up twice. */
  datatype State = State(slots: seq<Slot>, conns: map<nat, Phase>, dcp: set<nat>, threads: map<nat, Thread>,
                         iter: Iterator, pins: multiset<nat>, buffers: multiset<nat>, shutdown: Shutdown,
                         orphaned: nat, departed: nat, misfired: bool, doubled: multiset<nat>)

  datatype Step =
    | Connect(c: nat)
    | OpenDcp(c: nat)
    | InitialBucket(c: nat)
    | Leave(c: nat, target: Target)
    | Left(c: nat)
    | Probe(c: nat)
    | Joined(c: nat)
    | Send(c: nat)
    | Sent(slot: nat)
    | Pin(slot: nat)
    | Unpin(slot: nat)
    | CreateBegin(t: nat, name: string, slot: nat)
    | CreateNext(t: nat, ok: bool)
    | DestroyBegin(t: nat, name: string, conn: Option<nat>)
    | DestroyNext(t: nat)
    | IterateBegin
    | IterateLook
    | IterateRelease(go: bool)
    | ShutdownBegin
    | ShutdownLook
    | ShutdownRead
    | ShutdownDestroy(t: nat)
    | ShutdownNext

  // The counters are 32 bits wide. Here they are integers; CountsAreAccountedFor shows that the
  // client count of a real bucket is never too big, and not negative unless it was given up twice.
  const UINT32: nat := 0x1_0000_0000

  /** Connections, and the threads that can hold a pin, are limited far below the range of
      the counters. */
  const MAX_CONNECTIONS: nat := UINT32 / 2
  const MAX_PINS: nat := UINT32 / 2 - 2

  function Init(slots: nat): State
    requires slots > 0
  {
    State([Slot(Ready, "", 0, 0, true)] + seq(slots - 1, _ => Slot(Unused, "", 0, 0, false)),
          map[], {}, map[], Idle, multiset{}, multiset{}, Serving, 0, 0, false, multiset{})
  }

  /** A delete command is a barrier and blocked, so that no other command runs on the connection
      that sent it. A connection is not closed either while a command is blocked, unless it
      does DCP. */
  predicate Deleting(threads: map<nat, Thread>, c: nat) {
    exists t :: t in threads && threads[t].Destroyer? && threads[t].conn == Some(c)
  }

  predicate Free(s: State, c: nat) {
    c in s.conns && !Deleting(s.threads, c)
  }

  /** The first slot from `i` on with the given name; the number of slots if there is none. */
  function Find(slots: seq<Slot>, name: string, i: nat): (r: nat)
    requires i <= |slots|
    ensures i <= r <= |slots|
    ensures forall j :: i <= j < r ==> slots[j].name != name
    ensures r < |slots| ==> slots[r].name == name
    decreases |slots| - i
  {
    if i == |slots| || slots[i].name == name then i else Find(slots, name, i + 1)
  }

  predicate ValidPhase(slots: nat, p: Phase) {
    match p
    case Bound(i) => i < slots
    case Leaving(i, _) => i < slots
    case Joining(i) => i < slots
    case Scanning(_, next) => 1 <= next <= slots
    case _ => true
  }

  predicate Enabled(s: State, step: Step) {
    && |s.slots| > 0
    && match step
    case Connect(c) => c !in s.conns && !Deleting(s.threads, c) && |s.conns| < MAX_CONNECTIONS
    case OpenDcp(c) => Free(s, c) && s.conns[c].Bound?
    case InitialBucket(c) => Free(s, c) && s.conns[c].Fresh?
    case Leave(c, target) =>
      && c in s.conns && ValidPhase(|s.slots|, s.conns[c]) && !target.ToNoBucket?
      && (s.conns[c].Bound? || s.conns[c].Orphan? || (s.conns[c].Leaving? && s.conns[c].target.ToNoBucket?))
      && (Free(s, c) || (c in s.dcp && target.ToClose?))
    case Left(c) => c in s.conns && s.conns[c].Leaving? && !s.conns[c].target.ToNoBucket?
    case Probe(c) => Free(s, c) && s.conns[c].Scanning? && ValidPhase(|s.slots|, s.conns[c])
    case Joined(c) => Free(s, c) && s.conns[c].Joining?
    case Send(c) => Free(s, c) && s.conns[c].Bound? && ValidPhase(|s.slots|, s.conns[c])
    case Sent(i) => i < |s.slots| && s.buffers[i] > 0
    case Pin(i) => i < |s.slots| && s.slots[i].state == Ready && s.pins[i] < MAX_PINS
    case Unpin(i) => i < |s.slots| && s.pins[i] > 0
    case CreateBegin(t, name, i) =>
      && t !in s.threads && s.iter == Idle && i < |s.slots| && s.slots[i].state == Unused
      && Find(s.slots, name, 0) == |s.slots|
    case CreateNext(t, _) => t in s.threads && s.threads[t].Creator? && s.threads[t].slot < |s.slots|
    case DestroyBegin(t, name, conn) =>
      // the request validator rejects a delete without a name
      && t !in s.threads && s.iter == Idle && name != ""
      && (conn.Some? ==> Free(s, conn.value) && (s.conns[conn.value].Bound? || s.conns[conn.value].Orphan?))
    case DestroyNext(t) =>
      && t in s.threads && s.threads[t].Destroyer? && s.threads[t].slot < |s.slots|
      && var d := s.threads[t];
         (match d.dpc
          case WaitClients => s.slots[d.slot].clients == 0
          case WaitTransit => s.slots[d.slot].transit == 0
          case _ => true)
    case IterateBegin => s.iter == Idle
    case IterateLook => s.iter.Looking? && s.iter.slot <= |s.slots|
    case IterateRelease(_) => s.iter.Pinned? && s.iter.slot < |s.slots|
    case ShutdownBegin => s.shutdown.Serving?
    case ShutdownLook => s.shutdown.AtSlot? && s.shutdown.slot <= |s.slots|
    case ShutdownRead => s.shutdown.SawReady? && s.shutdown.slot < |s.slots|
    case ShutdownDestroy(t) => s.shutdown.Named? && t !in s.threads && s.iter == Idle
    case ShutdownNext => s.shutdown.Awaiting? && s.shutdown.t !in s.threads
  }

  function SetSlot(s: State, i: nat, b: Slot): State
    requires i < |s.slots|
  {
    s.(slots := s.slots[i := b])
  }

  function AddClient(s: State, i: nat): State
    requires i < |s.slots|
  {
    SetSlot(s, i, s.slots[i].(clients := s.slots[i].clients + 1))
  }

  /** disconnect_bucket() */
  function DropClient(s: State, i: nat): State
    requires i < |s.slots|
  {
    SetSlot(s, i, s.slots[i].(clients := s.slots[i].clients - 1))
  }

  function SetPhase(s: State, c: nat, p: Phase): State {
    s.(conns := s.conns[c := p])
  }

  function SetThread(s: State, t: nat, th: Thread): State {
    s.(threads := s.threads[t := th])
  }

  function EndThread(s: State, t: nat): State {
    s.(threads := s.threads - {t})
  }

  /** Bucket index seen by others: the slot of a bound or leaving connection, 0 otherwise. */
  function BucketIndex(p: Phase): nat {
    match p
    case Bound(i) => i
    case Leaving(i, _) => i
    case _ => 0
  }

  function ApplyCreate(s: State, t: nat, ok: bool): State
    requires t in s.threads && s.threads[t].Creator? && s.threads[t].slot < |s.slots|
  {
    var i := s.threads[t].slot;
    var b := s.slots[i];
    match s.threads[t].cpc
    case MakeEngine =>
      if ok then SetThread(SetSlot(s, i, b.(engine := true)), t, Creator(i, MarkInitializing))
      else EndThread(SetSlot(s, i, ResetSlot(b)), t)
    case MarkInitializing => SetThread(SetSlot(s, i, b.(state := Initializing)), t, Creator(i, InitializeEngine))
    case InitializeEngine =>
      if ok then EndThread(SetSlot(s, i, b.(state := Ready)), t)
      else SetThread(SetSlot(s, i, b.(state := Destroying)), t, Creator(i, Discard))
    case Discard => EndThread(SetSlot(s, i, ResetSlot(b)), t)
  }

  /** destroy() finds its own connection in the bucket, or on its way out of it. */
  predicate Detaches(s: State, d: Thread)
    requires d.Destroyer?
  {
    && d.conn.Some? && d.conn.value in s.conns && BucketIndex(s.conns[d.conn.value]) == d.slot
    && (s.conns[d.conn.value].Bound? || s.conns[d.conn.value].Orphan? || s.conns[d.conn.value].Leaving?)
  }

  /** The first half of disassociate_bucket(), by whoever calls it. */
  function Release(s: State, c: nat, p: Phase): State
    requires c in s.conns && BucketIndex(s.conns[c]) < |s.slots|
  {
    var i := BucketIndex(s.conns[c]);
    SetPhase(DropClient(s, i), c, p)
      .(departed := s.departed + (if s.conns[c].Orphan? then 1 else 0),
        doubled := if s.conns[c].Leaving? then s.doubled + multiset{i} else s.doubled)
  }

  /** The second half, in destroy(): the index is cleared. A connection that is being closed
      meanwhile stays on its way. */
  function Cleared(s: State, conn: Option<nat>): State {
    if conn.None? || conn.value !in s.conns || !s.conns[conn.value].Leaving? then s
    else if s.conns[conn.value].target.ToNoBucket? then
      SetPhase(s, conn.value, Orphan).(orphaned := s.orphaned + 1)
    else SetPhase(s, conn.value, Leaving(0, s.conns[conn.value].target))
  }

  function ApplyDestroy(s: State, t: nat): State
    requires t in s.threads && s.threads[t].Destroyer? && s.threads[t].slot < |s.slots|
  {
    var d := s.threads[t];
    var i := d.slot;
    var b := s.slots[i];
    match d.dpc
    case Detach =>
      if Detaches(s, d) then
        var c := d.conn.value;
        var target := if s.conns[c].Leaving? then s.conns[c].target else ToNoBucket;
        SetThread(Release(s, c, Leaving(i, target)), t, d.(dpc := ClearIndex))
      else SetThread(s, t, d.(dpc := WaitClients))
    case ClearIndex => SetThread(Cleared(s, d.conn), t, d.(dpc := WaitClients))
    case WaitClients => SetThread(s, t, d.(dpc := WaitTransit))
    case WaitTransit => SetThread(s, t, d.(dpc := DestroyEngine))
    case DestroyEngine => SetThread(SetSlot(s, i, b.(engine := false)), t, d.(dpc := Cleanup))
    case Cleanup => EndThread(SetSlot(s, i, ResetSlot(b)), t)
  }

  /** The bucket a delete of `name` would claim: the first slot of that name, if it is Ready. */
  predicate Claims(slots: seq<Slot>, name: string) {
    var i := Find(slots, name, 0);
    i < |slots| && slots[i].state == Ready
  }

  function Claim(s: State, t: nat, name: string, conn: Option<nat>): State
    requires Claims(s.slots, name)
  {
    var i := Find(s.slots, name, 0);
    SetThread(SetSlot(s, i, s.slots[i].(state := Destroying)), t, Destroyer(i, conn, Detach))
      .(misfired := s.misfired || i == 0)
  }

  /** A step that is not enabled waits: it changes nothing. */
  function Apply(s: State, step: Step): State {
    if !Enabled(s, step) then s else
    match step
    case Connect(c) => SetPhase(s, c, Fresh)
    case InitialBucket(c) => SetPhase(AddClient(s, 0), c, Bound(0))
    case OpenDcp(c) => s.(dcp := s.dcp + {c})
    case Leave(c, target) => Release(s, c, Leaving(BucketIndex(s.conns[c]), target))
    case Left(c) =>
      if s.conns[c].target.ToSelect? then SetPhase(s, c, Scanning(s.conns[c].target.name, 1))
      else s.(conns := s.conns - {c}, dcp := s.dcp - {c})
    case Probe(c) =>
      var name, i := s.conns[c].name, s.conns[c].next;
      if i == |s.slots| then SetPhase(AddClient(s, 0), c, Joining(0))
      else if s.slots[i].state == Ready && s.slots[i].name == name then SetPhase(AddClient(s, i), c, Joining(i))
      else SetPhase(s, c, Scanning(name, i + 1))
    case Joined(c) => SetPhase(s, c, Bound(s.conns[c].slot))
    case Send(c) =>
      var i := s.conns[c].slot;
      SetSlot(s, i, s.slots[i].(transit := s.slots[i].transit + 1)).(buffers := s.buffers + multiset{i})
    case Sent(i) =>
      SetSlot(s, i, s.slots[i].(transit := s.slots[i].transit - 1)).(buffers := s.buffers - multiset{i})
    case Pin(i) => AddClient(s, i).(pins := s.pins + multiset{i})
    case Unpin(i) => DropClient(s, i).(pins := s.pins - multiset{i})
    case CreateBegin(t, name, i) =>
      SetThread(SetSlot(s, i, s.slots[i].(state := Creating, name := name)), t, Creator(i, MakeEngine))
    case CreateNext(t, ok) => ApplyCreate(s, t, ok)
    case DestroyBegin(t, name, conn) => if Claims(s.slots, name) then Claim(s, t, name, conn) else s
    case DestroyNext(t) => ApplyDestroy(s, t)
    case IterateBegin => s.(iter := Looking(0))
    case IterateLook =>
      var i := s.iter.slot;
      if i == |s.slots| then s.(iter := Idle)
      else if s.slots[i].state == Ready then AddClient(s, i).(iter := Pinned(i))
      else s.(iter := Looking(i + 1))
    case IterateRelease(go) =>
      DropClient(s, s.iter.slot).(iter := if go then Looking(s.iter.slot + 1) else Idle)
    case ShutdownBegin => s.(shutdown := AtSlot(1))
    case ShutdownLook =>
      var i := s.shutdown.slot;
      s.(shutdown := if i == |s.slots| then Stopped
                     else if s.slots[i].state == Ready then SawReady(i) else AtSlot(i + 1))
    case ShutdownRead => s.(shutdown := Named(s.shutdown.slot, s.slots[s.shutdown.slot].name))
    case ShutdownDestroy(t) =>
      var i, name := s.shutdown.slot, s.shutdown.name;
      if Claims(s.slots, name) then Claim(s, t, name, None).(shutdown := Awaiting(i, t))
      else s.(shutdown := AtSlot(i + 1))
    case ShutdownNext => s.(shutdown := AtSlot(s.shutdown.slot + 1))
  }

  function Run(s: State, steps: seq<Step>): State
    decreases |steps|
  {
    if steps == [] then s else Run(Apply(s, steps[0]), steps[1..])
  }
}
