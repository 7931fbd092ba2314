/**
 * Runs that show what the bucket manager does not keep.
 */
module BucketScenes {
  import opened Wrappers
  import opened Buckets
  import opened BucketCounts
  import opened BucketSafety

  lemma Reach(s: State, step: Step, s': State)
    requires Reachable(s) && s' == Apply(s, step)
    ensures Reachable(s')
  {
    hide Apply;
    var slots: nat, steps: seq<Step> :| slots > 0 && s == Run(Init(slots), steps);
    RunAppend(Init(slots), steps, step);
  }

  /** Two slots and one connection. */
  function Scene(clients0: int, bucket: Slot, p: Phase, threads: map<nat, Thread>, orphaned: nat,
                 shutdown: Shutdown): State {
    State([Slot(Ready, "", clients0, 0, true), bucket], map[1 := p], {}, threads, Idle, multiset{}, multiset{},
          shutdown, orphaned, 0, false, multiset{})
  }

  const UNUSED := Slot(Unused, "", 0, 0, false)
  const NEW := Slot(Creating, "b", 0, 0, false)
  const OPEN := Slot(Ready, "b", 0, 0, true)
  const DOOMED := Slot(Destroying, "b", 0, 0, true)

  function SceneCreate(pc: CreatePc, bucket: Slot): State {
    Scene(1, bucket, Bound(0), map[7 := Creator(1, pc)], 0, Serving)
  }

  function SceneDestroy(pc: DestroyPc, bucket: Slot, shutdown: Shutdown): State {
    Scene(0, bucket, Orphan, map[8 := Destroyer(1, Some(1), pc)], 1, shutdown)
  }

  lemma SceneConnects()
    ensures Reachable(Scene(1, UNUSED, Bound(0), map[], 0, Serving))
  {
    var s := Init(2);
    assert Run(s, []) == s;
    assert s == State([Slot(Ready, "", 0, 0, true), UNUSED], map[], {}, map[], Idle, multiset{}, multiset{},
                      Serving, 0, 0, false, multiset{});
    hide Reachable, Run, ApplyCreate, ApplyDestroy;
    Reach(s, Connect(1), Scene(0, UNUSED, Fresh, map[], 0, Serving));
    Reach(Scene(0, UNUSED, Fresh, map[], 0, Serving), InitialBucket(1), Scene(1, UNUSED, Bound(0), map[], 0, Serving));
  }

  lemma SceneClaims()
    ensures Reachable(SceneCreate(MarkInitializing, NEW.(engine := true)))
  {
    hide Reachable, ApplyDestroy;
    SceneConnects();
    Reach(Scene(1, UNUSED, Bound(0), map[], 0, Serving), CreateBegin(7, "b", 1), SceneCreate(MakeEngine, NEW));
    Reach(SceneCreate(MakeEngine, NEW), CreateNext(7, true), SceneCreate(MarkInitializing, NEW.(engine := true)));
  }

  lemma SceneCreates()
    ensures Reachable(Scene(1, OPEN, Bound(0), map[], 0, Serving))
  {
    hide Reachable, ApplyDestroy;
    SceneClaims();
    var s := SceneCreate(InitializeEngine, OPEN.(state := Initializing));
    Reach(SceneCreate(MarkInitializing, NEW.(engine := true)), CreateNext(7, true), s);
    Reach(s, CreateNext(7, true), Scene(1, OPEN, Bound(0), map[], 0, Serving));
  }

  /** The server keeps serving, or destroyAll() starts and sees the bucket. */
  predicate SceneShutdown(shutdown: Shutdown) {
    shutdown == Serving || shutdown == SawReady(1)
  }

  lemma SceneLooks(shutdown: Shutdown)
    requires SceneShutdown(shutdown)
    ensures Reachable(Scene(1, OPEN, Bound(0), map[], 0, shutdown))
  {
    hide Reachable, ApplyCreate, ApplyDestroy;
    SceneCreates();
    var s := Scene(1, OPEN, Bound(0), map[], 0, AtSlot(1));
    Reach(Scene(1, OPEN, Bound(0), map[], 0, Serving), ShutdownBegin, s);
    Reach(s, ShutdownLook, Scene(1, OPEN, Bound(0), map[], 0, SawReady(1)));
  }

  lemma SceneLeaves(shutdown: Shutdown)
    requires SceneShutdown(shutdown)
    ensures Reachable(Scene(0, OPEN, Scanning("b", 1), map[], 0, shutdown))
  {
    hide Reachable, ApplyCreate, ApplyDestroy;
    SceneLooks(shutdown);
    var s := Scene(0, OPEN, Leaving(0, ToSelect("b")), map[], 0, shutdown);
    Reach(Scene(1, OPEN, Bound(0), map[], 0, shutdown), Leave(1, ToSelect("b")), s);
    Reach(s, Left(1), Scene(0, OPEN, Scanning("b", 1), map[], 0, shutdown));
  }

  lemma SceneSelects(shutdown: Shutdown)
    requires SceneShutdown(shutdown)
    ensures Reachable(Scene(0, OPEN.(clients := 1), Bound(1), map[], 0, shutdown))
  {
    hide Reachable, ApplyCreate, ApplyDestroy;
    SceneLeaves(shutdown);
    var s := Scene(0, OPEN.(clients := 1), Joining(1), map[], 0, shutdown);
    Reach(Scene(0, OPEN, Scanning("b", 1), map[], 0, shutdown), Probe(1), s);
    Reach(s, Joined(1), Scene(0, OPEN.(clients := 1), Bound(1), map[], 0, shutdown));
  }

  lemma SceneDeletes(conn: Option<nat>, shutdown: Shutdown)
    requires SceneShutdown(shutdown) && (conn == Some(1) || conn == None)
    ensures Reachable(Scene(0, DOOMED.(clients := 1), Bound(1), map[8 := Destroyer(1, conn, Detach)], 0, shutdown))
  {
    hide Reachable, ApplyCreate, ApplyDestroy;
    SceneSelects(shutdown);
    Reach(Scene(0, OPEN.(clients := 1), Bound(1), map[], 0, shutdown), DestroyBegin(8, "b", conn),
          Scene(0, DOOMED.(clients := 1), Bound(1), map[8 := Destroyer(1, conn, Detach)], 0, shutdown));
  }

  function SceneClearing(shutdown: Shutdown): State {
    Scene(0, DOOMED, Leaving(1, ToNoBucket), map[8 := Destroyer(1, Some(1), ClearIndex)], 0, shutdown)
  }

  lemma SceneReleased(shutdown: Shutdown)
    ensures var threads := map[8 := Destroyer(1, Some(1), Detach)];
            Release(Scene(0, DOOMED.(clients := 1), Bound(1), threads, 0, shutdown), 1, Leaving(1, ToNoBucket)) ==
            Scene(0, DOOMED, Leaving(1, ToNoBucket), threads, 0, shutdown)
  {
  }

  lemma SceneDetaches(shutdown: Shutdown)
    requires SceneShutdown(shutdown)
    ensures Reachable(SceneClearing(shutdown))
  {
    hide Reachable, ApplyCreate, SceneShutdown, Claim, Claims, Cleared, SceneDestroy, Release;
    SceneDeletes(Some(1), shutdown);
    SceneReleased(shutdown);
    Reach(Scene(0, DOOMED.(clients := 1), Bound(1), map[8 := Destroyer(1, Some(1), Detach)], 0, shutdown),
          DestroyNext(8), SceneClearing(shutdown));
  }

  lemma SceneClears(shutdown: Shutdown)
    requires SceneShutdown(shutdown)
    ensures Reachable(SceneDestroy(WaitClients, DOOMED, shutdown))
  {
    hide Reachable, ApplyCreate, SceneShutdown;
    SceneDetaches(shutdown);
    Reach(SceneClearing(shutdown), DestroyNext(8), SceneDestroy(WaitClients, DOOMED, shutdown));
  }

  lemma SceneWaits(shutdown: Shutdown)
    requires SceneShutdown(shutdown)
    ensures Reachable(SceneDestroy(DestroyEngine, DOOMED, shutdown))
  {
    hide Reachable, ApplyCreate;
    SceneClears(shutdown);
    Reach(SceneDestroy(WaitClients, DOOMED, shutdown), DestroyNext(8), SceneDestroy(WaitTransit, DOOMED, shutdown));
    Reach(SceneDestroy(WaitTransit, DOOMED, shutdown), DestroyNext(8), SceneDestroy(DestroyEngine, DOOMED, shutdown));
  }

  /** A connection selects a bucket and deletes it: it is bound to slot 0, which counts none. */
  lemma SceneOrphans(shutdown: Shutdown)
    requires SceneShutdown(shutdown)
    ensures Reachable(Scene(0, UNUSED, Orphan, map[], 1, shutdown))
  {
    hide Reachable, ApplyCreate;
    SceneWaits(shutdown);
    var s := SceneDestroy(Cleanup, DOOMED.(engine := false), shutdown);
    Reach(SceneDestroy(DestroyEngine, DOOMED, shutdown), DestroyNext(8), s);
    Reach(s, DestroyNext(8), Scene(0, UNUSED, Orphan, map[], 1, shutdown));
  }

  /** When it disconnects nobody is left, yet the count of slot 0 is one below zero; the drift
      being the number of orphans ever, it never recovers. */
  lemma DriftOutlivesTheOrphan() returns (s: State)
    ensures Reachable(s) && Intact(s) && s.conns == map[] && s.iter == Idle && s.pins == multiset{}
    ensures |s.slots| > 0 && s.slots[0].clients == -1
  {
    hide Reachable, ApplyCreate, ApplyDestroy;
    SceneOrphans(Serving);
    var left := Scene(-1, UNUSED, Leaving(0, ToClose), map[], 1, Serving).(departed := 1);
    Reach(Scene(0, UNUSED, Orphan, map[], 1, Serving), Leave(1, ToClose), left);
    s := Apply(left, Left(1));
    Reach(left, Left(1), s);
  }

  // ---------------------------------------------------------------- an index without an engine

  function SceneLeaving(pc: DestroyPc, bucket: Slot): State {
    Scene(0, bucket, Leaving(1, ToClose), map[8 := Destroyer(1, None, pc)], 0, Serving)
  }

  lemma SceneAwaitsClients()
    ensures Reachable(Scene(0, DOOMED.(clients := 1), Bound(1), map[8 := Destroyer(1, None, WaitClients)], 0, Serving))
  {
    hide Reachable, ApplyCreate;
    SceneDeletes(None, Serving);
    Reach(Scene(0, DOOMED.(clients := 1), Bound(1), map[8 := Destroyer(1, None, Detach)], 0, Serving), DestroyNext(8),
          Scene(0, DOOMED.(clients := 1), Bound(1), map[8 := Destroyer(1, None, WaitClients)], 0, Serving));
  }

  lemma SceneReleases()
    ensures Reachable(SceneLeaving(WaitClients, DOOMED))
  {
    hide Reachable, ApplyCreate, ApplyDestroy;
    SceneAwaitsClients();
    Reach(Scene(0, DOOMED.(clients := 1), Bound(1), map[8 := Destroyer(1, None, WaitClients)], 0, Serving),
          Leave(1, ToClose), SceneLeaving(WaitClients, DOOMED));
  }

  /** A connection that has given up its reference but not yet cleared its index carries the
      index of a bucket whose engine is gone. */
  lemma IndexOutlivesTheEngine() returns (s: State)
    ensures Reachable(s) && Intact(s) && 1 in s.conns && |s.slots| > 1
    ensures BucketIndex(s.conns[1]) == 1 && !s.slots[1].engine && Owned(s.threads, 1)
  {
    hide Reachable, ApplyCreate;
    SceneReleases();
    Reach(SceneLeaving(WaitClients, DOOMED), DestroyNext(8), SceneLeaving(WaitTransit, DOOMED));
    Reach(SceneLeaving(WaitTransit, DOOMED), DestroyNext(8), SceneLeaving(DestroyEngine, DOOMED));
    s := SceneLeaving(Cleanup, DOOMED.(engine := false));
    Reach(SceneLeaving(DestroyEngine, DOOMED), DestroyNext(8), s);
    assert s.threads[8].slot == 1;
  }

  // ---------------------------------------------------------------- shutdown takes slot 0

  function SceneMisfired(state: BucketState, engine: bool, pc: DestroyPc): State {
    State([Slot(state, "", 0, 0, engine), UNUSED], map[1 := Orphan], {}, map[9 := Destroyer(0, None, pc)], Idle,
          multiset{}, multiset{}, Awaiting(1, 9), 1, 0, true, multiset{})
  }

  lemma SceneReadsLate()
    ensures Reachable(Scene(0, UNUSED, Orphan, map[], 1, Named(1, "")))
  {
    hide Reachable, ApplyCreate, ApplyDestroy;
    SceneOrphans(SawReady(1));
    Reach(Scene(0, UNUSED, Orphan, map[], 1, SawReady(1)), ShutdownRead,
          Scene(0, UNUSED, Orphan, map[], 1, Named(1, "")));
  }

  lemma SceneMisfires()
    ensures Reachable(SceneMisfired(Destroying, true, Detach))
  {
    hide Reachable, ApplyCreate, ApplyDestroy;
    SceneReadsLate();
    Reach(Scene(0, UNUSED, Orphan, map[], 1, Named(1, "")), ShutdownDestroy(9),
          SceneMisfired(Destroying, true, Detach));
  }

  /** destroyAll() sees a bucket Ready; a client deletes it before its name is read; the delete
      that follows takes slot 0, whose count is too low by that client, and destroys its engine
      although the client is bound to it. */
  lemma ShutdownDestroysNoBucket() returns (s: State)
    ensures Reachable(s) && s.misfired && |s.slots| > 0 && !s.slots[0].engine
    ensures 1 in s.conns && s.conns[1] == Orphan && BucketIndex(s.conns[1]) == 0
  {
    hide Reachable, ApplyCreate;
    SceneMisfires();
    Reach(SceneMisfired(Destroying, true, Detach), DestroyNext(9), SceneMisfired(Destroying, true, WaitClients));
    Reach(SceneMisfired(Destroying, true, WaitClients), DestroyNext(9), SceneMisfired(Destroying, true, WaitTransit));
    Reach(SceneMisfired(Destroying, true, WaitTransit), DestroyNext(9), SceneMisfired(Destroying, true, DestroyEngine));
    s := SceneMisfired(Destroying, false, Cleanup);
    Reach(SceneMisfired(Destroying, true, DestroyEngine), DestroyNext(9), s);
  }

  // ---------------------------------------------------------------- a bucket given up twice

  /** A second connection, bound to no bucket or to the same one. */
  function Pair(bucket: Slot, p: Phase, q: Phase, clients0: int): State {
    Scene(clients0, bucket, p, map[], 0, Serving).(conns := map[1 := p, 2 := q])
  }

  lemma PairConnects()
    ensures Reachable(Pair(OPEN.(clients := 1), Bound(1), Bound(0), 1))
  {
    hide Reachable, ApplyCreate, ApplyDestroy;
    SceneSelects(Serving);
    Reach(Scene(0, OPEN.(clients := 1), Bound(1), map[], 0, Serving), Connect(2),
          Pair(OPEN.(clients := 1), Bound(1), Fresh, 0));
    Reach(Pair(OPEN.(clients := 1), Bound(1), Fresh, 0), InitialBucket(2),
          Pair(OPEN.(clients := 1), Bound(1), Bound(0), 1));
  }

  lemma PairLeaves()
    ensures Reachable(Pair(OPEN.(clients := 1), Bound(1), Scanning("b", 1), 0))
  {
    hide Reachable, ApplyCreate, ApplyDestroy;
    PairConnects();
    var s := Pair(OPEN.(clients := 1), Bound(1), Leaving(0, ToSelect("b")), 0);
    Reach(Pair(OPEN.(clients := 1), Bound(1), Bound(0), 1), Leave(2, ToSelect("b")), s);
    Reach(s, Left(2), Pair(OPEN.(clients := 1), Bound(1), Scanning("b", 1), 0));
  }

  lemma PairSelects()
    ensures Reachable(Pair(OPEN.(clients := 2), Bound(1), Bound(1), 0))
  {
    hide Reachable, ApplyCreate, ApplyDestroy;
    PairLeaves();
    var s := Pair(OPEN.(clients := 2), Bound(1), Joining(1), 0);
    Reach(Pair(OPEN.(clients := 1), Bound(1), Scanning("b", 1), 0), Probe(2), s);
    Reach(s, Joined(2), Pair(OPEN.(clients := 2), Bound(1), Bound(1), 0));
  }

  function PairDeletes(bucket: Slot, p: Phase, pc: DestroyPc, doubled: multiset<nat>): State {
    Pair(bucket, p, Bound(1), 0).(dcp := {1}, threads := map[8 := Destroyer(1, Some(1), pc)], doubled := doubled)
  }

  lemma PairBeginsToDelete()
    ensures Reachable(PairDeletes(DOOMED.(clients := 2), Bound(1), Detach, multiset{}))
  {
    hide Reachable, ApplyCreate, ApplyDestroy;
    PairSelects();
    var s := Pair(OPEN.(clients := 2), Bound(1), Bound(1), 0);
    Reach(s, OpenDcp(1), s.(dcp := {1}));
    Reach(s.(dcp := {1}), DestroyBegin(8, "b", Some(1)),
          PairDeletes(DOOMED.(clients := 2), Bound(1), Detach, multiset{}));
  }

  lemma PairCloses()
    ensures Reachable(PairDeletes(DOOMED.(clients := 1), Leaving(1, ToClose), Detach, multiset{}))
  {
    hide Reachable, ApplyCreate, ApplyDestroy;
    PairBeginsToDelete();
    Reach(PairDeletes(DOOMED.(clients := 2), Bound(1), Detach, multiset{}), Leave(1, ToClose),
          PairDeletes(DOOMED.(clients := 1), Leaving(1, ToClose), Detach, multiset{}));
  }

  lemma PairDoubles()
    ensures Reachable(PairDeletes(DOOMED, Leaving(1, ToClose), ClearIndex, multiset{1}))
  {
    hide Reachable, ApplyCreate, Claim, Claims;
    PairCloses();
    Reach(PairDeletes(DOOMED.(clients := 1), Leaving(1, ToClose), Detach, multiset{}), DestroyNext(8),
          PairDeletes(DOOMED, Leaving(1, ToClose), ClearIndex, multiset{1}));
  }

  lemma PairClears()
    ensures Reachable(PairDeletes(DOOMED, Leaving(0, ToClose), WaitClients, multiset{1}))
  {
    hide Reachable, ApplyCreate, Claim, Claims;
    PairDoubles();
    Reach(PairDeletes(DOOMED, Leaving(1, ToClose), ClearIndex, multiset{1}), DestroyNext(8),
          PairDeletes(DOOMED, Leaving(0, ToClose), WaitClients, multiset{1}));
  }

  /** Two connections are bound to a bucket. One of them does DCP; it deletes the bucket and is
      closed before destroy() takes it out of it. It is taken out twice, and the engine is
      destroyed although the other one is bound to the bucket. */
  lemma ClosingDeleterDestroysABucketInUse() returns (s: State)
    ensures Reachable(s) && !s.misfired && |s.slots| > 1 && !s.slots[1].engine
    ensures 2 in s.conns && s.conns[2] == Bound(1) && s.doubled == multiset{1}
  {
    hide Reachable, ApplyCreate, Claim, Claims;
    PairClears();
    var p, twice := Leaving(0, ToClose), multiset{1};
    Reach(PairDeletes(DOOMED, p, WaitClients, twice), DestroyNext(8), PairDeletes(DOOMED, p, WaitTransit, twice));
    Reach(PairDeletes(DOOMED, p, WaitTransit, twice), DestroyNext(8), PairDeletes(DOOMED, p, DestroyEngine, twice));
    s := PairDeletes(DOOMED.(engine := false), p, Cleanup, twice);
    Reach(PairDeletes(DOOMED, p, DestroyEngine, twice), DestroyNext(8), s);
  }
}
