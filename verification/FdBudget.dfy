/**
 * How the file descriptors of the process are shared between client connections, worker
 * threads, the server itself and the engines, each time max_connections changes.
 */
module FdBudget {

  const SIZE_LIMIT := 0x1_0000_0000_0000_0000

  const RESERVED_FDS := 1000
  const MIN_ENGINE_FDS := 1050

  /** The sum or difference of two size_t. */
  function Wrap(n: int): int {
    if n < 0 then n + SIZE_LIMIT else if n >= SIZE_LIMIT then n - SIZE_LIMIT else n
  }

  function WorkerFds(workers: nat): nat {
    3 * (workers + 2)
  }

  /** What connections cannot have; zero engine descriptors means they were not set yet. */
  function TotalReserved(workers: nat, engineFds: int): int {
    WorkerFds(workers) + RESERVED_FDS + if engineFds == 0 then MIN_ENGINE_FDS else engineFds
  }

  /** Everyone's share fits, and the engines have what they need to work. */
  predicate Within(maxFds: nat, workers: nat, maxConnections: nat, engineFds: nat) {
    maxConnections + WorkerFds(workers) + RESERVED_FDS + engineFds <= maxFds && engineFds >= MIN_ENGINE_FDS
  }

  /** The reservation itself fits, and either the sum of the wish and the reservation can be
      represented or what is left of it after wrapping is still more than there is. */
  predicate CanHonour(maxFds: nat, workers: nat, desired: nat, engineFds: int) {
    var reserved := TotalReserved(workers, engineFds);
    maxFds >= reserved && (desired + reserved < SIZE_LIMIT || maxFds < desired + reserved - SIZE_LIMIT)
  }

  /** What the engines get when their share is set: all that the connections leave of it, or the
      minimum if there is too little for what was asked for. */
  function FirstShare(maxFds: nat, workers: nat, desired: nat): int {
    if maxFds < Wrap(desired + TotalReserved(workers, 0)) then MIN_ENGINE_FDS
    else Wrap(maxFds - Wrap(WorkerFds(workers) + RESERVED_FDS + desired))
  }

  /** What connections get of a wish that can be honoured: all that is left, if they ask for more. */
  function Granted(maxFds: nat, workers: nat, desired: nat, engineFds: int): int {
    var left := maxFds - TotalReserved(workers, engineFds);
    if desired <= left then desired else left
  }

  /** System connections are halved together with a wish that was reduced below them. */
  function SystemShare(desired: nat, granted: int, systemConnections: int): int {
    if granted < desired && systemConnections > granted then granted / 2 else systemConnections
  }

  class Settings {
    const maxFds: nat
    const workers: nat
    var maxConnections: nat
    var systemConnections: nat
    var engineFds: nat

    ghost predicate Representable()
      reads this
    {
      && maxFds < SIZE_LIMIT && maxConnections < SIZE_LIMIT && systemConnections < SIZE_LIMIT
      && (engineFds == 0 || engineFds >= MIN_ENGINE_FDS) && TotalReserved(workers, engineFds) < SIZE_LIMIT
    }

    constructor (maxFds: nat, workers: nat, maxConnections: nat, systemConnections: nat)
      requires maxFds < SIZE_LIMIT && maxConnections < SIZE_LIMIT && systemConnections < SIZE_LIMIT
      requires TotalReserved(workers, 0) < SIZE_LIMIT
      ensures Representable() && engineFds == 0
      ensures this.maxFds == maxFds && this.workers == workers
      ensures this.maxConnections == maxConnections && this.systemConnections == systemConnections
    {
      this.maxFds, this.workers := maxFds, workers;
      this.maxConnections, this.systemConnections, engineFds := maxConnections, systemConnections, 0;
    }

    /** The shares fit afterwards exactly if the wish could be honoured. The engines' share is
        set once; connections get what they asked for or all that is left. */
    method Recalculate()
      requires Representable()
      modifies this
      ensures Within(maxFds, workers, maxConnections, engineFds)
         <==> CanHonour(maxFds, workers, old(maxConnections), old(engineFds))
      ensures engineFds ==
              if old(engineFds) == 0 then FirstShare(maxFds, workers, old(maxConnections)) else old(engineFds)
      ensures var reserved := TotalReserved(workers, old(engineFds));
              maxFds < reserved && old(maxConnections) + reserved < SIZE_LIMIT ==>
                maxConnections == SIZE_LIMIT - (reserved - maxFds)
      ensures var wrapped := old(maxConnections) + TotalReserved(workers, old(engineFds)) - SIZE_LIMIT;
              0 <= wrapped <= maxFds ==> maxConnections == old(maxConnections)
      ensures CanHonour(maxFds, workers, old(maxConnections), old(engineFds)) ==>
                && Representable() && maxConnections <= old(maxConnections)
                && (maxConnections < old(maxConnections) ==>
                      maxConnections + TotalReserved(workers, engineFds) == maxFds)
                && (old(engineFds) == 0 ==> maxConnections + TotalReserved(workers, engineFds) == maxFds)
                && maxConnections == Granted(maxFds, workers, old(maxConnections), old(engineFds))
                && systemConnections == SystemShare(old(maxConnections), maxConnections, old(systemConnections))
                && (maxConnections < old(maxConnections) ==> systemConnections <= maxConnections)
      ensures maxFds >= Wrap(old(maxConnections) + TotalReserved(workers, old(engineFds))) ==>
                systemConnections == old(systemConnections)
      ensures maxFds < Wrap(old(maxConnections) + TotalReserved(workers, old(engineFds))) ==>
                systemConnections == if old(systemConnections) > maxConnections then maxConnections / 2
                                     else old(systemConnections)
    {
      var desired := maxConnections;
      var workerFds := WorkerFds(workers);
      var totalReserved := workerFds + RESERVED_FDS;
      totalReserved := totalReserved + if engineFds == 0 then MIN_ENGINE_FDS else engineFds;
      var maxFiles := Wrap(desired + totalReserved);
      if maxFds < maxFiles {
        var newMax := Wrap(maxFds - totalReserved);
        maxConnections := newMax;
        if systemConnections > newMax {
          systemConnections := newMax / 2;
        }
        if engineFds == 0 {
          engineFds := MIN_ENGINE_FDS;
        }
      } else if engineFds == 0 {
        engineFds := Wrap(maxFds - Wrap(workerFds + RESERVED_FDS + desired));
      }
    }
  }

  /** The first `n` wishes can be honoured, the very first one before and the others after the
      engines got their share. */
  ghost predicate AllHonoured(maxFds: nat, workers: nat, desired: seq<nat>, n: nat)
    requires n <= |desired|
  {
    forall i :: 0 <= i < n ==>
      CanHonour(maxFds, workers, desired[i], if i == 0 then 0 else FirstShare(maxFds, workers, desired[0]))
  }

  /** The system connections after `n` wishes that are all honoured. */
  ghost function SystemAfter(maxFds: nat, workers: nat, desired: seq<nat>, n: nat, systemConnections: nat): int
    requires n <= |desired|
  {
    if n == 0 then systemConnections else
    var share := if n == 1 then 0 else FirstShare(maxFds, workers, desired[0]);
    SystemShare(desired[n - 1], Granted(maxFds, workers, desired[n - 1], share),
                SystemAfter(maxFds, workers, desired, n - 1, systemConnections))
  }

  /** There are descriptors for the initial reservation, and nobody asks for so many connections
      that the sum wraps. */
  ghost predicate Sane(maxFds: nat, workers: nat, desired: seq<nat>) {
    maxFds >= TotalReserved(workers, 0) && forall i :: 0 <= i < |desired| ==> desired[i] + maxFds < SIZE_LIMIT
  }

  lemma SaneWishesAreHonoured(maxFds: nat, workers: nat, desired: seq<nat>)
    requires Sane(maxFds, workers, desired)
    ensures AllHonoured(maxFds, workers, desired, |desired|)
  {
    if |desired| > 0 {
      LeftForTheEngines(maxFds, workers, desired[0]);
    }
  }

  lemma LeftForTheEngines(maxFds: nat, workers: nat, desired: nat)
    requires maxFds >= TotalReserved(workers, 0) && desired + maxFds < SIZE_LIMIT
    ensures FirstShare(maxFds, workers, desired) >= MIN_ENGINE_FDS
    ensures maxFds >= TotalReserved(workers, FirstShare(maxFds, workers, desired))
  {
  }

  /** Every sequence of changes: the shares fit after all recalculations exactly if every wish can
      be honoured, and that is so for every sane one. The engines keep what the first one gave
      them, and connections get what they asked for or what is left. `fits` is whether the shares
      fit in the end; the first recalculation after which they do not is the last. */
  method Run(maxFds: nat, workers: nat, systemConnections: nat, desired: seq<nat>) returns (s: Settings, fits: bool)
    requires |desired| > 0 && maxFds < SIZE_LIMIT && systemConnections < SIZE_LIMIT
    requires TotalReserved(workers, 0) < SIZE_LIMIT
    requires forall i :: 0 <= i < |desired| ==> desired[i] < SIZE_LIMIT
    ensures s.engineFds == FirstShare(maxFds, workers, desired[0])
    ensures fits <==> Within(maxFds, workers, s.maxConnections, s.engineFds)
    ensures fits <==> AllHonoured(maxFds, workers, desired, |desired|)
    ensures Sane(maxFds, workers, desired) ==> fits
    ensures fits ==> s.maxConnections <= desired[|desired| - 1]
    ensures fits ==> s.systemConnections == SystemAfter(maxFds, workers, desired, |desired|, systemConnections)
    // a wish that was reduced leaves the system connections within it
    ensures fits && s.maxConnections < desired[|desired| - 1] ==> s.systemConnections <= s.maxConnections
  {
    if Sane(maxFds, workers, desired) {
      SaneWishesAreHonoured(maxFds, workers, desired);
    }
    s := new Settings(maxFds, workers, desired[0], systemConnections);
    s.Recalculate();
    fits := Within(maxFds, workers, s.maxConnections, s.engineFds);
    ghost var share := FirstShare(maxFds, workers, desired[0]);
    hide Wrap, FirstShare, Granted, SystemShare, Within, CanHonour, Sane;
    if !fits {
      assert !CanHonour(maxFds, workers, desired[0], 0);
      return;
    }
    for i := 1 to |desired|
      invariant fresh(s) && s.Representable() && s.maxFds == maxFds && s.workers == workers && s.engineFds > 0
      invariant fits && Within(maxFds, workers, s.maxConnections, s.engineFds) && s.engineFds == share
      invariant s.maxConnections <= desired[i - 1]
      invariant s.systemConnections == SystemAfter(maxFds, workers, desired, i, systemConnections)
      invariant s.maxConnections < desired[i - 1] ==> s.systemConnections <= s.maxConnections
      invariant AllHonoured(maxFds, workers, desired, i)
    {
      hide TotalReserved;
      s.maxConnections := desired[i];
      s.Recalculate();
      fits := Within(maxFds, workers, s.maxConnections, s.engineFds);
      if !fits {
        assert !CanHonour(maxFds, workers, desired[i], share);
        return;
      }
    }
  }

  /** Without descriptors for the reservation the subtraction underflows. */
  method TooFewDescriptors() returns (s: Settings)
    ensures s.maxFds == 1000 && s.maxConnections == SIZE_LIMIT - 1074
    ensures !Within(s.maxFds, s.workers, s.maxConnections, s.engineFds)
  {
    s := new Settings(1000, 6, 60000, 5000);
    s.Recalculate();
  }

  /** A wish near the end of the range wraps, looks small, and is granted. */
  method WishWraps() returns (s: Settings)
    ensures s.maxFds == 100000 && s.maxConnections == SIZE_LIMIT - 1
    ensures !Within(s.maxFds, s.workers, s.maxConnections, s.engineFds)
  {
    s := new Settings(100000, 6, SIZE_LIMIT - 1, 5000);
    s.Recalculate();
  }
}
