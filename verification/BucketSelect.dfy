/**
 * A connection that selects a bucket gets the bucket it asked for. What it asked for and what its
 * search saw is read off the steps of a run, not off the state they lead to.
 */
module BucketSelect {
  import opened Wrappers
  import opened Buckets
  import opened BucketCounts
  import opened BucketInvariant
  import opened BucketSafety

  /** What each connection selected last, and the slots that were not Ready or had another name when
      its search came to them. */
  datatype History = History(wanted: map<nat, string>, missed: map<nat, set<nat>>)

  const NOTHING := History(map[], map[])

  /** The bucket is there to be selected. */
  predicate Offers(s: State, i: nat, name: string) {
    i < |s.slots| && s.slots[i].state == Ready && s.slots[i].name == name
  }

  function Recorded(s: State, step: Step, h: History): History {
    if !Enabled(s, step) then h else
    match step
    case Leave(c, ToSelect(name)) => History(h.wanted[c := name], h.missed[c := {}])
    case Probe(c) =>
      if c in h.wanted && c in h.missed && !Offers(s, s.conns[c].next, h.wanted[c])
      then h.(missed := h.missed[c := h.missed[c] + {s.conns[c].next}]) else h
    case _ => h
  }

  function RecordedAll(s: State, steps: seq<Step>, h: History): History
    decreases |steps|
  {
    if steps == [] then h else RecordedAll(Apply(s, steps[0]), steps[1..], Recorded(s, steps[0], h))
  }

  // ---------------------------------------------------------------- invariant

  ghost predicate Missed(h: History, c: nat, n: nat) {
    c in h.wanted && c in h.missed && forall j: nat :: 0 < j < n ==> j in h.missed[c]
  }

  /** What a connection is on its way to is what it asked for. */
  ghost predicate SearchOk(slots: nat, p: Phase, c: nat, h: History) {
    match p
    case Leaving(_, ToSelect(name)) => Missed(h, c, 0) && h.wanted[c] == name
    case Scanning(name, next) => Missed(h, c, next) && h.wanted[c] == name
    case Joining(i) => i == 0 ==> Missed(h, c, slots)
    case _ => true
  }

  ghost predicate HeldOk(s: State, c: nat, i: nat, h: History)
    requires i < |s.slots|
  {
    c in h.wanted && s.slots[i].name == h.wanted[c]
  }

  ghost predicate SelectOk(s: State, h: History) {
    && (forall c :: c in s.conns ==> SearchOk(|s.slots|, s.conns[c], c, h))
    && (forall c, i: nat :: c in s.conns && Holds(s.conns[c], i) && i < |s.slots| && Sound(s.doubled, i) ==>
          HeldOk(s, c, i, h))
  }

  // ---------------------------------------------------------------- slots

  lemma CreatorIsElsewhere(s: State, t: nat, i: nat)
    requires Inv(s) && t in s.threads && i < |s.slots| && Sound(s.doubled, i) && 0 < s.slots[i].clients
    requires s.threads[t].Creator? || s.threads[t].dpc.Cleanup?
    ensures s.threads[t].slot != i
  {
    hide Inv;
    OwnSlot(s, t);
  }

  lemma FreeIsElsewhere(s: State, i: nat, j: nat)
    requires Inv(s) && i < |s.slots| && Sound(s.doubled, i) && 0 < s.slots[i].clients
    requires j < |s.slots| && s.slots[j].state == Unused
    ensures i != j
  {
    hide Owners, Accounted, DeletersOk, BuffersOk, IterOk, PinsOk;
  }

  lemma DestroyKeepsNames(s: State, t: nat)
    requires t in s.threads && s.threads[t].Destroyer? && s.threads[t].slot < |s.slots|
    ensures |ApplyDestroy(s, t).slots| == |s.slots|
    ensures forall i :: 0 <= i < |s.slots| && (s.threads[t].dpc.Cleanup? ==> i != s.threads[t].slot) ==>
              ApplyDestroy(s, t).slots[i].name == s.slots[i].name
  {
    if s.threads[t].dpc.Detach? || s.threads[t].dpc.ClearIndex? {
      DetachChanges(s, t);
      hide ApplyDestroy;
    } else {
      hide Release, Cleared, Detaches;
    }
  }

  lemma CreateKeepsNames(s: State, t: nat, ok: bool)
    requires t in s.threads && s.threads[t].Creator? && s.threads[t].slot < |s.slots|
    ensures |ApplyCreate(s, t, ok).slots| == |s.slots|
    ensures forall i :: 0 <= i < |s.slots| && i != s.threads[t].slot ==>
              ApplyCreate(s, t, ok).slots[i].name == s.slots[i].name
  {
  }

  lemma BeginKeepsNames(s: State, step: Step, i: nat)
    requires Enabled(s, step) && (step.CreateBegin? || step.DestroyBegin? || step.ShutdownDestroy?) && i < |s.slots|
    requires step.CreateBegin? ==> step.slot != i
    ensures i < |Apply(s, step).slots| && Apply(s, step).slots[i].name == s.slots[i].name
  {
    hide ApplyCreate, ApplyDestroy, Release, Deleting, Find;
  }

  /** A bucket that is held keeps its name. */
  lemma HeldKeepsName(s: State, step: Step, i: nat)
    requires Inv(s) && i < |s.slots| && Sound(s.doubled, i) && 0 < s.slots[i].clients
    ensures i < |Apply(s, step).slots| && Apply(s, step).slots[i].name == s.slots[i].name
  {
    hide Inv, ApplyCreate, ApplyDestroy, Release, Deleting, Claim, Claims;
    if Enabled(s, step) && Threadless(step) {
      ThreadlessKeepsStates(s, step);
      hide Apply;
    } else if Enabled(s, step) {
      match step
      case CreateNext(t, ok) =>
        CreatorIsElsewhere(s, t, i);
        CreateKeepsNames(s, t, ok);
      case DestroyNext(t) =>
        if s.threads[t].dpc.Cleanup? { CreatorIsElsewhere(s, t, i); }
        DestroyKeepsNames(s, t);
      case CreateBegin(t, name, j) =>
        FreeIsElsewhere(s, i, j);
        BeginKeepsNames(s, step, i);
      case _ => BeginKeepsNames(s, step, i);
    }
  }

  // ---------------------------------------------------------------- steps

  /** A history only says more about a connection that is not starting a new search. */
  predicate Recalls(h: History, h': History, c: nat) {
    && (c in h.wanted ==> c in h'.wanted && h'.wanted[c] == h.wanted[c])
    && (c in h.missed ==> c in h'.missed && h.missed[c] <= h'.missed[c])
  }

  lemma SearchRecalled(slots: nat, p: Phase, c: nat, h: History, h': History)
    requires SearchOk(slots, p, c, h) && Recalls(h, h', c)
    ensures SearchOk(slots, p, c, h')
  {
  }

  lemma RecordedRecalls(s: State, step: Step, h: History, c: nat)
    requires !(step.Leave? && step.c == c)
    ensures Recalls(h, Recorded(s, step, h), c)
  {
    hide Enabled;
  }

  /** The phase of the connection that takes the step. */
  lemma MoverSearches(s: State, step: Step, h: History)
    requires Enabled(s, step) && Moving(step) && SelectOk(s, h)
    requires step.c in Apply(s, step).conns
    ensures SearchOk(|s.slots|, Apply(s, step).conns[step.c], step.c, Recorded(s, step, h))
  {
    hide ApplyCreate, ApplyDestroy, Claim, Claims, Deleting, HeldOk;
    assert step.c in s.conns ==> SearchOk(|s.slots|, s.conns[step.c], step.c, h);
  }

  /** What it holds then, and did not hold before. */
  lemma MoverHolds(s: State, step: Step, h: History, i: nat)
    requires Enabled(s, step) && Moving(step) && SelectOk(s, h) && 0 < i < |s.slots|
    requires step.c in Apply(s, step).conns && Holds(Apply(s, step).conns[step.c], i)
    requires !(step.c in s.conns && Holds(s.conns[step.c], i))
    ensures step.c in s.conns && step.c in h.wanted && Offers(s, i, h.wanted[step.c])
    ensures Recorded(s, step, h) == h
  {
    hide ApplyCreate, ApplyDestroy, Claim, Claims, Deleting, HeldOk;
    assert step.c in s.conns ==> SearchOk(|s.slots|, s.conns[step.c], step.c, h);
  }

  /** Nobody but the one that takes it is moved by a step of a connection. */
  lemma MoverMovesItself(s: State, step: Step)
    requires Enabled(s, step) && Moving(step)
    ensures forall c :: c in Apply(s, step).conns && c != step.c ==>
              c in s.conns && Apply(s, step).conns[c] == s.conns[c]
  {
    hide ApplyCreate, ApplyDestroy, Claim, Claims, Deleting;
  }

  /** A thread moves nobody but the connection of its delete, out of the bucket. */
  predicate Expelled(p: Phase, p': Phase) {
    p' == p || p'.Orphan? || (p'.Leaving? && (p'.target.ToNoBucket? || (p.Leaving? && p'.target == p.target)))
  }

  lemma ThreadExpels(s: State, step: Step)
    requires Enabled(s, step) && !Moving(step)
    ensures forall c :: c in Apply(s, step).conns ==> c in s.conns && Expelled(s.conns[c], Apply(s, step).conns[c])
  {
    if Threadless(step) {
      OthersKeepStates(s, step);
      hide Apply;
    } else {
      hide Claims;
      match step
      case DestroyNext(t) => DestroyExpels(s, t);
      case _ => hide ApplyDestroy;
    }
  }

  lemma DestroyExpels(s: State, t: nat)
    requires t in s.threads && s.threads[t].Destroyer? && s.threads[t].slot < |s.slots|
    ensures forall c :: c in ApplyDestroy(s, t).conns ==>
              c in s.conns && Expelled(s.conns[c], ApplyDestroy(s, t).conns[c])
  {
    if s.threads[t].dpc.Detach? {
      hide Cleared;
    } else {
      hide Release, Detaches;
    }
  }

  lemma ExpelledSearches(slots: nat, p: Phase, p': Phase, c: nat, h: History)
    requires SearchOk(slots, p, c, h) && Expelled(p, p')
    ensures SearchOk(slots, p', c, h)
  {
  }

  lemma HolderKeepsName(s: State, step: Step, h: History, c: nat, i: nat)
    requires Inv(s) && SelectOk(s, h) && c in s.conns && Holds(s.conns[c], i) && i < |s.slots|
    requires Sound(Apply(s, step).doubled, i)
    ensures Sound(s.doubled, i) && HeldOk(s, c, i, h)
    ensures i < |Apply(s, step).slots| && Apply(s, step).slots[i].name == s.slots[i].name
  {
    hide Inv, Apply, SearchOk, HeldOk;
    assert Sound(s.doubled, i) by { hide Doubles; DoubledGrows(s, step); }
    HolderIsCounted(s, c, i);
    HeldKeepsName(s, step, i);
  }

  lemma MoveSelectOk(s: State, step: Step, h: History)
    requires Inv(s) && SelectOk(s, h) && Enabled(s, step) && Moving(step)
    ensures SelectOk(Apply(s, step), Recorded(s, step, h))
  {
    hide Inv, Apply, Enabled, Recorded, SearchOk;
    var s', h' := Apply(s, step), Recorded(s, step, h);
    SlotCountStays(s, step);
    MoverMovesItself(s, step);
    forall c | c in s'.conns ensures SearchOk(|s'.slots|, s'.conns[c], c, h') {
      if c == step.c {
        MoverSearches(s, step, h);
      } else {
        RecordedRecalls(s, step, h, c);
        SearchRecalled(|s.slots|, s.conns[c], c, h, h');
      }
    }
    forall c, i: nat | c in s'.conns && Holds(s'.conns[c], i) && i < |s'.slots| && Sound(s'.doubled, i)
      ensures HeldOk(s', c, i, h')
    {
      if c in s.conns && Holds(s.conns[c], i) {
        HolderKeepsName(s, step, h, c, i);
        StillRecalls(s, step, h, c, i);
      } else {
        MoverHolds(s, step, h, i);
        ThreadlessKeepsStates(s, step);
      }
    }
  }

  /** A connection that keeps what it holds did not leave. */
  lemma StillRecalls(s: State, step: Step, h: History, c: nat, i: nat)
    requires Enabled(s, step) && Moving(step) && c in s.conns && c in h.wanted
    requires c in Apply(s, step).conns && Holds(Apply(s, step).conns[c], i)
    ensures c in Recorded(s, step, h).wanted && Recorded(s, step, h).wanted[c] == h.wanted[c]
  {
    hide ApplyCreate, ApplyDestroy, Claim, Claims, Deleting, Offers;
  }

  lemma OtherSelectOk(s: State, step: Step, h: History)
    requires Inv(s) && SelectOk(s, h) && Enabled(s, step) && !Moving(step)
    ensures SelectOk(Apply(s, step), Recorded(s, step, h))
  {
    assert Recorded(s, step, h) == h;
    hide Inv, Apply, Enabled, Recorded, SearchOk;
    var s' := Apply(s, step);
    SlotCountStays(s, step);
    ThreadExpels(s, step);
    forall c | c in s'.conns ensures SearchOk(|s'.slots|, s'.conns[c], c, h) {
      ExpelledSearches(|s.slots|, s.conns[c], s'.conns[c], c, h);
    }
    forall c, i: nat | c in s'.conns && Holds(s'.conns[c], i) && i < |s'.slots| && Sound(s'.doubled, i)
      ensures HeldOk(s', c, i, h)
    {
      HolderKeepsName(s, step, h, c, i);
    }
  }

  lemma StepSelectOk(s: State, step: Step, h: History)
    requires Inv(s) && SelectOk(s, h)
    ensures SelectOk(Apply(s, step), Recorded(s, step, h))
  {
    hide Inv, SelectOk, ApplyCreate, ApplyDestroy, Release, Claim, Claims, Deleting;
    if Enabled(s, step) {
      hide Enabled, Apply, Recorded;
      if Moving(step) {
        MoveSelectOk(s, step, h);
      } else {
        OtherSelectOk(s, step, h);
      }
    }
  }

  lemma {:induction false} RunSelectOk(s: State, steps: seq<Step>, h: History)
    requires Inv(s) && SelectOk(s, h)
    ensures Inv(Run(s, steps)) && SelectOk(Run(s, steps), RecordedAll(s, steps, h))
    decreases |steps|
  {
    hide Inv, SelectOk, Apply, Recorded;
    if steps != [] {
      StepOk(s, steps[0]);
      StepSelectOk(s, steps[0], h);
      RunSelectOk(Apply(s, steps[0]), steps[1..], Recorded(s, steps[0], h));
    }
  }

  // ---------------------------------------------------------------- every run

  lemma InitSelectOk(slots: nat)
    requires slots > 0
    ensures Inv(Init(slots)) && SelectOk(Init(slots), NOTHING)
  {
    InitIsOk(slots);
    hide Inv;
  }

  /** In every run a connection that holds a bucket, from the moment it joins it, holds one with the
      name it selected last, and the bucket keeps that name for as long. */
  lemma HoldsWhatItSelected(slots: nat, steps: seq<Step>, c: nat, i: nat)
    requires slots > 0
    requires var s := Run(Init(slots), steps);
             c in s.conns && Holds(s.conns[c], i) && i < |s.slots| && Sound(s.doubled, i)
    ensures var s, h := Run(Init(slots), steps), RecordedAll(Init(slots), steps, NOTHING);
            c in h.wanted && s.slots[i].name == h.wanted[c]
  {
    hide Inv, Run, RecordedAll, SearchOk;
    InitSelectOk(slots);
    RunSelectOk(Init(slots), steps, NOTHING);
  }

  /** And when it joined it that bucket was Ready. */
  lemma JoinsWhatItSelected(slots: nat, steps: seq<Step>, step: Step, c: nat, i: nat)
    requires slots > 0
    requires var s := Run(Init(slots), steps);
             && c in Apply(s, step).conns && Holds(Apply(s, step).conns[c], i) && 0 < i < |s.slots|
             && !(c in s.conns && Holds(s.conns[c], i))
    ensures var s, h := Run(Init(slots), steps), RecordedAll(Init(slots), steps, NOTHING);
            c in h.wanted && Offers(s, i, h.wanted[c])
  {
    InitSelectOk(slots);
    hide Inv, Run, RecordedAll, SelectOk, Offers, ApplyCreate, ApplyDestroy, Release, Claim, Claims, Deleting;
    RunSelectOk(Init(slots), steps, NOTHING);
    var s, h := Run(Init(slots), steps), RecordedAll(Init(slots), steps, NOTHING);
    assert Enabled(s, step);
    hide Enabled, Apply;
    if Moving(step) {
      MoverMovesItself(s, step);
      MoverHolds(s, step, h, i);
    } else {
      ThreadExpels(s, step);
    }
  }

  /** In every run a connection that is searching looks for what it selected last; and one that found
      nothing, and joins slot 0 instead, did come to every slot at a moment when that was not Ready
      under this name. */
  lemma FoundNothing(slots: nat, steps: seq<Step>, c: nat)
    requires slots > 0 && c in Run(Init(slots), steps).conns
    ensures var s, h := Run(Init(slots), steps), RecordedAll(Init(slots), steps, NOTHING);
            && (s.conns[c].Scanning? ==> c in h.wanted && s.conns[c].name == h.wanted[c])
            && (s.conns[c] == Joining(0) ==>
                  c in h.missed && forall j: nat :: 0 < j < |s.slots| ==> j in h.missed[c])
  {
    hide Inv, Run, RecordedAll, HeldOk;
    InitSelectOk(slots);
    RunSelectOk(Init(slots), steps, NOTHING);
    var s, h := Run(Init(slots), steps), RecordedAll(Init(slots), steps, NOTHING);
    assert SearchOk(|s.slots|, s.conns[c], c, h);
  }

  /** A search that comes to what it looks for takes it, and otherwise goes on. */
  lemma SearchGoesOn(s: State, c: nat)
    requires Enabled(s, Probe(c))
    ensures var i, name, p := s.conns[c].next, s.conns[c].name, Apply(s, Probe(c)).conns[c];
            if i == |s.slots| then p == Joining(0)
            else if Offers(s, i, name) then p == Joining(i) else p == Scanning(name, i + 1)
  {
    hide ApplyCreate, ApplyDestroy, Claim, Claims, Release, Deleting;
  }
}
