/**
 What a connection has done so far: every frame it took off the wire with the verdict it
 got, and every call to execute() in the order the calls were made. Commands are named by
 their arrival number.
 */
module CommandLog {
  import opened Mcbp

  datatype Verdict = Accepted(barrier: bool) | Rejected | Throttled

  datatype Arrival = Arrival(frame: seq<byte>, verdict: Verdict)

  /** One call of execute(): the command, and whether it completed or blocked. */
  datatype Run = Run(command: nat, done: bool)

  /** The command was executed to completion within the first `count` runs. */
  ghost predicate DoneBefore(runs: seq<Run>, command: nat, count: nat) {
    exists p :: 0 <= p < count && p < |runs| && runs[p] == Run(command, true)
  }

  datatype Log = Log(arrivals: seq<Arrival>, runs: seq<Run>, dropped: set<nat>) {

    predicate IsAccepted(command: nat) {
      command < |arrivals| && arrivals[command].verdict.Accepted?
    }

    predicate IsBarrier(command: nat) {
      IsAccepted(command) && arrivals[command].verdict.barrier
    }

    ghost predicate Finished(command: nat) {
      DoneBefore(runs, command, |runs|)
    }

    ghost predicate Started(command: nat) {
      exists p :: 0 <= p < |runs| && runs[p].command == command
    }

    /** Two commands may not overlap when either is a barrier. */
    predicate MustWait(earlier: nat, later: nat) {
      earlier < later && IsAccepted(earlier) && (IsBarrier(earlier) || IsBarrier(later))
    }

    /** The promise of unordered execution: nothing is executed, not even resumed, before
        every command it must wait for has completed. */
    ghost predicate BarrierOrder() {
      forall p, i: nat :: 0 <= p < |runs| && MustWait(i, runs[p].command) ==> DoneBefore(runs, i, p)
    }

    ghost predicate WellFormed() {
      && (forall p :: 0 <= p < |runs| ==> IsAccepted(runs[p].command))
      && (forall i :: i in dropped ==> IsAccepted(i) && !Started(i))
      // a command that completed is never executed again
      && (forall p, q :: 0 <= p < q < |runs| && runs[p].command == runs[q].command ==> !runs[p].done)
      && BarrierOrder()
    }

    function AddArrival(a: Arrival): Log {
      this.(arrivals := arrivals + [a])
    }

    function AddRun(r: Run): Log {
      this.(runs := runs + [r])
    }
  }

  const EMPTY_LOG := Log([], [], {})

  /** The bytes of a sequence of frames. */
  function Wire(arrivals: seq<Arrival>): seq<byte> {
    if arrivals == [] then []
    else Wire(arrivals[..|arrivals| - 1]) + arrivals[|arrivals| - 1].frame
  }

  lemma WireAppend(arrivals: seq<Arrival>, a: Arrival)
    ensures Wire(arrivals + [a]) == Wire(arrivals) + a.frame
  {
  }

  /** A new arrival is ordered after everything that ran, so it changes nothing. */
  lemma ArrivalKeepsOrder(log: Log, a: Arrival)
    requires log.WellFormed()
    ensures log.AddArrival(a).WellFormed()
  {
  }

  lemma RunKeepsOrder(log: Log, command: nat, done: bool)
    requires log.WellFormed() && log.IsAccepted(command)
    requires !log.Finished(command) && command !in log.dropped
    requires forall i: nat :: log.MustWait(i, command) ==> log.Finished(i)
    ensures log.AddRun(Run(command, done)).WellFormed()
  {
    var r := Run(command, done);
    var log' := log.AddRun(r);
    forall p, i: nat | 0 <= p < |log'.runs| && log'.MustWait(i, log'.runs[p].command)
      ensures DoneBefore(log'.runs, i, p)
    {
      assert log.MustWait(i, log'.runs[p].command);
      if p < |log.runs| {
        assert log'.runs[p] == log.runs[p];
        assert DoneBefore(log.runs, i, p);
        var q :| 0 <= q < p && log.runs[q] == Run(i, true);
        assert log'.runs[q] == Run(i, true);
      } else {
        assert log.Finished(i);
        var q :| 0 <= q < |log.runs| && log.runs[q] == Run(i, true);
        assert log'.runs[q] == Run(i, true);
      }
    }
    forall p, q | 0 <= p < q < |log'.runs| && log'.runs[p].command == log'.runs[q].command
      ensures !log'.runs[p].done
    {
      assert log'.runs[p] == log.runs[p];
      assert log.runs[p] == Run(command, true) ==> log.Finished(command);
    }
    forall i | i in log'.dropped ensures log'.IsAccepted(i) && !log'.Started(i) {
      assert log.IsAccepted(i) && !log.Started(i);
    }
  }

  /** A command that was started once has nothing left to wait for. */
  lemma StartedNeedNotWait(log: Log, command: nat)
    requires log.WellFormed() && log.Started(command)
    ensures forall i: nat :: log.MustWait(i, command) ==> log.Finished(i)
  {
  }

  /** The strict executor an ordered connection promises: it takes the accepted commands in
      arrival order, skips none, and executes one until it is done before the next. */
  ghost predicate StrictFifo(log: Log) {
    && (|log.runs| > 0 ==> forall i: nat :: i < log.runs[0].command ==> !log.IsAccepted(i))
    && forall p: nat :: p + 1 < |log.runs| ==> FifoStep(log, p)
  }

  ghost predicate FifoStep(log: Log, p: nat)
    requires p + 1 < |log.runs|
  {
    var now, next := log.runs[p], log.runs[p + 1];
    if now.done then
      && now.command < next.command
      && forall i: nat :: now.command < i < next.command ==> !log.IsAccepted(i)
    else next.command == now.command
  }

  lemma NoRunAfterDone(log: Log, q: nat, p: nat)
    requires log.WellFormed() && q <= p < |log.runs|
    ensures !DoneBefore(log.runs, log.runs[p].command, q)
  {
  }

  /** When every accepted command is a barrier the barrier order is exactly first in, first
      out: the pipeline refines the strict executor. */
  lemma {:induction false} BarriersOnlyIsFifo(log: Log)
    requires log.WellFormed()
    requires forall i: nat :: log.IsAccepted(i) ==> log.IsBarrier(i)
    ensures StrictFifo(log)
  {
    if |log.runs| > 0 {
      var first := log.runs[0].command;
      forall i: nat | i < first ensures !log.IsAccepted(i) {
        assert log.IsAccepted(i) ==> log.MustWait(i, first);
      }
    }
    forall p: nat | p + 1 < |log.runs| ensures FifoStep(log, p) {
      var now, next := log.runs[p], log.runs[p + 1];
      assert log.IsAccepted(now.command) && log.IsAccepted(next.command);
      NoRunAfterDone(log, p, p + 1);
      NoRunAfterDone(log, p, p);
      assert next.command < now.command ==> log.MustWait(next.command, now.command);
      assert now.command < next.command ==> log.MustWait(now.command, next.command);
      assert DoneBefore(log.runs, now.command, p + 1) ==> now.done;
      forall i: nat | now.command < i < next.command ensures !log.IsAccepted(i) {
        assert log.IsAccepted(i) ==> log.MustWait(i, next.command);
        forall q | 0 <= q <= p && log.runs[q] == Run(i, true)
          ensures DoneBefore(log.runs, now.command, q)
        {
          assert log.MustWait(now.command, log.runs[q].command);
        }
      }
    }
  }
}
