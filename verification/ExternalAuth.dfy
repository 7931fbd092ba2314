/**
 * The external authentication manager: the requests it forwards to a provider connection, the
 * answers it passes back, and what keeps a provider alive for as long as anything is queued
 * for it.
 *
 * The manager's mutex is held by its own thread except while it sleeps and while it calls a
 * task back. OtherThreads stands for everything the worker threads, executor threads and the
 * engine may do meanwhile: all of it when the mutex is free, and what does not need the
 * mutex when it is not.
 */
module ExternalAuth {
  import opened Wrappers
  import opened ExternalAuthState
  import opened ExternalAuthSteps

  /** Still registered, although it is being closed and will not unregister again. */
  predicate Stuck(conns: map<int, Conn>, connections: seq<int>, c: int) {
    c in conns && conns[c].state.PendingClose? && c in connections
  }

  /** Connection::close(), where `busy` is whether another cookie is referenced or blocked or
      there is data left to send. */
  function Closed(conn: Conn, busy: bool): Conn {
    conn.(busy := busy, state := if conn.refcount + conn.cookieRefs > 1 || busy then PendingClose else ImmediateClose)
  }

  class AuthManager {
    var requests: map<int, Request>
    var next: int
    var incoming: seq<Task>
    var responses: seq<Response>
    var connections: seq<int>
    var pending: seq<int>

    // the connections, their event queues and the engine's reservations of their front cookies
    var conns: map<int, Conn>
    var jobs: map<int, seq<Job>>
    var reserved: multiset<int>

    // history: where every task went, every call of externalResponse(), the ids handed out, the
    // turns of the manager's thread and in which of them a task was enqueued, the responses of
    // providers, and the ids of requests that had no provider or lost theirs
    var fate: map<Task, Fate>
    var calls: seq<Call>
    var issued: nat
    var turns: nat
    var enqueued: map<Task, nat>
    var heard: seq<Response>
    var lost: set<int>

    ghost predicate Valid(purging: seq<int>)
      reads this
    {
      && Accounted(fate, incoming, requests, calls)
      && Fresh(fate, issued, next)
      && Sourced(responses, calls, requests, heard, lost, issued)
      && Counted(conns, jobs, Held(connections, pending, purging), reserved)
      && HasProvider(requests, Held(connections, pending, purging))
      && OnItsWay(requests, conns, jobs)
      && WakesUp(conns)
    }

    /** Whoever is queued was enqueued in this turn. */
    predicate Recent()
      reads this
    {
      forall t :: t in incoming ==> t in enqueued && enqueued[t] == turns
    }

    /** What it amounts to for the tasks and the connections. */
    ghost predicate Promises()
      reads this
    {
      // every task is in one place, and was called back once at most
      && (forall t :: t in fate ==> OnePlace(fate, incoming, requests, calls, t))
      && CalledOnce(calls)
      // with an answer to its own request, which no other task shares until the ids wrap
      && (forall i :: 0 <= i < |calls| ==> calls[i].task in fate && fate[calls[i].task] == Called(calls[i].response.id))
      && (issued <= OPAQUES ==> Paired(calls, requests))
      // that a provider sent, unless the request had none, and then with a failure
      && CalledGenuinely(calls, heard, lost) && LostOnes(requests, lost, issued)
      // nothing refers to a connection that is gone, not even a queued job
      && (forall c :: c !in conns ==> c !in connections && c !in pending && c !in reserved && JobsOf(jobs, c) == [])
      && (forall k :: k in requests && requests[k].provider.Some? ==> requests[k].provider.value in conns)
      // and one that is being closed and that nothing refers to will notice
      && (forall c :: c in conns && conns[c].state.PendingClose? && !conns[c].busy ==>
            c in connections || c in pending || c in reserved || JobsOf(jobs, c) != [] || conns[c].triggered)
    }

    lemma ValidKeepsPromises()
      requires Valid([])
      ensures Promises()
    {
      hide OnePlace, Paired, Accounted, Fresh, HasProvider, OnItsWay, WakesUp, Counted, CalledGenuinely, AllGenuine;
      hide LostOnes;
      forall t | t in fate ensures OnePlace(fate, incoming, requests, calls, t) {
        ExactlyOnePlace(fate, incoming, requests, calls, t);
      }
      CallsAnswer(fate, incoming, requests, calls);
      if issued <= OPAQUES { ResponsesArePaired(fate, incoming, requests, calls, issued, next); }
      var held := Held(connections, pending, []);
      forall c | c !in conns ensures c !in connections && c !in pending && c !in reserved && JobsOf(jobs, c) == [] {
        GoneIsUnreferenced(conns, jobs, held, reserved, c);
      }
      ProvidersAreAlive(requests, conns, jobs, held, reserved);
      forall c | c in conns && conns[c].state.PendingClose? && !conns[c].busy
        ensures c in connections || c in pending || c in reserved || JobsOf(jobs, c) != [] || conns[c].triggered
      {
        if c !in held && c !in reserved && JobsOf(jobs, c) == [] {
          UnreferencedWillClose(conns, jobs, held, reserved, c);
        }
      }
    }

    constructor ()
      ensures Valid([]) && requests == map[] && incoming == [] && responses == [] && connections == []
      ensures conns == map[] && fate == map[] && turns == 0 && heard == []
    {
      requests, next, incoming, responses, connections, pending := map[], 0, [], [], [], [];
      conns, jobs, reserved := map[], map[], multiset{};
      fate, calls, issued, turns, enqueued, heard, lost := map[], [], 0, 0, map[], [], {};
    }

    // -------------------------------------------------------------- called by other threads

    method Add(c: int, ghost purging: seq<int>)
      requires Valid(purging) && c in conns && conns[c].state.Running?
      modifies this`connections, this`conns
      ensures Valid(purging)
      ensures connections == old(connections) + [c]
      ensures conns == old(conns)[c := old(conns[c]).(refcount := old(conns[c]).refcount + 1)]
    {
      hide Accounted, Fresh, Sourced, Counted;
      HeldAdd(connections, pending, purging, c);
      ghost var held := Held(connections, pending, purging);
      ConnCounted(conns, jobs, held, reserved, c, conns[c].(refcount := conns[c].refcount + 1), held + multiset{c},
                  reserved);
      conns := conns[c := conns[c].(refcount := conns[c].refcount + 1)];
      connections := connections + [c];
    }

    /** std::find */
    method FindConnection(c: int) returns (i: nat)
      ensures i <= |connections| && c !in connections[..i]
      ensures i < |connections| ==> connections[i] == c
    {
      i := 0;
      while i < |connections| && connections[i] != c
        invariant i <= |connections| && c !in connections[..i]
      {
        i := i + 1;
      }
    }

    /** Only the first registration is taken back. */
    method Remove(c: int, ghost purging: seq<int>)
      requires Valid(purging)
      modifies this`connections, this`pending
      ensures Valid(purging)
      ensures Held(connections, pending, purging) == old(Held(connections, pending, purging))
      ensures c !in old(connections) ==> connections == old(connections) && pending == old(pending)
      ensures c in old(connections) ==> pending == old(pending) + [c]
      ensures c in old(connections) ==> exists i ::
                && 0 <= i < |old(connections)| && old(connections)[i] == c && c !in old(connections)[..i]
                && connections == old(connections)[..i] + old(connections)[i + 1..]
      ensures forall d :: d in connections <==> multiset(old(connections))[d] > if d == c then 1 else 0
    {
      hide Accounted, Fresh, Sourced, Counted, HasProvider, OnItsWay, WakesUp;
      var i := FindConnection(c);
      if i < |connections| {
        HeldRemove(connections, pending, purging, i);
        MultisetErase(connections, i);
        pending := pending + [c];
        connections := connections[..i] + connections[i + 1..];
        assert old(connections)[i] == c;
      } else {
        assert connections[..i] == connections;
      }
    }

    method EnqueueRequest(t: Task, ghost purging: seq<int>)
      requires Valid(purging) && t !in fate
      modifies this`incoming, this`fate, this`enqueued
      ensures Valid(purging)
      ensures incoming == old(incoming) + [t] && fate == old(fate)[t := Waiting]
      ensures enqueued == old(enqueued)[t := turns]
    {
      EnqueueAccounted(fate, incoming, requests, calls, t);
      hide Accounted, Counted, HasProvider, OnItsWay, WakesUp, Sourced;
      incoming, fate, enqueued := incoming + [t], fate[t := Waiting], enqueued[t := turns];
    }

    /** A success whose payload is not JSON makes the parser throw and is not queued. */
    method ResponseReceived(response: Response, json: bool, ghost purging: seq<int>) returns (threw: bool)
      requires Valid(purging)
      modifies this`responses, this`heard
      ensures Valid(purging)
      ensures threw <==> response.status.Success? && !json
      ensures responses == if threw then old(responses) else old(responses) + [response]
      ensures heard == if threw then old(heard) else old(heard) + [response]
    {
      hide Accounted, Fresh, Sourced, Counted, HasProvider, OnItsWay, WakesUp;
      ResponseSourced(responses, calls, requests, heard, lost, issued, response);
      if response.status.Success? && !json {
        return true;
      }
      responses, heard := responses + [response], heard + [response];
      return false;
    }

    // -------------------------------------------------------------- connections

    method Connect(c: int, ghost purging: seq<int>)
      requires Valid(purging) && c !in conns
      modifies this`conns
      ensures Valid(purging)
      ensures conns == old(conns)[c := Conn(Running, 1, 0, false, false, [])]
    {
      ghost var held := Held(connections, pending, purging);
      ConnCounted(conns, jobs, held, reserved, c, Conn(Running, 1, 0, false, false, []), held, reserved);
      hide Accounted, Fresh, Sourced, Counted;
      conns := conns[c := Conn(Running, 1, 0, false, false, [])];
    }

    /** Connection::shutdown(), whatever state the connection is in. */
    method Shutdown(c: int, ghost purging: seq<int>)
      requires Valid(purging) && c in conns
      modifies this`conns
      ensures Valid(purging)
      ensures conns == old(conns)[c := old(conns[c]).(state := Closing)]
    {
      hide Accounted, Fresh, Sourced, Counted;
      ghost var held := Held(connections, pending, purging);
      ConnCounted(conns, jobs, held, reserved, c, conns[c].(state := Closing), held, reserved);
      conns := conns[c := conns[c].(state := Closing)];
    }

    /** What kept a close from finishing is over: a blocked command or the last write is done. */
    method Unblock(c: int, ghost purging: seq<int>)
      requires Valid(purging) && c in conns
      modifies this`conns
      ensures Valid(purging)
      ensures conns == old(conns)[c := old(conns[c]).(busy := false, triggered := true)]
    {
      hide Accounted, Fresh, Sourced, Counted;
      ghost var held := Held(connections, pending, purging);
      ConnCounted(conns, jobs, held, reserved, c, conns[c].(busy := false, triggered := true), held, reserved);
      conns := conns[c := conns[c].(busy := false, triggered := true)];
    }

    /** ServerCookieApi::reserve(): the engine keeps the front cookie. */
    method Reserve(c: int, ghost purging: seq<int>)
      requires Valid(purging) && c in conns
      modifies this`conns, this`reserved
      ensures Valid(purging)
      ensures conns == old(conns)[c := old(conns[c]).(cookieRefs := old(conns[c]).cookieRefs + 1)]
      ensures reserved == old(reserved) + multiset{c}
    {
      hide Accounted, Fresh, Sourced, Counted;
      ghost var held := Held(connections, pending, purging);
      ConnCounted(conns, jobs, held, reserved, c, conns[c].(cookieRefs := conns[c].cookieRefs + 1), held,
                  reserved + multiset{c});
      conns := conns[c := conns[c].(cookieRefs := conns[c].cookieRefs + 1)];
      reserved := reserved + multiset{c};
    }

    /** ServerCookieApi::release(): the count is dropped on the connection's own thread. */
    method Release(c: int, ghost purging: seq<int>)
      requires Valid(purging) && c in reserved
      modifies this`jobs, this`reserved
      ensures Valid(purging) && c in conns
      ensures jobs == Post(old(jobs), c, ReleaseCookie) && reserved == old(reserved) - multiset{c}
    {
      hide Accounted, Fresh, Sourced, Counted, HasProvider, WakesUp, OnItsWay;
      ReleaseCounted(conns, jobs, Held(connections, pending, purging), reserved, c);
      PostKeepsOnItsWay(requests, conns, jobs, c, ReleaseCookie);
      jobs := Post(jobs, c, ReleaseCookie);
      reserved := reserved - multiset{c};
    }

    /** The worker runs the job at the front of a connection's queue. The connection exists. */
    method RunJob(c: int, ghost purging: seq<int>)
      requires Valid(purging) && JobsOf(jobs, c) != []
      modifies this`jobs, this`conns
      ensures Valid(purging)
      ensures c in old(conns)
      ensures conns == old(conns)[c := Perform(old(conns)[c], old(JobsOf(jobs, c)[0]))]
      ensures jobs == old(jobs[c := JobsOf(jobs, c)[1..]])
    {
      hide Accounted, Fresh, Sourced, Counted, HasProvider, OnItsWay;
      RunCounted(conns, jobs, Held(connections, pending, purging), reserved, c);
      RunKeepsOnItsWay(requests, conns, jobs, c);
      var js := JobsOf(jobs, c);
      conns := conns[c := Perform(conns[c], js[0])];
      jobs := jobs[c := js[1..]];
    }

    /** The end of executeCommandsCallback() once the connection is off the providers' list. */
    method Finish(c: int, busy: bool, ghost purging: seq<int>) returns (destroyed: bool)
      requires Valid(purging) && c in conns
      modifies this`conns
      ensures Valid(purging)
      ensures destroyed <==>
                !old(conns[c]).state.Running? && old(conns[c]).refcount + old(conns[c]).cookieRefs <= 1 && !busy
      ensures destroyed ==> conns == old(conns) - {c}
      ensures destroyed ==> c !in Held(connections, pending, purging) && c !in reserved && JobsOf(jobs, c) == []
      ensures !destroyed ==> c in conns && conns == old(conns)[c := conns[c]] && !conns[c].triggered
      ensures !destroyed ==> conns[c].state == if old(conns[c]).state.Running? then Running else PendingClose
    {
      hide Accounted, Fresh, Sourced, Counted, HasProvider, OnItsWay;
      ghost var held := Held(connections, pending, purging);
      var conn := conns[c].(triggered := false);
      if conn.state.Closing? {
        conn := Closed(conn, busy);
      }
      if conn.state.PendingClose? {
        conn := Closed(conn, busy);
      }
      destroyed := conn.state.ImmediateClose?;
      if destroyed {
        DestroyCounted(conns, jobs, held, reserved, c);
        GoneOnItsWay(requests, conns, jobs, held, c);
        conns := conns - {c};
      } else {
        ConnCounted(conns, jobs, held, reserved, c, conn, held, reserved);
        ConnOnItsWay(requests, conns, jobs, c, conn);
        conns := conns[c := conn];
      }
    }

    /** The end of executeCommandsCallback(). All close() looks at belongs to the connection's
        own thread, so what others do in between makes no difference. The connection is
        destroyed exactly when nothing refers to it, and then nothing does: it is on none of
        the manager's lists, no request is waiting for it and no job is queued for it. */
    method Callback(c: int, busy: bool, ghost purging: seq<int>) returns (destroyed: bool)
      requires Valid(purging) && c in conns
      modifies this`connections, this`pending, this`conns
      ensures Valid(purging)
      ensures Held(connections, pending, purging) == old(Held(connections, pending, purging))
      ensures destroyed <==>
                !old(conns[c]).state.Running? && old(conns[c]).refcount + old(conns[c]).cookieRefs <= 1 && !busy
      ensures destroyed ==> conns == old(conns) - {c}
      ensures destroyed ==> c !in Held(connections, pending, purging) && c !in reserved && JobsOf(jobs, c) == []
      ensures destroyed ==> forall k :: k in requests ==> requests[k].provider != Some(c)
      ensures !destroyed ==> c in conns && conns == old(conns)[c := conns[c]] && !conns[c].triggered
      ensures !destroyed ==> conns[c].state == if old(conns[c]).state.Running? then Running else PendingClose
      ensures !old(conns[c]).state.Closing? ==> connections == old(connections) && pending == old(pending)
      ensures old(pending) <= pending
      ensures old(conns[c]).state.Closing? ==> (c in connections <==> multiset(old(connections))[c] > 1)
      ensures forall d :: d != c ==> (d in connections <==> d in old(connections))
    {
      hide Accounted, Fresh, Sourced, Counted, OnItsWay, WakesUp, Held;
      if conns[c].state.Closing? {
        Remove(c, purging);
      }
      destroyed := Finish(c, busy, purging);
    }

    /** One step of a worker thread on its own connections; none of them needs the mutex. */
    method WorkerStep(calm: set<int>, ghost purging: seq<int>)
      requires Valid(purging)
      modifies this`conns, this`jobs, this`reserved
      ensures Valid(purging)
      ensures forall c :: c in calm && old(Stuck(conns, connections, c)) ==> Stuck(conns, connections, c)
      ensures NoUsersQueued(old(jobs), jobs)
    {
      hide Accounted, Fresh, Sourced, Counted, HasProvider, OnItsWay, WakesUp;
      var which: int, c: int, busy: bool := *, *, *;
      if which == 0 && c !in conns {
        Connect(c, purging);
      } else if which == 1 && c in conns && c !in calm {
        Shutdown(c, purging);
      } else if which == 2 && c in conns {
        Unblock(c, purging);
      } else if which == 3 && c in conns {
        Reserve(c, purging);
      } else if which == 4 && c in reserved {
        Release(c, purging);
      } else if which == 5 && JobsOf(jobs, c) != [] {
        RunJob(c, purging);
      } else if which == 6 && c in conns && !conns[c].state.Closing? {
        RegisteredIsReferenced(purging, c);
        var destroyed := Finish(c, busy, purging);
      }
    }

    /** A registered connection has a reference, so close() does not finish. */
    lemma RegisteredIsReferenced(purging: seq<int>, c: int)
      requires Valid(purging) && c in conns
      ensures c in connections ==> conns[c].refcount + conns[c].cookieRefs > 1
    {
    }

    /** One step of another thread under the manager's mutex. */
    method MutexStep(ghost purging: seq<int>)
      requires Valid(purging)
      modifies this`conns, this`connections, this`pending, this`incoming, this`fate, this`enqueued, this`responses,
               this`heard
      ensures Valid(purging) && Received(old(responses), old(heard), responses, heard)
      ensures old(Recent()) ==> Recent()
      ensures old(incoming) <= incoming && (forall c :: c in old(pending) ==> c in pending)
      ensures forall t :: t in old(fate) ==> t in fate && fate[t] == old(fate)[t]
      ensures forall c :: old(Stuck(conns, connections, c)) ==> Stuck(conns, connections, c)
    {
      hide Valid;
      var which: int, c: int, busy: bool := *, *, *;
      if which == 0 && c in conns && conns[c].state.Running? {
        Add(c, purging);
      } else if which == 1 && c in conns && conns[c].state.Closing? {
        var destroyed := Callback(c, busy, purging);
      } else if which == 2 {
        var id: int, status: Status, payload: string := *, *, *;
        var threw := ResponseReceived(Response(id, status, payload), busy, purging);
      } else if which == 3 {
        var kind: Kind := *;
        if Task(c, kind) !in fate {
          EnqueueRequest(Task(c, kind), purging);
        }
      }
    }

    /** Any number of steps of other threads; with the mutex `locked`, of those without it. */
    method OtherThreads(locked: bool, calm: set<int>, ghost purging: seq<int>)
      requires Valid(purging)
      modifies this`conns, this`jobs, this`reserved, this`connections, this`pending, this`incoming, this`fate,
               this`enqueued, this`responses, this`heard
      ensures Valid(purging) && Received(old(responses), old(heard), responses, heard)
      ensures old(Recent()) ==> Recent()
      ensures locked ==> connections == old(connections) && pending == old(pending) && incoming == old(incoming)
      ensures locked ==> fate == old(fate) && responses == old(responses) && heard == old(heard)
      ensures old(incoming) <= incoming && (forall c :: c in old(pending) ==> c in pending)
      ensures NoUsersQueued(old(jobs), jobs)
      ensures forall t :: t in old(fate) ==> t in fate && fate[t] == old(fate)[t]
      ensures forall c :: c in calm && old(Stuck(conns, connections, c)) ==> Stuck(conns, connections, c)
    {
      hide Valid, Stuck;
      var n: int := *;
      while n > 0
        invariant Valid(purging) && Received(old(responses), old(heard), responses, heard)
        invariant old(Recent()) ==> Recent()
        invariant locked ==> connections == old(connections) && pending == old(pending) && incoming == old(incoming)
        invariant locked ==> fate == old(fate) && responses == old(responses) && heard == old(heard)
        invariant old(incoming) <= incoming && (forall c :: c in old(pending) ==> c in pending)
        invariant NoUsersQueued(old(jobs), jobs)
        invariant forall t :: t in old(fate) ==> t in fate && fate[t] == old(fate)[t]
        invariant forall c :: c in calm && old(Stuck(conns, connections, c)) ==> Stuck(conns, connections, c)
      {
        var own: bool := *;
        if own || locked {
          WorkerStep(calm, purging);
        } else {
          ghost var before, heardBefore := responses, heard;
          MutexStep(purging);
          ReceivedOn(old(responses), old(heard), before, heardBefore, responses, heard);
        }
        n := n - 1;
      }
    }

    // -------------------------------------------------------------- the manager's thread

    /** Gives up on the requests that are with one connection. */
    method Abandon(c: int)
      requires Answered(requests, responses)
      modifies this`requests, this`responses, this`lost
      ensures requests == Orphaned(old(requests), [c]) && lost == old(lost) + With(old(requests), c)
      ensures Answered(requests, responses) && old(responses) <= responses
      ensures MadeUp(responses, |old(responses)|, With(old(requests), c))
    {
      hide Answered;
      var abandoned := With(requests, c);
      var keys := requests.Keys;
      while |keys| > 0
        invariant keys <= requests.Keys == old(requests).Keys
        invariant forall k :: k in requests ==>
                    requests[k] == if k in keys || old(requests)[k].provider != Some(c) then old(requests)[k]
                                   else old(requests)[k].(provider := None)
        invariant Answered(requests, responses) && old(responses) <= responses
        invariant MadeUp(responses, |old(responses)|, abandoned) && lost == old(lost)
        decreases |keys|
      {
        SomeKey(keys);
        var k :| k in keys;
        if requests[k].provider == Some(c) {
          AnsweredDown(requests, responses, k, requests[k].(provider := None));
          responses := responses + [Down(k)];
          requests := requests[k := requests[k].(provider := None)];
        }
        keys := keys - {k};
      }
      lost := lost + abandoned;
      ghost var orphaned := Orphaned(old(requests), [c]);
      assert forall k :: k in requests <==> k in orphaned;
      assert forall k :: k in requests ==> requests[k] == orphaned[k];
    }

    /** Whatever failures are queued for the requests of a connection that is given up. */
    lemma GivenUpSourced(c: int)
      requires Sourced(responses, calls, requests, heard, lost, issued)
      ensures forall responses' | responses <= responses' && MadeUp(responses', |responses|, With(requests, c)) ::
                Sourced(responses', calls, Orphaned(requests, [c]), heard, lost + With(requests, c), issued)
    {
      OrphanedLost(requests, lost, issued, c);
      hide LostOnes;
      forall responses' | responses <= responses' && MadeUp(responses', |responses|, With(requests, c))
        ensures Sourced(responses', calls, Orphaned(requests, [c]), heard, lost + With(requests, c), issued)
      {
        DownSourced(responses, calls, heard, lost, responses', lost + With(requests, c));
      }
    }

    /** The first connection on the list is given up, and the job that drops the reference is
        queued behind everything that was queued for it. */
    method GiveUp(c: int, ghost purging: seq<int>)
      requires pending == [] && purging != [] && c == purging[0]
      requires Valid(purging) && Answered(requests, responses)
      modifies this`requests, this`responses, this`jobs, this`lost
      ensures Valid(purging[1..]) && Answered(requests, responses) && old(responses) <= responses
      ensures requests == Orphaned(old(requests), [c])
      ensures jobs == Post(old(jobs), c, Decrement)
    {
      hide Accounted, Fresh, Sourced, Counted, WakesUp, Answered, Held;
      ghost var held := Held(connections, pending, purging);
      HeldPurge(connections, purging);
      OrphanedAccounted(fate, incoming, requests, calls, [c]);
      PurgeCounted(conns, jobs, held, reserved, c);
      GivenUpSourced(c);
      Abandon(c);
      PostKeepsOnItsWay(requests, conns, jobs, c, Decrement);
      jobs := Post(jobs, c, Decrement);
    }

    /** std::move(pendingRemoveConnection) */
    method TakePending() returns (dead: seq<int>)
      requires Valid([])
      modifies this`pending
      ensures Valid(dead) && dead == old(pending) && pending == []
    {
      hide Accounted, Fresh, Sourced, Counted, HasProvider, OnItsWay, WakesUp;
      dead := pending;
      HeldTakeOver(connections, pending);
      pending := [];
    }

    method PurgePendingDeadConnections(calm: set<int>)
      requires Valid([]) && Answered(requests, responses)
      modifies this`requests, this`responses, this`pending, this`conns, this`jobs, this`reserved,
               this`connections, this`incoming, this`fate, this`enqueued, this`heard, this`lost
      ensures Valid([]) && Answered(requests, responses) && old(responses) <= responses
      ensures requests == Orphaned(old(requests), old(pending)) && pending == []
      ensures connections == old(connections) && incoming == old(incoming) && fate == old(fate)
      ensures heard == old(heard) && NoUsersQueued(old(jobs), jobs)
      ensures forall c :: c in calm && old(Stuck(conns, connections, c)) ==> Stuck(conns, connections, c)
    {
      hide Valid, Answered, Stuck, Orphaned, Received;
      var dead := TakePending();
      assert dead[0..] == dead && Orphaned(requests, dead[..0]) == requests by { NoneOrphaned(requests, dead); }
      for i := 0 to |dead|
        invariant Valid(dead[i..]) && Answered(requests, responses) && old(responses) <= responses
        invariant requests == Orphaned(old(requests), dead[..i]) && pending == []
        invariant connections == old(connections) && incoming == old(incoming) && fate == old(fate)
        invariant heard == old(heard) && NoUsersQueued(old(jobs), jobs)
        invariant forall c :: c in calm && old(Stuck(conns, connections, c)) ==> Stuck(conns, connections, c)
      {
        OrphanedNext(old(requests), dead, i);
        assert dead[i..][1..] == dead[i + 1..];
        GiveUp(dead[i], dead[i..]);
        OtherThreads(true, calm, dead[i + 1..]);
      }
      assert dead[..|dead|] == dead && dead[|dead|..] == [];
    }

    lemma IssueSourced(request: Request)
      requires Sourced(responses, calls, requests, heard, lost, issued) && Fresh(fate, issued, next)
      ensures Sourced(responses, calls, requests[next := request], heard,
                      if request.provider.None? then lost + {next} else lost, issued + 1)
    {
      IssueLost(fate, requests, lost, issued, next, request);
      hide LostOnes, Fresh;
      DownSourced(responses, calls, heard, lost, responses, lost + {next});
    }

    lemma IssueKeepsAll(provider: Option<int>)
      requires Valid([]) && incoming != []
      requires provider.Some? ==> provider.value in connections && Send(next) in JobsOf(jobs, provider.value)
      ensures var t, requests' := incoming[0], requests[next := Request(provider, incoming[0])];
              && Accounted(Issue(fate, requests, t, next), incoming[1..], requests', calls)
              && Fresh(Issue(fate, requests, t, next), issued + 1, if next + 1 == OPAQUES then 0 else next + 1)
              && OnItsWay(requests', conns, jobs) && HasProvider(requests', Held(connections, pending, []))
              && Sourced(responses, calls, requests', heard, if provider.None? then lost + {next} else lost, issued + 1)
    {
      hide Accounted, Fresh, Sourced, Counted, WakesUp, OnItsWay, HasProvider, Issue, Held, JobsOf;
      var request := Request(provider, incoming[0]);
      if provider.Some? { RegisteredIsHeld(connections, pending, [], provider.value); }
      IssueAccounted(fate, incoming, requests, calls, next, provider);
      IssueFresh(fate, incoming, requests, calls, issued, next);
      IssueOnItsWay(requests, conns, jobs, next, request);
      IssueHasProvider(requests, Held(connections, pending, []), next, request);
      IssueSourced(request);
    }

    /** requestMap[next++] = (provider, task), and the task leaves the queue. */
    method IssueNext(provider: Option<int>)
      requires Valid([]) && incoming != []
      requires provider.Some? ==> provider.value in connections && Send(next) in JobsOf(jobs, provider.value)
      modifies this`requests, this`next, this`incoming, this`fate, this`issued, this`lost
      ensures Valid([]) && lost == if provider.None? then old(lost) + {old(next)} else old(lost)
      ensures incoming == old(incoming)[1..] && issued == old(issued) + 1
      ensures requests == old(requests)[old(next) := Request(provider, old(incoming)[0])]
      ensures fate == Issue(old(fate), old(requests), old(incoming)[0], old(next))
      ensures provider.None? || !old(incoming)[0].kind.Unknown? ==> Settled(fate, requests, provider, old(incoming)[0])
      ensures provider.None? || !old(incoming)[0].kind.Unknown? ==>
                forall u :: old(Settled(fate, requests, provider, u)) ==> Settled(fate, requests, provider, u)
    {
      hide Accounted, Fresh, Sourced, Counted, WakesUp, OnItsWay, HasProvider, Issue, Settled, Held, JobsOf;
      var t := incoming[0];
      if provider.None? || !t.kind.Unknown? { IssueSettled(fate, incoming, requests, calls, next, provider); }
      IssueKeepsAll(provider);
      fate := Issue(fate, requests, t, next);
      requests := requests[next := Request(provider, t)];
      if provider.None? {
        lost := lost + {next};
      }
      issued, next := issued + 1, if next + 1 == OPAQUES then 0 else next + 1;
      incoming := incoming[1..];
    }

    lemma DownIsSourced(id: int)
      requires Sourced(responses, calls, requests, heard, lost, issued) && id in lost
      ensures Sourced(responses + [Down(id)], calls, requests, heard, lost, issued)
    {
      hide LostOnes;
      DownSourced(responses, calls, heard, lost, responses + [Down(id)], lost);
    }

    /** There is no provider: every request is answered with a failure. */
    method CancelRequests()
      requires Valid([]) && Answered(requests, responses)
      modifies this`requests, this`next, this`incoming, this`fate, this`issued, this`responses, this`lost
      ensures Valid([]) && Answered(requests, responses) && incoming == [] && old(responses) <= responses
      ensures issued == old(issued) + |old(incoming)| && fate.Keys == old(fate.Keys)
      ensures forall t :: t in old(incoming) ==> Settled(fate, requests, None, t)
    {
      hide Accounted, Fresh, Sourced, Counted, WakesUp, OnItsWay, HasProvider, Answered, Held, Settled, Issue;
      ghost var i := 0;
      while incoming != []
        invariant i <= |old(incoming)| && incoming == old(incoming)[i..] && issued == old(issued) + i
        invariant Valid([]) && Answered(requests, responses) && old(responses) <= responses
        invariant forall j :: 0 <= j < i ==> Settled(fate, requests, None, old(incoming)[j])
        invariant fate.Keys == old(fate.Keys)
      {
        AnsweredDown(requests, responses, next, Request(None, incoming[0]));
        IssueKeepsTasks(fate, incoming, requests, calls, next);
        var id := next;
        IssueNext(None);
        DownIsSourced(id);
        responses := responses + [Down(id)];
        i := i + 1;
      }
    }

    /** Hands a task of a known kind to `provider`, whose packet goes out on its own thread. */
    method Forward(provider: int)
      requires Valid([]) && Answered(requests, responses) && incoming != [] && provider in connections
      modifies this`requests, this`next, this`incoming, this`fate, this`issued, this`jobs, this`lost
      ensures Valid([]) && Answered(requests, responses) && incoming == old(incoming)[1..]
      ensures issued == old(issued) + if old(incoming)[0].kind.Unknown? then 0 else 1
      ensures fate.Keys == old(fate.Keys)
      ensures jobs == if old(incoming)[0].kind.Unknown? then old(jobs) else Post(old(jobs), provider, Send(old(next)))
      ensures Settled(fate, requests, Some(provider), old(incoming)[0])
      ensures forall u :: old(Settled(fate, requests, Some(provider), u)) ==> Settled(fate, requests, Some(provider), u)
    {
      hide Accounted, Fresh, Sourced, Counted, WakesUp, OnItsWay, HasProvider, Settled, Issue;
      if incoming[0].kind.Unknown? {
        DropAccounted(fate, incoming, requests, calls);
        DropFresh(fate, issued, next, incoming[0]);
        DropSettled(fate, incoming, requests, calls, Some(provider));
        TasksAreKnown(fate, incoming, requests, calls);
        fate, incoming := fate[incoming[0] := Dropped], incoming[1..];
      } else {
        SendCounted(conns, jobs, Held(connections, pending, []), reserved, provider, Send(next));
        PostKeepsOnItsWay(requests, conns, jobs, provider, Send(next));
        IssueKeepsTasks(fate, incoming, requests, calls, next);
        jobs := Post(jobs, provider, Send(next));
        IssueNext(Some(provider));
      }
    }

    method ProcessRequestQueue(calm: set<int>)
      requires Valid([]) && Answered(requests, responses)
      modifies this`requests, this`next, this`incoming, this`fate, this`issued, this`responses,
               this`jobs, this`conns, this`reserved, this`connections, this`pending, this`enqueued,
               this`heard, this`lost
      ensures Valid([]) && Answered(requests, responses) && incoming == [] && old(responses) <= responses
      ensures connections == old(connections) && pending == old(pending)
      ensures heard == old(heard) && NoUsersQueued(old(jobs), jobs) && fate.Keys == old(fate.Keys)
      ensures var provider := if connections == [] then None else Some(connections[0]);
              forall t :: t in old(incoming) ==> Settled(fate, requests, provider, t)
      ensures forall c :: c in calm && old(Stuck(conns, connections, c)) ==> Stuck(conns, connections, c)
    {
      hide Accounted, Fresh, Sourced, Counted, WakesUp, OnItsWay, HasProvider, Answered, Held, Settled;
      if connections == [] {
        CancelRequests();
        return;
      }
      var provider := connections[0];
      ghost var i := 0;
      while incoming != []
        invariant i <= |old(incoming)| && incoming == old(incoming)[i..]
        invariant Valid([]) && Answered(requests, responses) && responses == old(responses)
        invariant connections == old(connections) && pending == old(pending)
        invariant heard == old(heard) && NoUsersQueued(old(jobs), jobs) && fate.Keys == old(fate.Keys)
        invariant forall j :: 0 <= j < i ==> Settled(fate, requests, Some(provider), old(incoming)[j])
        invariant forall c :: c in calm && old(Stuck(conns, connections, c)) ==> Stuck(conns, connections, c)
        decreases |incoming|
      {
        Forward(provider);
        OtherThreads(true, calm, []);
        i := i + 1;
      }
    }

    lemma RequestsAreKnown()
      requires Valid([])
      ensures forall k :: k in requests ==> requests[k].task in fate
    {
    }

    lemma NoneIsSourced()
      requires Sourced(responses, calls, requests, heard, lost, issued)
      ensures AllGenuine(responses, heard, lost) && Sourced([], calls, requests, heard, lost, issued)
    {
    }

    /** std::move(incommingResponse) */
    method TakeResponses() returns (entries: seq<Response>)
      requires Valid([])
      modifies this`responses
      ensures Valid([]) && entries == old(responses) && responses == [] && AllGenuine(entries, heard, lost)
    {
      hide Accounted, Fresh, Sourced, Counted, HasProvider, OnItsWay, WakesUp;
      NoneIsSourced();
      entries := responses;
      responses := [];
    }

    /** Everyone who was to be answered is called back, once, while the mutex is free. */
    method ProcessResponseQueue(calm: set<int>)
      requires Valid([]) && Answered(requests, responses)
      modifies this
      ensures Valid([]) && turns == old(turns)
      ensures old(Recent()) ==> Recent()
      ensures requests == old(requests) - Ids(old(responses))
      ensures forall k :: k in requests ==> requests[k].provider.Some?
      ensures forall k :: k in old(requests) && k !in requests ==>
                var t := old(requests)[k].task; t in fate && fate[t] == Called(k)
      ensures forall c :: c in calm && old(Stuck(conns, connections, c)) ==> Stuck(conns, connections, c)
      // in the order of the queue, each with the first response to it
      ensures calls == old(calls) + Deliveries(old(requests), old(responses))
      // and only what came in meanwhile is queued
      ensures Received([], old(heard), responses, heard)
      ensures NoUsersQueued(old(jobs), jobs)
    {
      hide Valid, Stuck, Ids, Answered, AllGenuine, Deliveries, Received, NoUsersQueued;
      var entries := TakeResponses();
      NothingReceived(heard, jobs);
      NoDeliveries(requests, entries);
      assert Ids(entries[..0]) == {} by { NoIds(entries); }
      for i := 0 to |entries|
        invariant Valid([]) && turns == old(turns)
        invariant old(Recent()) ==> Recent()
        invariant requests == old(requests) - Ids(entries[..i])
        invariant forall k :: k in old(requests) && k !in requests ==>
                    var t := old(requests)[k].task; t in fate && fate[t] == Called(k)
        invariant forall c :: c in calm && old(Stuck(conns, connections, c)) ==> Stuck(conns, connections, c)
        invariant calls == old(calls) + Deliveries(old(requests), entries[..i]) && AllGenuine(entries, heard, lost)
        invariant Received([], old(heard), responses, heard) && NoUsersQueued(old(jobs), jobs)
      {
        IdsNext(entries, i);
        DeliveriesNext(old(requests), entries, i);
        GenuineAt(entries, heard, lost, i);
        ghost var queue, before, queued := responses, heard, jobs;
        Answer(entries[i], calm);
        MeanwhileReceived(old(heard), queue, before, responses, heard, old(jobs), queued, jobs);
        HeardStaysGenuine(entries, before, lost, heard, lost);
      }
      assert entries[..|entries|] == entries;
      AllAnswered(old(requests), entries);
    }

    /** One response: whoever waits for it is called, and then the mutex is free for a while. */
    method Answer(r: Response, calm: set<int>)
      requires Valid([]) && Genuine(r, heard, lost)
      modifies this
      ensures Valid([]) && turns == old(turns) && lost == old(lost)
      ensures old(Recent()) ==> Recent()
      ensures requests == old(requests) - {r.id}
      ensures calls == old(calls) + if r.id in old(requests) then [Call(old(requests)[r.id].task, r)] else []
      ensures r.id in old(requests) ==> var t := old(requests)[r.id].task; t in fate && fate[t] == Called(r.id)
      ensures forall t :: t in old(fate) && old(fate)[t].Called? ==> t in fate && fate[t] == old(fate)[t]
      ensures forall c :: c in calm && old(Stuck(conns, connections, c)) ==> Stuck(conns, connections, c)
      ensures Received(old(responses), old(heard), responses, heard) && NoUsersQueued(old(jobs), jobs)
    {
      hide Valid, Stuck, Genuine;
      if r.id in requests {
        CallBack(r);
        OtherThreads(false, calm, []);
      } else {
        assert requests == requests - {r.id};
      }
    }

    /** The request is forgotten before its task is called. */
    method CallBack(r: Response)
      requires Valid([]) && r.id in requests && Genuine(r, heard, lost)
      modifies this`requests, this`calls, this`fate
      ensures Valid([])
      ensures requests == old(requests) - {r.id}
      ensures calls == old(calls) + [Call(old(requests)[r.id].task, r)]
      ensures var t := old(requests)[r.id].task;
              t in old(fate) && old(fate)[t] == Issued(r.id) && fate == old(fate)[t := Called(r.id)]
    {
      hide Counted, WakesUp, LostOnes, AllGenuine, CalledGenuinely;
      CallAccounted(fate, incoming, requests, calls, r);
      ForgetLost(requests, lost, issued, r.id);
      CallSourced(calls, heard, lost, Call(requests[r.id].task, r));
      hide Accounted, Fresh;
      var t := requests[r.id].task;
      requests := requests - {r.id};
      calls, fate := calls + [Call(t, r)], fate[t := Called(r.id)];
    }

    method PushActiveUsers()
      requires Valid([])
      modifies this`jobs
      ensures Valid([])
      ensures jobs == if connections == [] then old(jobs) else Post(old(jobs), connections[0], SendUsers)
    {
      hide Accounted, Fresh, Sourced, Counted, WakesUp, OnItsWay, HasProvider;
      if connections == [] {
        return;
      }
      SendCounted(conns, jobs, Held(connections, pending, []), reserved, connections[0], SendUsers);
      PostKeepsOnItsWay(requests, conns, jobs, connections[0], SendUsers);
      jobs := Post(jobs, connections[0], SendUsers);
    }

    /** One turn of run(). Whoever was queued before it is not any more, and at the end no request
        is without a provider: those that lost theirs, or found none, were answered. */
    method Iterate(push: bool, calm: set<int>)
      requires Valid([]) && Answered(requests, responses)
      modifies this
      ensures Valid([])
      ensures turns == old(turns) + 1 && Recent()
      // whoever had an answer queued before it was called
      ensures forall r :: r in old(responses) ==> r.id !in requests
      // and so was whoever was with a provider that was to be removed
      ensures forall k :: k in old(requests) && ToBeRemoved(old(requests)[k].provider, old(pending)) ==> k !in requests
      // a turn that has something to do does not wait for more
      ensures old(incoming) != [] || old(responses) != [] ==>
                forall i :: |old(calls)| <= i < |calls| ==> calls[i].task in old(fate)
      // what is queued at the end came from providers during the turn
      ensures Latest(responses, heard, |old(heard)|)
      ensures push && connections != [] ==>
                var js := JobsOf(jobs, connections[0]); js != [] && js[|js| - 1] == SendUsers
      ensures !push || connections == [] ==> NoUsersQueued(old(jobs), jobs)
      ensures forall k :: k in requests ==> requests[k].provider.Some?
      ensures Answered(requests, responses)
      ensures old(calls) <= calls
      ensures forall c :: c in calm && old(Stuck(conns, connections, c)) ==> Stuck(conns, connections, c)
    {
      hide Valid, Stuck, Answered, ToBeRemoved;
      NextTurn();
      if incoming == [] && responses == [] {
        Sleep(calm);
      }
      MoreToBeRemoved(old(pending), pending);
      Work(calm);
      if push {
        PushActiveUsers();
      }
    }

    /** What a turn does while it has the mutex. */
    method Work(calm: set<int>)
      requires Valid([]) && Answered(requests, responses)
      modifies this
      ensures Valid([]) && turns == old(turns) && Recent()
      ensures forall r :: r in old(responses) ==> r.id !in requests
      ensures forall k :: k in old(requests) && ToBeRemoved(old(requests)[k].provider, old(pending)) ==> k !in requests
      ensures old(calls) <= calls && forall i :: |old(calls)| <= i < |calls| ==> calls[i].task in old(fate)
      ensures old(heard) <= heard && Latest(responses, heard, |old(heard)|) && NoUsersQueued(old(jobs), jobs)
      ensures forall k :: k in requests ==> requests[k].provider.Some?
      ensures Answered(requests, responses)
      ensures forall c :: c in calm && old(Stuck(conns, connections, c)) ==> Stuck(conns, connections, c)
    {
      hide Valid, Settled, Stuck, Deliveries, Ids, Orphaned, Answered, Latest;
      PurgePendingDeadConnections(calm);
      RemovedAreAnswered(old(requests), old(pending), responses);
      ghost var answered := responses;
      if incoming != [] {
        ProcessRequestQueue(calm);
      }
      IdsGrow(old(responses), responses);
      IdsGrow(answered, responses);
      RequestsAreKnown();
      DeliveriesAreKnown(requests, responses, old(fate.Keys));
      if responses != [] {
        ProcessResponseQueue(calm);
        ReceivedIsLatest(responses, old(heard), heard, |old(heard)|);
        ProvidedIsAnswered(requests, responses);
      } else {
        NothingIsLatest(heard, |old(heard)|, requests);
      }
    }

    /** The wait for something to do, during which the mutex is free. */
    method Sleep(calm: set<int>)
      requires Valid([]) && Answered(requests, responses)
      modifies this`conns, this`jobs, this`reserved, this`connections, this`pending, this`incoming, this`fate,
               this`enqueued, this`responses, this`heard
      ensures Valid([]) && Answered(requests, responses)
      ensures old(Recent()) ==> Recent()
      ensures old(responses) <= responses && old(heard) <= heard && NoUsersQueued(old(jobs), jobs)
      ensures forall c :: c in old(pending) ==> c in pending
      ensures forall c :: c in calm && old(Stuck(conns, connections, c)) ==> Stuck(conns, connections, c)
    {
      hide Valid, Stuck, Answered, NoUsersQueued;
      OtherThreads(false, calm, []);
      AnsweredAppend(requests, old(responses), heard[|old(heard)|..]);
    }

    method NextTurn()
      requires Valid([])
      modifies this`turns
      ensures Valid([]) && turns == old(turns) + 1
    {
      turns := turns + 1;
    }

    /** Any number of turns. A connection of `calm`, which nobody shuts down meanwhile, that is
        being closed while it is still registered stays so: it is never destroyed. */
    method Turns(n: nat, calm: set<int>)
      requires Valid([]) && Answered(requests, responses)
      modifies this
      ensures Valid([]) && Answered(requests, responses)
      ensures turns == old(turns) + n && (n > 0 || old(Recent()) ==> Recent())
      ensures n > 0 || old(Latest(responses, heard, 0)) ==> Latest(responses, heard, 0)
      ensures if n == 0 then requests == old(requests) else forall k :: k in requests ==> requests[k].provider.Some?
      ensures old(calls) <= calls
      ensures forall c :: c in calm && old(Stuck(conns, connections, c)) ==> Stuck(conns, connections, c)
    {
      hide Valid, Stuck, Answered, Recent;
      for i := 0 to n
        invariant Valid([]) && Answered(requests, responses)
        invariant turns == old(turns) + i && (i > 0 || old(Recent()) ==> Recent())
        invariant i > 0 || old(Latest(responses, heard, 0)) ==> Latest(responses, heard, 0)
        invariant if i == 0 then requests == old(requests) else forall k :: k in requests ==> requests[k].provider.Some?
        invariant old(calls) <= calls
        invariant forall c :: c in calm && old(Stuck(conns, connections, c)) ==> Stuck(conns, connections, c)
      {
        var push: bool := *;
        Iterate(push, calm);
      }
    }
  }

  /** Every run of the manager, its providers, its clients and the engine: after each turn no
      request is without a provider, and whoever is still queued came in during that turn. */
  method Run(turns: nat) returns (m: AuthManager)
    ensures m.Valid([]) && m.Promises()
    ensures forall k :: k in m.requests ==> m.requests[k].provider.Some?
    ensures forall t :: t in m.incoming ==> t in m.enqueued && m.enqueued[t] == turns
    ensures Latest(m.responses, m.heard, 0)
  {
    m := new AuthManager();
    hide AuthManager.Valid, AuthManager.Promises, Stuck;
    m.Turns(turns, {});
    m.ValidKeepsPromises();
  }

  /** A provider that registered twice: closing it takes back one registration only, and then
      nothing ever takes back the other. */
  method RegisteredTwice() returns (m: AuthManager)
    ensures m.Valid([]) && Stuck(m.conns, m.connections, 1)
  {
    m := new AuthManager();
    hide Accounted, Fresh, Sourced, Counted, WakesUp, OnItsWay, HasProvider, Held;
    m.Connect(1, []);
    m.Add(1, []);
    m.Add(1, []);
    m.Shutdown(1, []);
    m.RegisteredIsReferenced([], 1);
    var destroyed := m.Callback(1, false, []);
  }
}
