/**
 * One lemma per claim and per change: what enqueueing, issuing, answering, adding, removing,
 * purging and running a queued job do to the claims of ExternalAuthState.
 */
module ExternalAuthSteps {
  import opened Wrappers
  import opened ExternalAuthState

  // ---------------------------------------------------------------- tasks

  lemma EnqueueAccounted(fate: map<Task, Fate>, incoming: seq<Task>, requests: map<int, Request>, calls: seq<Call>,
                         t: Task)
    requires Accounted(fate, incoming, requests, calls) && t !in fate
    ensures Accounted(fate[t := Waiting], incoming + [t], requests, calls)
  {
  }

  /** The task at the front gets the next id; whoever had it is overwritten. */
  function Issue(fate: map<Task, Fate>, requests: map<int, Request>, t: Task, id: int): map<Task, Fate> {
    (if id in requests then fate[requests[id].task := Overwritten(id)] else fate)[t := Issued(id)]
  }

  lemma IssueAccounted(fate: map<Task, Fate>, incoming: seq<Task>, requests: map<int, Request>, calls: seq<Call>,
                       id: int, provider: Option<int>)
    requires Accounted(fate, incoming, requests, calls) && incoming != []
    ensures Accounted(Issue(fate, requests, incoming[0], id), incoming[1..],
                      requests[id := Request(provider, incoming[0])], calls)
  {
  }

  lemma IssueFresh(fate: map<Task, Fate>, incoming: seq<Task>, requests: map<int, Request>, calls: seq<Call>,
                   issued: nat, next: int)
    requires Accounted(fate, incoming, requests, calls) && Fresh(fate, issued, next) && incoming != []
    ensures Fresh(Issue(fate, requests, incoming[0], next), issued + 1, if next + 1 == OPAQUES then 0 else next + 1)
    ensures issued < OPAQUES ==> next !in requests
  {
  }

  /** A task popped from the queue got an id and went to `provider`, unless a later one got
      the same id; only a task of no known kind is dropped, and only if there is a provider. */
  ghost predicate Settled(fate: map<Task, Fate>, requests: map<int, Request>, provider: Option<int>, t: Task) {
    && t in fate
    && (fate[t].Dropped? <==> provider.Some? && t.kind.Unknown?)
    && (fate[t].Dropped? || fate[t].Overwritten? ||
        (fate[t].Issued? && fate[t].id in requests && requests[fate[t].id] == Request(provider, t)))
  }

  lemma IssueSettled(fate: map<Task, Fate>, incoming: seq<Task>, requests: map<int, Request>, calls: seq<Call>,
                     id: int, provider: Option<int>)
    requires Accounted(fate, incoming, requests, calls) && incoming != []
    requires provider.None? || !incoming[0].kind.Unknown?
    ensures var fate' := Issue(fate, requests, incoming[0], id);
            var requests' := requests[id := Request(provider, incoming[0])];
            && Settled(fate', requests', provider, incoming[0])
            && forall u :: Settled(fate, requests, provider, u) ==> Settled(fate', requests', provider, u)
  {
  }

  lemma DropSettled(fate: map<Task, Fate>, incoming: seq<Task>, requests: map<int, Request>, calls: seq<Call>,
                    provider: Option<int>)
    requires Accounted(fate, incoming, requests, calls) && incoming != [] && provider.Some? && incoming[0].kind.Unknown?
    ensures var fate' := fate[incoming[0] := Dropped];
            && Settled(fate', requests, provider, incoming[0])
            && forall u :: Settled(fate, requests, provider, u) ==> Settled(fate', requests, provider, u)
  {
  }

  lemma DropFresh(fate: map<Task, Fate>, issued: nat, next: int, t: Task)
    requires Fresh(fate, issued, next)
    ensures Fresh(fate[t := Dropped], issued, next)
  {
  }

  lemma DropAccounted(fate: map<Task, Fate>, incoming: seq<Task>, requests: map<int, Request>, calls: seq<Call>)
    requires Accounted(fate, incoming, requests, calls) && incoming != []
    ensures Accounted(fate[incoming[0] := Dropped], incoming[1..], requests, calls)
  {
  }

  lemma CallAccounted(fate: map<Task, Fate>, incoming: seq<Task>, requests: map<int, Request>, calls: seq<Call>,
                      r: Response)
    requires Accounted(fate, incoming, requests, calls) && r.id in requests
    ensures var t := requests[r.id].task;
            Accounted(fate[t := Called(r.id)], incoming, requests - {r.id}, calls + [Call(t, r)])
  {
    var t := requests[r.id].task;
    var fate' := fate[t := Called(r.id)];
    assert Queued(fate', incoming) && Mapped(fate', requests - {r.id});
    AnswersAppend(fate, calls, t, r);
  }

  lemma AnswersAppend(fate: map<Task, Fate>, calls: seq<Call>, t: Task, r: Response)
    requires Answers(fate, calls) && t in fate && !fate[t].Called?
    ensures Answers(fate[t := Called(r.id)], calls + [Call(t, r)])
  {
    var calls' := calls + [Call(t, r)];
    assert calls'[|calls|].task == t;
    forall u | u in fate && u != t && fate[u].Called? ensures exists i :: 0 <= i < |calls'| && calls'[i].task == u {
      var i :| 0 <= i < |calls| && calls[i].task == u;
      assert calls'[i].task == u;
    }
  }

  /** Queued, outstanding, called back, overwritten or dropped: one of these, and only one. */
  ghost predicate OnePlace(fate: map<Task, Fate>, incoming: seq<Task>, requests: map<int, Request>, calls: seq<Call>,
                           t: Task)
    requires t in fate
  {
    var queued := t in incoming;
    var outstanding := exists k :: k in requests && requests[k].task == t;
    var called := exists i :: 0 <= i < |calls| && calls[i].task == t;
    var gone := fate[t].Overwritten? || fate[t].Dropped?;
    && (queued || outstanding || called || gone)
    && !(queued && outstanding) && !(queued && called) && !(outstanding && called)
    && !(gone && (queued || outstanding || called))
    && (forall k, l :: k in requests && l in requests && requests[k].task == t == requests[l].task ==> k == l)
  }

  lemma ExactlyOnePlace(fate: map<Task, Fate>, incoming: seq<Task>, requests: map<int, Request>, calls: seq<Call>,
                        t: Task)
    requires Accounted(fate, incoming, requests, calls) && t in fate
    ensures OnePlace(fate, incoming, requests, calls, t)
  {
  }

  lemma CallsAnswer(fate: map<Task, Fate>, incoming: seq<Task>, requests: map<int, Request>, calls: seq<Call>)
    requires Accounted(fate, incoming, requests, calls)
    ensures CalledOnce(calls)
    ensures forall i :: 0 <= i < |calls| ==>
              calls[i].task in fate && fate[calls[i].task] == Called(calls[i].response.id)
  {
  }

  /** No two calls answered the same id, and no id that was answered is outstanding. */
  ghost predicate Paired(calls: seq<Call>, requests: map<int, Request>) {
    && (forall i, j :: 0 <= i < |calls| && 0 <= j < |calls| && calls[i].response.id == calls[j].response.id ==> i == j)
    && (forall i, k :: 0 <= i < |calls| && k in requests ==> calls[i].response.id != k)
  }

  /** Before the counter wraps, a response with a given id can only have been for one task. */
  lemma ResponsesArePaired(fate: map<Task, Fate>, incoming: seq<Task>, requests: map<int, Request>, calls: seq<Call>,
                           issued: nat, next: int)
    requires Accounted(fate, incoming, requests, calls) && Fresh(fate, issued, next) && issued <= OPAQUES
    ensures Paired(calls, requests)
  {
  }

  // ---------------------------------------------------------------- references

  lemma MultisetAppend<T>(s: seq<T>, x: T, y: T)
    ensures multiset(s + [x])[y] == multiset(s)[y] + if x == y then 1 else 0
  {
  }

  lemma MultisetTail<T>(s: seq<T>, y: T)
    requires s != []
    ensures multiset(s)[y] == multiset(s[1..])[y] + if s[0] == y then 1 else 0
  {
    assert s == [s[0]] + s[1..];
  }

  lemma MultisetErase<T>(s: seq<T>, i: nat)
    requires i < |s|
    ensures multiset(s[..i] + s[i + 1..]) + multiset{s[i]} == multiset(s)
  {
    assert s == s[..i] + [s[i]] + s[i + 1..];
  }

  /** The reference moves from the manager's lists to the job that will drop it. */
  lemma PostDecrement(c: Conn, jobs: seq<Job>, held: nat, reserved: nat)
    requires RefsOk(c, jobs, held, reserved) && held > 0
    ensures RefsOk(c, jobs + [Decrement], held - 1, reserved)
  {
    var jobs' := jobs + [Decrement];
    MultisetAppend(jobs, Decrement, Decrement);
    MultisetAppend(jobs, Decrement, ReleaseCookie);
    forall i | 0 <= i < |jobs'| ensures Decrement in jobs'[i..] {
      assert jobs'[i..][|jobs| - i] == Decrement;
    }
  }

  lemma PostRelease(c: Conn, jobs: seq<Job>, held: nat, reserved: nat)
    requires RefsOk(c, jobs, held, reserved) && reserved > 0
    ensures RefsOk(c, jobs + [ReleaseCookie], held, reserved - 1)
  {
    var jobs' := jobs + [ReleaseCookie];
    MultisetAppend(jobs, ReleaseCookie, Decrement);
    MultisetAppend(jobs, ReleaseCookie, ReleaseCookie);
    forall i | 0 <= i < |jobs'| && IsSend(jobs'[i]) && Decrement in jobs[i..] ensures Decrement in jobs'[i..] {
      assert jobs'[i..] == jobs[i..] + [ReleaseCookie];
    }
  }

  /** The effect of the job at the front of a connection's event queue. */
  function Perform(c: Conn, job: Job): Conn {
    match job
    case Send(id) => c.(sent := c.sent + [id])
    case SendUsers => c
    case Decrement => c.(refcount := c.refcount - 1, triggered := true)
    case ReleaseCookie => c.(cookieRefs := c.cookieRefs - 1, triggered := true)
  }

  lemma RunFront(c: Conn, jobs: seq<Job>, held: nat, reserved: nat)
    requires RefsOk(c, jobs, held, reserved) && jobs != []
    ensures RefsOk(Perform(c, jobs[0]), jobs[1..], held, reserved)
  {
    MultisetTail(jobs, Decrement);
    MultisetTail(jobs, ReleaseCookie);
    forall i | 0 <= i < |jobs[1..]| && IsSend(jobs[1..][i]) ensures held > 0 || Decrement in jobs[1..][i..] {
      assert jobs[1..][i..] == jobs[i + 1..] && IsSend(jobs[i + 1]);
    }
  }

  // ---------------------------------------------------------------- all connections

  lemma HeldAdd(connections: seq<int>, pending: seq<int>, purging: seq<int>, c: int)
    ensures Held(connections + [c], pending, purging) == Held(connections, pending, purging) + multiset{c}
  {
  }

  lemma HeldRemove(connections: seq<int>, pending: seq<int>, purging: seq<int>, i: nat)
    requires i < |connections|
    ensures Held(connections[..i] + connections[i + 1..], pending + [connections[i]], purging) ==
            Held(connections, pending, purging)
  {
    MultisetErase(connections, i);
  }

  lemma HeldPurge(connections: seq<int>, purging: seq<int>)
    requires purging != []
    ensures Held(connections, [], purging[1..]) == Held(connections, [], purging) - multiset{purging[0]}
    ensures purging[0] in Held(connections, [], purging)
  {
    assert purging == [purging[0]] + purging[1..];
  }

  lemma RegisteredIsHeld(connections: seq<int>, pending: seq<int>, purging: seq<int>, c: int)
    requires c in connections
    ensures c in Held(connections, pending, purging)
  {
  }

  /** The ids a sequence of responses answers. */
  function Ids(responses: seq<Response>): set<int> {
    set r | r in responses :: r.id
  }

  lemma IdsNext(responses: seq<Response>, i: nat)
    requires i < |responses|
    ensures Ids(responses[..i + 1]) == Ids(responses[..i]) + {responses[i].id}
  {
    assert responses[..i + 1] == responses[..i] + [responses[i]];
  }

  lemma IdsGrow(responses: seq<Response>, more: seq<Response>)
    requires responses <= more
    ensures forall r :: r in responses ==> r.id in Ids(more)
    ensures Ids(responses) <= Ids(more)
  {
    assert forall r :: r in responses ==> r in more;
  }

  lemma NoIds(responses: seq<Response>)
    ensures Ids(responses[..0]) == {}
  {
    assert responses[..0] == [];
    assert forall id :: id !in Ids([]);
  }

  /** Nobody without a provider is left when all the responses were handled. */
  lemma AllAnswered(requests: map<int, Request>, responses: seq<Response>)
    requires Answered(requests, responses)
    ensures forall k :: k in requests - Ids(responses) ==> requests[k].provider.Some?
  {
    forall k | k in requests && requests[k].provider.None? ensures k in Ids(responses) {
      var i :| 0 <= i < |responses| && responses[i].id == k;
      assert responses[i] in responses;
    }
  }

  lemma HeldTakeOver(connections: seq<int>, pending: seq<int>)
    ensures Held(connections, [], pending) == Held(connections, pending, [])
  {
  }

  /** Changing one connection, its queue and its counts leaves the others as they were. */
  lemma CountedOne(conns: map<int, Conn>, jobs: map<int, seq<Job>>, held: multiset<int>, reserved: multiset<int>,
                   c: int, conn: Conn, js: seq<Job>, held': multiset<int>, reserved': multiset<int>)
    requires Counted(conns, jobs, held, reserved)
    requires RefsOk(conn, js, held'[c], reserved'[c])
    requires forall d :: d != c ==> held'[d] == held[d] && reserved'[d] == reserved[d]
    ensures Counted(conns[c := conn], jobs[c := js], held', reserved')
  {
  }

  lemma ReferencedIsAlive(conns: map<int, Conn>, jobs: map<int, seq<Job>>, held: multiset<int>,
                          reserved: multiset<int>, c: int)
    requires Counted(conns, jobs, held, reserved) && (held[c] > 0 || reserved[c] > 0 || JobsOf(jobs, c) != [])
    ensures c in conns && RefsOk(conns[c], JobsOf(jobs, c), held[c], reserved[c])
  {
  }

  lemma GoneIsUnreferenced(conns: map<int, Conn>, jobs: map<int, seq<Job>>, held: multiset<int>,
                           reserved: multiset<int>, c: int)
    requires Counted(conns, jobs, held, reserved) && c !in conns
    ensures c !in held && c !in reserved && JobsOf(jobs, c) == []
  {
  }

  lemma ProvidersAreAlive(requests: map<int, Request>, conns: map<int, Conn>, jobs: map<int, seq<Job>>,
                          held: multiset<int>, reserved: multiset<int>)
    requires HasProvider(requests, held) && Counted(conns, jobs, held, reserved)
    ensures forall k :: k in requests && requests[k].provider.Some? ==> requests[k].provider.value in conns
  {
    forall k | k in requests && requests[k].provider.Some? ensures requests[k].provider.value in conns {
      ReferencedIsAlive(conns, jobs, held, reserved, requests[k].provider.value);
    }
  }

  lemma SendCounted(conns: map<int, Conn>, jobs: map<int, seq<Job>>, held: multiset<int>, reserved: multiset<int>,
                    c: int, job: Job)
    requires Counted(conns, jobs, held, reserved) && c in held && IsSend(job)
    ensures c in conns && Counted(conns, Post(jobs, c, job), held, reserved)
  {
  }

  lemma PurgeCounted(conns: map<int, Conn>, jobs: map<int, seq<Job>>, held: multiset<int>, reserved: multiset<int>,
                     c: int)
    requires Counted(conns, jobs, held, reserved) && c in held
    ensures c in conns && Counted(conns, Post(jobs, c, Decrement), held - multiset{c}, reserved)
  {
    ReferencedIsAlive(conns, jobs, held, reserved, c);
    PostDecrement(conns[c], JobsOf(jobs, c), held[c], reserved[c]);
    CountedOne(conns, jobs, held, reserved, c, conns[c], JobsOf(jobs, c) + [Decrement], held - multiset{c}, reserved);
    assert conns[c := conns[c]] == conns;
  }

  lemma RunCounted(conns: map<int, Conn>, jobs: map<int, seq<Job>>, held: multiset<int>, reserved: multiset<int>,
                   c: int)
    requires Counted(conns, jobs, held, reserved) && JobsOf(jobs, c) != []
    ensures c in conns
    ensures Counted(conns[c := Perform(conns[c], JobsOf(jobs, c)[0])], jobs[c := JobsOf(jobs, c)[1..]], held, reserved)
  {
    ReferencedIsAlive(conns, jobs, held, reserved, c);
    RunFront(conns[c], JobsOf(jobs, c), held[c], reserved[c]);
    CountedOne(conns, jobs, held, reserved, c, Perform(conns[c], JobsOf(jobs, c)[0]), JobsOf(jobs, c)[1..], held,
               reserved);
  }

  lemma ReleaseCounted(conns: map<int, Conn>, jobs: map<int, seq<Job>>, held: multiset<int>, reserved: multiset<int>,
                       c: int)
    requires Counted(conns, jobs, held, reserved) && c in reserved
    ensures c in conns && Counted(conns, Post(jobs, c, ReleaseCookie), held, reserved - multiset{c})
  {
    ReferencedIsAlive(conns, jobs, held, reserved, c);
    PostRelease(conns[c], JobsOf(jobs, c), held[c], reserved[c]);
    CountedOne(conns, jobs, held, reserved, c, conns[c], JobsOf(jobs, c) + [ReleaseCookie], held,
               reserved - multiset{c});
    assert conns[c := conns[c]] == conns;
  }

  /** A connection may take a reference, or change in what no count depends on. */
  lemma ConnCounted(conns: map<int, Conn>, jobs: map<int, seq<Job>>, held: multiset<int>, reserved: multiset<int>,
                    c: int, conn: Conn, held': multiset<int>, reserved': multiset<int>)
    requires Counted(conns, jobs, held, reserved)
    requires forall d :: d != c ==> held'[d] == held[d] && reserved'[d] == reserved[d]
    requires if c in conns then conn.refcount - held'[c] == conns[c].refcount - held[c] && held'[c] >= held[c]
                             && conn.cookieRefs - reserved'[c] == conns[c].cookieRefs - reserved[c]
             else conn.refcount == 1 && conn.cookieRefs == 0 && held'[c] == 0 && reserved'[c] == 0
    ensures Counted(conns[c := conn], jobs, held', reserved')
  {
  }

  /** And one that is being closed and that nothing refers to will notice. */
  lemma UnreferencedWillClose(conns: map<int, Conn>, jobs: map<int, seq<Job>>, held: multiset<int>,
                              reserved: multiset<int>, c: int)
    requires Counted(conns, jobs, held, reserved) && WakesUp(conns)
    requires c in conns && conns[c].state.PendingClose? && !conns[c].busy
    requires c !in held && c !in reserved && JobsOf(jobs, c) == []
    ensures conns[c].triggered && conns[c].refcount + conns[c].cookieRefs == 1
  {
  }

  /** Nothing refers to a connection whose counts are down to its own, so it may go. */
  lemma DestroyCounted(conns: map<int, Conn>, jobs: map<int, seq<Job>>, held: multiset<int>, reserved: multiset<int>,
                       c: int)
    requires Counted(conns, jobs, held, reserved) && c in conns && conns[c].refcount + conns[c].cookieRefs <= 1
    ensures Counted(conns - {c}, jobs, held, reserved)
    ensures c !in held && c !in reserved && JobsOf(jobs, c) == []
  {
  }

  // ---------------------------------------------------------------- requests

  lemma PostKeepsOnItsWay(requests: map<int, Request>, conns: map<int, Conn>, jobs: map<int, seq<Job>>, c: int,
                          job: Job)
    requires OnItsWay(requests, conns, jobs)
    ensures OnItsWay(requests, conns, Post(jobs, c, job))
  {
  }

  lemma RunKeepsOnItsWay(requests: map<int, Request>, conns: map<int, Conn>, jobs: map<int, seq<Job>>, c: int)
    requires OnItsWay(requests, conns, jobs) && c in conns && JobsOf(jobs, c) != []
    ensures OnItsWay(requests, conns[c := Perform(conns[c], JobsOf(jobs, c)[0])], jobs[c := JobsOf(jobs, c)[1..]])
  {
  }

  lemma ConnOnItsWay(requests: map<int, Request>, conns: map<int, Conn>, jobs: map<int, seq<Job>>, c: int, conn: Conn)
    requires OnItsWay(requests, conns, jobs) && c in conns && conn.sent == conns[c].sent
    ensures OnItsWay(requests, conns[c := conn], jobs)
  {
  }

  lemma GoneOnItsWay(requests: map<int, Request>, conns: map<int, Conn>, jobs: map<int, seq<Job>>,
                     held: multiset<int>, c: int)
    requires OnItsWay(requests, conns, jobs) && HasProvider(requests, held) && c !in held
    ensures OnItsWay(requests, conns - {c}, jobs)
  {
  }

  /** The request the packet of which was just queued for `provider`. */
  lemma IssueOnItsWay(requests: map<int, Request>, conns: map<int, Conn>, jobs: map<int, seq<Job>>, id: int,
                      request: Request)
    requires OnItsWay(requests, conns, jobs)
    requires request.provider.Some? ==> Send(id) in JobsOf(jobs, request.provider.value)
    ensures OnItsWay(requests[id := request], conns, jobs)
  {
  }

  lemma IssueHasProvider(requests: map<int, Request>, held: multiset<int>, id: int, request: Request)
    requires HasProvider(requests, held) && (request.provider.Some? ==> request.provider.value in held)
    ensures HasProvider(requests[id := request], held)
  {
  }

  /** The requests after the connections in `gone` were given up. */
  function Orphaned(requests: map<int, Request>, gone: seq<int>): map<int, Request> {
    map k | k in requests ::
      if requests[k].provider.Some? && requests[k].provider.value in gone then requests[k].(provider := None)
      else requests[k]
  }

  lemma NoneOrphaned(requests: map<int, Request>, gone: seq<int>)
    ensures Orphaned(requests, gone[..0]) == requests
  {
    assert gone[..0] == [];
  }

  lemma OrphanedNext(requests: map<int, Request>, gone: seq<int>, i: nat)
    requires i < |gone|
    ensures Orphaned(Orphaned(requests, gone[..i]), [gone[i]]) == Orphaned(requests, gone[..i + 1])
  {
  }

  lemma OrphanedAccounted(fate: map<Task, Fate>, incoming: seq<Task>, requests: map<int, Request>, calls: seq<Call>,
                          gone: seq<int>)
    requires Accounted(fate, incoming, requests, calls)
    ensures Accounted(fate, incoming, Orphaned(requests, gone), calls)
  {
  }

  lemma SomeKey(keys: set<int>)
    requires |keys| > 0
    ensures exists k :: k in keys
  {
    assert (forall k :: k !in keys) ==> |keys| == 0;
  }

  lemma AnsweredAppend(requests: map<int, Request>, responses: seq<Response>, more: seq<Response>)
    requires Answered(requests, responses)
    ensures Answered(requests, responses + more)
  {
    var all := responses + more;
    forall k | k in requests && requests[k].provider.None? ensures exists i :: 0 <= i < |all| && all[i].id == k {
      var i :| 0 <= i < |responses| && responses[i].id == k;
      assert all[i].id == k;
    }
  }

  /** A request that gets an answer with it. */
  lemma AnsweredDown(requests: map<int, Request>, responses: seq<Response>, id: int, request: Request)
    requires Answered(requests, responses)
    ensures Answered(requests[id := request], responses + [Down(id)])
  {
    AnsweredAppend(requests, responses, [Down(id)]);
    assert (responses + [Down(id)])[|responses|].id == id;
  }

  // ---------------------------------------------------------------- answers

  lemma HeardStaysGenuine(responses: seq<Response>, heard: seq<Response>, lost: set<int>, heard': seq<Response>,
                          lost': set<int>)
    requires AllGenuine(responses, heard, lost) && heard <= heard' && lost <= lost'
    ensures AllGenuine(responses, heard', lost')
  {
    forall i | 0 <= i < |responses| ensures Genuine(responses[i], heard', lost') {
      assert Genuine(responses[i], heard, lost);
    }
  }

  lemma CalledStaysGenuine(calls: seq<Call>, heard: seq<Response>, lost: set<int>, heard': seq<Response>,
                           lost': set<int>)
    requires CalledGenuinely(calls, heard, lost) && heard <= heard' && lost <= lost'
    ensures CalledGenuinely(calls, heard', lost')
  {
    forall i | 0 <= i < |calls| ensures Genuine(calls[i].response, heard', lost') {
      assert Genuine(calls[i].response, heard, lost);
    }
  }

  /** A provider answers. */
  lemma ResponseSourced(responses: seq<Response>, calls: seq<Call>, requests: map<int, Request>, heard: seq<Response>,
                        lost: set<int>, issued: nat, r: Response)
    requires Sourced(responses, calls, requests, heard, lost, issued)
    ensures Sourced(responses + [r], calls, requests, heard + [r], lost, issued)
  {
    HeardStaysGenuine(responses, heard, lost, heard + [r], lost);
    CalledStaysGenuine(calls, heard, lost, heard + [r], lost);
  }

  /** From position `n` on the responses are failures made up for some of the given ids. */
  ghost predicate MadeUp(responses: seq<Response>, n: nat, ids: set<int>) {
    forall i :: n <= i < |responses| ==> responses[i] == Down(responses[i].id) && responses[i].id in ids
  }

  /** Answers are made up for requests that are lost. */
  lemma DownSourced(responses: seq<Response>, calls: seq<Call>, heard: seq<Response>, lost: set<int>,
                    responses': seq<Response>, lost': set<int>)
    requires AllGenuine(responses, heard, lost) && CalledGenuinely(calls, heard, lost)
    requires lost <= lost' && responses <= responses' && MadeUp(responses', |responses|, lost')
    ensures AllGenuine(responses', heard, lost') && CalledGenuinely(calls, heard, lost')
  {
    HeardStaysGenuine(responses, heard, lost, heard, lost');
    CalledStaysGenuine(calls, heard, lost, heard, lost');
  }

  lemma IssueLost(fate: map<Task, Fate>, requests: map<int, Request>, lost: set<int>, issued: nat, next: int,
                  request: Request)
    requires LostOnes(requests, lost, issued) && Fresh(fate, issued, next)
    ensures LostOnes(requests[next := request], if request.provider.None? then lost + {next} else lost, issued + 1)
  {
  }

  /** The ids of the requests with a provider. */
  function With(requests: map<int, Request>, c: int): set<int> {
    set k | k in requests && requests[k].provider == Some(c)
  }

  lemma OrphanedLost(requests: map<int, Request>, lost: set<int>, issued: nat, c: int)
    requires LostOnes(requests, lost, issued)
    ensures LostOnes(Orphaned(requests, [c]), lost + With(requests, c), issued)
  {
  }

  /** The calls a queue of responses leads to: one for each request that is answered, in the order
      of the queue, with the first response to it. */
  function Deliveries(requests: map<int, Request>, responses: seq<Response>): seq<Call> {
    if responses == [] then [] else
    var n := |responses| - 1;
    var r := responses[n];
    Deliveries(requests, responses[..n])
    + if r.id in requests && r.id !in Ids(responses[..n]) then [Call(requests[r.id].task, r)] else []
  }

  lemma NoDeliveries(requests: map<int, Request>, responses: seq<Response>)
    ensures Deliveries(requests, responses[..0]) == []
  {
  }

  lemma GenuineAt(responses: seq<Response>, heard: seq<Response>, lost: set<int>, i: nat)
    requires AllGenuine(responses, heard, lost) && i < |responses|
    ensures Genuine(responses[i], heard, lost)
  {
  }

  lemma DeliveriesNext(requests: map<int, Request>, responses: seq<Response>, i: nat)
    requires i < |responses|
    ensures var r := responses[i];
            Deliveries(requests, responses[..i + 1]) ==
            Deliveries(requests, responses[..i])
            + if r.id in requests && r.id !in Ids(responses[..i]) then [Call(requests[r.id].task, r)] else []
  {
    assert responses[..i + 1][..i] == responses[..i];
  }

  lemma {:induction false} DeliveriesAreKnown(requests: map<int, Request>, responses: seq<Response>, tasks: set<Task>)
    requires forall k :: k in requests ==> requests[k].task in tasks
    ensures forall call :: call in Deliveries(requests, responses) ==> call.task in tasks
  {
    if responses != [] {
      DeliveriesAreKnown(requests, responses[..|responses| - 1], tasks);
    }
  }

  /** Response `j` is the first with its id. */
  predicate IsFirst(responses: seq<Response>, j: nat) {
    j < |responses| && forall i :: 0 <= i < j ==> responses[i].id != responses[j].id
  }

  /** Every request with a response is answered with the first one, and nobody else is. */
  lemma {:induction false} DeliveriesAreFirst(requests: map<int, Request>, responses: seq<Response>)
    ensures forall j: nat :: IsFirst(responses, j) && responses[j].id in requests ==>
              Call(requests[responses[j].id].task, responses[j]) in Deliveries(requests, responses)
    ensures forall c :: c in Deliveries(requests, responses) ==>
              exists j: nat :: IsFirst(responses, j) && responses[j].id in requests
                               && c == Call(requests[responses[j].id].task, responses[j])
    decreases |responses|
  {
    if responses != [] {
      var n := |responses| - 1;
      var before := responses[..n];
      DeliveriesAreFirst(requests, before);
      assert responses[n].id !in Ids(before) <==> IsFirst(responses, n);
      assert forall j: nat :: j < n ==> (IsFirst(responses, j) <==> IsFirst(before, j));
      forall c | c in Deliveries(requests, responses)
        ensures exists j: nat :: IsFirst(responses, j) && responses[j].id in requests
                                 && c == Call(requests[responses[j].id].task, responses[j])
      {
        if c in Deliveries(requests, before) {
          var j: nat :| IsFirst(before, j) && before[j].id in requests
                        && c == Call(requests[before[j].id].task, before[j]);
          assert IsFirst(responses, j) && responses[j] == before[j];
        } else {
          assert IsFirst(responses, n);
        }
      }
    }
  }

  lemma CallSourced(calls: seq<Call>, heard: seq<Response>, lost: set<int>, call: Call)
    requires CalledGenuinely(calls, heard, lost) && Genuine(call.response, heard, lost)
    ensures CalledGenuinely(calls + [call], heard, lost)
  {
  }

  lemma ForgetLost(requests: map<int, Request>, lost: set<int>, issued: nat, k: int)
    requires LostOnes(requests, lost, issued)
    ensures LostOnes(requests - {k}, lost, issued)
  {
  }

  // ---------------------------------------------------------------- what a turn leaves behind

  /** Nothing was queued but what providers sent meanwhile. */
  ghost predicate Received(responses: seq<Response>, heard: seq<Response>, responses': seq<Response>,
                           heard': seq<Response>) {
    heard <= heard' && responses' == responses + heard'[|heard|..]
  }

  lemma ReceivedOn(responses: seq<Response>, heard: seq<Response>, responses': seq<Response>, heard': seq<Response>,
                   responses'': seq<Response>, heard'': seq<Response>)
    requires Received(responses, heard, responses', heard') && Received(responses', heard', responses'', heard'')
    ensures Received(responses, heard, responses'', heard'')
  {
    assert heard''[|heard|..] == heard''[|heard|..|heard'|] + heard''[|heard'|..];
    assert heard''[|heard|..|heard'|] == heard'[|heard|..];
  }

  /** The queue holds the last responses of the providers, and none of the first `n`. */
  ghost predicate Latest(responses: seq<Response>, heard: seq<Response>, n: nat) {
    n + |responses| <= |heard| && responses == heard[|heard| - |responses|..]
  }

  /** Nobody was told to send the active users. */
  ghost predicate NoUsersQueued(jobs: map<int, seq<Job>>, jobs': map<int, seq<Job>>) {
    forall c :: SendUsers in JobsOf(jobs', c) ==> SendUsers in JobsOf(jobs, c)
  }

  lemma TasksAreKnown(fate: map<Task, Fate>, incoming: seq<Task>, requests: map<int, Request>, calls: seq<Call>)
    requires Accounted(fate, incoming, requests, calls)
    ensures forall k :: k in requests ==> requests[k].task in fate
    ensures forall t :: t in incoming ==> t in fate
  {
  }

  lemma IssueKeepsTasks(fate: map<Task, Fate>, incoming: seq<Task>, requests: map<int, Request>, calls: seq<Call>,
                        id: int)
    requires Accounted(fate, incoming, requests, calls) && incoming != []
    ensures Issue(fate, requests, incoming[0], id).Keys == fate.Keys
  {
    TasksAreKnown(fate, incoming, requests, calls);
    hide Accounted;
  }

  lemma NothingReceived(heard: seq<Response>, jobs: map<int, seq<Job>>)
    ensures Received([], heard, [], heard) && NoUsersQueued(jobs, jobs)
  {
    assert heard[|heard|..] == [];
  }

  lemma MeanwhileReceived(heard: seq<Response>, responses': seq<Response>, heard': seq<Response>,
                          responses'': seq<Response>, heard'': seq<Response>, jobs: map<int, seq<Job>>,
                          jobs': map<int, seq<Job>>, jobs'': map<int, seq<Job>>)
    requires Received([], heard, responses', heard') && Received(responses', heard', responses'', heard'')
    requires NoUsersQueued(jobs, jobs') && NoUsersQueued(jobs', jobs'')
    ensures Received([], heard, responses'', heard'') && NoUsersQueued(jobs, jobs'') && heard' <= heard''
  {
    ReceivedOn([], heard, responses', heard', responses'', heard'');
  }

  predicate ToBeRemoved(provider: Option<int>, pending: seq<int>) {
    provider.Some? && provider.value in pending
  }

  lemma MoreToBeRemoved(pending: seq<int>, more: seq<int>)
    requires forall c :: c in pending ==> c in more
    ensures forall provider :: ToBeRemoved(provider, pending) ==> ToBeRemoved(provider, more)
  {
    forall provider | ToBeRemoved(provider, pending) ensures ToBeRemoved(provider, more) {
      var c := provider.value;
      assert c in pending;
    }
  }

  /** A request that lost its provider has an answer. */
  lemma RemovedAreAnswered(requests: map<int, Request>, gone: seq<int>, responses: seq<Response>)
    requires Answered(Orphaned(requests, gone), responses)
    ensures forall k :: k in requests && ToBeRemoved(requests[k].provider, gone) ==> k in Ids(responses)
  {
    var orphaned := Orphaned(requests, gone);
    forall k | k in requests && ToBeRemoved(requests[k].provider, gone) ensures k in Ids(responses) {
      assert k in orphaned && orphaned[k] == requests[k].(provider := None);
      var i :| 0 <= i < |responses| && responses[i].id == k;
      assert responses[i] in responses;
    }
  }

  lemma ReceivedIsLatest(responses: seq<Response>, before: seq<Response>, heard: seq<Response>, n: nat)
    requires Received([], before, responses, heard) && n <= |before|
    ensures Latest(responses, heard, n)
  {
  }

  lemma NothingIsLatest(heard: seq<Response>, n: nat, requests: map<int, Request>)
    requires n <= |heard| && Answered(requests, [])
    ensures Latest([], heard, n) && forall k :: k in requests ==> requests[k].provider.Some?
    ensures Ids([]) == {}
  {
    assert forall id :: id !in Ids([]);
  }

  lemma ProvidedIsAnswered(requests: map<int, Request>, responses: seq<Response>)
    requires forall k :: k in requests ==> requests[k].provider.Some?
    ensures Answered(requests, responses)
  {
  }
}
