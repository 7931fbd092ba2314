/**
 * What the external authentication manager keeps, and the claims about it that hold between
 * any two steps of the threads that touch it.
 *
 * Connections are named by an integer standing for their address; an address may be reused
 * after the connection at it was destroyed.
 */
module ExternalAuthState {
  import opened Wrappers

  /** Opaques are 32 bits wide. */
  const OPAQUES := 0x1_0000_0000

  const DOWN := "{\"error\":{\"context\":\"External auth service is down\"}}"

  datatype Kind = StartSasl | GetAuthorization | Unknown

  datatype Task = Task(number: int, kind: Kind)

  datatype Status = Success | Etmpfail | Other(code: int)

  datatype Response = Response(id: int, status: Status, payload: string)

  /** The answer the manager makes up when a provider is gone. */
  function Down(id: int): Response {
    Response(id, Etmpfail, DOWN)
  }

  datatype Request = Request(provider: Option<int>, task: Task)

  /** One call of externalResponse(). */
  datatype Call = Call(task: Task, response: Response)

  /** Where a task that was enqueued is now. An Overwritten task was still waiting for its
      answer when its opaque was handed out again. */
  datatype Fate = Waiting | Issued(id: int) | Called(id: int) | Overwritten(id: int) | Dropped

  /** Lambdas queued on the event loop of a connection's worker thread. */
  datatype Job = Send(id: int) | SendUsers | Decrement | ReleaseCookie

  predicate IsSend(job: Job) {
    job.Send? || job.SendUsers?
  }

  datatype ConnState = Running | Closing | PendingClose | ImmediateClose

  /** `busy` is whether something other than a reference count kept the last close() from
      finishing; `triggered` whether the connection's callback is scheduled. */
  datatype Conn = Conn(state: ConnState, refcount: int, cookieRefs: int, busy: bool, triggered: bool, sent: seq<int>)

  function JobsOf(jobs: map<int, seq<Job>>, c: int): seq<Job> {
    if c in jobs then jobs[c] else []
  }

  function Post(jobs: map<int, seq<Job>>, c: int, job: Job): map<int, seq<Job>> {
    jobs[c := JobsOf(jobs, c) + [job]]
  }

  /** Every reference the manager has to a connection: `purging` is what is left of the list
      purgePendingDeadConnections() took over. */
  function Held(connections: seq<int>, pending: seq<int>, purging: seq<int>): multiset<int> {
    multiset(connections) + multiset(pending) + multiset(purging)
  }

  // ---------------------------------------------------------------- tasks

  predicate Distinct(tasks: seq<Task>) {
    forall i, j :: 0 <= i < j < |tasks| ==> tasks[i] != tasks[j]
  }

  predicate CalledOnce(calls: seq<Call>) {
    forall i, j :: 0 <= i < j < |calls| ==> calls[i].task != calls[j].task
  }

  ghost predicate Queued(fate: map<Task, Fate>, incoming: seq<Task>) {
    && Distinct(incoming)
    && (forall t :: t in incoming <==> t in fate && fate[t] == Waiting)
  }

  ghost predicate Mapped(fate: map<Task, Fate>, requests: map<int, Request>) {
    && (forall k :: k in requests ==> requests[k].task in fate && fate[requests[k].task] == Issued(k))
    && (forall t :: t in fate && fate[t].Issued? ==> fate[t].id in requests && requests[fate[t].id].task == t)
  }

  /** A task is called back at most once, and with a response to its own request. */
  ghost predicate Answers(fate: map<Task, Fate>, calls: seq<Call>) {
    && CalledOnce(calls)
    && (forall i :: 0 <= i < |calls| ==> calls[i].task in fate && fate[calls[i].task] == Called(calls[i].response.id))
    && (forall t :: t in fate && fate[t].Called? ==> exists i :: 0 <= i < |calls| && calls[i].task == t)
  }

  /** Every task ever enqueued is in exactly one place. */
  ghost predicate Accounted(fate: map<Task, Fate>, incoming: seq<Task>, requests: map<int, Request>, calls: seq<Call>) {
    Queued(fate, incoming) && Mapped(fate, requests) && Answers(fate, calls)
  }

  predicate HasOpaque(f: Fate) {
    f.Issued? || f.Called? || f.Overwritten?
  }

  /** As long as the counter has not wrapped, no opaque is used twice, so no request is
      overwritten and a response can only reach the task it answers. */
  ghost predicate Fresh(fate: map<Task, Fate>, issued: nat, next: int) {
    && 0 <= next < OPAQUES
    && (issued < OPAQUES ==> next == issued)
    && (issued <= OPAQUES ==>
          && (forall t :: t in fate ==> !fate[t].Overwritten?)
          && (forall t :: t in fate && HasOpaque(fate[t]) ==> fate[t].id < issued)
          && (forall t, u :: t in fate && u in fate && HasOpaque(fate[t]) && HasOpaque(fate[u]) && t != u
                ==> fate[t].id != fate[u].id))
  }

  // ---------------------------------------------------------------- references

  ghost predicate RefsOk(c: Conn, jobs: seq<Job>, held: nat, reserved: nat) {
    && c.refcount == 1 + held + multiset(jobs)[Decrement]
    && c.cookieRefs == reserved + multiset(jobs)[ReleaseCookie]
    && (forall i :: 0 <= i < |jobs| && IsSend(jobs[i]) ==> held > 0 || Decrement in jobs[i..])
  }

  /** The reference count of a connection is what the manager holds and will give back, and a
      packet queued for it is followed by the job that gives the reference back; of a
      connection that is gone nothing is left anywhere. */
  ghost predicate Counted(conns: map<int, Conn>, jobs: map<int, seq<Job>>, held: multiset<int>,
                          reserved: multiset<int>) {
    forall c ::
      if c in conns then RefsOk(conns[c], JobsOf(jobs, c), held[c], reserved[c])
      else held[c] == 0 && reserved[c] == 0 && JobsOf(jobs, c) == []
  }

  /** A connection that has nothing left to wait for will look again. */
  ghost predicate WakesUp(conns: map<int, Conn>) {
    forall c :: c in conns ==>
      && !conns[c].state.ImmediateClose?
      && (conns[c].state.PendingClose? ==>
            conns[c].triggered || conns[c].busy || conns[c].refcount + conns[c].cookieRefs > 1)
  }

  /** An outstanding request is with a provider the manager still has a reference to. */
  ghost predicate HasProvider(requests: map<int, Request>, held: multiset<int>) {
    forall k :: k in requests && requests[k].provider.Some? ==> requests[k].provider.value in held
  }

  /** And the packet is on its way there or was sent. */
  ghost predicate OnItsWay(requests: map<int, Request>, conns: map<int, Conn>, jobs: map<int, seq<Job>>) {
    forall k :: k in requests && requests[k].provider.Some? ==>
      var p := requests[k].provider.value;
      Send(k) in JobsOf(jobs, p) || (p in conns && k in conns[p].sent)
  }

  /** Every request without a provider has its answer queued. */
  ghost predicate Answered(requests: map<int, Request>, responses: seq<Response>) {
    forall k :: k in requests && requests[k].provider.None? ==> exists i :: 0 <= i < |responses| && responses[i].id == k
  }

  // ---------------------------------------------------------------- answers

  /** A provider sent it, or the manager made it up for a request without a provider. */
  predicate Genuine(r: Response, heard: seq<Response>, lost: set<int>) {
    r in heard || (r == Down(r.id) && r.id in lost)
  }

  ghost predicate AllGenuine(responses: seq<Response>, heard: seq<Response>, lost: set<int>) {
    forall i :: 0 <= i < |responses| ==> Genuine(responses[i], heard, lost)
  }

  ghost predicate CalledGenuinely(calls: seq<Call>, heard: seq<Response>, lost: set<int>) {
    forall i :: 0 <= i < |calls| ==> Genuine(calls[i].response, heard, lost)
  }

  /** Until the ids wrap a request is lost exactly if it has no provider. */
  ghost predicate LostOnes(requests: map<int, Request>, lost: set<int>, issued: nat) {
    issued <= OPAQUES ==>
      && (forall k :: k in requests ==> (k in lost <==> requests[k].provider.None?))
      && (forall k :: k in requests || k in lost ==> k < issued)
  }

  /** Nobody is told that the service is down while it is not. */
  ghost predicate Sourced(responses: seq<Response>, calls: seq<Call>, requests: map<int, Request>,
                          heard: seq<Response>, lost: set<int>, issued: nat) {
    AllGenuine(responses, heard, lost) && CalledGenuinely(calls, heard, lost) && LostOnes(requests, lost, issued)
  }
}
