/**
 * The vbucket map a test cluster lays out for a bucket, and the replication streams set up
 * from it.
 */
module Replication {

  /** For every vbucket the node of its active copy followed by those of its replicas. */
  type VbucketMap = seq<seq<nat>>

  predicate HasActive(m: VbucketMap) {
    forall vb :: 0 <= vb < |m| ==> |m[vb]| > 0
  }

  predicate OnNodes(m: VbucketMap, nodes: nat) {
    HasActive(m) && forall vb, n :: 0 <= vb < |m| && 0 <= n < |m[vb]| ==> m[vb][n] < nodes
  }

  // ---------------------------------------------------------------- the map

  /** Consecutive turns of a round robin over the nodes. */
  predicate Consecutive(chain: seq<nat>, start: nat, nodes: nat)
    requires nodes > 0
  {
    forall n :: 0 <= n < |chain| ==> chain[n] == (start + n) % nodes
  }

  /** Each vbucket goes on where the one before stopped. */
  ghost predicate RoundRobin(m: VbucketMap, replicas: nat, nodes: nat)
    requires nodes > 0
  {
    forall vb :: 0 <= vb < |m| ==> |m[vb]| == replicas + 1 && Consecutive(m[vb], vb * (replicas + 1), nodes)
  }

  method BuildMap(vbuckets: nat, replicas: nat, nodes: nat) returns (m: VbucketMap)
    requires nodes > 0
    ensures |m| == vbuckets && OnNodes(m, nodes) && RoundRobin(m, replicas, nodes)
  {
    m := [];
    var ii: nat := 0;
    for vb := 0 to vbuckets
      invariant |m| == vb && ii == vb * (replicas + 1) && OnNodes(m, nodes) && RoundRobin(m, replicas, nodes)
    {
      var chain: seq<nat> := [];
      ghost var start := ii;
      for n := 0 to replicas + 1
        invariant |chain| == n && ii == start + n && Consecutive(chain, start, nodes)
      {
        chain := chain + [ii % nodes];
        ii := ii + 1;
      }
      m := m + [chain];
    }
  }

  predicate Distinct(chain: seq<nat>) {
    forall i, j :: 0 <= i < j < |chain| ==> chain[i] != chain[j]
  }

  lemma Multiple(k: int, nodes: nat)
    requires k >= 1
    ensures k * nodes >= nodes
  {
  }

  lemma DivisionIs(n: nat, nodes: nat, q: nat, r: nat)
    requires r < nodes && n == q * nodes + r
    ensures n / nodes == q && n % nodes == r
  {
    var q', r' := n / nodes, n % nodes;
    assert n == q' * nodes + r';
    assert q * nodes - q' * nodes == (q - q') * nodes;
    assert q' * nodes - q * nodes == (q' - q) * nodes;
    if q > q' { Multiple(q - q', nodes); } else if q < q' { Multiple(q' - q, nodes); }
  }

  lemma ModuloApart(a: nat, d: nat, nodes: nat)
    requires nodes > 0
    ensures 0 < d < nodes ==> a % nodes != (a + d) % nodes
    ensures (a + nodes) % nodes == a % nodes
  {
    var q, r := a / nodes, a % nodes;
    assert a == q * nodes + r;
    assert (q + 1) * nodes == q * nodes + nodes;
    DivisionIs(a + nodes, nodes, q + 1, r);
    if r + d < nodes {
      DivisionIs(a + d, nodes, q, r + d);
    } else if d < nodes {
      DivisionIs(a + d, nodes, q + 1, r + d - nodes);
    }
  }

  /** No node holds two copies of a vbucket exactly if there are enough nodes. */
  lemma ChainIsDistinct(m: VbucketMap, replicas: nat, nodes: nat, vb: nat)
    requires nodes > 0 && RoundRobin(m, replicas, nodes) && vb < |m|
    ensures Distinct(m[vb]) <==> replicas + 1 <= nodes
  {
    var start := vb * (replicas + 1);
    if replicas + 1 <= nodes {
      forall i, j | 0 <= i < j <= replicas ensures m[vb][i] != m[vb][j] {
        ModuloApart(start + i, j - i, nodes);
      }
    } else {
      ModuloApart(start, 0, nodes);
      assert m[vb][0] == start % nodes && m[vb][nodes] == (start + nodes) % nodes;
    }
  }

  // ---------------------------------------------------------------- balance

  function Occurrences(chain: seq<nat>, node: nat): nat {
    if chain == [] then 0
    else Occurrences(chain[..|chain| - 1], node) + if chain[|chain| - 1] == node then 1 else 0
  }

  function Copies(m: VbucketMap, node: nat): nat {
    if m == [] then 0 else Copies(m[..|m| - 1], node) + Occurrences(m[|m| - 1], node)
  }

  /** How many of the first `n` turns of a round robin come to `node`. */
  function Turns(n: nat, nodes: nat, node: nat): nat
    requires nodes > 0
  {
    n / nodes + if node < n % nodes then 1 else 0
  }

  lemma TurnsStart(nodes: nat, node: nat)
    requires node < nodes
    ensures Turns(0, nodes, node) == 0
  {
  }

  lemma TurnsNext(n: nat, nodes: nat, node: nat)
    requires node < nodes
    ensures Turns(n + 1, nodes, node) == Turns(n, nodes, node) + if n % nodes == node then 1 else 0
  {
    var q, r := n / nodes, n % nodes;
    assert n == q * nodes + r;
    if r + 1 < nodes {
      DivisionIs(n + 1, nodes, q, r + 1);
    } else {
      assert (q + 1) * nodes == q * nodes + nodes;
      DivisionIs(n + 1, nodes, q + 1, 0);
    }
  }

  lemma {:induction false} OccurrencesInChain(chain: seq<nat>, start: nat, nodes: nat, node: nat)
    requires node < nodes && Consecutive(chain, start, nodes)
    ensures Occurrences(chain, node) == Turns(start + |chain|, nodes, node) - Turns(start, nodes, node)
    decreases |chain|
  {
    if chain != [] {
      OccurrencesInChain(chain[..|chain| - 1], start, nodes, node);
      TurnsNext(start + |chain| - 1, nodes, node);
    }
  }

  lemma {:induction false} CopiesAreTurns(m: VbucketMap, replicas: nat, nodes: nat, node: nat)
    requires node < nodes && RoundRobin(m, replicas, nodes)
    ensures Copies(m, node) == Turns(|m| * (replicas + 1), nodes, node)
    decreases |m|
  {
    hide Turns;
    if m == [] {
      assert Turns(0, nodes, node) == 0 by { TurnsStart(nodes, node); }
    } else {
      var last := |m| - 1;
      CopiesAreTurns(m[..last], replicas, nodes, node);
      assert |m| * (replicas + 1) == last * (replicas + 1) + (replicas + 1);
      OccurrencesInChain(m[last], last * (replicas + 1), nodes, node);
    }
  }

  /** The copies of a bucket are spread evenly, however many replicas and nodes there are. */
  lemma CopiesAreBalanced(m: VbucketMap, replicas: nat, nodes: nat, a: nat, b: nat)
    requires a < nodes && b < nodes && RoundRobin(m, replicas, nodes)
    ensures Copies(m, a) <= Copies(m, b) + 1
  {
    CopiesAreTurns(m, replicas, nodes, a);
    CopiesAreTurns(m, replicas, nodes, b);
  }

  // ---------------------------------------------------------------- the streams

  /** A replication connection and the vbuckets it asks to be sent. */
  datatype Pipeline = Pipeline(producer: nat, consumer: nat, vbs: seq<nat>)

  /** `count` times `vb`. */
  function Repeat(vb: nat, count: nat): seq<nat> {
    seq(count, i => vb)
  }

  /** The vbuckets among the first `k` whose active copy is on `producer`, once for every
      replica of theirs on `consumer`. */
  function VbucketsFrom(m: VbucketMap, k: nat, producer: nat, consumer: nat): seq<nat>
    requires k <= |m| && HasActive(m)
  {
    if k == 0 then []
    else
      VbucketsFrom(m, k - 1, producer, consumer) +
      if m[k - 1][0] == producer then Repeat(k - 1, Occurrences(m[k - 1][1..], consumer)) else []
  }

  method CollectVbuckets(m: VbucketMap, nodes: nat, me: nat) returns (vbids: array<seq<nat>>)
    requires OnNodes(m, nodes)
    ensures fresh(vbids) && vbids.Length == nodes
    ensures forall p :: 0 <= p < nodes ==> vbids[p] == VbucketsFrom(m, |m|, p, me)
  {
    vbids := new seq<nat>[nodes](_ => []);
    for vb := 0 to |m|
      invariant forall p :: 0 <= p < nodes ==> vbids[p] == VbucketsFrom(m, vb, p, me)
    {
      var active := m[vb][0];
      for node := 1 to |m[vb]|
        invariant forall p :: 0 <= p < nodes && p != active ==> vbids[p] == VbucketsFrom(m, vb, p, me)
        invariant vbids[active] == VbucketsFrom(m, vb, active, me) + Repeat(vb, Occurrences(m[vb][1..node], me))
      {
        assert m[vb][1..node + 1][..node - 1] == m[vb][1..node];
        if m[vb][node] == me {
          var seen := Occurrences(m[vb][1..node], me);
          assert Repeat(vb, seen) + [vb] == Repeat(vb, seen + 1);
          vbids[active] := vbids[active] + [vb];
        }
      }
      assert m[vb][1..|m[vb]|] == m[vb][1..];
    }
  }

  /** At most one pipeline from each of the first `k` nodes, with all it has to ask for. */
  function PipelinesFor(m: VbucketMap, me: nat, k: nat): seq<Pipeline>
    requires HasActive(m)
  {
    if k == 0 then []
    else
      var vbs := VbucketsFrom(m, |m|, k - 1, me);
      PipelinesFor(m, me, k - 1) + if vbs == [] then [] else [Pipeline(k - 1, me, vbs)]
  }

  function AllPipelines(m: VbucketMap, nodes: nat, k: nat): seq<Pipeline>
    requires HasActive(m)
  {
    if k == 0 then [] else AllPipelines(m, nodes, k - 1) + PipelinesFor(m, k - 1, nodes)
  }

  method CreatePipesForNode(m: VbucketMap, nodes: nat, me: nat) returns (pipelines: seq<Pipeline>)
    requires OnNodes(m, nodes)
    ensures pipelines == PipelinesFor(m, me, nodes)
  {
    var vbids := CollectVbuckets(m, nodes, me);
    pipelines := [];
    for node := 0 to nodes
      invariant pipelines == PipelinesFor(m, me, node)
    {
      if vbids[node] == [] {
        continue;
      }
      pipelines := pipelines + [Pipeline(node, me, vbids[node])];
    }
  }

  method CreatePipes(m: VbucketMap, nodes: nat) returns (pipelines: seq<Pipeline>)
    requires OnNodes(m, nodes)
    ensures pipelines == AllPipelines(m, nodes, nodes)
  {
    pipelines := [];
    for id := 0 to nodes
      invariant pipelines == AllPipelines(m, nodes, id)
    {
      var more := CreatePipesForNode(m, nodes, id);
      pipelines := pipelines + more;
    }
  }

  /** How many streams of `vb` from `producer` to `consumer` a set of pipelines asks for. */
  function StreamCount(pipelines: seq<Pipeline>, vb: nat, producer: nat, consumer: nat): nat {
    if pipelines == [] then 0
    else
      var last := pipelines[|pipelines| - 1];
      StreamCount(pipelines[..|pipelines| - 1], vb, producer, consumer) +
      if last.producer == producer && last.consumer == consumer then multiset(last.vbs)[vb] else 0
  }

  lemma {:induction false} StreamCountAppend(a: seq<Pipeline>, b: seq<Pipeline>, vb: nat, producer: nat, consumer: nat)
    ensures StreamCount(a + b, vb, producer, consumer) ==
            StreamCount(a, vb, producer, consumer) + StreamCount(b, vb, producer, consumer)
    decreases |b|
  {
    if b == [] {
      assert a + b == a;
    } else {
      assert (a + b)[..|a + b| - 1] == a + b[..|b| - 1];
      StreamCountAppend(a, b[..|b| - 1], vb, producer, consumer);
    }
  }

  lemma NoPipelines(vb: nat, producer: nat, consumer: nat)
    ensures StreamCount([], vb, producer, consumer) == 0
  {
  }

  lemma OnePipeline(p: Pipeline, vb: nat, producer: nat, consumer: nat)
    ensures StreamCount([p], vb, producer, consumer)
         == if p.producer == producer && p.consumer == consumer then multiset(p.vbs)[vb] else 0
  {
  }

  lemma RepeatCount(x: nat, count: nat, vb: nat)
    ensures multiset(Repeat(x, count))[vb] == if x == vb then count else 0
  {
    if count > 0 {
      assert Repeat(x, count) == Repeat(x, count - 1) + [x];
      RepeatCount(x, count - 1, vb);
    }
  }

  lemma {:induction false} VbucketsFromCount(m: VbucketMap, k: nat, producer: nat, consumer: nat, vb: nat)
    requires k <= |m| && HasActive(m)
    ensures multiset(VbucketsFrom(m, k, producer, consumer))[vb]
         == if vb < k && m[vb][0] == producer then Occurrences(m[vb][1..], consumer) else 0
  {
    hide Occurrences, Repeat;
    if k > 0 {
      VbucketsFromCount(m, k - 1, producer, consumer, vb);
      RepeatCount(k - 1, Occurrences(m[k - 1][1..], consumer), vb);
    }
  }

  lemma {:induction false} PipelinesForCount(m: VbucketMap, me: nat, k: nat, vb: nat, producer: nat, consumer: nat)
    requires HasActive(m)
    ensures StreamCount(PipelinesFor(m, me, k), vb, producer, consumer)
         == if producer < k && consumer == me then multiset(VbucketsFrom(m, |m|, producer, me))[vb] else 0
  {
    hide VbucketsFrom, StreamCount;
    NoPipelines(vb, producer, consumer);
    if k > 0 {
      PipelinesForCount(m, me, k - 1, vb, producer, consumer);
      var last := Pipeline(k - 1, me, VbucketsFrom(m, |m|, k - 1, me));
      assert PipelinesFor(m, me, k - 1) + [] == PipelinesFor(m, me, k - 1);
      StreamCountAppend(PipelinesFor(m, me, k - 1), [last], vb, producer, consumer);
      OnePipeline(last, vb, producer, consumer);
    }
  }

  lemma {:induction false} AllPipelinesCount(m: VbucketMap, nodes: nat, k: nat, vb: nat, producer: nat, consumer: nat)
    requires HasActive(m)
    ensures StreamCount(AllPipelines(m, nodes, k), vb, producer, consumer)
         == if producer < nodes && consumer < k then multiset(VbucketsFrom(m, |m|, producer, consumer))[vb] else 0
  {
    hide VbucketsFrom, PipelinesFor, StreamCount;
    if k == 0 {
      assert StreamCount([], vb, producer, consumer) == 0 by { NoPipelines(vb, producer, consumer); }
    } else {
      AllPipelinesCount(m, nodes, k - 1, vb, producer, consumer);
      StreamCountAppend(AllPipelines(m, nodes, k - 1), PipelinesFor(m, k - 1, nodes), vb, producer, consumer);
      PipelinesForCount(m, k - 1, nodes, vb, producer, consumer);
    }
  }

  lemma {:induction false} DistinctOccurs(chain: seq<nat>, node: nat)
    requires Distinct(chain)
    ensures Occurrences(chain, node) == if node in chain then 1 else 0
    decreases |chain|
  {
    if chain != [] {
      var init := chain[..|chain| - 1];
      DistinctOccurs(init, node);
      assert chain == init + [chain[|chain| - 1]];
    }
  }

  /** The streams set up for a bucket are one for each replica of each vbucket, from the node
      of the active copy to that of the replica; no others, and none from a node to itself. */
  lemma StreamsAreExact(m: VbucketMap, replicas: nat, nodes: nat, vb: nat, producer: nat, consumer: nat)
    requires 0 < nodes && replicas + 1 <= nodes && OnNodes(m, nodes) && RoundRobin(m, replicas, nodes)
    ensures StreamCount(AllPipelines(m, nodes, nodes), vb, producer, consumer)
         == if vb < |m| && m[vb][0] == producer && consumer in m[vb][1..] then 1 else 0
    ensures StreamCount(AllPipelines(m, nodes, nodes), vb, producer, producer) == 0
  {
    hide AllPipelines, StreamCount, VbucketsFrom, Occurrences, RoundRobin;
    forall c ensures StreamCount(AllPipelines(m, nodes, nodes), vb, producer, c)
                  == if vb < |m| && m[vb][0] == producer && c in m[vb][1..] then 1 else 0 {
      AllPipelinesCount(m, nodes, nodes, vb, producer, c);
      VbucketsFromCount(m, |m|, producer, c, vb);
      if vb < |m| {
        ChainIsDistinct(m, replicas, nodes, vb);
        DistinctOccurs(m[vb][1..], c);
      }
    }
    if vb < |m| { ChainIsDistinct(m, replicas, nodes, vb); }
  }
}
