// The clustering search of src/services/fraud/split_tx_detector.py: adjacency
// lists, the growing queue, and the clusters built from it, proved to be exactly
// the connected components of the link graph.
module GraphClustering {
  import opened Basics
  import opened LinkGraph

  datatype Edge = Edge(to: nat, reason: Reason)

  datatype TransactionCluster = TransactionCluster(
    ordinal: nat,                 // the number at the end of the cluster id
    tenantId: string,
    transactions: seq<TransactionEvent>,
    totalAmountScaled: int,
    custodians: set<string>,
    merchants: set<string>,
    windowStart: int,
    windowEnd: int,
    isSmurfing: bool,
    linkReasons: set<Reason>)

  // ----- adjacency lists -----

  // The edges of event i towards the first m events, in index order.
  function Neighbours(g: Graph, i: nat, m: nat): seq<Edge> {
    if m == 0 then []
    else Neighbours(g, i, m - 1) + (if g.Linked(i, m - 1) then [Edge(m - 1, g.ReasonFor(i, m - 1))] else [])
  }

  // The list holds the links of event i towards the first m events, with their reasons.
  ghost predicate AreLinksOf(g: Graph, i: nat, edges: seq<Edge>, m: nat) {
    && (forall k :: 0 <= k < |edges| ==> edges[k].to < m && IsLinkEdge(g, i, edges[k]))
    && (forall j: nat :: j < m && g.Linked(i, j) ==> Edge(j, g.ReasonFor(i, j)) in edges)
  }

  ghost predicate IsLinkEdge(g: Graph, i: nat, edge: Edge) {
    g.Linked(i, edge.to) && edge.reason == g.ReasonFor(i, edge.to)
  }

  lemma {:induction false} NeighboursAreTheLinks(g: Graph, i: nat, m: nat)
    ensures AreLinksOf(g, i, Neighbours(g, i, m), m)
  {
    if m == 0 {
    } else {
      NeighboursAreTheLinks(g, i, m - 1);
    }
  }

  // How much of the list of event k is filled in when the pair (i, j) is next.
  function FilledTo(n: nat, i: nat, j: nat, k: nat): nat {
    if k < i then n else if k == i then j else if k < j then i + 1 else i
  }

  lemma PairFilled(g: Graph, i: nat, j: nat)
    requires i < j < |g.events|
    ensures var reason := LinkReason(g.events[i], g.events[j], g.windowSeconds);
            && Neighbours(g, i, j + 1) == Neighbours(g, i, j) + (if reason.Some? then [Edge(j, reason.value)] else [])
            && Neighbours(g, j, i + 1) == Neighbours(g, j, i) + (if reason.Some? then [Edge(i, reason.value)] else [])
  {
  }

  method BuildAdjacency(g: Graph) returns (adj: seq<seq<Edge>>)
    ensures |adj| == |g.events|
    ensures forall i :: 0 <= i < |adj| ==> adj[i] == Neighbours(g, i, |g.events|)
  {
    var n := |g.events|;
    adj := seq(n, i => []);
    for i := 0 to n
      invariant |adj| == n
      invariant forall k :: 0 <= k < n ==> adj[k] == Neighbours(g, k, if k < i then n else i)
    {
      for j := i + 1 to n
        invariant |adj| == n
        invariant forall k :: 0 <= k < n ==> adj[k] == Neighbours(g, k, FilledTo(n, i, j, k))
      {
        var reason := LinkReason(g.events[i], g.events[j], g.windowSeconds);
        PairFilled(g, i, j);
        if reason.Some? {
          adj := adj[i := adj[i] + [Edge(j, reason.value)]][j := adj[j] + [Edge(i, reason.value)]];
        }
      }
    }
  }

  // ----- the search from one event -----

  // Every reason of a link inside s.
  ghost predicate AreReasonsWithin(g: Graph, s: set<nat>, reasons: set<Reason>) {
    forall r :: r in reasons <==> IsReasonWithin(g, s, r)
  }

  ghost predicate IsReasonWithin(g: Graph, s: set<nat>, r: Reason) {
    exists i, j :: i in s && j in s && g.Linked(i, j) && g.ReasonFor(i, j) == r
  }

  predicate IndicesBelow(c: seq<nat>, n: nat) {
    forall k :: 0 <= k < |c| ==> c[k] < n
  }

  // c lists one component, each event once, starting from its first event, and
  // every later entry is linked to an earlier one.
  ghost predicate ListsComponent(g: Graph, c: seq<nat>) {
    && c != []
    && NoDup(c)
    && IndicesBelow(c, |g.events|)
    && Elems(c) == g.Component(c[0])
    && EarlierLinks(g, c)
  }

  ghost predicate EarlierLinks(g: Graph, c: seq<nat>) {
    forall p :: 0 < p < |c| ==> HasEarlierLink(g, c, p)
  }

  ghost predicate HasEarlierLink(g: Graph, c: seq<nat>, p: nat)
    requires p < |c|
  {
    exists q :: 0 <= q < p && g.Linked(c[q], c[p])
  }

  // What the queue satisfies while its first pos entries have been expanded.
  ghost predicate QueueInvariant(g: Graph, start: nat, before: set<nat>, visited: set<nat>, queue: seq<nat>) {
    && queue != []
    && queue[0] == start
    && NoDup(queue)
    && IndicesBelow(queue, |g.events|)
    && Elems(queue) !! before
    && visited == before + Elems(queue)
    && Elems(queue) <= g.Component(start)
    && EarlierLinks(g, queue)
  }

  ghost predicate Expanded(g: Graph, i: nat, visited: set<nat>, reasons: set<Reason>, m: nat) {
    forall j: nat :: j < m && g.Linked(i, j) ==> j in visited && g.ReasonFor(i, j) in reasons
  }

  lemma QueueFits(g: Graph, start: nat, before: set<nat>, visited: set<nat>, queue: seq<nat>)
    requires QueueInvariant(g, start, before, visited, queue)
    ensures |queue| <= |g.events|
  {
    NoDupCount(queue);
    SubsetCount(Elems(queue), Range(|g.events|));
  }

  lemma QueueGrows(g: Graph, start: nat, before: set<nat>, visited: set<nat>, queue: seq<nat>, pos: nat, j: nat)
    requires QueueInvariant(g, start, before, visited, queue)
    requires pos < |queue| && g.Linked(queue[pos], j) && j !in visited
    ensures QueueInvariant(g, start, before, visited + {j}, queue + [j])
  {
    var grown := queue + [j];
    assert Elems(grown) == Elems(queue) + {j};
    assert queue[pos] in Elems(queue);
    g.ConnectedExtends(start, queue[pos], j);
    forall p | 0 < p < |grown| ensures HasEarlierLink(g, grown, p) {
      if p < |queue| {
        assert HasEarlierLink(g, queue, p);
        var q :| 0 <= q < p && g.Linked(queue[q], queue[p]);
        assert g.Linked(grown[q], grown[p]);
      } else {
        assert g.Linked(grown[pos], grown[p]);
      }
    }
  }

  ghost predicate AllExpanded(g: Graph, queue: seq<nat>, pos: nat, visited: set<nat>, reasons: set<Reason>)
    requires pos <= |queue|
  {
    forall k :: 0 <= k < pos ==> Expanded(g, queue[k], visited, reasons, |g.events|)
  }

  ghost predicate ReasonsAreLinks(g: Graph, queue: seq<nat>, reasons: set<Reason>) {
    forall r :: r in reasons ==> IsReasonWithin(g, Elems(queue), r)
  }

  lemma ReasonsStayLinks(g: Graph, queue: seq<nat>, grown: seq<nat>, reasons: set<Reason>)
    requires ReasonsAreLinks(g, queue, reasons) && queue <= grown
    ensures ReasonsAreLinks(g, grown, reasons)
  {
    forall r | r in reasons ensures IsReasonWithin(g, Elems(grown), r) {
      var i, j :| i in Elems(queue) && j in Elems(queue) && g.Linked(i, j) && g.ReasonFor(i, j) == r;
      assert i in Elems(grown) && j in Elems(grown);
    }
  }

  // When every entry has been expanded, the queue is the whole component.
  lemma QueueIsComponent(g: Graph, start: nat, before: set<nat>, visited: set<nat>, queue: seq<nat>, reasons: set<Reason>)
    requires QueueInvariant(g, start, before, visited, queue)
    requires g.Closed(before)
    requires AllExpanded(g, queue, |queue|, visited, reasons)
    requires ReasonsAreLinks(g, queue, reasons)
    ensures ListsComponent(g, queue)
    ensures AreReasonsWithin(g, Elems(queue), reasons)
    ensures g.Closed(visited)
  {
    forall i, j | i in Elems(queue) && g.Linked(i, j) ensures j in Elems(queue) && g.ReasonFor(i, j) in reasons {
      LinkIsExpanded(g, before, visited, queue, reasons, i, j);
    }
    assert start in Elems(queue);
    g.ClosedHoldsComponent(Elems(queue), start);
  }

  lemma LinkIsExpanded(g: Graph, before: set<nat>, visited: set<nat>, queue: seq<nat>, reasons: set<Reason>, i: nat, j: nat)
    requires g.Closed(before) && visited == before + Elems(queue) && Elems(queue) !! before
    requires AllExpanded(g, queue, |queue|, visited, reasons)
    requires i in Elems(queue) && g.Linked(i, j)
    ensures j in Elems(queue) && g.ReasonFor(i, j) in reasons
  {
    var k :| 0 <= k < |queue| && queue[k] == i;
    assert Expanded(g, queue[k], visited, reasons, |g.events|);
    assert g.Linked(j, i);
  }

  method Explore(g: Graph, adj: seq<seq<Edge>>, start: nat, before: set<nat>)
    returns (component: seq<nat>, visited: set<nat>, reasons: set<Reason>)
    requires |adj| == |g.events|
    requires forall i :: 0 <= i < |adj| ==> adj[i] == Neighbours(g, i, |g.events|)
    requires start < |g.events| && start !in before
    requires g.Closed(before)
    ensures ListsComponent(g, component) && component[0] == start
    ensures visited == before + g.Component(start)
    ensures g.Component(start) !! before
    ensures g.Closed(visited)
    ensures AreReasonsWithin(g, g.Component(start), reasons)
  {
    var queue := [start];
    visited := before + {start};
    reasons := {};
    g.ConnectedToItself(start);
    var pos := 0;
    while pos < |queue|
      invariant pos <= |queue|
      invariant Searching(g, start, before, visited, queue, reasons)
      invariant AllExpanded(g, queue, pos, visited, reasons)
      decreases |g.events| - pos
    {
      QueueFits(g, start, before, visited, queue);
      var current := queue[pos];
      NeighboursAreTheLinks(g, current, |g.events|);
      queue, visited, reasons := Expand(g, adj[current], start, before, visited, queue, reasons, pos);
      pos := pos + 1;
    }
    QueueIsComponent(g, start, before, visited, queue, reasons);
    component := queue;
  }

  // The inner loop: the neighbours of the entry at pos.
  method Expand(g: Graph, edges: seq<Edge>, ghost start: nat, ghost before: set<nat>, visited0: set<nat>, queue0: seq<nat>,
                reasons0: set<Reason>, ghost pos: nat)
    returns (queue: seq<nat>, visited: set<nat>, reasons: set<Reason>)
    requires pos < |queue0| && g.Closed(before)
    requires Searching(g, start, before, visited0, queue0, reasons0)
    requires AreLinksOf(g, queue0[pos], edges, |g.events|)
    ensures queue0 <= queue && visited0 <= visited && reasons0 <= reasons
    ensures Searching(g, start, before, visited, queue, reasons)
    ensures Expanded(g, queue[pos], visited, reasons, |g.events|)
  {
    queue, visited, reasons := queue0, visited0, reasons0;
    for k := 0 to |edges|
      invariant queue0 <= queue && visited0 <= visited && reasons0 <= reasons
      invariant Searching(g, start, before, visited, queue, reasons)
      invariant Followed(edges, k, visited, reasons)
    {
      var edge := edges[k];
      assert IsLinkEdge(g, queue0[pos], edge);
      EdgeFollowed(g, start, before, visited, queue, reasons, pos, edge);
      if edge.to !in visited {
        queue := queue + [edge.to];
      }
      FollowedOneMore(edges, k, visited, reasons);
      visited, reasons := visited + {edge.to}, reasons + {edge.reason};
    }
    NeighboursExpanded(g, queue0[pos], edges, visited, reasons);
  }

  // The ends and the reasons of the first m edges have been recorded.
  ghost predicate Followed(edges: seq<Edge>, m: nat, visited: set<nat>, reasons: set<Reason>)
    requires m <= |edges|
  {
    forall l :: 0 <= l < m ==> edges[l].to in visited && edges[l].reason in reasons
  }

  lemma FollowedOneMore(edges: seq<Edge>, m: nat, visited: set<nat>, reasons: set<Reason>)
    requires m < |edges| && Followed(edges, m, visited, reasons)
    ensures Followed(edges, m + 1, visited + {edges[m].to}, reasons + {edges[m].reason})
  {
  }

  ghost predicate Searching(g: Graph, start: nat, before: set<nat>, visited: set<nat>, queue: seq<nat>, reasons: set<Reason>) {
    QueueInvariant(g, start, before, visited, queue) && ReasonsAreLinks(g, queue, reasons)
  }

  lemma EdgeFollowed(g: Graph, start: nat, before: set<nat>, visited: set<nat>, queue: seq<nat>, reasons: set<Reason>, pos: nat, edge: Edge)
    requires pos < |queue| && g.Closed(before)
    requires Searching(g, start, before, visited, queue, reasons)
    requires IsLinkEdge(g, queue[pos], edge)
    ensures Searching(g, start, before, visited + {edge.to}, if edge.to in visited then queue else queue + [edge.to], reasons + {edge.reason})
  {
    if edge.to in visited {
      assert visited + {edge.to} == visited;
      ReasonAdded(g, start, before, visited, queue, reasons, pos, edge);
    } else {
      QueueGrows(g, start, before, visited, queue, pos, edge.to);
      ReasonsStayLinks(g, queue, queue + [edge.to], reasons);
      ReasonAdded(g, start, before, visited + {edge.to}, queue + [edge.to], reasons, pos, edge);
    }
  }

  lemma ReasonAdded(g: Graph, start: nat, before: set<nat>, visited: set<nat>, queue: seq<nat>, reasons: set<Reason>, pos: nat, edge: Edge)
    requires pos < |queue| && g.Closed(before) && QueueInvariant(g, start, before, visited, queue)
    requires IsLinkEdge(g, queue[pos], edge)
    requires edge.to in visited
    requires ReasonsAreLinks(g, queue, reasons)
    ensures ReasonsAreLinks(g, queue, reasons + {edge.reason})
  {
    assert queue[pos] in Elems(queue) && g.Linked(edge.to, queue[pos]);
    assert IsReasonWithin(g, Elems(queue), edge.reason);
  }

  lemma NeighboursExpanded(g: Graph, i: nat, edges: seq<Edge>, visited: set<nat>, reasons: set<Reason>)
    requires AreLinksOf(g, i, edges, |g.events|)
    requires Followed(edges, |edges|, visited, reasons)
    ensures Expanded(g, i, visited, reasons, |g.events|)
  {
    forall j: nat | j < |g.events| && g.Linked(i, j) ensures j in visited && g.ReasonFor(i, j) in reasons {
      assert Edge(j, g.ReasonFor(i, j)) in edges;
    }
  }

  // ----- the clusters of a window -----

  function MinTime(es: seq<TransactionEvent>): (t: int)
    requires es != []
    ensures exists e :: e in es && e.timestamp == t
    ensures forall e :: e in es ==> t <= e.timestamp
  {
    if |es| == 1 then es[0].timestamp
    else
      var rest := MinTime(es[1..]);
      assert forall e :: e in es ==> e == es[0] || e in es[1..];
      if es[0].timestamp < rest then es[0].timestamp else rest
  }

  function MaxTime(es: seq<TransactionEvent>): (t: int)
    requires es != []
    ensures exists e :: e in es && e.timestamp == t
    ensures forall e :: e in es ==> e.timestamp <= t
  {
    if |es| == 1 then es[0].timestamp
    else
      var rest := MaxTime(es[1..]);
      assert forall e :: e in es ==> e == es[0] || e in es[1..];
      if es[0].timestamp > rest then es[0].timestamp else rest
  }

  function Select(es: seq<TransactionEvent>, indices: seq<nat>): seq<TransactionEvent>
    requires IndicesBelow(indices, |es|)
  {
    seq(|indices|, k requires 0 <= k < |indices| => es[indices[k]])
  }

  lemma {:induction false} SelectedSum(es: seq<TransactionEvent>, indices: seq<nat>)
    requires IndicesBelow(indices, |es|)
    requires NoDup(indices)
    ensures SumAmounts(Select(es, indices)) == SumAt(es, Elems(indices), |es|)
  {
    if indices == [] {
      SumAtNone(es, Elems(indices), |es|);
    } else {
      var front, last := indices[..|indices| - 1], indices[|indices| - 1];
      SelectedSum(es, front);
      assert Select(es, indices)[..|indices| - 1] == Select(es, front);
      assert Elems(indices) == Elems(front) + {last};
      SumAtUnion(es, Elems(front), {last}, |es|);
      SumAtSingleton(es, last, |es|);
    }
  }

  // What a cluster says about the events whose indices are s.
  ghost predicate Summarizes(g: Graph, cluster: TransactionCluster, s: set<nat>)
    requires forall i :: i in s ==> i < |g.events|
  {
    && cluster.totalAmountScaled == SumAt(g.events, s, |g.events|)
    && cluster.custodians == (set i | i in s :: g.events[i].custodianId)
    && cluster.merchants == (set i | i in s && Given(g.events[i].merchantId) :: g.events[i].merchantId.value)
    && (cluster.isSmurfing <==> exists i, j :: i in s && j in s && g.events[i].custodianId != g.events[j].custodianId)
    && AreReasonsWithin(g, s, cluster.linkReasons)
    && SpansTimes(g, cluster, s)
  }

  // The window bounds are the earliest and the latest time stamp.
  ghost predicate SpansTimes(g: Graph, cluster: TransactionCluster, s: set<nat>)
    requires forall i :: i in s ==> i < |g.events|
  {
    && (forall i :: i in s ==> cluster.windowStart <= g.events[i].timestamp <= cluster.windowEnd)
    && (exists i :: i in s && g.events[i].timestamp == cluster.windowStart)
    && (exists i :: i in s && g.events[i].timestamp == cluster.windowEnd)
  }

  predicate StartsAtLeast(c: seq<nat>)
    requires c != []
  {
    forall k :: 0 <= k < |c| ==> c[0] <= c[k]
  }

  // The cluster describes the component that c lists, starting from its first event.
  ghost predicate Reports(g: Graph, cluster: TransactionCluster, c: seq<nat>) {
    && ListsComponent(g, c)
    && StartsAtLeast(c)
    && cluster.transactions == Select(g.events, c)
    && Summarizes(g, cluster, g.Component(c[0]))
  }

  function CustodiansOf(es: seq<TransactionEvent>): set<string> {
    set e | e in es :: e.custodianId
  }

  function MerchantsOf(es: seq<TransactionEvent>): set<string> {
    set e | e in es && Given(e.merchantId) :: e.merchantId.value
  }

  function MakeCluster(g: Graph, tenantId: string, ordinal: nat, c: seq<nat>, reasons: set<Reason>): TransactionCluster
    requires c != [] && IndicesBelow(c, |g.events|)
  {
    var es := Select(g.events, c);
    TransactionCluster(ordinal, tenantId, es, SumAmounts(es), CustodiansOf(es), MerchantsOf(es),
                       MinTime(es), MaxTime(es), |CustodiansOf(es)| > 1, reasons)
  }

  lemma TwoElements<T>(s: set<T>)
    ensures |s| > 1 <==> exists x, y :: x in s && y in s && x != y
  {
    if x, y :| x in s && y in s && x != y {
      SubsetCount({x, y}, s);
    }
    if |s| > 1 {
      var x :| x in s;
      assert |s - {x}| > 0;
      var y :| y in s - {x};
    }
  }

  lemma SelectedMembers(es: seq<TransactionEvent>, c: seq<nat>)
    requires IndicesBelow(c, |es|)
    ensures forall i :: i in Elems(c) ==> i < |es| && es[i] in Select(es, c)
    ensures forall e :: e in Select(es, c) ==> exists i :: i in Elems(c) && es[i] == e
  {
    forall i | i in Elems(c) ensures i < |es| && es[i] in Select(es, c) {
      var k :| 0 <= k < |c| && c[k] == i;
      assert Select(es, c)[k] == es[i];
    }
    forall e | e in Select(es, c) ensures exists i :: i in Elems(c) && es[i] == e {
      var k :| 0 <= k < |c| && Select(es, c)[k] == e;
      assert c[k] in Elems(c);
    }
  }

  lemma MadeClusterSpansTimes(g: Graph, cluster: TransactionCluster, c: seq<nat>)
    requires c != [] && IndicesBelow(c, |g.events|)
    requires cluster.windowStart == MinTime(Select(g.events, c))
    requires cluster.windowEnd == MaxTime(Select(g.events, c))
    ensures forall i :: i in Elems(c) ==> i < |g.events|
    ensures SpansTimes(g, cluster, Elems(c))
  {
    SelectedMembers(g.events, c);
  }

  lemma NamesInvolved(events: seq<TransactionEvent>, es: seq<TransactionEvent>, s: set<nat>)
    requires forall i :: i in s ==> i < |events| && events[i] in es
    requires forall e :: e in es ==> exists i :: i in s && events[i] == e
    ensures CustodiansOf(es) == (set i | i in s :: events[i].custodianId)
    ensures MerchantsOf(es) == (set i | i in s && Given(events[i].merchantId) :: events[i].merchantId.value)
  {
  }

  lemma SeveralCustodians(events: seq<TransactionEvent>, s: set<nat>)
    requires forall i :: i in s ==> i < |events|
    ensures |(set i | i in s :: events[i].custodianId)| > 1 <==>
            exists i, j :: i in s && j in s && events[i].custodianId != events[j].custodianId
  {
    var names := set i | i in s :: events[i].custodianId;
    TwoElements(names);
    if i, j :| i in s && j in s && events[i].custodianId != events[j].custodianId {
      assert events[i].custodianId in names && events[j].custodianId in names;
    }
  }

  lemma MadeClusterReports(g: Graph, tenantId: string, ordinal: nat, c: seq<nat>, reasons: set<Reason>)
    requires ListsComponent(g, c) && StartsAtLeast(c)
    requires AreReasonsWithin(g, g.Component(c[0]), reasons)
    ensures Reports(g, MakeCluster(g, tenantId, ordinal, c, reasons), c)
  {
    var cluster := MakeCluster(g, tenantId, ordinal, c, reasons);
    SelectedSum(g.events, c);
    MadeClusterSpansTimes(g, cluster, c);
    SelectedMembers(g.events, c);
    NamesInvolved(g.events, cluster.transactions, Elems(c));
    SeveralCustodians(g.events, Elems(c));
  }

  // The clusters, in order, report distinct components of at least minTxCount
  // events and miss none of them.
  ghost predicate IsClustering(g: Graph, tenantId: string, minTxCount: int, clusters: seq<TransactionCluster>, comps: seq<seq<nat>>) {
    && |clusters| == |comps|
    && AreEntries(g, tenantId, minTxCount, clusters, comps)
    && StartsAscend(comps)
    && (forall i: nat :: i < |g.events| && |g.Component(i)| >= minTxCount ==> IsListed(comps, i))
  }

  ghost predicate AreEntries(g: Graph, tenantId: string, minTxCount: int, clusters: seq<TransactionCluster>, comps: seq<seq<nat>>)
    requires |clusters| == |comps|
  {
    forall k :: 0 <= k < |comps| ==> comps[k] != [] && IsEntry(g, tenantId, minTxCount, clusters[k], comps[k], k)
  }

  // The clusters come in the order of their first events.
  ghost predicate StartsAscend(comps: seq<seq<nat>>)
    requires forall k :: 0 <= k < |comps| ==> comps[k] != []
  {
    forall k, l :: 0 <= k < l < |comps| ==> comps[k][0] < comps[l][0]
  }

  ghost predicate IsEntry(g: Graph, tenantId: string, minTxCount: int, cluster: TransactionCluster, c: seq<nat>, k: nat) {
    && c != []
    && Reports(g, cluster, c)
    && |c| >= minTxCount
    && cluster.tenantId == tenantId
    && cluster.ordinal == k + 1
  }

  ghost predicate IsListed(comps: seq<seq<nat>>, i: nat) {
    exists k :: 0 <= k < |comps| && i in comps[k]
  }

  // The state of the outer loop when the events below i have been covered.
  ghost predicate ClusteredUpTo(g: Graph, tenantId: string, minTxCount: int, clusters: seq<TransactionCluster>, comps: seq<seq<nat>>,
                                visited: set<nat>, i: nat)
  {
    && g.Closed(visited)
    && (forall j: nat :: j < i ==> j in visited)
    && |clusters| == |comps|
    && AreEntries(g, tenantId, minTxCount, clusters, comps)
    && (forall k :: 0 <= k < |comps| ==> comps[k][0] < i)
    && StartsAscend(comps)
    && (forall j :: j in visited && |g.Component(j)| >= minTxCount ==> IsListed(comps, j))
  }

  // What a caller sees of a clustering.
  ghost predicate ClustersTheWindow(g: Graph, tenantId: string, minTxCount: int, clusters: seq<TransactionCluster>) {
    if |g.events| < 2 then clusters == [] else exists comps :: IsClustering(g, tenantId, minTxCount, clusters, comps)
  }

  method ClusterEvents(g: Graph, tenantId: string, minTxCount: int)
    returns (clusters: seq<TransactionCluster>, ghost comps: seq<seq<nat>>)
    ensures |g.events| < 2 ==> clusters == [] && comps == []
    ensures |g.events| >= 2 ==> IsClustering(g, tenantId, minTxCount, clusters, comps)
    ensures ClustersTheWindow(g, tenantId, minTxCount, clusters)
  {
    clusters, comps := [], [];
    var n := |g.events|;
    if n < 2 {
      return;
    }
    var adj := BuildAdjacency(g);
    var visited: set<nat> := {};
    for i := 0 to n
      invariant ClusteredUpTo(g, tenantId, minTxCount, clusters, comps, visited, i)
    {
      if i !in visited {
        var component, visited', reasons := Explore(g, adj, i, visited);
        LeastFirst(g, component, visited, i);
        if |component| >= minTxCount {
          var cluster := MakeCluster(g, tenantId, |clusters| + 1, component, reasons);
          MadeClusterReports(g, tenantId, |clusters| + 1, component, reasons);
          ClusterAdded(g, tenantId, minTxCount, clusters, comps, visited, i, cluster, component);
          clusters, comps := clusters + [cluster], comps + [component];
        } else {
          SmallComponentDropped(g, tenantId, minTxCount, clusters, comps, visited, i, component);
        }
        visited := visited';
      }
    }
    AllCovered(g, tenantId, minTxCount, clusters, comps, visited);
  }

  lemma AllCovered(g: Graph, tenantId: string, minTxCount: int, clusters: seq<TransactionCluster>, comps: seq<seq<nat>>, visited: set<nat>)
    requires ClusteredUpTo(g, tenantId, minTxCount, clusters, comps, visited, |g.events|)
    ensures IsClustering(g, tenantId, minTxCount, clusters, comps)
  {
  }

  lemma LeastFirst(g: Graph, component: seq<nat>, before: set<nat>, i: nat)
    requires ListsComponent(g, component) && component[0] == i
    requires g.Component(i) !! before
    requires forall j: nat :: j < i ==> j in before
    ensures StartsAtLeast(component)
  {
    forall k | 0 <= k < |component| ensures i <= component[k] {
      assert component[k] in Elems(component);
    }
  }

  lemma {:induction false} ClusterAdded(g: Graph, tenantId: string, minTxCount: int, clusters: seq<TransactionCluster>, comps: seq<seq<nat>>,
                     visited: set<nat>, i: nat, cluster: TransactionCluster, component: seq<nat>)
    requires i < |g.events|
    requires ClusteredUpTo(g, tenantId, minTxCount, clusters, comps, visited, i)
    requires IsEntry(g, tenantId, minTxCount, cluster, component, |comps|) && component[0] == i
    requires g.Closed(visited + g.Component(i))
    ensures ClusteredUpTo(g, tenantId, minTxCount, clusters + [cluster], comps + [component], visited + g.Component(i), i + 1)
  {
    g.ConnectedToItself(i);
    ListingGrows(g, minTxCount, visited, comps, component);
  }

  lemma ListingGrows(g: Graph, minTxCount: int, visited: set<nat>, comps: seq<seq<nat>>, component: seq<nat>)
    requires forall j :: j in visited && |g.Component(j)| >= minTxCount ==> IsListed(comps, j)
    ensures forall j :: j in visited + Elems(component) && |g.Component(j)| >= minTxCount ==> IsListed(comps + [component], j)
  {
    var comps' := comps + [component];
    forall j | j in visited + Elems(component) && |g.Component(j)| >= minTxCount ensures IsListed(comps', j) {
      if j in Elems(component) {
        assert j in comps'[|comps|];
      } else {
        assert IsListed(comps, j);
        var k :| 0 <= k < |comps| && j in comps[k];
        assert j in comps'[k];
      }
    }
  }

  lemma SmallComponentDropped(g: Graph, tenantId: string, minTxCount: int, clusters: seq<TransactionCluster>, comps: seq<seq<nat>>,
                              visited: set<nat>, i: nat, component: seq<nat>)
    requires i < |g.events|
    requires ClusteredUpTo(g, tenantId, minTxCount, clusters, comps, visited, i)
    requires ListsComponent(g, component) && component[0] == i && |component| < minTxCount
    requires g.Closed(visited + g.Component(i))
    ensures ClusteredUpTo(g, tenantId, minTxCount, clusters, comps, visited + g.Component(i), i + 1)
  {
    g.ConnectedToItself(i);
    NoDupCount(component);
    SameSizeInside(g, i);
  }

  lemma SameSizeInside(g: Graph, i: nat)
    requires i < |g.events|
    ensures forall j :: j in g.Component(i) ==> g.Component(j) == g.Component(i)
  {
    forall j | j in g.Component(i) ensures g.Component(j) == g.Component(i) {
      g.ComponentsAgree(i, j);
    }
  }

  // ----- what a clustering means -----

  // Each cluster is one component: linked to nothing outside, linked inside by
  // paths, and no event is in two clusters.
  lemma ClustersAreComponents(g: Graph, tenantId: string, minTxCount: int, clusters: seq<TransactionCluster>, comps: seq<seq<nat>>, k: nat)
    requires IsClustering(g, tenantId, minTxCount, clusters, comps)
    requires k < |comps|
    ensures forall i, j :: i in comps[k] && j in comps[k] ==> g.Connected(i, j)
    ensures forall i, j :: i in comps[k] && g.Linked(i, j) ==> j in comps[k]
    ensures forall l :: 0 <= l < |comps| && l != k ==> Elems(comps[k]) !! Elems(comps[l])
  {
    var c := comps[k];
    assert ListsComponent(g, c);
    g.ComponentIsClosed(c[0]);
    assert forall i :: i in c ==> i in Elems(c);
    forall i, j | i in c && j in c ensures g.Connected(i, j) {
      g.ComponentsAgree(c[0], i);
      assert j in g.Component(i);
    }
    forall l | 0 <= l < |comps| && l != k ensures Elems(c) !! Elems(comps[l]) {
      g.ComponentsPartition(c[0], comps[l][0]);
      assert c[0] in Elems(c) && comps[l][0] in Elems(comps[l]);
      if g.Component(c[0]) == g.Component(comps[l][0]) {
        assert false;
      }
    }
  }

  // An event is in a cluster exactly when its component is large enough.
  lemma ListedExactlyWhenLarge(g: Graph, tenantId: string, minTxCount: int, clusters: seq<TransactionCluster>, comps: seq<seq<nat>>, i: nat)
    requires IsClustering(g, tenantId, minTxCount, clusters, comps)
    requires i < |g.events|
    ensures IsListed(comps, i) <==> |g.Component(i)| >= minTxCount
  {
    if k :| 0 <= k < |comps| && i in comps[k] {
      assert i in Elems(comps[k]);
      g.ComponentsAgree(comps[k][0], i);
      NoDupCount(comps[k]);
    }
  }

  ghost function ListedIn(comps: seq<seq<nat>>, k: nat): set<nat>
    requires k <= |comps|
  {
    if k == 0 then {} else ListedIn(comps, k - 1) + Elems(comps[k - 1])
  }

  ghost function TotalOf(clusters: seq<TransactionCluster>, k: nat): int
    requires k <= |clusters|
  {
    if k == 0 then 0 else TotalOf(clusters, k - 1) + clusters[k - 1].totalAmountScaled
  }

  lemma {:induction false} ListedInUpTo(comps: seq<seq<nat>>, k: nat)
    requires k <= |comps|
    ensures forall i :: i in ListedIn(comps, k) <==> exists l :: 0 <= l < k && i in comps[l]
  {
    if k == 0 {
    } else {
      ListedInUpTo(comps, k - 1);
    }
  }

  lemma {:induction false} ListedBeforeIsDisjoint(g: Graph, tenantId: string, minTxCount: int, clusters: seq<TransactionCluster>, comps: seq<seq<nat>>, k: nat)
    requires IsClustering(g, tenantId, minTxCount, clusters, comps)
    requires k < |comps|
    ensures ListedIn(comps, k) !! Elems(comps[k])
  {
    ClustersAreComponents(g, tenantId, minTxCount, clusters, comps, k);
    ListedInUpTo(comps, k);
    forall i | i in ListedIn(comps, k) ensures i !in Elems(comps[k]) {
      var l :| 0 <= l < k && i in comps[l];
      assert i in Elems(comps[l]);
    }
  }

  lemma EntryTotal(g: Graph, tenantId: string, minTxCount: int, clusters: seq<TransactionCluster>, comps: seq<seq<nat>>, k: nat)
    requires IsClustering(g, tenantId, minTxCount, clusters, comps)
    requires k < |comps|
    ensures clusters[k].totalAmountScaled == SumAt(g.events, Elems(comps[k]), |g.events|)
  {
    assert IsEntry(g, tenantId, minTxCount, clusters[k], comps[k], k);
  }

  lemma {:induction false} TotalsAddUp(g: Graph, clusters: seq<TransactionCluster>, comps: seq<seq<nat>>, k: nat)
    requires k <= |comps| == |clusters|
    requires forall l :: 0 <= l < k ==> clusters[l].totalAmountScaled == SumAt(g.events, Elems(comps[l]), |g.events|)
    requires forall l :: 0 <= l < k ==> ListedIn(comps, l) !! Elems(comps[l])
    ensures TotalOf(clusters, k) == SumAt(g.events, ListedIn(comps, k), |g.events|)
  {
    if k == 0 {
      SumAtNone(g.events, {}, |g.events|);
    } else {
      TotalsAddUp(g, clusters, comps, k - 1);
      SumAtUnion(g.events, ListedIn(comps, k - 1), Elems(comps[k - 1]), |g.events|);
    }
  }

  lemma {:induction false} ListedTotal(g: Graph, tenantId: string, minTxCount: int, clusters: seq<TransactionCluster>, comps: seq<seq<nat>>)
    requires IsClustering(g, tenantId, minTxCount, clusters, comps)
    ensures TotalOf(clusters, |clusters|) == SumAt(g.events, ListedIn(comps, |comps|), |g.events|)
  {
    forall l | 0 <= l < |comps|
      ensures clusters[l].totalAmountScaled == SumAt(g.events, Elems(comps[l]), |g.events|)
      ensures ListedIn(comps, l) !! Elems(comps[l])
    {
      EntryTotal(g, tenantId, minTxCount, clusters, comps, l);
      ListedBeforeIsDisjoint(g, tenantId, minTxCount, clusters, comps, l);
    }
    TotalsAddUp(g, clusters, comps, |comps|);
  }

  // The events whose component is too small to be reported.
  ghost function Dropped(g: Graph, minTxCount: int): set<nat> {
    set i | i in Range(|g.events|) && |g.Component(i)| < minTxCount
  }

  lemma ListedOrDropped(g: Graph, tenantId: string, minTxCount: int, clusters: seq<TransactionCluster>, comps: seq<seq<nat>>, i: nat)
    requires IsClustering(g, tenantId, minTxCount, clusters, comps)
    ensures i in ListedIn(comps, |comps|) ==> i !in Dropped(g, minTxCount)
    ensures i < |g.events| && i !in ListedIn(comps, |comps|) ==> i in Dropped(g, minTxCount)
  {
    ListedInUpTo(comps, |comps|);
    if i < |g.events| {
      ListedExactlyWhenLarge(g, tenantId, minTxCount, clusters, comps, i);
    }
  }

  // Conservation: what the clusters report plus what was dropped is the window total.
  lemma ClustersConserveTheWindow(g: Graph, tenantId: string, minTxCount: int, clusters: seq<TransactionCluster>, comps: seq<seq<nat>>)
    requires IsClustering(g, tenantId, minTxCount, clusters, comps)
    ensures TotalOf(clusters, |clusters|) + SumAt(g.events, Dropped(g, minTxCount), |g.events|) == SumAmounts(g.events)
  {
    var n, listed, dropped := |g.events|, ListedIn(comps, |comps|), Dropped(g, minTxCount);
    ListedTotal(g, tenantId, minTxCount, clusters, comps);
    forall i: nat ensures (i in listed ==> i !in dropped) && (i < n && i !in listed ==> i in dropped) {
      ListedOrDropped(g, tenantId, minTxCount, clusters, comps, i);
    }
    SumAtUnion(g.events, listed, dropped, n);
    SumAtAll(g.events, listed + dropped, n);
    assert g.events[..n] == g.events;
  }
}
