// The split-transaction detector (src/services/fraud/split_tx_detector.py): two
// families of deques, updated in place, and the alert decision taken on them.
module SplitTxDetector {
  import opened Basics
  import opened LinkGraph
  import opened GraphClustering
  import opened SlidingWindow

  datatype Config = Config(thresholdScaled: int, windowSeconds: int, minTxCount: int, enableGraphClustering: bool) {
    function Width(): int { windowSeconds * MICROS_PER_SECOND }
  }

  type WindowKey = (string, string)   // tenant, custodian

  datatype Windows = Windows(custodian: map<WindowKey, seq<TransactionEvent>>, tenant: map<string, seq<TransactionEvent>>)

  function Get<K, V>(m: map<K, seq<V>>, k: K): seq<V> {
    if k in m then m[k] else []
  }

  function Stamp(e: TransactionEvent): int { e.timestamp }

  datatype SplitTransactionAlert = SplitTransactionAlert(
    tenantId: string,
    custodianId: string,
    windowTransactionIds: seq<string>,
    windowTotalScaled: int,
    thresholdScaled: int,
    windowStart: int,
    windowEnd: int,
    clusterOrdinal: Option<nat>,        // the cluster id; None on the direct path
    isSmurfing: bool,
    custodiansInvolved: set<string>,
    merchantsInvolved: set<string>)

  // ----- how each operation changes the deques -----

  function EvictTenant(cfg: Config, w: Windows, tenant: string, reference: Option<int>): Windows {
    if Get(w.tenant, tenant) == [] || reference.None? then w
    else w.(tenant := w.tenant[tenant := Evict(w.tenant[tenant], Stamp, reference.value - cfg.Width())])
  }

  function EvictCustodian(cfg: Config, w: Windows, key: WindowKey, reference: Option<int>): Windows {
    if Get(w.custodian, key) == [] || reference.None? then w
    else w.(custodian := w.custodian[key := Evict(w.custodian[key], Stamp, reference.value - cfg.Width())])
  }

  function Push(cfg: Config, w: Windows, e: TransactionEvent): Windows {
    var key, cutoff := (e.tenantId, e.custodianId), e.timestamp - cfg.Width();
    Windows(w.custodian[key := Evict(Get(w.custodian, key), Stamp, cutoff) + [e]],
            w.tenant[e.tenantId := Evict(Get(w.tenant, e.tenantId), Stamp, cutoff) + [e]])
  }

  function RecordStep(cfg: Config, w: Windows, e: TransactionEvent): Windows {
    if cfg.enableGraphClustering then EvictTenant(cfg, Push(cfg, w, e), e.tenantId, Some(e.timestamp))
    else Push(cfg, w, e)
  }

  function Without(es: seq<TransactionEvent>, custodian: string): seq<TransactionEvent> {
    if es == [] then []
    else Without(es[..|es| - 1], custodian) + (if es[|es| - 1].custodianId != custodian then [es[|es| - 1]] else [])
  }

  function ClearCustodianStep(w: Windows, tenant: string, custodian: string): Windows {
    Windows(w.custodian - {(tenant, custodian)},
            if Get(w.tenant, tenant) == [] then w.tenant else w.tenant[tenant := Without(w.tenant[tenant], custodian)])
  }

  function ClearTenantStep(w: Windows, tenant: string): Windows {
    Windows(map k | k in w.custodian && k.0 != tenant :: w.custodian[k], w.tenant - {tenant})
  }

  // ----- what the alert decision means -----

  ghost predicate Offends(cfg: Config, g: Graph, id: string, i: nat) {
    && i < |g.events|
    && (exists j :: j in g.Component(i) && g.events[j].transactionId == id)
    && |g.Component(i)| >= cfg.minTxCount
    && SumAt(g.events, g.Component(i), |g.events|) > cfg.thresholdScaled
  }

  // Some component that holds the event id is large enough and above the threshold.
  ghost predicate ClusterRuleBroken(cfg: Config, g: Graph, id: string) {
    |g.events| >= 2 && exists i :: Offends(cfg, g, id, i)
  }

  predicate CustodianRuleBroken(cfg: Config, w: seq<TransactionEvent>) {
    |w| >= cfg.minTxCount && SumAmounts(w) > cfg.thresholdScaled
  }

  // The alert reports the first offending component, counted by its first event.
  ghost predicate AlertsCluster(cfg: Config, g: Graph, e: TransactionEvent, alert: SplitTransactionAlert, i: nat) {
    && Offends(cfg, g, e.transactionId, i)
    && (forall j :: j in g.Component(i) ==> i <= j)
    && (forall j :: Offends(cfg, g, e.transactionId, j) ==> i <= j)
    && alert.tenantId == e.tenantId && alert.custodianId == e.custodianId
    && alert.windowTotalScaled == SumAt(g.events, g.Component(i), |g.events|)
    && alert.thresholdScaled == cfg.thresholdScaled
    && alert.clusterOrdinal.Some?
    && |alert.windowTransactionIds| == |g.Component(i)|
    && (forall id :: id in alert.windowTransactionIds <==> exists j :: j in g.Component(i) && g.events[j].transactionId == id)
    && alert.custodiansInvolved == (set j | j in g.Component(i) :: g.events[j].custodianId)
    && alert.merchantsInvolved == (set j | j in g.Component(i) && Given(g.events[j].merchantId) :: g.events[j].merchantId.value)
    && AlertSpans(g, alert, g.Component(i))
    && (alert.isSmurfing <==> exists j, k :: j in g.Component(i) && k in g.Component(i) && g.events[j].custodianId != g.events[k].custodianId)
  }

  // The window of the alert runs from the earliest to the latest of these events.
  ghost predicate AlertSpans(g: Graph, alert: SplitTransactionAlert, s: set<nat>)
    requires forall j :: j in s ==> j < |g.events|
  {
    && (forall j :: j in s ==> alert.windowStart <= g.events[j].timestamp <= alert.windowEnd)
    && (exists j :: j in s && g.events[j].timestamp == alert.windowStart)
    && (exists j :: j in s && g.events[j].timestamp == alert.windowEnd)
  }

  ghost predicate AlertsFirstCluster(cfg: Config, g: Graph, e: TransactionEvent, alert: SplitTransactionAlert) {
    exists i :: AlertsCluster(cfg, g, e, alert, i)
  }

  function Ids(es: seq<TransactionEvent>): seq<string> {
    seq(|es|, k requires 0 <= k < |es| => es[k].transactionId)
  }

  ghost predicate AlertsWindow(cfg: Config, w: seq<TransactionEvent>, e: TransactionEvent, alert: SplitTransactionAlert) {
    && w != []
    && alert == SplitTransactionAlert(e.tenantId, e.custodianId, Ids(w), SumAmounts(w), cfg.thresholdScaled,
                                      w[0].timestamp, w[|w| - 1].timestamp, None, false, {e.custodianId}, {})
  }

  datatype CreateError = ThresholdNotPositive

  class SplitTransactionDetector {
    const cfg: Config
    var windows: map<WindowKey, seq<TransactionEvent>>
    var tenantWindows: map<string, seq<TransactionEvent>>

    ghost function State(): Windows
      reads this
    {
      Windows(windows, tenantWindows)
    }

    constructor (cfg: Config)
      requires cfg.thresholdScaled > 0
      ensures this.cfg == cfg && State() == Windows(map[], map[])
    {
      this.cfg := cfg;
      windows, tenantWindows := map[], map[];
    }

    static method Create(cfg: Config) returns (r: Outcome<SplitTransactionDetector, CreateError>)
      ensures r.Err? <==> cfg.thresholdScaled <= 0
      ensures r.Ok? ==> fresh(r.value) && r.value.cfg == cfg && r.value.State() == Windows(map[], map[])
    {
      if cfg.thresholdScaled <= 0 {
        return Err(ThresholdNotPositive);
      }
      var d := new SplitTransactionDetector(cfg);
      return Ok(d);
    }

    method GetClusters(tenantId: string, reference: Option<int>)
      returns (clusters: seq<TransactionCluster>, ghost comps: seq<seq<nat>>)
      modifies this`tenantWindows
      ensures State() == EvictTenant(cfg, old(State()), tenantId, reference)
      ensures var g := Graph(Get(tenantWindows, tenantId), cfg.windowSeconds);
              if |g.events| < 2 then clusters == [] && comps == []
              else IsClustering(g, tenantId, cfg.minTxCount, clusters, comps)
    {
      if tenantId !in tenantWindows || tenantWindows[tenantId] == [] {
        return [], [];
      }
      if reference.Some? {
        var window := EvictExpired(tenantWindows[tenantId], Stamp, reference.value - cfg.Width());
        tenantWindows := tenantWindows[tenantId := window];
      }
      clusters, comps := ClusterEvents(Graph(tenantWindows[tenantId], cfg.windowSeconds), tenantId, cfg.minTxCount);
    }

    method RecordAndCheck(event: TransactionEvent) returns (alert: Option<SplitTransactionAlert>)
      modifies this
      ensures State() == RecordStep(cfg, old(State()), event)
      ensures var g := Graph(Get(tenantWindows, event.tenantId), cfg.windowSeconds);
              var own := Get(windows, (event.tenantId, event.custodianId));
              if cfg.enableGraphClustering && ClusterRuleBroken(cfg, g, event.transactionId) then
                alert.Some? && AlertsFirstCluster(cfg, g, event, alert.value)
              else if CustodianRuleBroken(cfg, own) then
                alert.Some? && AlertsWindow(cfg, own, event, alert.value)
              else alert == None
    {
      var key := (event.tenantId, event.custodianId);
      var cutoff := event.timestamp - cfg.Width();
      var own := EvictExpired(Get(windows, key), Stamp, cutoff);
      own := own + [event];
      windows := windows[key := own];
      var tenantWindow := EvictExpired(Get(tenantWindows, event.tenantId), Stamp, cutoff);
      tenantWindows := tenantWindows[event.tenantId := tenantWindow + [event]];
      assert State() == Push(cfg, old(State()), event);

      if cfg.enableGraphClustering {
        var clusters; ghost var comps;
        clusters, comps := GetClusters(event.tenantId, Some(event.timestamp));
        ghost var g := Graph(Get(tenantWindows, event.tenantId), cfg.windowSeconds);
        alert := FirstClusterAlert(cfg, g, event, clusters, comps);
        if alert.Some? {
          return;
        }
      }
      alert := OwnWindowAlert(cfg, own, event);
    }

    method WindowSum(tenantId: string, custodianId: string, reference: Option<int>) returns (sum: int)
      modifies this`windows
      ensures State() == EvictCustodian(cfg, old(State()), (tenantId, custodianId), reference)
      ensures sum == SumAmounts(Get(windows, (tenantId, custodianId)))
    {
      var key := (tenantId, custodianId);
      if key !in windows || windows[key] == [] {
        return 0;
      }
      if reference.Some? {
        var window := EvictExpired(windows[key], Stamp, reference.value - cfg.Width());
        windows := windows[key := window];
      }
      return SumAmounts(windows[key]);
    }

    method ClearCustodian(tenantId: string, custodianId: string)
      modifies this
      ensures State() == ClearCustodianStep(old(State()), tenantId, custodianId)
    {
      windows := windows - {(tenantId, custodianId)};
      if tenantId in tenantWindows && tenantWindows[tenantId] != [] {
        tenantWindows := tenantWindows[tenantId := Without(tenantWindows[tenantId], custodianId)];
      }
    }

    method ClearTenant(tenantId: string)
      modifies this
      ensures State() == ClearTenantStep(old(State()), tenantId)
    {
      tenantWindows := tenantWindows - {tenantId};
      windows := map k | k in windows && k.0 != tenantId :: windows[k];
    }
  }

  // ----- the two halves of the decision -----

  // The test that the loop makes on one cluster.
  predicate ClusterFlags(cfg: Config, event: TransactionEvent, cluster: TransactionCluster) {
    && event.transactionId in Ids(cluster.transactions)
    && |cluster.transactions| >= cfg.minTxCount
    && cluster.totalAmountScaled > cfg.thresholdScaled
  }

  method FirstClusterAlert(cfg: Config, ghost g: Graph, event: TransactionEvent, clusters: seq<TransactionCluster>, ghost comps: seq<seq<nat>>)
    returns (alert: Option<SplitTransactionAlert>)
    requires if |g.events| < 2 then clusters == [] && comps == []
             else IsClustering(g, event.tenantId, cfg.minTxCount, clusters, comps)
    ensures alert.None? <==> !ClusterRuleBroken(cfg, g, event.transactionId)
    ensures alert.Some? ==> AlertsFirstCluster(cfg, g, event, alert.value)
  {
    for k := 0 to |clusters|
      invariant forall l :: 0 <= l < k ==> !ClusterFlags(cfg, event, clusters[l])
    {
      if ClusterFlags(cfg, event, clusters[k]) {
        FlaggedClusterIsFirst(cfg, g, event, clusters, comps, k);
        return Some(ClusterAlert(cfg, event, clusters[k]));
      }
    }
    if |g.events| >= 2 {
      NoneFlagged(cfg, g, event, clusters, comps, |clusters|);
      NoOffender(cfg, g, event.tenantId, clusters, comps, event.transactionId);
    }
    return None;
  }

  // None of the first k clusters offends.
  ghost predicate NoneOffends(cfg: Config, g: Graph, id: string, comps: seq<seq<nat>>, k: nat)
    requires k <= |comps|
  {
    forall l :: 0 <= l < k ==> comps[l] != [] && !Offends(cfg, g, id, comps[l][0])
  }

  lemma NoneFlagged(cfg: Config, g: Graph, event: TransactionEvent, clusters: seq<TransactionCluster>, comps: seq<seq<nat>>, k: nat)
    requires IsClustering(g, event.tenantId, cfg.minTxCount, clusters, comps) && k <= |clusters|
    requires forall l :: 0 <= l < k ==> !ClusterFlags(cfg, event, clusters[l])
    ensures NoneOffends(cfg, g, event.transactionId, comps, k)
  {
    forall l | 0 <= l < k ensures comps[l] != [] && !Offends(cfg, g, event.transactionId, comps[l][0]) {
      EntryDescribes(cfg, g, event, clusters, comps, l);
    }
  }

  lemma FlaggedClusterIsFirst(cfg: Config, g: Graph, event: TransactionEvent, clusters: seq<TransactionCluster>, comps: seq<seq<nat>>, k: nat)
    requires IsClustering(g, event.tenantId, cfg.minTxCount, clusters, comps) && k < |clusters| && |g.events| >= 2
    requires forall l :: 0 <= l < k ==> !ClusterFlags(cfg, event, clusters[l])
    requires ClusterFlags(cfg, event, clusters[k])
    ensures ClusterRuleBroken(cfg, g, event.transactionId)
    ensures AlertsFirstCluster(cfg, g, event, ClusterAlert(cfg, event, clusters[k]))
  {
    NoneFlagged(cfg, g, event, clusters, comps, k);
    EntryDescribes(cfg, g, event, clusters, comps, k);
    FirstOffender(cfg, g, event.tenantId, clusters, comps, k, event.transactionId);
    ClusterAlertDescribes(cfg, g, event, clusters[k], comps[k], k);
  }

  function ClusterAlert(cfg: Config, event: TransactionEvent, cluster: TransactionCluster): SplitTransactionAlert {
    SplitTransactionAlert(event.tenantId, event.custodianId, Ids(cluster.transactions),
      cluster.totalAmountScaled, cfg.thresholdScaled, cluster.windowStart, cluster.windowEnd,
      Some(cluster.ordinal), cluster.isSmurfing, cluster.custodians, cluster.merchants)
  }

  lemma ClusterAlertDescribes(cfg: Config, g: Graph, event: TransactionEvent, cluster: TransactionCluster, c: seq<nat>, k: nat)
    requires IsEntry(g, event.tenantId, cfg.minTxCount, cluster, c, k)
    requires Offends(cfg, g, event.transactionId, c[0])
    requires forall j :: j in g.Component(c[0]) ==> c[0] <= j
    requires forall j :: Offends(cfg, g, event.transactionId, j) ==> c[0] <= j
    ensures AlertsCluster(cfg, g, event, ClusterAlert(cfg, event, cluster), c[0])
  {
    NoDupCount(c);
    forall id ensures id in Ids(cluster.transactions) <==> exists j :: j in g.Component(c[0]) && g.events[j].transactionId == id {
      ClusterIds(g, cluster, c, id);
    }
  }

  lemma ClusterIds(g: Graph, cluster: TransactionCluster, c: seq<nat>, id: string)
    requires c != [] && Reports(g, cluster, c)
    ensures id in Ids(cluster.transactions) <==> exists j :: j in g.Component(c[0]) && g.events[j].transactionId == id
  {
    var es := cluster.transactions;
    if id in Ids(es) {
      var m :| 0 <= m < |es| && Ids(es)[m] == id;
      assert c[m] in Elems(c);
    }
    if j :| j in Elems(c) && g.events[j].transactionId == id {
      var m :| 0 <= m < |c| && c[m] == j;
      assert Ids(es)[m] == id;
    }
  }

  method OwnWindowAlert(cfg: Config, own: seq<TransactionEvent>, event: TransactionEvent) returns (alert: Option<SplitTransactionAlert>)
    requires own != []
    ensures alert.Some? <==> CustodianRuleBroken(cfg, own)
    ensures alert.Some? ==> AlertsWindow(cfg, own, event, alert.value)
  {
    if |own| >= cfg.minTxCount {
      var windowSum := SumAmounts(own);
      if windowSum > cfg.thresholdScaled {
        return Some(SplitTransactionAlert(event.tenantId, event.custodianId, Ids(own), windowSum, cfg.thresholdScaled,
          own[0].timestamp, own[|own| - 1].timestamp, None, false, {event.custodianId}, {}));
      }
    }
    return None;
  }

  lemma EntryDescribes(cfg: Config, g: Graph, event: TransactionEvent, clusters: seq<TransactionCluster>, comps: seq<seq<nat>>, k: nat)
    requires IsClustering(g, event.tenantId, cfg.minTxCount, clusters, comps) && k < |clusters|
    ensures IsEntry(g, event.tenantId, cfg.minTxCount, clusters[k], comps[k], k)
    ensures Offends(cfg, g, event.transactionId, comps[k][0]) <==> ClusterFlags(cfg, event, clusters[k])
  {
    NoDupCount(comps[k]);
    ClusterIds(g, clusters[k], comps[k], event.transactionId);
  }

  lemma FirstOffender(cfg: Config, g: Graph, tenantId: string, clusters: seq<TransactionCluster>, comps: seq<seq<nat>>, k: nat, id: string)
    requires IsClustering(g, tenantId, cfg.minTxCount, clusters, comps) && k < |clusters|
    requires NoneOffends(cfg, g, id, comps, k)
    ensures comps[k] != []
    ensures forall j :: j in g.Component(comps[k][0]) ==> comps[k][0] <= j
    ensures forall j :: Offends(cfg, g, id, j) ==> comps[k][0] <= j
  {
    StartIsLeast(g, tenantId, cfg.minTxCount, clusters, comps, k);
    forall j | Offends(cfg, g, id, j) ensures comps[k][0] <= j {
      OffenderIsNotBefore(cfg, g, tenantId, clusters, comps, k, id, j);
    }
  }

  lemma LaterStartsLater(comps: seq<seq<nat>>, k: nat, l: nat)
    requires forall i :: 0 <= i < |comps| ==> comps[i] != []
    requires StartsAscend(comps) && k < l < |comps|
    ensures comps[k][0] < comps[l][0]
  {
  }

  lemma OffenderIsNotBefore(cfg: Config, g: Graph, tenantId: string, clusters: seq<TransactionCluster>, comps: seq<seq<nat>>, k: nat, id: string, j: nat)
    requires IsClustering(g, tenantId, cfg.minTxCount, clusters, comps) && k < |clusters|
    requires NoneOffends(cfg, g, id, comps, k) && Offends(cfg, g, id, j)
    ensures comps[k] != [] && comps[k][0] <= j
  {
    assert IsEntry(g, tenantId, cfg.minTxCount, clusters[k], comps[k], k);
    var l := OffenderIsListed(cfg, g, tenantId, clusters, comps, j, id);
    if l != k { LaterStartsLater(comps, k, l); }
  }

  lemma StartIsLeast(g: Graph, tenantId: string, minTxCount: int, clusters: seq<TransactionCluster>, comps: seq<seq<nat>>, k: nat)
    requires IsClustering(g, tenantId, minTxCount, clusters, comps) && k < |clusters|
    ensures comps[k] != []
    ensures forall j :: j in g.Component(comps[k][0]) ==> comps[k][0] <= j
  {
    assert IsEntry(g, tenantId, minTxCount, clusters[k], comps[k], k);
    assert forall j :: j in g.Component(comps[k][0]) ==> j in Elems(comps[k]);
  }

  // An offending component is one of the clusters.
  lemma OffenderIsListed(cfg: Config, g: Graph, tenantId: string, clusters: seq<TransactionCluster>, comps: seq<seq<nat>>, j: nat, id: string)
    returns (l: nat)
    requires IsClustering(g, tenantId, cfg.minTxCount, clusters, comps)
    requires Offends(cfg, g, id, j)
    ensures l < |comps| && comps[l] != [] && comps[l][0] <= j && Offends(cfg, g, id, comps[l][0])
  {
    assert IsListed(comps, j);
    l :| 0 <= l < |comps| && j in comps[l];
    assert IsEntry(g, tenantId, cfg.minTxCount, clusters[l], comps[l], l);
    assert j in Elems(comps[l]);
    g.ComponentsAgree(comps[l][0], j);
  }

  lemma NoOffender(cfg: Config, g: Graph, tenantId: string, clusters: seq<TransactionCluster>, comps: seq<seq<nat>>, id: string)
    requires |g.events| >= 2 ==> IsClustering(g, tenantId, cfg.minTxCount, clusters, comps)
    requires |g.events| >= 2 ==> NoneOffends(cfg, g, id, comps, |comps|)
    ensures !ClusterRuleBroken(cfg, g, id)
  {
    if |g.events| >= 2 {
      forall j ensures !Offends(cfg, g, id, j) {
        if Offends(cfg, g, id, j) {
          var l := OffenderIsListed(cfg, g, tenantId, clusters, comps, j, id);
        }
      }
    }
  }
}
