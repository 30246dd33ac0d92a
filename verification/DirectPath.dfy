// When the direct path of the split-transaction detector has anything left to say after
// the cluster path (src/services/fraud/split_tx_detector.py).
module DirectPath {
  import opened Basics
  import opened LinkGraph
  import opened SlidingWindow
  import opened SplitTxDetector
  import opened SplitTxHistory

  function Only(es: seq<TransactionEvent>, custodian: string): seq<TransactionEvent> {
    if es == [] then []
    else Only(es[..|es| - 1], custodian) + (if es[|es| - 1].custodianId == custodian then [es[|es| - 1]] else [])
  }

  lemma {:induction false} OnlyAppend(es: seq<TransactionEvent>, e: TransactionEvent, c: string)
    ensures Only(es + [e], c) == Only(es, c) + (if e.custodianId == c then [e] else [])
  {
    assert (es + [e])[..|es|] == es;
  }

  lemma {:induction false} OnlySince(h: seq<TransactionEvent>, c: string, cutoff: int)
    ensures Only(Since(h, Stamp, cutoff), c) == Since(Only(h, c), Stamp, cutoff)
  {
    if h == [] {
    } else {
      var front, last := h[..|h| - 1], h[|h| - 1];
      OnlySince(front, c, cutoff);
      OnlyAppend(Since(front, Stamp, cutoff), last, c);
      SinceAppend(Only(front, c), last, Stamp, cutoff);
      if Stamp(last) < cutoff {
        assert Since(h, Stamp, cutoff) == Since(front, Stamp, cutoff);
      }
      if last.custodianId != c {
        assert Only(h, c) == Only(front, c);
      }
    }
  }

  lemma {:induction false} OnlyWithout(h: seq<TransactionEvent>, c: string, d: string)
    ensures Only(Without(h, d), c) == if c == d then [] else Only(h, c)
  {
    if h == [] {
    } else {
      var front, last := h[..|h| - 1], h[|h| - 1];
      OnlyWithout(front, c, d);
      OnlyAppend(Without(front, d), last, c);
      if last.custodianId == d {
        assert Without(h, d) == Without(front, d);
      }
    }
  }

  lemma {:induction false} HistoryStepsAgree(h: seq<TransactionEvent>, mine: seq<TransactionEvent>, op: Op, tenant: string, custodian: string)
    requires mine == Only(h, custodian)
    ensures CustodianHistoryStep(mine, op, tenant, custodian) == Only(TenantHistoryStep(h, op, tenant), custodian)
  {
    match op {
      case Record(e) => OnlyAppend(h, e, custodian);
      case ClearCustodian(_, d) => OnlyWithout(h, custodian, d);
      case _ =>
    }
  }

  // One custodian's history is the tenant's history restricted to that custodian.
  lemma {:induction false} HistoriesAgree(ops: seq<Op>, tenant: string, custodian: string)
    ensures CustodianHistory(ops, tenant, custodian) == Only(TenantHistory(ops, tenant), custodian)
  {
    if ops == [] {
    } else {
      var before, op := ops[..|ops| - 1], ops[|ops| - 1];
      HistoriesAgree(before, tenant, custodian);
      HistoryStepsAgree(TenantHistory(before, tenant), CustodianHistory(before, tenant, custodian), op, tenant, custodian);
    }
  }

  lemma {:induction false} RestrictedSince(own: seq<TransactionEvent>, deque: seq<TransactionEvent>, mine: seq<TransactionEvent>, h: seq<TransactionEvent>, c: string, cutoff: int)
    requires own == Since(mine, Stamp, cutoff) && deque == Since(h, Stamp, cutoff) && mine == Only(h, c)
    ensures own == Only(deque, c)
  {
    OnlySince(h, c, cutoff);
  }

  // So after recording, the custodian's deque is the tenant's deque restricted to
  // that custodian, although the two are evicted at different times.
  lemma {:induction false} OwnDequeIsPartOfTenantDeque(cfg: Config, ops: seq<Op>, e: TransactionEvent)
    requires EndsWith(ops, e) && Clocked(ops) && cfg.windowSeconds >= 0
    ensures OwnDeque(cfg, ops, e) == Only(TenantDeque(cfg, ops, e), e.custodianId)
  {
    OwnDequeIsTheHistory(cfg, ops, e);
    TenantDequeIsTheHistory(cfg, ops, e);
    HistoriesAgree(ops, e.tenantId, e.custodianId);
    RestrictedSince(OwnDeque(cfg, ops, e), TenantDeque(cfg, ops, e), CustodianHistory(ops, e.tenantId, e.custodianId),
                    TenantHistory(ops, e.tenantId), e.custodianId, e.timestamp - cfg.Width());
  }

  // That is exact too: under a negative window the clustering query empties only the
  // tenant's deque.
  lemma {:induction false} OwnDequeIsPartOfTenantDequeExactlyWhen(cfg: Config, ops: seq<Op>, e: TransactionEvent)
    requires EndsWith(ops, e) && Clocked(ops)
    ensures OwnDeque(cfg, ops, e) == Only(TenantDeque(cfg, ops, e), e.custodianId) <==> cfg.windowSeconds >= 0 || !cfg.enableGraphClustering
  {
    if cfg.windowSeconds >= 0 {
      OwnDequeIsPartOfTenantDeque(cfg, ops, e);
    } else {
      NegativeWindowDeques(cfg, ops, e);
      OnlyAppend([], e, e.custodianId);
      assert [] + [e] == [e];
    }
  }

  // The indices of one custodian's events in a window.
  function IndicesOf(es: seq<TransactionEvent>, custodian: string, m: nat): set<nat>
    requires m <= |es|
  {
    if m == 0 then {} else IndicesOf(es, custodian, m - 1) + (if es[m - 1].custodianId == custodian then {m - 1} else {})
  }

  lemma {:induction false} IndicesBelong(es: seq<TransactionEvent>, custodian: string, m: nat)
    requires m <= |es|
    ensures forall i :: i in IndicesOf(es, custodian, m) ==> i < m && es[i].custodianId == custodian
  {
    if m == 0 {
    } else {
      IndicesBelong(es, custodian, m - 1);
    }
  }

  lemma {:induction false} IndicesCount(es: seq<TransactionEvent>, custodian: string, m: nat)
    requires m <= |es|
    ensures |IndicesOf(es, custodian, m)| == |Only(es[..m], custodian)|
  {
    if m == 0 {
    } else {
      IndicesCount(es, custodian, m - 1);
      IndicesBelong(es, custodian, m - 1);
      assert es[..m][..m - 1] == es[..m - 1];
    }
  }

  lemma {:induction false} IndicesSum(es: seq<TransactionEvent>, custodian: string, m: nat)
    requires m <= |es|
    ensures SumAt(es, IndicesOf(es, custodian, m), m) == SumAmounts(Only(es[..m], custodian))
  {
    if m == 0 {
    } else {
      IndicesSum(es, custodian, m - 1);
      IndicesBelong(es, custodian, m - 1);
      assert es[..m][..m - 1] == es[..m - 1];
      SameSumBelow(es, IndicesOf(es, custodian, m - 1), IndicesOf(es, custodian, m), m - 1);
      if es[m - 1].custodianId == custodian {
        SumAppend(Only(es[..m - 1], custodian), es[m - 1]);
      } else {
        assert Only(es[..m], custodian) == Only(es[..m - 1], custodian);
      }
    }
  }

  lemma {:induction false} SumAppend(es: seq<TransactionEvent>, e: TransactionEvent)
    ensures SumAmounts(es + [e]) == SumAmounts(es) + e.amountScaled
  {
    assert (es + [e])[..|es|] == es;
  }

  lemma {:induction false} SameSumBelow(es: seq<TransactionEvent>, s: set<nat>, t: set<nat>, m: nat)
    requires m <= |es| && forall i: nat :: i < m ==> (i in s <==> i in t)
    ensures SumAt(es, s, m) == SumAt(es, t, m)
  {
    if m == 0 {
    } else {
      SameSumBelow(es, s, t, m - 1);
    }
  }

  // All events of the recorded event's custodian are in its component.
  lemma {:induction false} OwnEventsAreOneComponent(g: Graph, e: TransactionEvent)
    requires g.events != [] && g.events[|g.events| - 1] == e
    requires forall d :: d in g.events ==> e.timestamp - g.windowSeconds * MICROS_PER_SECOND <= d.timestamp <= e.timestamp
    ensures IndicesOf(g.events, e.custodianId, |g.events|) <= g.Component(|g.events| - 1)
  {
    var n := |g.events|;
    IndicesBelong(g.events, e.custodianId, n);
    g.ConnectedToItself(n - 1);
    forall i | i in IndicesOf(g.events, e.custodianId, n) ensures i in g.Component(n - 1) {
      if i != n - 1 {
        LinkedToTheLast(g, e, i);
        g.ConnectedExtends(n - 1, n - 1, i);
      }
    }
  }

  lemma {:induction false} LinkedToTheLast(g: Graph, e: TransactionEvent, i: nat)
    requires g.events != [] && g.events[|g.events| - 1] == e && i < |g.events| - 1
    requires forall d :: d in g.events ==> e.timestamp - g.windowSeconds * MICROS_PER_SECOND <= d.timestamp <= e.timestamp
    requires g.events[i].custodianId == e.custodianId
    ensures g.Linked(|g.events| - 1, i)
  {
    assert g.events[i] in g.events;
  }

  lemma {:induction false} OwnComponentIsLarge(g: Graph, e: TransactionEvent)
    requires g.events != [] && g.events[|g.events| - 1] == e && AllPositive(g.events)
    requires forall d :: d in g.events ==> e.timestamp - g.windowSeconds * MICROS_PER_SECOND <= d.timestamp <= e.timestamp
    ensures |Only(g.events, e.custodianId)| <= |g.Component(|g.events| - 1)|
    ensures SumAmounts(Only(g.events, e.custodianId)) <= SumAt(g.events, g.Component(|g.events| - 1), |g.events|)
  {
    var n := |g.events|;
    OwnEventsAreOneComponent(g, e);
    IndicesCount(g.events, e.custodianId, n);
    IndicesSum(g.events, e.custodianId, n);
    assert g.events[..n] == g.events;
    SubsetCount(IndicesOf(g.events, e.custodianId, n), g.Component(n - 1));
    SumAtMonotone(g.events, IndicesOf(g.events, e.custodianId, n), g.Component(n - 1), n);
  }

  // A custodian window that breaks the rule makes the event's own component break it,
  // whenever the clustering looks at more than one event.
  lemma {:induction false} OwnRuleImpliesClusterRule(cfg: Config, deque: seq<TransactionEvent>, e: TransactionEvent)
    requires deque != [] && deque[|deque| - 1] == e && AllPositive(deque)
    requires forall d :: d in deque ==> e.timestamp - cfg.Width() <= d.timestamp <= e.timestamp
    requires CustodianRuleBroken(cfg, Only(deque, e.custodianId))
    ensures ClusterRuleBroken(cfg, Graph(deque, cfg.windowSeconds), e.transactionId) <==> |deque| >= 2
  {
    var g, last := Graph(deque, cfg.windowSeconds), |deque| - 1;
    OwnComponentIsLarge(g, e);
    g.ConnectedToItself(last);
    assert last in g.Component(last);
    assert Offends(cfg, g, e.transactionId, last);
  }

  predicate RecordsPositive(ops: seq<Op>) {
    forall i :: 0 <= i < |ops| && ops[i].Record? ==> ops[i].event.amountScaled > 0
  }

  lemma {:induction false} TenantHistoryPositive(ops: seq<Op>, tenant: string)
    requires RecordsPositive(ops)
    ensures forall d :: d in TenantHistory(ops, tenant) ==> d.amountScaled > 0
  {
    if ops == [] {
    } else {
      var before, op := ops[..|ops| - 1], ops[|ops| - 1];
      TenantHistoryPositive(before, tenant);
      if op.ClearCustodian? {
        WithoutMembers(TenantHistory(before, tenant), op.custodian);
      }
    }
  }

  lemma {:induction false} TenantDequeMembers(cfg: Config, ops: seq<Op>, e: TransactionEvent)
    requires EndsWith(ops, e) && Clocked(ops) && cfg.windowSeconds >= 0 && RecordsPositive(ops)
    ensures var deque := TenantDeque(cfg, ops, e);
            && deque != [] && deque[|deque| - 1] == e && AllPositive(deque)
            && forall d :: d in deque ==> e.timestamp - cfg.Width() <= d.timestamp <= e.timestamp
  {
    RecordIsLatest(ops, e);
    TenantDequeIsTheHistory(cfg, ops, e);
    TenantHistoryUpTo(ops, e.tenantId, e.timestamp);
    TenantHistoryPositive(ops, e.tenantId);
    var h := TenantHistory(ops, e.tenantId);
    SinceMembers(h, Stamp, e.timestamp - cfg.Width());
    assert h[|h| - 1] == e;
    var deque := TenantDeque(cfg, ops, e);
    forall i | 0 <= i < |deque| ensures deque[i].amountScaled > 0 {
      assert deque[i] in deque;
    }
  }

  lemma {:induction false} OwnRuleReachesTheCluster(cfg: Config, ops: seq<Op>, e: TransactionEvent)
    requires EndsWith(ops, e) && Clocked(ops) && cfg.windowSeconds >= 0 && RecordsPositive(ops)
    requires CustodianRuleBroken(cfg, OwnDeque(cfg, ops, e))
    ensures ClusterRuleBroken(cfg, Graph(TenantDeque(cfg, ops, e), cfg.windowSeconds), e.transactionId) <==> |TenantDeque(cfg, ops, e)| >= 2
  {
    OwnDequeIsPartOfTenantDeque(cfg, ops, e);
    TenantDequeMembers(cfg, ops, e);
    OwnRuleImpliesClusterRule(cfg, TenantDeque(cfg, ops, e), e);
  }

  // With clustering on, a broken custodian rule is already reported by the cluster
  // path, except when the tenant's window holds at most a single event.
  lemma {:induction false} DirectPathOnlyForASingleEvent(cfg: Config, ops: seq<Op>, e: TransactionEvent)
    requires EndsWith(ops, e) && Clocked(ops) && RecordsPositive(ops)
    requires CustodianRuleBroken(cfg, OwnDeque(cfg, ops, e))
    ensures ClusterRuleBroken(cfg, Graph(TenantDeque(cfg, ops, e), cfg.windowSeconds), e.transactionId) <==> |TenantDeque(cfg, ops, e)| >= 2
  {
    if cfg.windowSeconds < 0 {
      NegativeWindowDeques(cfg, ops, e);
    } else {
      OwnRuleReachesTheCluster(cfg, ops, e);
    }
  }

  // The own window breaks the rule, and no cluster was reported before.
  ghost predicate DirectPathFires(cfg: Config, ops: seq<Op>, e: TransactionEvent) {
    && CustodianRuleBroken(cfg, OwnDeque(cfg, ops, e))
    && !(cfg.enableGraphClustering && ClusterRuleBroken(cfg, Graph(TenantDeque(cfg, ops, e), cfg.windowSeconds), e.transactionId))
  }

  // A run under a clock that never goes back, of events with positive amounts, that ends
  // by recording e.
  predicate ProperRun(ops: seq<Op>, e: TransactionEvent) {
    EndsWith(ops, e) && Clocked(ops) && RecordsPositive(ops)
  }

  ghost predicate DirectPathIsDead(cfg: Config) {
    forall ops: seq<Op>, e: TransactionEvent :: ProperRun(ops, e) ==> !DirectPathFires(cfg, ops, e)
  }

  // With clustering on and a minimum count of at least two the direct path never fires.
  lemma {:induction false} DirectPathNeverFires(cfg: Config, ops: seq<Op>, e: TransactionEvent)
    requires ProperRun(ops, e) && cfg.enableGraphClustering && cfg.minTxCount >= 2
    ensures !DirectPathFires(cfg, ops, e)
  {
    if cfg.windowSeconds < 0 {
      NegativeWindowDeques(cfg, ops, e);
    } else if CustodianRuleBroken(cfg, OwnDeque(cfg, ops, e)) {
      OwnDequeIsPartOfTenantDeque(cfg, ops, e);
      OnlyIsNoLonger(TenantDeque(cfg, ops, e), e.custodianId);
      DirectPathOnlyForASingleEvent(cfg, ops, e);
    }
  }

  lemma {:induction false} RunOfOne(cfg: Config, op: Op)
    ensures Run(cfg, [op]) == Step(cfg, Windows(map[], map[]), op)
  {
    assert [op][..0] == [];
    assert Run(cfg, []) == Windows(map[], map[]);
  }

  lemma {:induction false} SingleEventDeques(cfg: Config, e: TransactionEvent)
    ensures OwnDeque(cfg, [Record(e)], e) == [e] && |TenantDeque(cfg, [Record(e)], e)| <= 1
  {
    var w := Windows(map[], map[]);
    RunOfOne(cfg, Record(e));
    StepOnTenantDeque(cfg, w, Record(e), e.tenantId);
    StepOnCustodianDeque(cfg, w, Record(e), e.tenantId, e.custodianId);
    assert |Evict([e], Stamp, e.timestamp - cfg.Width())| <= 1;
  }

  lemma {:induction false} SingleEventBreaksRule(cfg: Config, e: TransactionEvent)
    requires cfg.minTxCount <= 1 && e.amountScaled > cfg.thresholdScaled
    ensures CustodianRuleBroken(cfg, [e])
  {
    assert [] + [e] == [e];
    SumAppend([], e);
  }

  // With a smaller one a single event above the threshold makes it fire.
  lemma {:induction false} DirectPathFiresOnASingleEvent(cfg: Config, e: TransactionEvent)
    requires cfg.minTxCount <= 1 && e.amountScaled > cfg.thresholdScaled
    ensures DirectPathFires(cfg, [Record(e)], e)
  {
    SingleEventDeques(cfg, e);
    SingleEventBreaksRule(cfg, e);
  }

  // One event recorded n times over.
  function Copies(e: TransactionEvent, n: nat): seq<Op> {
    if n == 0 then [] else Copies(e, n - 1) + [Record(e)]
  }

  lemma {:induction false} CopiesAreOneEvent(e: TransactionEvent, n: nat)
    ensures |Copies(e, n)| == n && forall op :: op in Copies(e, n) ==> op == Record(e)
  {
    if n > 0 { CopiesAreOneEvent(e, n - 1); }
  }

  lemma {:induction false} CopiesAreProper(e: TransactionEvent, n: nat)
    requires n > 0 && e.amountScaled > 0
    ensures ProperRun(Copies(e, n), e)
  {
    CopiesAreOneEvent(e, n);
    assert forall i :: 0 <= i < n ==> Copies(e, n)[i] in Copies(e, n);
  }

  lemma {:induction false} HistoryOfCopies(e: TransactionEvent, n: nat, cutoff: int)
    requires e.amountScaled > 0 && e.timestamp >= cutoff
    ensures var h := CustodianHistory(Copies(e, n), e.tenantId, e.custodianId);
            && Since(h, Stamp, cutoff) == h && |h| == n
            && SumAmounts(h) >= if n > 0 then e.amountScaled else 0
  {
    if n > 0 {
      var before := CustodianHistory(Copies(e, n - 1), e.tenantId, e.custodianId);
      HistoryOfCopies(e, n - 1, cutoff);
      assert Copies(e, n)[..|Copies(e, n)| - 1] == Copies(e, n - 1);
      assert CustodianHistory(Copies(e, n), e.tenantId, e.custodianId) == before + [e];
      SinceAppend(before, e, Stamp, cutoff);
      SumAppend(before, e);
    }
  }

  // Without clustering the history in the window decides.
  lemma {:induction false} HistoryFiresDirectPath(cfg: Config, ops: seq<Op>, e: TransactionEvent, h: seq<TransactionEvent>)
    requires ProperRun(ops, e) && !cfg.enableGraphClustering && cfg.windowSeconds >= 0
    requires h == CustodianHistory(ops, e.tenantId, e.custodianId) && Since(h, Stamp, e.timestamp - cfg.Width()) == h
    requires CustodianRuleBroken(cfg, h)
    ensures DirectPathFires(cfg, ops, e)
  {
    OwnDequeIsTheHistory(cfg, ops, e);
  }

  // With a window that is not negative, enough copies of one event make it fire then.
  lemma {:induction false} DirectPathFiresOnCopies(cfg: Config, e: TransactionEvent, n: nat)
    requires !cfg.enableGraphClustering && cfg.windowSeconds >= 0
    requires n > 0 && n >= cfg.minTxCount && e.amountScaled > 0 && e.amountScaled > cfg.thresholdScaled
    ensures DirectPathFires(cfg, Copies(e, n), e)
  {
    CopiesAreProper(e, n);
    HistoryOfCopies(e, n, e.timestamp - cfg.Width());
    HistoryFiresDirectPath(cfg, Copies(e, n), e, CustodianHistory(Copies(e, n), e.tenantId, e.custodianId));
  }

  lemma {:induction false} NegativeWindowNeedsASingleEvent(cfg: Config, ops: seq<Op>, e: TransactionEvent)
    requires ProperRun(ops, e) && cfg.windowSeconds < 0 && cfg.minTxCount >= 2
    ensures !DirectPathFires(cfg, ops, e)
  {
    NegativeWindowDeques(cfg, ops, e);
  }

  // So the direct path is dead exactly with a minimum count of two or more, and clustering
  // on or a negative window.
  lemma {:induction false} DirectPathIsDeadExactlyWhen(cfg: Config)
    requires cfg.thresholdScaled > 0
    ensures DirectPathIsDead(cfg) <==> cfg.minTxCount >= 2 && (cfg.enableGraphClustering || cfg.windowSeconds < 0)
  {
    var e := TransactionEvent("", "", "", cfg.thresholdScaled + 1, 0, None, None, None);
    if cfg.minTxCount <= 1 {
      assert ProperRun([Record(e)], e);
      DirectPathFiresOnASingleEvent(cfg, e);
    } else if cfg.enableGraphClustering || cfg.windowSeconds < 0 {
      forall ops: seq<Op>, e: TransactionEvent | ProperRun(ops, e) ensures !DirectPathFires(cfg, ops, e) {
        if cfg.enableGraphClustering {
          DirectPathNeverFires(cfg, ops, e);
        } else {
          NegativeWindowNeedsASingleEvent(cfg, ops, e);
        }
      }
    } else {
      CopiesAreProper(e, cfg.minTxCount);
      DirectPathFiresOnCopies(cfg, e, cfg.minTxCount);
    }
  }

  lemma {:induction false} OnlyIsNoLonger(es: seq<TransactionEvent>, c: string)
    ensures |Only(es, c)| <= |es|
  {
    if es == [] {
    } else {
      OnlyIsNoLonger(es[..|es| - 1], c);
    }
  }
}
