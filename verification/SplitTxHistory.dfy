// What the deques of the detector mean over a whole run: they hold exactly the
// recorded, uncleared events of the last window.
module SplitTxHistory {
  import opened Basics
  import opened LinkGraph
  import opened SlidingWindow
  import opened SplitTxDetector

  datatype Op =
    | Record(event: TransactionEvent)
    | Clusters(tenant: string, reference: Option<int>)
    | Sum(tenant: string, custodian: string, reference: Option<int>)
    | ClearCustodian(tenant: string, custodian: string)
    | ClearTenant(tenant: string)

  function Step(cfg: Config, w: Windows, op: Op): Windows {
    match op
    case Record(e) => RecordStep(cfg, w, e)
    case Clusters(t, reference) => EvictTenant(cfg, w, t, reference)
    case Sum(t, c, reference) => EvictCustodian(cfg, w, (t, c), reference)
    case ClearCustodian(t, c) => ClearCustodianStep(w, t, c)
    case ClearTenant(t) => ClearTenantStep(w, t)
  }

  function Run(cfg: Config, ops: seq<Op>): Windows {
    if ops == [] then Windows(map[], map[]) else Step(cfg, Run(cfg, ops[..|ops| - 1]), ops[|ops| - 1])
  }

  // ----- the history of recorded events -----

  function TenantHistoryStep(h: seq<TransactionEvent>, op: Op, tenant: string): seq<TransactionEvent> {
    match op
    case Record(e) => if e.tenantId == tenant then h + [e] else h
    case ClearCustodian(t, c) => if t == tenant then Without(h, c) else h
    case ClearTenant(t) => if t == tenant then [] else h
    case _ => h
  }

  // The events of a tenant recorded since they were last cleared.
  function TenantHistory(ops: seq<Op>, tenant: string): seq<TransactionEvent> {
    if ops == [] then [] else TenantHistoryStep(TenantHistory(ops[..|ops| - 1], tenant), ops[|ops| - 1], tenant)
  }

  function CustodianHistoryStep(h: seq<TransactionEvent>, op: Op, tenant: string, custodian: string): seq<TransactionEvent> {
    match op
    case Record(e) => if e.tenantId == tenant && e.custodianId == custodian then h + [e] else h
    case ClearCustodian(t, c) => if t == tenant && c == custodian then [] else h
    case ClearTenant(t) => if t == tenant then [] else h
    case _ => h
  }

  // The same for one custodian.
  function CustodianHistory(ops: seq<Op>, tenant: string, custodian: string): seq<TransactionEvent> {
    if ops == [] then [] else CustodianHistoryStep(CustodianHistory(ops[..|ops| - 1], tenant, custodian), ops[|ops| - 1], tenant, custodian)
  }

  function TimeOf(op: Op): Option<int> {
    match op
    case Record(e) => Some(e.timestamp)
    case Clusters(_, reference) => reference
    case Sum(_, _, reference) => reference
    case _ => None
  }

  // No operation so far carries a later time.
  predicate NotBefore(ops: seq<Op>, now: int) {
    forall i :: 0 <= i < |ops| && TimeOf(ops[i]).Some? ==> TimeOf(ops[i]).value <= now
  }

  // The clock that the callers pass in never goes backwards.
  predicate Clocked(ops: seq<Op>) {
    forall i, j :: 0 <= i < j < |ops| && TimeOf(ops[i]).Some? && TimeOf(ops[j]).Some? ==> TimeOf(ops[i]).value <= TimeOf(ops[j]).value
  }

  // ----- filtering by custodian -----

  lemma {:induction false} WithoutMembers(es: seq<TransactionEvent>, c: string)
    ensures forall e :: e in Without(es, c) <==> e in es && e.custodianId != c
  {
    if es == [] {
    } else {
      WithoutMembers(es[..|es| - 1], c);
      assert es == es[..|es| - 1] + [es[|es| - 1]];
    }
  }

  lemma {:induction false} WithoutAppend(es: seq<TransactionEvent>, e: TransactionEvent, c: string)
    ensures Without(es + [e], c) == Without(es, c) + (if e.custodianId != c then [e] else [])
  {
    assert (es + [e])[..|es|] == es;
  }

  lemma {:induction false} WithoutSince(h: seq<TransactionEvent>, c: string, cutoff: int)
    ensures Without(Since(h, Stamp, cutoff), c) == Since(Without(h, c), Stamp, cutoff)
  {
    if h == [] {
    } else {
      var front, last := h[..|h| - 1], h[|h| - 1];
      WithoutSince(front, c, cutoff);
      WithoutAppend(Since(front, Stamp, cutoff), last, c);
      SinceAppend(Without(front, c), last, Stamp, cutoff);
      if Stamp(last) < cutoff {
        assert Since(h, Stamp, cutoff) == Since(front, Stamp, cutoff);
      }
      if last.custodianId == c {
        assert Without(h, c) == Without(front, c);
      }
    }
  }

  lemma {:induction false} WithoutNoneAfter(h: seq<TransactionEvent>, c: string, now: int)
    requires NoneAfter(h, Stamp, now)
    ensures NoneAfter(Without(h, c), Stamp, now)
  {
    if h == [] {
    } else {
      var front, last := h[..|h| - 1], h[|h| - 1];
      WithoutNoneAfter(front, c, now);
      if last.custodianId != c {
        AppendNoneAfter(Without(front, c), last, Stamp, now);
      } else {
        assert Without(h, c) == Without(front, c);
      }
    }
  }

  lemma {:induction false} WithoutInOrder(h: seq<TransactionEvent>, c: string)
    requires InTimeOrder(h, Stamp)
    ensures InTimeOrder(Without(h, c), Stamp)
  {
    if h == [] {
    } else {
      var front, last := h[..|h| - 1], h[|h| - 1];
      WithoutInOrder(front, c);
      if last.custodianId != c {
        WithoutNoneAfter(front, c, Stamp(last));
        AppendInOrder(Without(front, c), last, Stamp);
      } else {
        assert Without(h, c) == Without(front, c);
      }
    }
  }

  lemma {:induction false} WithoutTracks(w: seq<TransactionEvent>, h: seq<TransactionEvent>, c: string, now: int, width: int)
    requires Tracks(w, h, Stamp, now, width)
    ensures Tracks(Without(w, c), Without(h, c), Stamp, now, width)
  {
    var cutoff :| IsSince(w, h, Stamp, cutoff) && cutoff <= now - width;
    WithoutSince(h, c, cutoff);
    WithoutInOrder(h, c);
    WithoutNoneAfter(h, c, now);
    assert IsSince(Without(w, c), Without(h, c), Stamp, cutoff);
  }

  lemma {:induction false} EmptyTracks(now: int, width: int)
    ensures Tracks<TransactionEvent>([], [], Stamp, now, width)
  {
    assert IsSince<TransactionEvent>([], [], Stamp, now - width);
  }

  // ----- what one operation does to one deque -----

  function TenantDequeStep(cfg: Config, d: seq<TransactionEvent>, op: Op, tenant: string): seq<TransactionEvent> {
    match op
    case Record(e) =>
      if e.tenantId != tenant then d
      else
        var pushed := Evict(d, Stamp, e.timestamp - cfg.Width()) + [e];
        if cfg.enableGraphClustering then Evict(pushed, Stamp, e.timestamp - cfg.Width()) else pushed
    case Clusters(t, reference) => if t == tenant && reference.Some? then Evict(d, Stamp, reference.value - cfg.Width()) else d
    case Sum(_, _, _) => d
    case ClearCustodian(t, c) => if t == tenant then Without(d, c) else d
    case ClearTenant(t) => if t == tenant then [] else d
  }

  function CustodianDequeStep(cfg: Config, d: seq<TransactionEvent>, op: Op, tenant: string, custodian: string): seq<TransactionEvent> {
    match op
    case Record(e) =>
      if e.tenantId == tenant && e.custodianId == custodian then Evict(d, Stamp, e.timestamp - cfg.Width()) + [e] else d
    case Clusters(_, _) => d
    case Sum(t, c, reference) =>
      if t == tenant && c == custodian && reference.Some? then Evict(d, Stamp, reference.value - cfg.Width()) else d
    case ClearCustodian(t, c) => if t == tenant && c == custodian then [] else d
    case ClearTenant(t) => if t == tenant then [] else d
  }

  lemma {:induction false} StepOnTenantDeque(cfg: Config, w: Windows, op: Op, tenant: string)
    ensures Get(Step(cfg, w, op).tenant, tenant) == TenantDequeStep(cfg, Get(w.tenant, tenant), op, tenant)
  {
  }

  lemma {:induction false} StepOnCustodianDeque(cfg: Config, w: Windows, op: Op, tenant: string, custodian: string)
    ensures Get(Step(cfg, w, op).custodian, (tenant, custodian)) == CustodianDequeStep(cfg, Get(w.custodian, (tenant, custodian)), op, tenant, custodian)
  {
  }

  lemma {:induction false} RecordTracks(cfg: Config, d: seq<TransactionEvent>, h: seq<TransactionEvent>, e: TransactionEvent, now: int)
    requires Tracks(d, h, Stamp, now, cfg.Width()) && cfg.Width() >= 0 && e.timestamp == now
    ensures var pushed := Evict(d, Stamp, now - cfg.Width()) + [e];
            && pushed == Since(h + [e], Stamp, now - cfg.Width())
            && Evict(pushed, Stamp, now - cfg.Width()) == pushed
            && Tracks(pushed, h + [e], Stamp, now, cfg.Width())
  {
    PushTracks(d, h, e, Stamp, cfg.Width());
    EvictTracks(Evict(d, Stamp, now - cfg.Width()) + [e], h + [e], Stamp, now, cfg.Width());
  }

  lemma {:induction false} TenantStepTracks(cfg: Config, d: seq<TransactionEvent>, h: seq<TransactionEvent>, op: Op, tenant: string, now: int)
    requires Tracks(d, h, Stamp, now, cfg.Width()) && cfg.Width() >= 0
    requires TimeOf(op).Some? ==> TimeOf(op).value == now
    ensures Tracks(TenantDequeStep(cfg, d, op, tenant), TenantHistoryStep(h, op, tenant), Stamp, now, cfg.Width())
  {
    match op {
      case Record(e) => RecordTracks(cfg, d, h, e, now);
      case Clusters(_, _) => EvictTracks(d, h, Stamp, now, cfg.Width());
      case Sum(_, _, _) =>
      case ClearCustodian(_, c) => WithoutTracks(d, h, c, now, cfg.Width());
      case ClearTenant(_) => EmptyTracks(now, cfg.Width());
    }
  }

  lemma {:induction false} CustodianStepTracks(cfg: Config, d: seq<TransactionEvent>, h: seq<TransactionEvent>, op: Op, tenant: string, custodian: string, now: int)
    requires Tracks(d, h, Stamp, now, cfg.Width()) && cfg.Width() >= 0
    requires TimeOf(op).Some? ==> TimeOf(op).value == now
    ensures Tracks(CustodianDequeStep(cfg, d, op, tenant, custodian), CustodianHistoryStep(h, op, tenant, custodian), Stamp, now, cfg.Width())
  {
    match op {
      case Record(e) => RecordTracks(cfg, d, h, e, now);
      case Sum(_, _, _) => EvictTracks(d, h, Stamp, now, cfg.Width());
      case ClearCustodian(_, _) => EmptyTracks(now, cfg.Width());
      case ClearTenant(_) => EmptyTracks(now, cfg.Width());
      case Clusters(_, _) =>
    }
  }

  // ----- the deques against the history -----

  lemma {:induction false} ClockedPrefix(ops: seq<Op>, now: int)
    requires ops != [] && Clocked(ops) && NotBefore(ops, now)
    ensures Clocked(ops[..|ops| - 1])
    ensures TimeOf(ops[|ops| - 1]).Some? ==> TimeOf(ops[|ops| - 1]).value <= now && NotBefore(ops[..|ops| - 1], TimeOf(ops[|ops| - 1]).value)
    ensures NotBefore(ops[..|ops| - 1], now)
  {
  }

  lemma {:induction false} TenantDequesTrack(cfg: Config, ops: seq<Op>, tenant: string, now: int)
    requires Clocked(ops) && NotBefore(ops, now) && cfg.windowSeconds >= 0
    ensures Tracks(Get(Run(cfg, ops).tenant, tenant), TenantHistory(ops, tenant), Stamp, now, cfg.Width())
  {
    if ops == [] {
      EmptyTracks(now, cfg.Width());
    } else {
      var before, op := ops[..|ops| - 1], ops[|ops| - 1];
      ClockedPrefix(ops, now);
      var at := if TimeOf(op).Some? then TimeOf(op).value else now;
      TenantDequesTrack(cfg, before, tenant, at);
      StepOnTenantDeque(cfg, Run(cfg, before), op, tenant);
      TenantStepTracks(cfg, Get(Run(cfg, before).tenant, tenant), TenantHistory(before, tenant), op, tenant, at);
      TracksLater(Get(Run(cfg, ops).tenant, tenant), TenantHistory(ops, tenant), Stamp, at, now, cfg.Width());
    }
  }

  lemma {:induction false} CustodianDequesTrack(cfg: Config, ops: seq<Op>, tenant: string, custodian: string, now: int)
    requires Clocked(ops) && NotBefore(ops, now) && cfg.windowSeconds >= 0
    ensures Tracks(Get(Run(cfg, ops).custodian, (tenant, custodian)), CustodianHistory(ops, tenant, custodian), Stamp, now, cfg.Width())
  {
    if ops == [] {
      EmptyTracks(now, cfg.Width());
    } else {
      var before, op := ops[..|ops| - 1], ops[|ops| - 1];
      ClockedPrefix(ops, now);
      var at := if TimeOf(op).Some? then TimeOf(op).value else now;
      CustodianDequesTrack(cfg, before, tenant, custodian, at);
      StepOnCustodianDeque(cfg, Run(cfg, before), op, tenant, custodian);
      CustodianStepTracks(cfg, Get(Run(cfg, before).custodian, (tenant, custodian)), CustodianHistory(before, tenant, custodian), op, tenant, custodian, at);
      TracksLater(Get(Run(cfg, ops).custodian, (tenant, custodian)), CustodianHistory(ops, tenant, custodian), Stamp, at, now, cfg.Width());
    }
  }

  // The run ends by recording e.
  predicate EndsWith(ops: seq<Op>, e: TransactionEvent) {
    ops != [] && ops[|ops| - 1] == Record(e)
  }

  // The two deques that recording e touched.
  function OwnDeque(cfg: Config, ops: seq<Op>, e: TransactionEvent): seq<TransactionEvent> {
    Get(Run(cfg, ops).custodian, (e.tenantId, e.custodianId))
  }

  function TenantDeque(cfg: Config, ops: seq<Op>, e: TransactionEvent): seq<TransactionEvent> {
    Get(Run(cfg, ops).tenant, e.tenantId)
  }

  // With a window that is not negative, both deques an event touches hold exactly
  // the uncleared history that lies in the window.
  lemma {:induction false} OwnDequeIsTheHistory(cfg: Config, ops: seq<Op>, e: TransactionEvent)
    requires EndsWith(ops, e) && Clocked(ops) && cfg.windowSeconds >= 0
    ensures OwnDeque(cfg, ops, e) == Since(CustodianHistory(ops, e.tenantId, e.custodianId), Stamp, e.timestamp - cfg.Width())
  {
    var before := ops[..|ops| - 1];
    RecordIsLatest(ops, e);
    CustodianDequesTrack(cfg, before, e.tenantId, e.custodianId, e.timestamp);
    StepOnCustodianDeque(cfg, Run(cfg, before), Record(e), e.tenantId, e.custodianId);
    RecordTracks(cfg, Get(Run(cfg, before).custodian, (e.tenantId, e.custodianId)), CustodianHistory(before, e.tenantId, e.custodianId), e, e.timestamp);
  }

  lemma {:induction false} TenantDequeIsTheHistory(cfg: Config, ops: seq<Op>, e: TransactionEvent)
    requires EndsWith(ops, e) && Clocked(ops) && cfg.windowSeconds >= 0
    ensures TenantDeque(cfg, ops, e) == Since(TenantHistory(ops, e.tenantId), Stamp, e.timestamp - cfg.Width())
  {
    var before := ops[..|ops| - 1];
    RecordIsLatest(ops, e);
    TenantDequesTrack(cfg, before, e.tenantId, e.timestamp);
    StepOnTenantDeque(cfg, Run(cfg, before), Record(e), e.tenantId);
    RecordTracks(cfg, Get(Run(cfg, before).tenant, e.tenantId), TenantHistory(before, e.tenantId), e, e.timestamp);
  }

  // Whatever the window, no deque holds an event from the future.
  lemma {:induction false} DequesUpTo(cfg: Config, ops: seq<Op>, tenant: string, custodian: string, now: int)
    requires NotBefore(ops, now)
    ensures AllUpTo(Get(Run(cfg, ops).tenant, tenant), Stamp, now)
    ensures AllUpTo(Get(Run(cfg, ops).custodian, (tenant, custodian)), Stamp, now)
  {
    if ops == [] {
    } else {
      var before, op := ops[..|ops| - 1], ops[|ops| - 1];
      assert TimeOf(op).Some? ==> TimeOf(op).value <= now;
      DequesUpTo(cfg, before, tenant, custodian, now);
      StepOnTenantDeque(cfg, Run(cfg, before), op, tenant);
      StepOnCustodianDeque(cfg, Run(cfg, before), op, tenant, custodian);
      TenantStepUpTo(cfg, Get(Run(cfg, before).tenant, tenant), op, tenant, now);
      CustodianStepUpTo(cfg, Get(Run(cfg, before).custodian, (tenant, custodian)), op, tenant, custodian, now);
    }
  }

  lemma {:induction false} TenantStepUpTo(cfg: Config, d: seq<TransactionEvent>, op: Op, tenant: string, now: int)
    requires AllUpTo(d, Stamp, now) && (TimeOf(op).Some? ==> TimeOf(op).value <= now)
    ensures AllUpTo(TenantDequeStep(cfg, d, op, tenant), Stamp, now)
  {
    match op {
      case Record(e) =>
        EvictKeepsMembers(d, Stamp, e.timestamp - cfg.Width());
        EvictKeepsMembers(Evict(d, Stamp, e.timestamp - cfg.Width()) + [e], Stamp, e.timestamp - cfg.Width());
      case Clusters(_, reference) => if reference.Some? { EvictKeepsMembers(d, Stamp, reference.value - cfg.Width()); }
      case ClearCustodian(_, c) => WithoutMembers(d, c);
      case Sum(_, _, _) =>
      case ClearTenant(_) =>
    }
  }

  lemma {:induction false} CustodianStepUpTo(cfg: Config, d: seq<TransactionEvent>, op: Op, tenant: string, custodian: string, now: int)
    requires AllUpTo(d, Stamp, now) && (TimeOf(op).Some? ==> TimeOf(op).value <= now)
    ensures AllUpTo(CustodianDequeStep(cfg, d, op, tenant, custodian), Stamp, now)
  {
    match op {
      case Record(e) => EvictKeepsMembers(d, Stamp, e.timestamp - cfg.Width());
      case Sum(_, _, reference) => if reference.Some? { EvictKeepsMembers(d, Stamp, reference.value - cfg.Width()); }
      case Clusters(_, _) =>
      case ClearCustodian(_, _) =>
      case ClearTenant(_) =>
    }
  }

  // A negative window evicts everything but the event that is being recorded, and the
  // clustering query evicts that too.
  lemma {:induction false} NegativeWindowDeques(cfg: Config, ops: seq<Op>, e: TransactionEvent)
    requires EndsWith(ops, e) && Clocked(ops) && cfg.windowSeconds < 0
    ensures OwnDeque(cfg, ops, e) == [e]
    ensures TenantDeque(cfg, ops, e) == if cfg.enableGraphClustering then [] else [e]
  {
    var before := ops[..|ops| - 1];
    var w := Run(cfg, before);
    RecordIsLatest(ops, e);
    DequesUpTo(cfg, before, e.tenantId, e.custodianId, e.timestamp);
    StepOnTenantDeque(cfg, w, Record(e), e.tenantId);
    StepOnCustodianDeque(cfg, w, Record(e), e.tenantId, e.custodianId);
    EvictClears(Get(w.tenant, e.tenantId), Stamp, e.timestamp, e.timestamp - cfg.Width());
    EvictClears(Get(w.custodian, (e.tenantId, e.custodianId)), Stamp, e.timestamp, e.timestamp - cfg.Width());
    EvictClears([e], Stamp, e.timestamp, e.timestamp - cfg.Width());
  }

  lemma {:induction false} NegativeWindowHidesTheCustodian(cfg: Config, ops: seq<Op>, e: TransactionEvent)
    requires EndsWith(ops, e) && Clocked(ops) && cfg.windowSeconds < 0
    ensures |Since(CustodianHistory(ops, e.tenantId, e.custodianId), Stamp, e.timestamp - cfg.Width())| == 0
  {
    RecordIsLatest(ops, e);
    HistoryNotAfter(ops, e.tenantId, e.custodianId, e.timestamp);
    SinceKeepsNone(CustodianHistory(ops, e.tenantId, e.custodianId), Stamp, e.timestamp, e.timestamp - cfg.Width());
  }

  // A negative window, which the constructor accepts, leaves the event itself, and it
  // alone, in its custodian's deque although it lies outside.
  lemma {:induction false} NegativeWindowKeepsTheEvent(cfg: Config, ops: seq<Op>, e: TransactionEvent)
    requires EndsWith(ops, e) && Clocked(ops) && cfg.windowSeconds < 0
    ensures OwnDeque(cfg, ops, e) == [e]
    ensures |Since(CustodianHistory(ops, e.tenantId, e.custodianId), Stamp, e.timestamp - cfg.Width())| == 0
  {
    NegativeWindowHidesTheCustodian(cfg, ops, e);
    NegativeWindowDeques(cfg, ops, e);
  }

  // The custodian's deque is the history in the window exactly under a window that is not
  // negative, ...
  lemma {:induction false} OwnDequeIsTheHistoryExactlyWhen(cfg: Config, ops: seq<Op>, e: TransactionEvent)
    requires EndsWith(ops, e) && Clocked(ops)
    ensures OwnDeque(cfg, ops, e) == Since(CustodianHistory(ops, e.tenantId, e.custodianId), Stamp, e.timestamp - cfg.Width()) <==> cfg.windowSeconds >= 0
  {
    if cfg.windowSeconds >= 0 {
      OwnDequeIsTheHistory(cfg, ops, e);
    } else {
      NegativeWindowKeepsTheEvent(cfg, ops, e);
    }
  }

  lemma {:induction false} NegativeWindowHidesTheTenant(cfg: Config, ops: seq<Op>, e: TransactionEvent)
    requires EndsWith(ops, e) && Clocked(ops) && cfg.windowSeconds < 0
    ensures |Since(TenantHistory(ops, e.tenantId), Stamp, e.timestamp - cfg.Width())| == 0
  {
    RecordIsLatest(ops, e);
    TenantHistoryUpTo(ops, e.tenantId, e.timestamp);
    SinceKeepsNoneOf(TenantHistory(ops, e.tenantId), Stamp, e.timestamp - cfg.Width());
  }

  // ... and the tenant's deque also under a negative one if clustering is on.
  lemma {:induction false} TenantDequeIsTheHistoryExactlyWhen(cfg: Config, ops: seq<Op>, e: TransactionEvent)
    requires EndsWith(ops, e) && Clocked(ops)
    ensures TenantDeque(cfg, ops, e) == Since(TenantHistory(ops, e.tenantId), Stamp, e.timestamp - cfg.Width()) <==> cfg.windowSeconds >= 0 || cfg.enableGraphClustering
  {
    if cfg.windowSeconds >= 0 {
      TenantDequeIsTheHistory(cfg, ops, e);
    } else {
      NegativeWindowDeques(cfg, ops, e);
      NegativeWindowHidesTheTenant(cfg, ops, e);
    }
  }

  lemma {:induction false} RecordIsLatest(ops: seq<Op>, e: TransactionEvent)
    requires EndsWith(ops, e) && Clocked(ops)
    ensures Clocked(ops[..|ops| - 1]) && NotBefore(ops[..|ops| - 1], e.timestamp) && NotBefore(ops, e.timestamp)
  {
    var last := |ops| - 1;
    forall i | 0 <= i < |ops| && TimeOf(ops[i]).Some? ensures TimeOf(ops[i]).value <= e.timestamp {
      assert ops[last] == Record(e);
    }
  }

  lemma {:induction false} HistoryNotAfter(ops: seq<Op>, tenant: string, custodian: string, now: int)
    requires NotBefore(ops, now)
    ensures NoneAfter(CustodianHistory(ops, tenant, custodian), Stamp, now)
  {
    if ops == [] {
    } else {
      assert TimeOf(ops[|ops| - 1]).Some? ==> TimeOf(ops[|ops| - 1]).value <= now;
      HistoryNotAfter(ops[..|ops| - 1], tenant, custodian, now);
    }
  }

  lemma {:induction false} TenantHistoryUpTo(ops: seq<Op>, tenant: string, now: int)
    requires NotBefore(ops, now)
    ensures forall d :: d in TenantHistory(ops, tenant) ==> d.timestamp <= now
  {
    if ops == [] {
    } else {
      var before, op := ops[..|ops| - 1], ops[|ops| - 1];
      TenantHistoryUpTo(before, tenant, now);
      assert TimeOf(op).Some? ==> TimeOf(op).value <= now;
      if op.ClearCustodian? {
        WithoutMembers(TenantHistory(before, tenant), op.custodian);
      }
    }
  }
}
