// The disbursement velocity detector (src/services/fraud/velocity_detector.py): one
// deque per custodian, counted against the true history of the run.
module VelocityDetector {
  import opened Basics
  import opened SlidingWindow

  datatype DisbursementRecord = DisbursementRecord(
    transactionId: string, tenantId: string, custodianId: string, amountScaled: int, timestamp: int)

  datatype Config = Config(maxPerHour: int, windowSeconds: int) {
    function Width(): int { windowSeconds * MICROS_PER_SECOND }
  }

  type Key = (string, string)

  function KeyOf(r: DisbursementRecord): Key { (r.tenantId, r.custodianId) }

  function Stamp(r: DisbursementRecord): int { r.timestamp }

  function Total(rs: seq<DisbursementRecord>): int {
    if rs == [] then 0 else Total(rs[..|rs| - 1]) + rs[|rs| - 1].amountScaled
  }

  datatype VelocityAlert = VelocityAlert(
    latest: DisbursementRecord, hourlyCount: nat, maxAllowed: int, windowSeconds: int, windowTotalScaled: int, records: seq<DisbursementRecord>)

  type Windows = map<Key, seq<DisbursementRecord>>

  function Get(w: Windows, k: Key): seq<DisbursementRecord> {
    if k in w then w[k] else []
  }

  datatype Op =
    | Record(r: DisbursementRecord)
    | Query(key: Key, reference: Option<int>)
    | Clear(key: Key)

  function Step(cfg: Config, w: Windows, op: Op): Windows {
    match op
    case Record(r) => w[KeyOf(r) := Evict(Get(w, KeyOf(r)), Stamp, r.timestamp - cfg.Width()) + [r]]
    case Query(k, reference) =>
      if Get(w, k) == [] || reference.None? then w else w[k := Evict(w[k], Stamp, reference.value - cfg.Width())]
    case Clear(k) => w - {k}
  }

  class DisbursementVelocityDetector {
    const cfg: Config
    var windows: Windows

    constructor (cfg: Config)
      requires cfg.maxPerHour > 0
      ensures this.cfg == cfg && windows == map[]
    {
      this.cfg := cfg;
      windows := map[];
    }

    method RecordAndCheck(r: DisbursementRecord) returns (alert: Option<VelocityAlert>)
      modifies this
      ensures windows == Step(cfg, old(windows), Record(r))
      ensures var w := Get(windows, KeyOf(r));
              alert == if |w| > cfg.maxPerHour then Some(VelocityAlert(r, |w|, cfg.maxPerHour, cfg.windowSeconds, Total(w), w)) else None
    {
      var key := KeyOf(r);
      var window := EvictExpired(Get(windows, key), Stamp, r.timestamp - cfg.Width());
      window := window + [r];
      windows := windows[key := window];
      assert Get(windows, key) == window;
      if |window| > cfg.maxPerHour {
        return Some(VelocityAlert(r, |window|, cfg.maxPerHour, cfg.windowSeconds, Total(window), window));
      }
      return None;
    }

    method GetHourlyCount(key: Key, reference: Option<int>) returns (count: nat)
      modifies this
      ensures windows == Step(cfg, old(windows), Query(key, reference))
      ensures count == |Get(windows, key)|
    {
      if key !in windows || windows[key] == [] {
        return 0;
      }
      if reference.Some? {
        var window := EvictExpired(windows[key], Stamp, reference.value - cfg.Width());
        windows := windows[key := window];
      }
      return |windows[key]|;
    }

    method ClearCustodian(key: Key)
      modifies this
      ensures windows == Step(cfg, old(windows), Clear(key))
    {
      windows := windows - {key};
    }
  }

  // ----- over a run -----

  function Run(cfg: Config, ops: seq<Op>): Windows {
    if ops == [] then map[] else Step(cfg, Run(cfg, ops[..|ops| - 1]), ops[|ops| - 1])
  }

  function HistoryStep(h: seq<DisbursementRecord>, op: Op, k: Key): seq<DisbursementRecord> {
    match op
    case Record(r) => if KeyOf(r) == k then h + [r] else h
    case Clear(key) => if key == k then [] else h
    case Query(_, _) => h
  }

  // What was recorded under k since it was last cleared.
  function History(ops: seq<Op>, k: Key): seq<DisbursementRecord> {
    if ops == [] then [] else HistoryStep(History(ops[..|ops| - 1], k), ops[|ops| - 1], k)
  }

  function TimeOf(op: Op): Option<int> {
    match op
    case Record(r) => Some(r.timestamp)
    case Query(_, reference) => reference
    case Clear(_) => None
  }

  // The clock never goes backwards, and has not passed now.
  predicate ClockedUntil(ops: seq<Op>, now: int) {
    ops == [] ||
    var time := TimeOf(ops[|ops| - 1]);
    (time.Some? ==> time.value <= now) && ClockedUntil(ops[..|ops| - 1], if time.Some? then time.value else now)
  }

  lemma {:induction false} DequeTracksHistory(cfg: Config, ops: seq<Op>, k: Key, now: int)
    requires ClockedUntil(ops, now) && cfg.windowSeconds >= 0
    ensures Tracks(Get(Run(cfg, ops), k), History(ops, k), Stamp, now, cfg.Width())
  {
    if ops == [] {
      assert IsSince<DisbursementRecord>([], [], Stamp, now - cfg.Width());
    } else {
      var before, op := ops[..|ops| - 1], ops[|ops| - 1];
      var at := if TimeOf(op).Some? then TimeOf(op).value else now;
      DequeTracksHistory(cfg, before, k, at);
      StepOnWindow(cfg, Run(cfg, before), op, k);
      WindowStepTracks(cfg, Get(Run(cfg, before), k), History(before, k), op, k, at);
      TracksLater(Get(Run(cfg, ops), k), History(ops, k), Stamp, at, now, cfg.Width());
    }
  }

  // What one operation does to one window.
  function WindowStep(cfg: Config, d: seq<DisbursementRecord>, op: Op, k: Key): seq<DisbursementRecord> {
    match op
    case Record(r) => if KeyOf(r) == k then Evict(d, Stamp, r.timestamp - cfg.Width()) + [r] else d
    case Query(key, reference) => if key == k && reference.Some? then Evict(d, Stamp, reference.value - cfg.Width()) else d
    case Clear(key) => if key == k then [] else d
  }

  lemma {:induction false} StepOnWindow(cfg: Config, w: Windows, op: Op, k: Key)
    ensures Get(Step(cfg, w, op), k) == WindowStep(cfg, Get(w, k), op, k)
  {
  }

  lemma {:induction false} WindowStepTracks(cfg: Config, d: seq<DisbursementRecord>, h: seq<DisbursementRecord>, op: Op, k: Key, now: int)
    requires Tracks(d, h, Stamp, now, cfg.Width()) && cfg.windowSeconds >= 0
    requires TimeOf(op).Some? ==> TimeOf(op).value == now
    ensures Tracks(WindowStep(cfg, d, op, k), HistoryStep(h, op, k), Stamp, now, cfg.Width())
  {
    match op {
      case Record(r) => if KeyOf(r) == k { PushTracks(d, h, r, Stamp, cfg.Width()); }
      case Query(_, _) => EvictTracks(d, h, Stamp, now, cfg.Width());
      case Clear(_) => assert IsSince<DisbursementRecord>([], [], Stamp, now - cfg.Width());
    }
  }

  lemma {:induction false} RecordIsSince(cfg: Config, w: Windows, h: seq<DisbursementRecord>, r: DisbursementRecord)
    requires Tracks(Get(w, KeyOf(r)), h, Stamp, r.timestamp, cfg.Width()) && cfg.windowSeconds >= 0
    ensures Get(Step(cfg, w, Record(r)), KeyOf(r)) == Since(h + [r], Stamp, r.timestamp - cfg.Width())
  {
    PushTracks(Get(w, KeyOf(r)), h, r, Stamp, cfg.Width());
  }

  // The count that decides the alert is the number of disbursements of the last
  // window, whatever queries evicted in between.
  lemma {:induction false} CountIsRecentHistory(cfg: Config, ops: seq<Op>, r: DisbursementRecord)
    requires ops != [] && ops[|ops| - 1] == Record(r)
    requires ClockedUntil(ops, r.timestamp) && cfg.windowSeconds >= 0
    ensures Get(Run(cfg, ops), KeyOf(r)) == Since(History(ops, KeyOf(r)), Stamp, r.timestamp - cfg.Width())
  {
    var before := ops[..|ops| - 1];
    DequeTracksHistory(cfg, before, KeyOf(r), r.timestamp);
    RecordIsSince(cfg, Run(cfg, before), History(before, KeyOf(r)), r);
  }

  lemma {:induction false} WindowUpTo(cfg: Config, ops: seq<Op>, k: Key, now: int)
    requires ClockedUntil(ops, now)
    ensures AllUpTo(Get(Run(cfg, ops), k), Stamp, now) && NoneAfter(History(ops, k), Stamp, now)
  {
    if ops == [] {
    } else {
      var before, op := ops[..|ops| - 1], ops[|ops| - 1];
      var at := if TimeOf(op).Some? then TimeOf(op).value else now;
      var w := Get(Run(cfg, before), k);
      WindowUpTo(cfg, before, k, at);
      EvictKeepsMembers(w, Stamp, at - cfg.Width());
      NoneAfterLater(History(before, k), Stamp, at, now);
      if op.Record? { AppendNoneAfter(History(before, k), op.r, Stamp, now); }
    }
  }

  lemma {:induction false} NegativeWindowHoldsTheRecord(cfg: Config, ops: seq<Op>, r: DisbursementRecord)
    requires ops != [] && ops[|ops| - 1] == Record(r)
    requires ClockedUntil(ops, r.timestamp) && cfg.windowSeconds < 0
    ensures Get(Run(cfg, ops), KeyOf(r)) == [r]
  {
    var before := ops[..|ops| - 1];
    WindowUpTo(cfg, before, KeyOf(r), r.timestamp);
    EvictClears(Get(Run(cfg, before), KeyOf(r)), Stamp, r.timestamp, r.timestamp - cfg.Width());
  }

  lemma {:induction false} NegativeWindowHidesTheHistory(cfg: Config, ops: seq<Op>, k: Key, now: int)
    requires ClockedUntil(ops, now) && cfg.windowSeconds < 0
    ensures |Since(History(ops, k), Stamp, now - cfg.Width())| == 0
  {
    WindowUpTo(cfg, ops, k, now);
    SinceKeepsNone(History(ops, k), Stamp, now, now - cfg.Width());
  }

  // With a negative window, which the constructor accepts, the record alone is counted
  // although it lies outside.
  lemma {:induction false} NegativeWindowCountsTheRecord(cfg: Config, ops: seq<Op>, r: DisbursementRecord)
    requires ops != [] && ops[|ops| - 1] == Record(r)
    requires ClockedUntil(ops, r.timestamp) && cfg.windowSeconds < 0
    ensures Get(Run(cfg, ops), KeyOf(r)) == [r]
    ensures |Since(History(ops, KeyOf(r)), Stamp, r.timestamp - cfg.Width())| == 0
  {
    NegativeWindowHoldsTheRecord(cfg, ops, r);
    NegativeWindowHidesTheHistory(cfg, ops, KeyOf(r), r.timestamp);
  }

  // So the sign of the window is the exact condition.
  lemma {:induction false} CountIsRecentHistoryExactlyWhen(cfg: Config, ops: seq<Op>, r: DisbursementRecord)
    requires ops != [] && ops[|ops| - 1] == Record(r) && ClockedUntil(ops, r.timestamp)
    ensures Get(Run(cfg, ops), KeyOf(r)) == Since(History(ops, KeyOf(r)), Stamp, r.timestamp - cfg.Width()) <==> cfg.windowSeconds >= 0
  {
    if cfg.windowSeconds >= 0 {
      CountIsRecentHistory(cfg, ops, r);
    } else {
      NegativeWindowCountsTheRecord(cfg, ops, r);
    }
  }
}
