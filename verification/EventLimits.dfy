// When a provider event is sure to be accepted once
// (src/domain/wallet/disbursement_manager.py, src/infrastructure/idempotency/store.py):
// exactly within the retention period, or as long as nothing is reserved, because only a
// reservation clears old rows away.
module EventLimits {
  import opened DisbursementResult
  import opened DisbursementManager
  import opened DisbursementProtocol
  import opened ProtocolEvents
  import Store = IdempotencyStore
  import Settlement

  predicate NoReservation(steps: seq<Step>) {
    forall i :: 0 <= i < |steps| ==> !steps[i].Reserve?
  }

  lemma OtherStepsLeaveEvents(u: Setup, s: System, step: Step)
    requires !step.Reserve? && !step.ClaimEvent? && !step.SettleEvent?
    ensures Apply(u, s, step).tables.events == s.tables.events
    ensures Apply(u, s, step).accepted == s.accepted
    ensures var s' := Apply(u, s, step);
            forall w :: w in s'.workers && s'.workers[w].Holding? ==> w in s.workers && s'.workers[w] == s.workers[w]
  {
  }

  lemma {:induction false} QuietRunKeepsEventInv(u: Setup, start: int, steps: seq<Step>, k: Store.EventKey)
    requires NoReservation(steps)
    ensures EventInv(Run(u, start, steps), k)
  {
    if steps == [] {
    } else {
      var before, step := steps[..|steps| - 1], steps[|steps| - 1];
      var s := Run(u, start, before);
      assert forall i :: 0 <= i < |before| ==> before[i] == steps[i];
      QuietRunKeepsEventInv(u, start, before, k);
      assert !steps[|steps| - 1].Reserve?;
      if step.ClaimEvent? { ClaimKeepsEventInv(u, s, step, k); }
      else if step.SettleEvent? { SettleKeepsEventInv(u, s, step, k); }
      else { OtherStepsLeaveEvents(u, s, step); }
    }
  }

  // An event that the settlement table lets through.
  predicate IsLegal(e: ProviderEvent) {
    Requested(e).Some? && Settlement.LegalTransition(e.current, Requested(e).value)
  }

  // One delivery by worker w, run without interruption.
  function Delivered(u: Setup, s: System, w: nat, e: ProviderEvent): System {
    Apply(u, Apply(u, Apply(u, s, BeginEvent(w, e)), ClaimEvent(w)), SettleEvent(w))
  }

  lemma DeliveryIsAccepted(u: Setup, s: System, w: nat, e: ProviderEvent)
    requires w !in s.workers && e.key !in s.tables.events && IsLegal(e)
    ensures Delivered(u, s, w, e)
         == s.(tables := s.tables.(events := s.tables.events[e.key := Store.EventRow(e.fingerprint, s.now)]),
               accepted := s.accepted + [e.key], workers := s.workers[w := Ingested(e, EventOutcome.Accepted)])
  {
    var s1 := Apply(u, s, BeginEvent(w, e));
    var s2 := Apply(u, s1, ClaimEvent(w));
    var s3 := Apply(u, s2, SettleEvent(w));
    assert s1.workers == s.workers[w := Ingesting(e)];
    assert s2.workers == s.workers[w := Holding(e)];
    assert s3.workers == s.workers[w := Ingested(e, EventOutcome.Accepted)];
  }

  lemma RunDelivery(u: Setup, start: int, steps: seq<Step>, w: nat, e: ProviderEvent)
    ensures Run(u, start, steps + [BeginEvent(w, e), ClaimEvent(w), SettleEvent(w)]) == Delivered(u, Run(u, start, steps), w, e)
  {
    var a := steps + [BeginEvent(w, e)];
    var b := a + [ClaimEvent(w)];
    RunOne(u, start, steps, BeginEvent(w, e));
    RunOne(u, start, a, ClaimEvent(w));
    RunOne(u, start, b, SettleEvent(w));
    assert steps + [BeginEvent(w, e), ClaimEvent(w), SettleEvent(w)] == b + [SettleEvent(w)];
  }

  function FirstDelivery(e: ProviderEvent): seq<Step> {
    [] + [BeginEvent(0, e), ClaimEvent(0), SettleEvent(0)]
  }

  function ThenLate(u: Setup, e: ProviderEvent): seq<Step>
    requires u.retention >= 0
  {
    FirstDelivery(e) + [Tick(u.retention + 1)]
  }

  function ThenCleared(u: Setup, e: ProviderEvent, r: FloatDisbursementRequest): seq<Step>
    requires u.retention >= 0
  {
    ThenLate(u, e) + [Begin(1, r)] + [Reserve(1)]
  }

  lemma {:induction false} LateAfterRetention(u: Setup, start: int, e: ProviderEvent)
    requires IsLegal(e) && u.retention >= 0
    ensures var s := Run(u, start, ThenLate(u, e));
            && s.accepted == [e.key] && s.now == start + u.retention + 1 && s.workers.Keys == {0}
            && s.tables.records == map[] && s.tables.events == map[e.key := Store.EventRow(e.fingerprint, start)]
  {
    RunDelivery(u, start, [], 0, e);
    DeliveryIsAccepted(u, Start(start), 0, e);
    RunOne(u, start, FirstDelivery(e), Tick(u.retention + 1));
  }

  lemma {:induction false} ClearedAfterRetention(u: Setup, start: int, e: ProviderEvent, r: FloatDisbursementRequest)
    requires IsLegal(e) && u.retention >= 0
    ensures var s := Run(u, start, ThenCleared(u, e, r));
            e.key !in s.tables.events && s.accepted == [e.key] && s.now == start + u.retention + 1 && 2 !in s.workers
  {
    var late := ThenLate(u, e);
    LateAfterRetention(u, start, e);
    RunOne(u, start, late, Begin(1, r));
    RunOne(u, start, late + [Begin(1, r)], Reserve(1));
  }

  // One second after the retention period, and after any reservation, the same event is
  // accepted again.
  lemma {:induction false} AcceptedAgainAfterRetention(u: Setup, start: int, e: ProviderEvent, r: FloatDisbursementRequest) returns (steps: seq<Step>)
    requires IsLegal(e) && u.retention >= 0
    ensures TimesIn(Run(u, start, steps).accepted, e.key) == 2 && Run(u, start, steps).now == start + u.retention + 1
  {
    var cleared := ThenCleared(u, e, r);
    steps := cleared + [BeginEvent(2, e), ClaimEvent(2), SettleEvent(2)];
    ClearedAfterRetention(u, start, e, r);
    RunDelivery(u, start, cleared, 2, e);
    DeliveryIsAccepted(u, Run(u, start, cleared), 2, e);
    TimesAppend([e.key], e.key, e.key);
    TimesAppend([], e.key, e.key);
    assert [] + [e.key] == [e.key];
  }

  ghost predicate Keeps(u: Setup, start: int, steps: seq<Step>, limit: nat, reserving: bool) {
    Run(u, start, steps).now <= start + limit && (reserving || NoReservation(steps))
  }

  ghost predicate AcceptedOnce(u: Setup, start: int, k: Store.EventKey, limit: nat, reserving: bool) {
    forall steps :: Keeps(u, start, steps, limit, reserving) ==> TimesIn(Run(u, start, steps).accepted, k) <= 1
  }

  // A legal event is sure to be accepted at most once exactly when no more time than the
  // retention period passes or nothing is reserved.
  lemma AcceptedOnceExactlyWhen(u: Setup, start: int, e: ProviderEvent, limit: nat, reserving: bool, r: FloatDisbursementRequest)
    requires IsLegal(e) && u.retention >= 0
    ensures AcceptedOnce(u, start, e.key, limit, reserving) <==> limit <= u.retention || !reserving
  {
    if limit <= u.retention || !reserving {
      forall steps | Keeps(u, start, steps, limit, reserving) ensures TimesIn(Run(u, start, steps).accepted, e.key) <= 1 {
        if reserving { AcceptedAtMostOnce(u, start, steps, e.key); } else { QuietRunKeepsEventInv(u, start, steps, e.key); }
      }
    } else {
      var steps := AcceptedAgainAfterRetention(u, start, e, r);
      assert Keeps(u, start, steps, limit, reserving);
    }
  }
}
