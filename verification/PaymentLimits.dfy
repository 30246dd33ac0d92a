// When an idempotency key is sure to be paid once
// (src/domain/wallet/disbursement_manager.py, src/infrastructure/idempotency/store.py):
// exactly within the retention period, or as long as all its requests use one kind of
// channel, because the provider on that side remembers the key for good.
module PaymentLimits {
  import opened DisbursementResult
  import opened Adapters
  import opened DisbursementManager
  import opened DisbursementProtocol
  import opened ProtocolEvents

  // Every request for the key is for a card, or every one is for a transfer.
  predicate Via(r: FloatDisbursementRequest, k: Key, card: bool) {
    KeyOf(r) == k ==> r.channel.VirtualCard? == card
  }

  predicate BeginsVia(step: Step, k: Key, card: bool) {
    step.Begin? ==> Via(step.req, k, card)
  }

  predicate AllVia(steps: seq<Step>, k: Key, card: bool) {
    forall i :: 0 <= i < |steps| ==> BeginsVia(steps[i], k, card)
  }

  predicate WorkerVia(worker: Worker, k: Key, card: bool) {
    worker.Calling? || worker.Owning? || worker.Served? || worker.Failing? || worker.Done? ==> Via(worker.req, k, card)
  }

  // The provider on the other side has never heard of the key.
  predicate OtherSideUnused(outside: Downstream, k: Key, card: bool) {
    if card then k !in outside.mobile.disbursed else Scoped(k) !in outside.cards.issued
  }

  ghost predicate OneSided(s: System, k: Key, card: bool) {
    && OtherSideUnused(s.outside, k, card)
    && forall w :: w in s.workers ==> WorkerVia(s.workers[w], k, card)
  }

  lemma CallKeepsSide(outside: Downstream, p: Provider, r: FloatDisbursementRequest, id: string, text: string, d: Draw, k: Key, card: bool)
    requires OtherSideUnused(outside, k, card) && Via(r, k, card)
    ensures OtherSideUnused(CallStep(outside, p, r, id, text, d).0, k, card)
  {
  }

  // A step starts a worker, or moves one on with the request it has, or leaves it.
  lemma {:induction false} StepKeepsWorker(u: Setup, s: System, step: Step, k: Key, card: bool, w: nat)
    requires OneSided(s, k, card) && BeginsVia(step, k, card)
    ensures w in Apply(u, s, step).workers ==> WorkerVia(Apply(u, s, step).workers[w], k, card)
  {
    OthersStay(u, s, step, w);
    if w in s.workers { assert WorkerVia(s.workers[w], k, card); }
  }

  lemma OthersStay(u: Setup, s: System, step: Step, w: nat)
    ensures var s' := Apply(u, s, step);
            (step.Tick? || step.w != w) && w in s'.workers ==> w in s.workers && s'.workers[w] == s.workers[w]
    ensures !(step.Call? && step.w in s.workers && s.workers[step.w].Owning?) ==> Apply(u, s, step).outside == s.outside
  {
  }

  lemma StepKeepsOneSided(u: Setup, s: System, step: Step, k: Key, card: bool)
    requires OneSided(s, k, card) && BeginsVia(step, k, card)
    ensures OneSided(Apply(u, s, step), k, card)
  {
    forall w ensures w in Apply(u, s, step).workers ==> WorkerVia(Apply(u, s, step).workers[w], k, card) {
      StepKeepsWorker(u, s, step, k, card, w);
    }
    if step.Call? && step.w in s.workers && s.workers[step.w].Owning? {
      assert WorkerVia(s.workers[step.w], k, card);
      CallKeepsSide(s.outside, u.provider, s.workers[step.w].req, step.disbursementId, step.nowText, step.draw, k, card);
    } else {
      OthersStay(u, s, step, 0);
    }
  }

  lemma {:induction false} RunKeepsOneSided(u: Setup, start: int, steps: seq<Step>, k: Key, card: bool)
    requires AllVia(steps, k, card)
    ensures OneSided(Run(u, start, steps), k, card)
  {
    if steps == [] {
    } else {
      var before, last := steps[..|steps| - 1], steps[|steps| - 1];
      assert BeginsVia(steps[|steps| - 1], k, card);
      assert forall i :: 0 <= i < |before| ==> before[i] == steps[i];
      RunKeepsOneSided(u, start, before, k, card);
      StepKeepsOneSided(u, Run(u, start, before), last, k, card);
    }
  }

  // With one kind of channel a key is paid once at most, however long the run lasts.
  lemma OneChannelPaysOnce(u: Setup, start: int, steps: seq<Step>, k: Key, card: bool)
    requires AllVia(steps, k, card)
    ensures EffectsOn(Run(u, start, steps).effects, k) <= 1
  {
    AtMostOnePerChannel(u, start, steps, k);
    RunKeepsOneSided(u, start, steps, k, card);
  }

  // What the callers keep to: a bound on the time that passes, and, unless channels may
  // be mixed, one kind of channel for the key.
  ghost predicate Keeps(u: Setup, start: int, steps: seq<Step>, k: Key, limit: nat, mixed: bool) {
    Run(u, start, steps).now <= start + limit && (mixed || exists card :: AllVia(steps, k, card))
  }

  ghost predicate PaidOnce(u: Setup, start: int, k: Key, limit: nat, mixed: bool) {
    forall steps :: Keeps(u, start, steps, k, limit, mixed) ==> EffectsOn(Run(u, start, steps).effects, k) <= 1
  }

  // A key for which a card and a transfer can be asked is sure to be paid at most once
  // exactly when no more time than the retention period passes or the channels for the
  // key are not mixed.
  lemma PaidOnceExactlyWhen(u: Setup, start: int, k: Key, limit: nat, mixed: bool, card: FloatDisbursementRequest, transfer: FloatDisbursementRequest)
    requires ReadsBack(u.codec) && u.retention >= 0
    requires card.channel == VirtualCard && transfer.channel != VirtualCard && KeyOf(card) == KeyOf(transfer) == k
    requires Accepts(card) && Accepts(transfer)
    ensures PaidOnce(u, start, k, limit, mixed) <==> limit <= u.retention || !mixed
  {
    if limit <= u.retention || !mixed {
      forall steps | Keeps(u, start, steps, k, limit, mixed) ensures EffectsOn(Run(u, start, steps).effects, k) <= 1 {
        if mixed {
          AtMostOneEffect(u, start, steps, k);
        } else {
          var one :| AllVia(steps, k, one);
          OneChannelPaysOnce(u, start, steps, k, one);
        }
      }
    } else {
      var steps := PaysAgainAfterRetention(u, start, card, transfer, Draw("", "", "", ""));
      assert Keeps(u, start, steps, k, limit, mixed);
    }
  }
}
