// Provider callbacks under the same interleavings, and what is left of the payment
// guarantee once the retention period has passed.
module ProtocolEvents {
  import opened DisbursementResult
  import opened Adapters
  import opened DisbursementManager
  import opened DisbursementProtocol
  import Store = IdempotencyStore

  // ----- callbacks: accepted at most once -----

  predicate Holds(worker: Worker, k: Store.EventKey) {
    worker.Holding? && worker.event.key == k
  }

  ghost predicate OneHolder(workers: map<nat, Worker>, k: Store.EventKey) {
    forall v, w :: v in workers && w in workers && Holds(workers[v], k) && Holds(workers[w], k) ==> v == w
  }

  ghost predicate Held(workers: map<nat, Worker>, k: Store.EventKey) {
    exists w :: w in workers && Holds(workers[w], k)
  }

  ghost predicate EventInv(s: System, k: Store.EventKey) {
    && OneHolder(s.workers, k)
    && (Held(s.workers, k) ==> k in s.tables.events && TimesIn(s.accepted, k) == 0)
    && (k !in s.tables.events ==> TimesIn(s.accepted, k) == 0)
    && TimesIn(s.accepted, k) <= 1
  }

  // A holder that stops holding: nobody else held its event, and no other event is affected.
  lemma HolderLeaves(workers: map<nat, Worker>, w: nat, after: Worker, k: Store.EventKey)
    requires OneHolder(workers, k) && w in workers && !after.Holding?
    ensures OneHolder(workers[w := after], k)
    ensures Held(workers[w := after], k) ==> Held(workers, k) && !Holds(workers[w], k)
  {
    var moved := workers[w := after];
    if Held(moved, k) {
      var v :| v in moved && Holds(moved[v], k);
      assert v != w && v in workers && Holds(workers[v], k);
    }
  }

  lemma TimesAppend(keys: seq<Store.EventKey>, e: Store.EventKey, k: Store.EventKey)
    ensures TimesIn(keys + [e], k) == TimesIn(keys, k) + (if e == k then 1 else 0)
  {
    assert (keys + [e])[..|keys|] == keys;
  }

  lemma ClaimKeepsEventInv(u: Setup, s: System, step: Step, k: Store.EventKey)
    requires EventInv(s, k) && step.ClaimEvent?
    ensures EventInv(Apply(u, s, step), k)
  {
    var s' := Apply(u, s, step);
    if v :| v in s'.workers && v != step.w && Holds(s'.workers[v], k) {
      assert Holds(s.workers[v], k);
    }
  }

  lemma AcceptKeepsEventInv(s: System, w: nat, k: Store.EventKey)
    requires EventInv(s, k) && w in s.workers && s.workers[w].Holding?
    ensures var e := s.workers[w].event;
            EventInv(Become(s.(accepted := s.accepted + [e.key]), w, Ingested(e, Accepted)), k)
  {
    var e := s.workers[w].event;
    TimesAppend(s.accepted, e.key, k);
    HolderLeaves(s.workers, w, Ingested(e, Accepted), k);
    if e.key == k {
      assert Holds(s.workers[w], k);
    }
  }

  lemma RefuseKeepsEventInv(s: System, w: nat, k: Store.EventKey)
    requires EventInv(s, k) && w in s.workers && s.workers[w].Holding?
    ensures var e := s.workers[w].event;
            EventInv(Become(s.(tables := Store.AbandonEventStep(s.tables, e.key)), w, Ingested(e, IllegalTransition)), k)
  {
    var e := s.workers[w].event;
    HolderLeaves(s.workers, w, Ingested(e, IllegalTransition), k);
    if e.key == k {
      assert Holds(s.workers[w], k);
    }
  }

  lemma UnknownKeepsEventInv(s: System, w: nat, k: Store.EventKey)
    requires EventInv(s, k) && w in s.workers && s.workers[w].Holding?
    ensures EventInv(Become(s, w, Ingested(s.workers[w].event, UnknownStatus)), k)
  {
    HolderLeaves(s.workers, w, Ingested(s.workers[w].event, UnknownStatus), k);
  }

  lemma SettleKeepsEventInv(u: Setup, s: System, step: Step, k: Store.EventKey)
    requires EventInv(s, k) && step.SettleEvent?
    ensures EventInv(Apply(u, s, step), k)
  {
    if step.w in s.workers && s.workers[step.w].Holding? {
      AcceptKeepsEventInv(s, step.w, k);
      RefuseKeepsEventInv(s, step.w, k);
      UnknownKeepsEventInv(s, step.w, k);
    }
  }

  lemma PaymentStepsLeaveEvents(u: Setup, s: System, step: Step, start: int)
    requires WithinRetention(u, s, start) && !step.ClaimEvent? && !step.SettleEvent?
    ensures Apply(u, s, step).tables.events == s.tables.events
    ensures Apply(u, s, step).accepted == s.accepted
    ensures var s' := Apply(u, s, step);
            forall w :: w in s'.workers && s'.workers[w].Holding? ==> w in s.workers && s'.workers[w] == s.workers[w]
  {
    Store.NothingExpires(s.tables, start, s.now, u.retention);
  }

  lemma {:induction false} RunKeepsEventInv(u: Setup, start: int, steps: seq<Step>, k: Store.EventKey)
    requires Run(u, start, steps).now <= start + u.retention
    ensures EventInv(Run(u, start, steps), k) && WithinRetention(u, Run(u, start, steps), start)
  {
    if steps == [] {
    } else {
      var before, step := steps[..|steps| - 1], steps[|steps| - 1];
      var s := Run(u, start, before);
      assert s.now <= Apply(u, s, step).now;
      RunKeepsEventInv(u, start, before, k);
      StaysWritten(u, s, step, start);
      if step.ClaimEvent? { ClaimKeepsEventInv(u, s, step, k); }
      else if step.SettleEvent? { SettleKeepsEventInv(u, s, step, k); }
      else { PaymentStepsLeaveEvents(u, s, step, start); }
    }
  }

  // Within the retention period each provider event is accepted at most once, however
  // its deliveries race with each other and with disbursements.
  lemma AcceptedAtMostOnce(u: Setup, start: int, steps: seq<Step>, k: Store.EventKey)
    requires Run(u, start, steps).now <= start + u.retention
    ensures TimesIn(Run(u, start, steps).accepted, k) <= 1
  {
    RunKeepsEventInv(u, start, steps, k);
  }

  // ----- payments after the retention period -----

  // What the providers remember about a key.
  function Remembered(s: Downstream, k: Key): nat {
    (if Scoped(k) in s.cards.issued then 1 else 0) + (if k in s.mobile.disbursed then 1 else 0)
  }

  lemma OnlyCallsReachProviders(u: Setup, s: System, step: Step)
    requires !step.Call?
    ensures Apply(u, s, step).effects == s.effects && Apply(u, s, step).outside == s.outside
  {
  }

  lemma CallIsRemembered(outside: Downstream, p: Provider, r: FloatDisbursementRequest, id: string, text: string, d: Draw, k: Key)
    ensures Remembered(CallStep(outside, p, r, id, text, d).0, k)
         == Remembered(outside, k) + (if KeyOf(r) == k && !AlreadyServed(outside, r) then 1 else 0)
  {
  }

  lemma {:induction false} StepKeepsMemory(u: Setup, s: System, step: Step, k: Key)
    requires EffectsOn(s.effects, k) == Remembered(s.outside, k)
    ensures EffectsOn(Apply(u, s, step).effects, k) == Remembered(Apply(u, s, step).outside, k)
  {
    if !step.Call? {
      OnlyCallsReachProviders(u, s, step);
    } else if step.w in s.workers && s.workers[step.w].Owning? {
      var r := s.workers[step.w].req;
      CallIsRemembered(s.outside, u.provider, r, step.disbursementId, step.nowText, step.draw, k);
      CountAppend(s.effects, Effect(KeyOf(r), CallStep(s.outside, u.provider, r, step.disbursementId, step.nowText, step.draw).1), k);
    }
  }

  // Without any bound on time the providers' own memory still limits a key to one
  // card and one transfer.
  lemma {:induction false} AtMostOnePerChannel(u: Setup, start: int, steps: seq<Step>, k: Key)
    ensures EffectsOn(Run(u, start, steps).effects, k) == Remembered(Run(u, start, steps).outside, k) <= 2
  {
    if steps == [] {
    } else {
      AtMostOnePerChannel(u, start, steps[..|steps| - 1], k);
      StepKeepsMemory(u, Run(u, start, steps[..|steps| - 1]), steps[|steps| - 1], k);
    }
  }

  // One disbursement by worker w, run without interruption.
  function Alone(u: Setup, s: System, w: nat, r: FloatDisbursementRequest, d: Draw): System {
    Apply(u, Apply(u, Apply(u, Apply(u, s, Begin(w, r)), Reserve(w)), Call(w, d.id, d.now, d)), Finish(w))
  }

  lemma ReserveOwns(u: Setup, s: System, w: nat)
    requires w in s.workers && s.workers[w].Calling?
    requires KeyOf(s.workers[w].req) !in Store.DropExpired(s.tables, s.now, u.retention).records
    ensures var s' := Apply(u, s, Reserve(w)); var r := s.workers[w].req;
            && s'.workers == s.workers[w := Owning(r)] && s'.now == s.now && s'.effects == s.effects && s'.outside == s.outside
            && KeyOf(r) in s'.tables.records && s'.tables.records[KeyOf(r)] == Store.Row(Fingerprint(u.codec, r), "", Store.InProgress, s.now)
  {
  }

  lemma CallPays(u: Setup, s: System, w: nat, d: Draw)
    requires w in s.workers && s.workers[w].Owning? && Accepts(s.workers[w].req) && !AlreadyServed(s.outside, s.workers[w].req)
    ensures var s' := Apply(u, s, Call(w, d.id, d.now, d)); var r := s.workers[w].req;
            && w in s'.workers && s'.workers[w].Served? && s'.workers[w].req == r && s'.workers.Keys == s.workers.Keys
            && s'.now == s.now && s'.tables == s.tables
            && EffectsOn(s'.effects, KeyOf(r)) == EffectsOn(s.effects, KeyOf(r)) + 1
            && s'.outside == CallStep(s.outside, u.provider, r, d.id, d.now, d).0
  {
    var r := s.workers[w].req;
    CountAppend(s.effects, Effect(KeyOf(r), CallStep(s.outside, u.provider, r, d.id, d.now, d).1), KeyOf(r));
  }

  lemma FinishRecords(u: Setup, s: System, w: nat)
    requires w in s.workers && s.workers[w].Served?
    requires Store.HeldInProgress(s.tables, KeyOf(s.workers[w].req), Fingerprint(u.codec, s.workers[w].req))
    ensures var s' := Apply(u, s, Finish(w)); var k := KeyOf(s.workers[w].req);
            && s'.workers.Keys == s.workers.Keys && s'.now == s.now && s'.effects == s.effects && s'.outside == s.outside
            && s'.tables.records.Keys == s.tables.records.Keys && s'.tables.records[k].createdAt == s.tables.records[k].createdAt
  {
  }

  lemma AloneDelivers(u: Setup, s: System, w: nat, r: FloatDisbursementRequest, d: Draw)
    requires w !in s.workers && Accepts(r) && !AlreadyServed(s.outside, r)
    requires KeyOf(r) !in Store.DropExpired(s.tables, s.now, u.retention).records
    ensures var s' := Alone(u, s, w, r, d);
            && EffectsOn(s'.effects, KeyOf(r)) == EffectsOn(s.effects, KeyOf(r)) + 1
            && s'.now == s.now
            && s'.workers.Keys == s.workers.Keys + {w}
            && KeyOf(r) in s'.tables.records && s'.tables.records[KeyOf(r)].createdAt == s.now
            && s'.outside == CallStep(s.outside, u.provider, r, d.id, d.now, d).0
  {
    var s1 := Become(s, w, Calling(r));
    ReserveOwns(u, s1, w);
    var s2 := Apply(u, s1, Reserve(w));
    CallPays(u, s2, w, d);
    FinishRecords(u, Apply(u, s2, Call(w, d.id, d.now, d)), w);
  }

  // So the retention period is what makes a key pay once: one second after it, the same
  // key sent on the other channel pays again.
  lemma PaysAgainAfterRetention(u: Setup, start: int, card: FloatDisbursementRequest, transfer: FloatDisbursementRequest, d: Draw)
    returns (steps: seq<Step>)
    requires card.channel == VirtualCard && transfer.channel != VirtualCard && KeyOf(card) == KeyOf(transfer)
    requires Accepts(card) && Accepts(transfer) && u.retention >= 0
    ensures EffectsOn(Run(u, start, steps).effects, KeyOf(card)) == 2
    ensures Run(u, start, steps).now == start + u.retention + 1
  {
    var later := [Begin(0, card), Reserve(0), Call(0, d.id, d.now, d), Finish(0)] + [Tick(u.retention + 1)];
    steps := later + [Begin(1, transfer), Reserve(1), Call(1, d.id, d.now, d), Finish(1)];
    RunAlone(u, start, later, 1, transfer, d);
    FirstPaymentThenWait(u, start, later, card, transfer, d);
    AloneDelivers(u, Run(u, start, later), 1, transfer, d);
  }

  lemma FirstPaymentThenWait(u: Setup, start: int, later: seq<Step>, card: FloatDisbursementRequest, transfer: FloatDisbursementRequest, d: Draw)
    requires u.retention >= 0
    requires later == [Begin(0, card), Reserve(0), Call(0, d.id, d.now, d), Finish(0)] + [Tick(u.retention + 1)]
    requires card.channel == VirtualCard && transfer.channel != VirtualCard && KeyOf(card) == KeyOf(transfer)
    requires Accepts(card)
    ensures var s := Run(u, start, later);
            && EffectsOn(s.effects, KeyOf(card)) == 1 && 1 !in s.workers
            && s.now == start + u.retention + 1
            && KeyOf(card) !in Store.DropExpired(s.tables, s.now, u.retention).records
            && !AlreadyServed(s.outside, transfer)
  {
    var first := [Begin(0, card), Reserve(0), Call(0, d.id, d.now, d), Finish(0)];
    assert [] + first == first;
    RunAlone(u, start, [], 0, card, d);
    RunOne(u, start, first, Tick(u.retention + 1));
    AloneDelivers(u, Start(start), 0, card, d);
  }

  lemma RunOne(u: Setup, start: int, steps: seq<Step>, step: Step)
    ensures Run(u, start, steps + [step]) == Apply(u, Run(u, start, steps), step)
  {
    assert (steps + [step])[..|steps|] == steps;
  }

  lemma RunAlone(u: Setup, start: int, steps: seq<Step>, w: nat, r: FloatDisbursementRequest, d: Draw)
    ensures Run(u, start, steps + [Begin(w, r), Reserve(w), Call(w, d.id, d.now, d), Finish(w)]) == Alone(u, Run(u, start, steps), w, r, d)
  {
    var a := steps + [Begin(w, r)];
    var b := a + [Reserve(w)];
    var c := b + [Call(w, d.id, d.now, d)];
    RunOne(u, start, steps, Begin(w, r));
    RunOne(u, start, a, Reserve(w));
    RunOne(u, start, b, Call(w, d.id, d.now, d));
    RunOne(u, start, c, Finish(w));
    assert steps + [Begin(w, r), Reserve(w), Call(w, d.id, d.now, d), Finish(w)] == c + [Finish(w)];
  }
}
