// The two downstream adapters (src/infrastructure/adapters/card_issuer.py and
// mobile_money.py, mock back ends) and the routing of
// src/domain/wallet/disbursement_manager.py. Random ids, reference numbers and clock
// readings are drawn by the environment and passed in.
module Adapters {
  import opened Basics
  import opened DisbursementResult

  type Key = (string, string)    // tenant, idempotency key

  // create_virtual_card writes under (tenant, key); cancel_card writes under the bare key.
  datatype CardKey = Scoped(key: Key) | Bare(name: string)

  datatype CardTables = CardTables(issued: map<CardKey, VirtualCardResult>, byId: map<string, VirtualCardResult>)

  datatype MobileTables = MobileTables(disbursed: map<Key, MobileResult>, byId: map<string, MobileResult>)

  datatype Draw = Draw(id: string, shortCode: string, now: string, expiry: string)

  function KeyOf(r: FloatDisbursementRequest): Key { (r.tenantId, r.idempotencyKey) }

  function Tagged(r: FloatDisbursementRequest): Metadata {
    r.metadata["tenant_id" := r.tenantId]["fund_id" := r.fundId]
  }

  // The request constructors of the adapters refuse these before anything is sent.
  predicate CardRequestValid(r: FloatDisbursementRequest) {
    r.amountScaled > 0 && |r.currency| == 3
  }

  predicate MobileRequestValid(r: FloatDisbursementRequest) {
    r.amountScaled > 0 && |r.currency| == 3 && r.recipientAddress != ""
  }

  function NewCard(r: FloatDisbursementRequest, backend: CardBackend, d: Draw): VirtualCardResult {
    VirtualCardResult(d.id, r.tenantId, r.custodianId, r.fundId, d.shortCode, Active, r.amountScaled, r.currency,
                      r.idempotencyKey, backend, d.now, d.expiry, Tagged(r))
  }

  function CreateCardStep(t: CardTables, r: FloatDisbursementRequest, backend: CardBackend, d: Draw): (CardTables, VirtualCardResult) {
    if Scoped(KeyOf(r)) in t.issued then (t, t.issued[Scoped(KeyOf(r))])
    else
      var card := NewCard(r, backend, d);
      (CardTables(t.issued[Scoped(KeyOf(r)) := card], t.byId[card.cardId := card]), card)
  }

  function CancelCardStep(t: CardTables, cardId: string, tenant: Option<string>): (CardTables, bool) {
    if cardId !in t.byId || (tenant.Some? && t.byId[cardId].tenantId != tenant.value) then (t, false)
    else
      var cancelled := t.byId[cardId].(cardStatus := Cancelled);
      (CardTables(t.issued[Bare(cancelled.idempotencyKey) := cancelled], t.byId[cardId := cancelled]), true)
  }

  function NewMobile(r: FloatDisbursementRequest, backend: MobileBackend, failing: bool, d: Draw): MobileResult {
    if failing then
      MobileResult(d.id, r.tenantId, r.custodianId, r.fundId, r.recipientAddress, r.amountScaled, r.currency, Failed, backend,
                   r.idempotencyKey, d.shortCode, d.now, None, Some("Simulated provider failure"), r.metadata)
    else
      MobileResult(d.id, r.tenantId, r.custodianId, r.fundId, r.recipientAddress, r.amountScaled, r.currency, Completed, backend,
                   r.idempotencyKey, d.shortCode, d.now, Some(d.now), None, Tagged(r))
  }

  function DisburseStep(t: MobileTables, r: FloatDisbursementRequest, backend: MobileBackend, failing: bool, d: Draw): (MobileTables, MobileResult) {
    if KeyOf(r) in t.disbursed then (t, t.disbursed[KeyOf(r)])
    else
      var result := NewMobile(r, backend, failing, d);
      (MobileTables(t.disbursed[KeyOf(r) := result], t.byId[result.disbursementId := result]), result)
  }

  class CardIssuerAdapter {
    const backend: CardBackend
    var issuedCards: map<CardKey, VirtualCardResult>
    var cardsById: map<string, VirtualCardResult>

    ghost function State(): CardTables
      reads this
    {
      CardTables(issuedCards, cardsById)
    }

    constructor (backend: CardBackend)
      ensures this.backend == backend && State() == CardTables(map[], map[])
    {
      this.backend := backend;
      issuedCards, cardsById := map[], map[];
    }

    method CreateVirtualCard(r: FloatDisbursementRequest, d: Draw) returns (card: VirtualCardResult)
      modifies this
      ensures (State(), card) == CreateCardStep(old(State()), r, backend, d)
    {
      if Scoped(KeyOf(r)) in issuedCards {
        return issuedCards[Scoped(KeyOf(r))];
      }
      card := NewCard(r, backend, d);
      issuedCards := issuedCards[Scoped(KeyOf(r)) := card];
      cardsById := cardsById[card.cardId := card];
    }

    method CancelCard(cardId: string, tenant: Option<string>) returns (ok: bool)
      modifies this
      ensures (State(), ok) == CancelCardStep(old(State()), cardId, tenant)
    {
      if cardId !in cardsById || (tenant.Some? && cardsById[cardId].tenantId != tenant.value) {
        return false;
      }
      var cancelled := cardsById[cardId].(cardStatus := Cancelled);
      cardsById := cardsById[cardId := cancelled];
      issuedCards := issuedCards[Bare(cancelled.idempotencyKey) := cancelled];
      return true;
    }
  }

  class MobileMoneyAdapter {
    const backend: MobileBackend
    const simulateFailure: bool
    var disbursements: map<Key, MobileResult>
    var byId: map<string, MobileResult>

    ghost function State(): MobileTables
      reads this
    {
      MobileTables(disbursements, byId)
    }

    constructor (backend: MobileBackend, simulateFailure: bool)
      ensures this.backend == backend && this.simulateFailure == simulateFailure && State() == MobileTables(map[], map[])
    {
      this.backend, this.simulateFailure := backend, simulateFailure;
      disbursements, byId := map[], map[];
    }

    method Disburse(r: FloatDisbursementRequest, d: Draw) returns (result: MobileResult)
      modifies this
      ensures (State(), result) == DisburseStep(old(State()), r, backend, simulateFailure, d)
    {
      if KeyOf(r) in disbursements {
        return disbursements[KeyOf(r)];
      }
      result := NewMobile(r, backend, simulateFailure, d);
      disbursements := disbursements[KeyOf(r) := result];
      byId := byId[result.disbursementId := result];
    }
  }

  // ----- runs of the card issuer -----

  datatype CardOp = Create(r: FloatDisbursementRequest, d: Draw) | Cancel(cardId: string, tenant: Option<string>)

  function CardStep(t: CardTables, op: CardOp, backend: CardBackend): CardTables {
    match op
    case Create(r, d) => CreateCardStep(t, r, backend, d).0
    case Cancel(id, tenant) => CancelCardStep(t, id, tenant).0
  }

  function CardRun(ops: seq<CardOp>, backend: CardBackend): CardTables {
    if ops == [] then CardTables(map[], map[]) else CardStep(CardRun(ops[..|ops| - 1], backend), ops[|ops| - 1], backend)
  }

  // Every draw comes with an id that no earlier card has.
  predicate FreshDraws(ops: seq<CardOp>, backend: CardBackend) {
    ops == [] ||
    (FreshDraws(ops[..|ops| - 1], backend)
     && (ops[|ops| - 1].Create? ==> ops[|ops| - 1].d.id !in CardRun(ops[..|ops| - 1], backend).byId))
  }

  // The issued table, read under its proper keys, against the table by id: one card
  // for each key, the same card up to cancellation, and never the other way round.
  ghost predicate TablesMatch(t: CardTables) {
    && (forall k :: Scoped(k) in t.issued ==>
          var c := t.issued[Scoped(k)];
          (c.tenantId, c.idempotencyKey) == k && c.cardStatus == Active && c.cardId in t.byId
          && (t.byId[c.cardId] == c || t.byId[c.cardId] == c.(cardStatus := Cancelled)))
    && (forall id :: id in t.byId ==>
          var k := (t.byId[id].tenantId, t.byId[id].idempotencyKey);
          t.byId[id].cardId == id && Scoped(k) in t.issued && t.issued[Scoped(k)].cardId == id)
  }

  lemma CreateKeepsMatch(t: CardTables, r: FloatDisbursementRequest, backend: CardBackend, d: Draw)
    requires TablesMatch(t) && d.id !in t.byId
    ensures TablesMatch(CreateCardStep(t, r, backend, d).0)
  {
  }

  lemma {:induction false} CancelKeepsMatch(t: CardTables, cardId: string, tenant: Option<string>)
    requires TablesMatch(t)
    ensures TablesMatch(CancelCardStep(t, cardId, tenant).0)
  {
  }

  lemma {:induction false} CardTablesMatch(ops: seq<CardOp>, backend: CardBackend)
    requires FreshDraws(ops, backend)
    ensures TablesMatch(CardRun(ops, backend))
  {
    if ops == [] {
    } else {
      var before := ops[..|ops| - 1];
      var t := CardRun(before, backend);
      CardTablesMatch(before, backend);
      match ops[|ops| - 1]
      case Create(r, d) => CreateKeepsMatch(t, r, backend, d);
      case Cancel(id, tenant) => CancelKeepsMatch(t, id, tenant);
    }
  }

  // No key ever gets two cards, whatever is retried or cancelled.
  lemma {:induction false} OneCardPerKey(ops: seq<CardOp>, backend: CardBackend, a: string, b: string)
    requires FreshDraws(ops, backend)
    requires a in CardRun(ops, backend).byId && b in CardRun(ops, backend).byId
    requires var t := CardRun(ops, backend).byId; (t[a].tenantId, t[a].idempotencyKey) == (t[b].tenantId, t[b].idempotencyKey)
    ensures a == b
  {
    CardTablesMatch(ops, backend);
  }

  // Some call cancelled the card: made when the card was there, by its own tenant or
  // without naming one.
  predicate WasCancelled(ops: seq<CardOp>, backend: CardBackend, cardId: string, tenant: string) {
    ops != [] &&
    (WasCancelled(ops[..|ops| - 1], backend, cardId, tenant)
     || Cancels(ops[|ops| - 1], CardRun(ops[..|ops| - 1], backend), cardId, tenant))
  }

  predicate Cancels(op: CardOp, t: CardTables, cardId: string, tenant: string) {
    op.Cancel? && op.cardId == cardId && cardId in t.byId && (op.tenant.None? || op.tenant.value == tenant)
  }

  lemma {:induction false} OnlyIssuedCardsAreCancelled(ops: seq<CardOp>, backend: CardBackend, cardId: string, tenant: string)
    requires WasCancelled(ops, backend, cardId, tenant)
    ensures cardId in CardRun(ops, backend).byId
  {
    var before := ops[..|ops| - 1];
    if WasCancelled(before, backend, cardId, tenant) {
      OnlyIssuedCardsAreCancelled(before, backend, cardId, tenant);
    }
  }

  // The table by id has the very card that a retry under the key is answered with.
  predicate Agree(t: CardTables, k: Key)
    requires Scoped(k) in t.issued
  {
    var c := t.issued[Scoped(k)];
    c.cardId in t.byId && t.byId[c.cardId] == c
  }

  lemma StepOnAgreement(t: CardTables, op: CardOp, backend: CardBackend, k: Key)
    requires TablesMatch(t) && Scoped(k) in t.issued && (op.Create? ==> op.d.id !in t.byId)
    ensures var t' := CardStep(t, op, backend); var c := t.issued[Scoped(k)];
            Scoped(k) in t'.issued && t'.issued[Scoped(k)] == c && (Agree(t', k) <==> Agree(t, k) && !Cancels(op, t, c.cardId, k.0))
  {
  }

  // The two tables agree on a card exactly as long as no such call was made.
  lemma {:induction false} TablesAgreeUnlessCancelled(ops: seq<CardOp>, backend: CardBackend, k: Key)
    requires FreshDraws(ops, backend)
    requires Scoped(k) in CardRun(ops, backend).issued
    ensures Agree(CardRun(ops, backend), k) <==> !WasCancelled(ops, backend, CardRun(ops, backend).issued[Scoped(k)].cardId, k.0)
  {
    var before, op := ops[..|ops| - 1], ops[|ops| - 1];
    var t := CardRun(before, backend);
    CardTablesMatch(before, backend);
    if Scoped(k) in t.issued {
      StepOnAgreement(t, op, backend, k);
      TablesAgreeUnlessCancelled(before, backend, k);
    } else {
      if WasCancelled(before, backend, op.d.id, k.0) {
        OnlyIssuedCardsAreCancelled(before, backend, op.d.id, k.0);
      }
    }
  }

  // So a retry after the cancellation is answered with a card that is still active.
  lemma RetryAfterCancelIsActive(backend: CardBackend, r: FloatDisbursementRequest, d: Draw, again: Draw)
    ensures var t := CardRun([Create(r, d), Cancel(d.id, None)], backend);
            d.id in t.byId && t.byId[d.id].cardStatus == Cancelled
            && CreateCardStep(t, r, backend, again) == (t, NewCard(r, backend, d)) && NewCard(r, backend, d).cardStatus == Active
  {
    var ops := [Create(r, d), Cancel(d.id, None)];
    assert ops[..1] == [Create(r, d)] && [Create(r, d)][..0] == [];
    assert CardRun([Create(r, d)], backend) == CreateCardStep(CardTables(map[], map[]), r, backend, d).0;
  }

  // ----- routing -----

  datatype Downstream = Downstream(cards: CardTables, mobile: MobileTables)

  datatype Provider = Provider(cardBackend: CardBackend, mobileBackend: MobileBackend, failing: bool)

  function CardDisbursement(r: FloatDisbursementRequest, disbursementId: string, now: string, card: VirtualCardResult): FloatDisbursementResult {
    FloatDisbursementResult(disbursementId, r.tenantId, r.custodianId, r.fundId, VirtualCard, r.amountScaled, r.currency, "completed",
                            r.idempotencyKey, Some(card), None, now, Some(now), None)
  }

  function MobileDisbursement(r: FloatDisbursementRequest, disbursementId: string, now: string, m: MobileResult): FloatDisbursementResult {
    FloatDisbursementResult(disbursementId, r.tenantId, r.custodianId, r.fundId, r.channel, r.amountScaled, r.currency, StatusValue(m.status),
                            r.idempotencyKey, None, Some(m), now, m.completedAt, m.failureReason)
  }

  predicate Accepts(r: FloatDisbursementRequest) {
    if r.channel.VirtualCard? then CardRequestValid(r) else MobileRequestValid(r)
  }

  // The provider already knows this key on this channel and will not act again.
  predicate AlreadyServed(s: Downstream, r: FloatDisbursementRequest) {
    if r.channel.VirtualCard? then Scoped(KeyOf(r)) in s.cards.issued else KeyOf(r) in s.mobile.disbursed
  }

  function CallStep(s: Downstream, p: Provider, r: FloatDisbursementRequest, disbursementId: string, now: string, d: Draw): (Downstream, FloatDisbursementResult) {
    if r.channel.VirtualCard? then
      var (cards, card) := CreateCardStep(s.cards, r, p.cardBackend, d);
      (s.(cards := cards), CardDisbursement(r, disbursementId, now, card))
    else
      var (mobile, m) := DisburseStep(s.mobile, r, p.mobileBackend, p.failing, d);
      (s.(mobile := mobile), MobileDisbursement(r, disbursementId, now, m))
  }
}
