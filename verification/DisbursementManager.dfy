// The manager of src/domain/wallet/disbursement_manager.py, one call at a time: the
// store reserves, the adapters act, the store records the outcome.
module DisbursementManager {
  import opened Basics
  import opened DisbursementResult
  import opened Adapters
  import Store = IdempotencyStore
  import Settlement

  // Hashing and JSON text, of which only what is stated here is used.
  datatype Codec = Codec(hash: FloatDisbursementRequest -> string, dumps: Json -> string, loads: string -> Option<Json>, money: int -> string)

  ghost predicate ReadsBack(c: Codec) {
    forall j :: c.loads(c.dumps(j)) == Some(j)
  }

  // The fingerprint covers the whole request except its idempotency key.
  function Fingerprint(c: Codec, r: FloatDisbursementRequest): string {
    c.hash(r.(idempotencyKey := ""))
  }

  function Stored(c: Codec, r: FloatDisbursementResult): string {
    c.dumps(ToDict(r, c.money))
  }

  function ReadStored(c: Codec, text: string): Option<FloatDisbursementResult> {
    var j :- c.loads(text);
    FromDict(j)
  }

  lemma StoredReadsBack(c: Codec, r: FloatDisbursementResult)
    requires ReadsBack(c)
    ensures ReadStored(c, Stored(c, r)) == Some(r)
  {
    ResultRoundTrip(r, c.money);
  }

  datatype CallOutcome =
    | Refused                                       // key used for another request
    | Busy                                          // another call owns the key
    | Reused(result: FloatDisbursementResult)
    | Unreadable                                    // the stored result cannot be read
    | Raised                                        // downstream failed
    | Delivered(result: FloatDisbursementResult)
    | CompletionRefused                             // the record vanished before completion

  datatype EventOutcome = Accepted | Replay | EventConflict | IllegalTransition | UnknownStatus

  datatype ProviderEvent = ProviderEvent(key: Store.EventKey, fingerprint: string, current: Settlement.SettlementState, status: Option<string>)

  // The state that a payload reports: none if it has no status or an unknown one.
  function Requested(e: ProviderEvent): Option<Settlement.SettlementState> {
    var status :- e.status;
    Settlement.ParseState(status)
  }

  class DisbursementManager {
    const codec: Codec
    const store: Store.SQLiteIdempotencyStore
    const cards: CardIssuerAdapter
    const mobile: MobileMoneyAdapter
    var auditTrail: seq<FloatDisbursementResult>

    ghost predicate Separate()
      reads this, store, cards, mobile
    {
      (this as object) != store && (this as object) != cards && (this as object) != mobile
      && (store as object) != cards && (store as object) != mobile && (cards as object) != mobile
    }

    ghost function Provided(): Provider {
      Provider(cards.backend, mobile.backend, mobile.simulateFailure)
    }

    ghost function Outside(): Downstream
      reads cards, mobile
    {
      Downstream(cards.State(), mobile.State())
    }

    constructor (codec: Codec, store: Store.SQLiteIdempotencyStore, cards: CardIssuerAdapter, mobile: MobileMoneyAdapter)
      requires (store as object) != cards && (store as object) != mobile && (cards as object) != mobile
      ensures this.codec == codec && this.store == store && this.cards == cards && this.mobile == mobile
      ensures Separate() && auditTrail == []
    {
      this.codec, this.store, this.cards, this.mobile := codec, store, cards, mobile;
      auditTrail := [];
    }

    method DisburseFloat(r: FloatDisbursementRequest, now: int, disbursementId: string, nowText: string, d: Draw)
      returns (outcome: CallOutcome)
      requires Separate()
      modifies this, store, cards, mobile
      ensures Separate()
      ensures var before := World(old(store.State()), old(Outside()), old(auditTrail));
              (World(store.State(), Outside(), auditTrail), outcome)
                == DisburseAlone(codec, before, Provided(), store.retentionSeconds, r, now, disbursementId, nowText, d)
    {
      var fingerprint := Fingerprint(codec, r);
      var reservation := store.Reserve(now, KeyOf(r), fingerprint);
      match reservation {
        case Conflict => return Refused;
        case Existing(row) =>
          if row.status == Store.InProgress {
            return Busy;
          }
          var result := ReadStored(codec, row.resultJson);
          return if result.Some? then Reused(result.value) else Unreadable;
        case Reserved =>
      }
      if !Accepts(r) {
        store.Abandon(KeyOf(r), fingerprint);
        return Raised;
      }
      var result;
      if r.channel.VirtualCard? {
        var card := cards.CreateVirtualCard(r, d);
        result := CardDisbursement(r, disbursementId, nowText, card);
      } else {
        var m := mobile.Disburse(r, d);
        result := MobileDisbursement(r, disbursementId, nowText, m);
      }
      var ok := store.Complete(KeyOf(r), fingerprint, Stored(codec, result));
      if !ok {
        return CompletionRefused;
      }
      auditTrail := auditTrail + [result];
      return Delivered(result);
    }

    // A refused transition gives the claim back, so the event table is as before and
    // a corrected delivery can succeed. That is so exactly when the reported status
    // is there and known: a missing or unknown one raises before the claim is given back.
    method IngestProviderEvent(e: ProviderEvent, now: int) returns (outcome: EventOutcome)
      modifies store
      ensures store.State().records == old(store.State()).records
      ensures outcome == IllegalTransition || outcome == Replay || outcome == EventConflict ==> store.State() == old(store.State())
      ensures outcome == Accepted || outcome == UnknownStatus ==>
                e.key !in old(store.events) && store.events == old(store.events)[e.key := Store.EventRow(e.fingerprint, now)]
      ensures outcome == Accepted <==>
                e.key !in old(store.events) && Requested(e).Some?
                && Settlement.LegalTransition(e.current, Requested(e).value)
      ensures outcome == UnknownStatus <==> e.key !in old(store.events) && Requested(e).None?
      ensures outcome == Replay <==> e.key in old(store.events) && old(store.events)[e.key].fingerprint == e.fingerprint
    {
      var claim := store.ClaimProviderEvent(now, e.key, e.fingerprint);
      match claim {
        case ClaimConflict => return EventConflict;
        case Replayed => return Replay;
        case Claimed =>
      }
      var requested := Requested(e);
      if requested.None? {
        return UnknownStatus;
      }
      if !Settlement.LegalTransition(e.current, requested.value) {
        Store.AbandonUndoesClaim(old(store.State()), now, e.key, e.fingerprint);
        store.AbandonProviderEvent(e.key);
        return IllegalTransition;
      }
      return Accepted;
    }
  }

  // ----- one uninterrupted call -----

  datatype World = World(tables: Store.Tables, outside: Downstream, trail: seq<FloatDisbursementResult>)

  function DisburseAlone(c: Codec, w: World, p: Provider, retention: int, r: FloatDisbursementRequest, now: int,
                         disbursementId: string, nowText: string, d: Draw): (World, CallOutcome)
  {
    var fingerprint := Fingerprint(c, r);
    var (tables, reservation) := Store.ReserveStep(w.tables, now, retention, KeyOf(r), fingerprint);
    match reservation
    case Conflict => (w.(tables := tables), Refused)
    case Existing(row) =>
      if row.status == Store.InProgress then (w.(tables := tables), Busy)
      else
        var result := ReadStored(c, row.resultJson);
        (w.(tables := tables), if result.Some? then Reused(result.value) else Unreadable)
    case Reserved =>
      if !Accepts(r) then (w.(tables := Store.AbandonStep(tables, KeyOf(r), fingerprint)), Raised)
      else
        var (outside, result) := CallStep(w.outside, p, r, disbursementId, nowText, d);
        var (tables', ok) := Store.FinishStep(tables, KeyOf(r), fingerprint, Stored(c, result), Store.Completed);
        if ok then (World(tables', outside, w.trail + [result]), Delivered(result))
        else (World(tables', outside, w.trail), CompletionRefused)
  }

  // A retry within the retention period, whatever it draws, returns the first result
  // and changes nothing at all.
  lemma {:induction false} RetryIsFree(c: Codec, w: World, p: Provider, retention: int, r: FloatDisbursementRequest, start: int, now: int, later: int,
                    id1: string, text1: string, d1: Draw, id2: string, text2: string, d2: Draw)
    requires ReadsBack(c)
    requires Store.WrittenSince(w.tables, start) && start <= now <= later <= start + retention
    requires DisburseAlone(c, w, p, retention, r, now, id1, text1, d1).1.Delivered?
    ensures var (w1, first) := DisburseAlone(c, w, p, retention, r, now, id1, text1, d1);
            DisburseAlone(c, w1, p, retention, r, later, id2, text2, d2) == (w1, Reused(first.result))
  {
    var (w1, first) := DisburseAlone(c, w, p, retention, r, now, id1, text1, d1);
    Store.NothingExpires(w.tables, start, now, retention);
    Store.NothingExpires(w1.tables, start, later, retention);
    StoredReadsBack(c, first.result);
  }
}
