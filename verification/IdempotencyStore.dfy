// The two keyed tables of src/infrastructure/idempotency/store.py. Each method runs
// under the lock, so it is one atomic step; the step functions are what the
// interleaving model composes.
module IdempotencyStore {

  datatype Status = InProgress | Completed | Failed

  datatype Row = Row(fingerprint: string, resultJson: string, status: Status, createdAt: int)

  datatype EventRow = EventRow(fingerprint: string, createdAt: int)

  type Key = (string, string)                // tenant, idempotency key
  type EventKey = (string, string, string)   // tenant, provider, event id

  datatype Tables = Tables(records: map<Key, Row>, events: map<EventKey, EventRow>)

  datatype Reservation = Reserved | Existing(row: Row) | Conflict

  datatype Claim = Claimed | Replayed | ClaimConflict

  // Rows older than the retention period disappear, in-progress ones included.
  function DropExpired(t: Tables, now: int, retention: int): Tables {
    Tables(map k | k in t.records && t.records[k].createdAt >= now - retention :: t.records[k],
           map k | k in t.events && t.events[k].createdAt >= now - retention :: t.events[k])
  }

  // A conflict is raised inside the transaction and rolls the deletions back.
  function ReserveStep(t: Tables, now: int, retention: int, key: Key, fingerprint: string): (Tables, Reservation) {
    var kept := DropExpired(t, now, retention);
    if key !in kept.records then
      (kept.(records := kept.records[key := Row(fingerprint, "", InProgress, now)]), Reserved)
    else if kept.records[key].fingerprint != fingerprint then (t, Conflict)
    else (kept, Existing(kept.records[key]))
  }

  predicate HeldInProgress(t: Tables, key: Key, fingerprint: string) {
    key in t.records && t.records[key].fingerprint == fingerprint && t.records[key].status == InProgress
  }

  function FinishStep(t: Tables, key: Key, fingerprint: string, resultJson: string, status: Status): (Tables, bool) {
    if HeldInProgress(t, key, fingerprint) then
      (t.(records := t.records[key := t.records[key].(resultJson := resultJson, status := status)]), true)
    else (t, false)
  }

  function AbandonStep(t: Tables, key: Key, fingerprint: string): Tables {
    if HeldInProgress(t, key, fingerprint) then t.(records := t.records - {key}) else t
  }

  function ClaimStep(t: Tables, now: int, key: EventKey, fingerprint: string): (Tables, Claim) {
    if key !in t.events then (t.(events := t.events[key := EventRow(fingerprint, now)]), Claimed)
    else if t.events[key].fingerprint != fingerprint then (t, ClaimConflict)
    else (t, Replayed)
  }

  function AbandonEventStep(t: Tables, key: EventKey): Tables {
    t.(events := t.events - {key})
  }

  class SQLiteIdempotencyStore {
    const retentionSeconds: int
    var records: map<Key, Row>
    var events: map<EventKey, EventRow>

    ghost function State(): Tables
      reads this
    {
      Tables(records, events)
    }

    constructor (retentionSeconds: int)
      requires retentionSeconds > 0
      ensures this.retentionSeconds == retentionSeconds && State() == Tables(map[], map[])
    {
      this.retentionSeconds := retentionSeconds;
      records, events := map[], map[];
    }

    method Reserve(now: int, key: Key, fingerprint: string) returns (r: Reservation)
      modifies this
      ensures (State(), r) == ReserveStep(old(State()), now, retentionSeconds, key, fingerprint)
    {
      var savedRecords, savedEvents := records, events;      // BEGIN IMMEDIATE
      records := map k | k in records && records[k].createdAt >= now - retentionSeconds :: records[k];
      events := map k | k in events && events[k].createdAt >= now - retentionSeconds :: events[k];
      if key in records {
        if records[key].fingerprint != fingerprint {
          records, events := savedRecords, savedEvents;      // ROLLBACK
          return Conflict;
        }
        return Existing(records[key]);
      }
      records := records[key := Row(fingerprint, "", InProgress, now)];
      return Reserved;
    }

    method Complete(key: Key, fingerprint: string, resultJson: string) returns (ok: bool)
      modifies this
      ensures (State(), ok) == FinishStep(old(State()), key, fingerprint, resultJson, Completed)
    {
      if key !in records || records[key].fingerprint != fingerprint || records[key].status != InProgress {
        return false;
      }
      records := records[key := records[key].(resultJson := resultJson, status := Completed)];
      return true;
    }

    method Fail(key: Key, fingerprint: string, resultJson: string) returns (ok: bool)
      modifies this
      ensures (State(), ok) == FinishStep(old(State()), key, fingerprint, resultJson, Failed)
    {
      if key !in records || records[key].fingerprint != fingerprint || records[key].status != InProgress {
        return false;
      }
      records := records[key := records[key].(resultJson := resultJson, status := Failed)];
      return true;
    }

    method Abandon(key: Key, fingerprint: string)
      modifies this
      ensures State() == AbandonStep(old(State()), key, fingerprint)
    {
      if key in records && records[key].fingerprint == fingerprint && records[key].status == InProgress {
        records := records - {key};
      }
    }

    method ClaimProviderEvent(now: int, key: EventKey, fingerprint: string) returns (claim: Claim)
      modifies this
      ensures (State(), claim) == ClaimStep(old(State()), now, key, fingerprint)
    {
      if key in events {
        if events[key].fingerprint != fingerprint {
          return ClaimConflict;
        }
        return Replayed;
      }
      events := events[key := EventRow(fingerprint, now)];
      return Claimed;
    }

    method AbandonProviderEvent(key: EventKey)
      modifies this
      ensures State() == AbandonEventStep(old(State()), key)
    {
      events := events - {key};
    }
  }

  // ----- what the steps promise -----

  // Every row was written at or after start.
  predicate WrittenSince(t: Tables, start: int) {
    && (forall k :: k in t.records ==> t.records[k].createdAt >= start)
    && (forall k :: k in t.events ==> t.events[k].createdAt >= start)
  }

  // Until the retention period has passed since start, reserving drops nothing.
  lemma NothingExpires(t: Tables, start: int, now: int, retention: int)
    requires WrittenSince(t, start) && now <= start + retention
    ensures DropExpired(t, now, retention) == t
  {
    assert DropExpired(t, now, retention).records == t.records;
    assert DropExpired(t, now, retention).events == t.events;
  }

  // A reservation that is given up leaves the tables as they were.
  lemma AbandonUndoesReserve(t: Tables, start: int, now: int, retention: int, key: Key, fingerprint: string)
    requires WrittenSince(t, start) && now <= start + retention
    requires ReserveStep(t, now, retention, key, fingerprint).1 == Reserved
    ensures AbandonStep(ReserveStep(t, now, retention, key, fingerprint).0, key, fingerprint) == t
  {
    NothingExpires(t, start, now, retention);
    var t' := ReserveStep(t, now, retention, key, fingerprint).0;
    assert (t'.records - {key}) == t.records;
  }

  // A claim that is given up leaves the tables as they were.
  lemma AbandonUndoesClaim(t: Tables, now: int, key: EventKey, fingerprint: string)
    requires ClaimStep(t, now, key, fingerprint).1 == Claimed
    ensures AbandonEventStep(ClaimStep(t, now, key, fingerprint).0, key) == t
  {
    assert (t.events[key := EventRow(fingerprint, now)] - {key}) == t.events;
  }

  // A finished row answers every later reservation for the same request, and a
  // different request is refused without touching the tables.
  lemma FinishedRowAnswers(t: Tables, start: int, now: int, retention: int, key: Key, fingerprint: string, other: string, resultJson: string, status: Status)
    requires WrittenSince(t, start) && now <= start + retention
    requires HeldInProgress(t, key, fingerprint)
    ensures var t' := FinishStep(t, key, fingerprint, resultJson, status).0;
            && ReserveStep(t', now, retention, key, fingerprint) == (t', Existing(t.records[key].(resultJson := resultJson, status := status)))
            && (other != fingerprint ==> ReserveStep(t', now, retention, key, other) == (t', Conflict))
            && (status != InProgress ==> !FinishStep(t', key, fingerprint, resultJson, status).1)
  {
    var t' := FinishStep(t, key, fingerprint, resultJson, status).0;
    NothingExpires(t', start, now, retention);
  }
}
