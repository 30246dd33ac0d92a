// Any number of workers running disburse_float and ingest_provider_event at once over
// one store and one pair of adapters. Every lock-protected store call and every
// downstream call is one atomic step; between steps anything may happen, including
// the death of a worker.
module DisbursementProtocol {
  import opened DisbursementResult
  import opened Adapters
  import opened DisbursementManager
  import Store = IdempotencyStore
  import Settlement

  datatype Worker =
    | Calling(req: FloatDisbursementRequest)                                  // before reserve
    | Owning(req: FloatDisbursementRequest)                                   // reserved, nothing sent yet
    | Served(req: FloatDisbursementRequest, result: FloatDisbursementResult)  // downstream returned
    | Failing(req: FloatDisbursementRequest)                                  // downstream raised
    | Done(req: FloatDisbursementRequest, outcome: CallOutcome)
    | Ingesting(event: ProviderEvent)                                         // before the claim
    | Holding(event: ProviderEvent)                                           // claimed
    | Ingested(event: ProviderEvent, answer: EventOutcome)
    | Dead

  datatype Effect = Effect(key: Key, result: FloatDisbursementResult)

  datatype System = System(
    now: int,
    tables: Store.Tables,
    outside: Downstream,
    workers: map<nat, Worker>,
    effects: seq<Effect>,                              // what the providers really did
    completions: map<Key, FloatDisbursementResult>,    // results recorded by complete
    accepted: seq<Store.EventKey>)

  datatype Setup = Setup(codec: Codec, provider: Provider, retention: int)

  datatype Step =
    | Begin(w: nat, req: FloatDisbursementRequest)
    | BeginEvent(w: nat, event: ProviderEvent)
    | Tick(seconds: nat)
    | Reserve(w: nat)
    | Call(w: nat, disbursementId: string, nowText: string, draw: Draw)
    | CallRaises(w: nat)
    | Finish(w: nat)
    | GiveUp(w: nat)
    | ClaimEvent(w: nat)
    | SettleEvent(w: nat)
    | Die(w: nat)

  function Become(s: System, w: nat, state: Worker): System {
    s.(workers := s.workers[w := state])
  }

  function AfterReservation(c: Codec, r: FloatDisbursementRequest, reservation: Store.Reservation): Worker {
    match reservation
    case Reserved => Owning(r)
    case Conflict => Done(r, Refused)
    case Existing(row) =>
      if row.status == Store.InProgress then Done(r, Busy)
      else
        var result := ReadStored(c, row.resultJson);
        Done(r, if result.Some? then Reused(result.value) else Unreadable)
  }

  // A step that is not enabled changes nothing.
  function Apply(u: Setup, s: System, step: Step): System {
    match step
    case Begin(w, req) => if w in s.workers then s else Become(s, w, Calling(req))
    case BeginEvent(w, event) => if w in s.workers then s else Become(s, w, Ingesting(event))
    case Tick(seconds) => s.(now := s.now + seconds)
    case Die(w) => if w in s.workers then Become(s, w, Dead) else s
    case Reserve(w) =>
      if w in s.workers && s.workers[w].Calling? then
        var r := s.workers[w].req;
        var (tables, reservation) := Store.ReserveStep(s.tables, s.now, u.retention, KeyOf(r), Fingerprint(u.codec, r));
        Become(s.(tables := tables), w, AfterReservation(u.codec, r, reservation))
      else s
    case Call(w, id, text, draw) =>
      if w in s.workers && s.workers[w].Owning? && Accepts(s.workers[w].req) then
        var r := s.workers[w].req;
        var (outside, result) := CallStep(s.outside, u.provider, r, id, text, draw);
        var effects := if AlreadyServed(s.outside, r) then s.effects else s.effects + [Effect(KeyOf(r), result)];
        Become(s.(outside := outside, effects := effects), w, Served(r, result))
      else s
    case CallRaises(w) =>
      if w in s.workers && s.workers[w].Owning? then Become(s, w, Failing(s.workers[w].req)) else s
    case Finish(w) =>
      if w in s.workers && s.workers[w].Served? then
        var r, result := s.workers[w].req, s.workers[w].result;
        var (tables, ok) := Store.FinishStep(s.tables, KeyOf(r), Fingerprint(u.codec, r), Stored(u.codec, result), Store.Completed);
        if ok then Become(s.(tables := tables, completions := s.completions[KeyOf(r) := result]), w, Done(r, Delivered(result)))
        else Become(s, w, Done(r, CompletionRefused))
      else s
    case GiveUp(w) =>
      if w in s.workers && s.workers[w].Failing? then
        var r := s.workers[w].req;
        Become(s.(tables := Store.AbandonStep(s.tables, KeyOf(r), Fingerprint(u.codec, r))), w, Done(r, Raised))
      else s
    case ClaimEvent(w) =>
      if w in s.workers && s.workers[w].Ingesting? then
        var e := s.workers[w].event;
        var (tables, claim) := Store.ClaimStep(s.tables, s.now, e.key, e.fingerprint);
        Become(s.(tables := tables), w,
               match claim case Claimed => Holding(e) case Replayed => Ingested(e, Replay) case ClaimConflict => Ingested(e, EventConflict))
      else s
    case SettleEvent(w) =>
      if w in s.workers && s.workers[w].Holding? then
        var e := s.workers[w].event;
        var requested := Requested(e);
        if requested.None? then Become(s, w, Ingested(e, UnknownStatus))
        else if Settlement.LegalTransition(e.current, requested.value) then
          Become(s.(accepted := s.accepted + [e.key]), w, Ingested(e, Accepted))
        else Become(s.(tables := Store.AbandonEventStep(s.tables, e.key)), w, Ingested(e, IllegalTransition))
      else s
  }

  function Start(now: int): System {
    System(now, Store.Tables(map[], map[]), Downstream(CardTables(map[], map[]), MobileTables(map[], map[])), map[], [], map[], [])
  }

  function Run(u: Setup, start: int, steps: seq<Step>): System {
    if steps == [] then Start(start) else Apply(u, Run(u, start, steps[..|steps| - 1]), steps[|steps| - 1])
  }

  function EffectsOn(effects: seq<Effect>, k: Key): nat {
    if effects == [] then 0 else EffectsOn(effects[..|effects| - 1], k) + (if effects[|effects| - 1].key == k then 1 else 0)
  }

  function TimesIn(keys: seq<Store.EventKey>, k: Store.EventKey): nat {
    if keys == [] then 0 else TimesIn(keys[..|keys| - 1], k) + (if keys[|keys| - 1] == k then 1 else 0)
  }

  // ----- the invariant for one idempotency key -----

  predicate Owns(worker: Worker, k: Key) {
    (worker.Owning? || worker.Served? || worker.Failing?) && KeyOf(worker.req) == k
  }

  ghost predicate OneOwner(s: System, k: Key) {
    forall v, w :: v in s.workers && w in s.workers && Owns(s.workers[v], k) && Owns(s.workers[w], k) ==> v == w
  }

  // The answer was the recorded result of a request with the same fingerprint.
  ghost predicate IsRecorded(c: Codec, s: System, k: Key, r: FloatDisbursementRequest, result: FloatDisbursementResult) {
    && k in s.completions && s.completions[k] == result
    && k in s.tables.records && s.tables.records[k].fingerprint == Fingerprint(c, r)
  }

  ghost predicate WorkerOk(c: Codec, s: System, k: Key, worker: Worker) {
    match worker
    case Owning(r) => KeyOf(r) == k ==> Store.HeldInProgress(s.tables, k, Fingerprint(c, r)) && EffectsOn(s.effects, k) == 0
    case Failing(r) => KeyOf(r) == k ==> Store.HeldInProgress(s.tables, k, Fingerprint(c, r)) && EffectsOn(s.effects, k) == 0
    case Served(r, result) => KeyOf(r) == k ==> Store.HeldInProgress(s.tables, k, Fingerprint(c, r)) && Effect(k, result) in s.effects
    case Done(r, outcome) => KeyOf(r) == k ==> OutcomeOk(c, s, k, r, outcome)
    case _ => true
  }

  ghost predicate OutcomeOk(c: Codec, s: System, k: Key, r: FloatDisbursementRequest, outcome: CallOutcome) {
    && (outcome.Reused? ==> IsRecorded(c, s, k, r, outcome.result))
    && (outcome.Delivered? ==> IsRecorded(c, s, k, r, outcome.result))
    && outcome != CompletionRefused
    && outcome != Unreadable
  }

  ghost predicate KeyOk(c: Codec, s: System, k: Key) {
    && EffectsOn(s.effects, k) <= 1
    && (k !in s.tables.records ==> EffectsOn(s.effects, k) == 0)
    && (Scoped(k) in s.outside.cards.issued || k in s.outside.mobile.disbursed ==> EffectsOn(s.effects, k) == 1)
    && (k in s.completions <==> k in s.tables.records && s.tables.records[k].status == Store.Completed)
    && (k in s.tables.records ==> s.tables.records[k].status != Store.Failed)
    && (k in s.completions ==>
          s.tables.records[k].resultJson == Stored(c, s.completions[k]) && Effect(k, s.completions[k]) in s.effects)
  }

  ghost predicate Inv(c: Codec, s: System, k: Key) {
    && OneOwner(s, k)
    && KeyOk(c, s, k)
    && (forall w :: w in s.workers ==> WorkerOk(c, s, k, s.workers[w]))
  }

  lemma {:induction false} CountAppend(effects: seq<Effect>, e: Effect, k: Key)
    ensures EffectsOn(effects + [e], k) == EffectsOn(effects, k) + (if e.key == k then 1 else 0)
  {
    assert (effects + [e])[..|effects|] == effects;
  }

  // The key a step is about, if the worker is in a state that acts on a key.
  predicate ActsOn(s: System, step: Step, k: Key) {
    && (step.Reserve? || step.Call? || step.CallRaises? || step.Finish? || step.GiveUp?)
    && step.w in s.workers
    && (var worker := s.workers[step.w];
        (worker.Calling? || worker.Owning? || worker.Served? || worker.Failing?) && KeyOf(worker.req) == k)
  }

  // Only worker w changed, and nothing about key k did.
  ghost predicate SameForKey(s: System, s': System, w: nat, k: Key) {
    && s.workers.Keys <= s'.workers.Keys <= s.workers.Keys + {w}
    && (forall v :: v in s.workers && v != w ==> s'.workers[v] == s.workers[v])
    && (k in s.tables.records <==> k in s'.tables.records)
    && (k in s.tables.records ==> s'.tables.records[k] == s.tables.records[k])
    && EffectsOn(s'.effects, k) == EffectsOn(s.effects, k)
    && (forall e :: e in s.effects ==> e in s'.effects)
    && (k in s.completions <==> k in s'.completions)
    && (k in s.completions ==> s'.completions[k] == s.completions[k])
    && (Scoped(k) in s.outside.cards.issued <==> Scoped(k) in s'.outside.cards.issued)
    && (k in s.outside.mobile.disbursed <==> k in s'.outside.mobile.disbursed)
  }

  lemma {:induction false} SameForKeyKeepsWorker(c: Codec, s: System, s': System, w: nat, k: Key, worker: Worker)
    requires SameForKey(s, s', w, k) && WorkerOk(c, s, k, worker)
    ensures WorkerOk(c, s', k, worker)
  {
  }

  lemma {:induction false} SameForKeyKeepsInv(c: Codec, s: System, s': System, w: nat, k: Key)
    requires Inv(c, s, k) && SameForKey(s, s', w, k)
    requires w in s'.workers ==> !Owns(s'.workers[w], k) || (w in s.workers && Owns(s.workers[w], k))
    requires w in s'.workers ==> WorkerOk(c, s', k, s'.workers[w])
    ensures Inv(c, s', k)
  {
    forall v | v in s'.workers && v != w ensures WorkerOk(c, s', k, s'.workers[v]) {
      SameForKeyKeepsWorker(c, s, s', w, k, s.workers[v]);
    }
  }

  // Within the retention period of the start of the run, reserving drops nothing.
  predicate WithinRetention(u: Setup, s: System, start: int) {
    start <= s.now <= start + u.retention && Store.WrittenSince(s.tables, start)
  }

  lemma {:induction false} StaysWritten(u: Setup, s: System, step: Step, start: int)
    requires WithinRetention(u, s, start)
    ensures Store.WrittenSince(Apply(u, s, step).tables, start)
  {
  }

  predicate IsQuiet(step: Step) {
    step.Begin? || step.BeginEvent? || step.Die? || step.CallRaises? || step.ClaimEvent? || step.SettleEvent?
  }

  // One worker moved, and neither the payment records nor the outside did.
  predicate OnlyMoves(s: System, s': System, w: nat) {
    && s.workers.Keys <= s'.workers.Keys <= s.workers.Keys + {w}
    && (forall v :: v in s.workers && v != w ==> s'.workers[v] == s.workers[v])
    && s'.tables.records == s.tables.records && s'.outside == s.outside
    && s'.effects == s.effects && s'.completions == s.completions
  }

  lemma OnlyMovesIsElsewhere(s: System, s': System, w: nat, k: Key)
    requires OnlyMoves(s, s', w)
    ensures SameForKey(s, s', w, k)
  {
  }

  lemma WorkerStepOnlyMoves(u: Setup, s: System, step: Step)
    requires step.Begin? || step.BeginEvent? || step.Die? || step.CallRaises?
    ensures OnlyMoves(s, Apply(u, s, step), step.w)
  {
  }

  lemma EventStepOnlyMoves(u: Setup, s: System, step: Step)
    requires step.ClaimEvent? || step.SettleEvent?
    ensures OnlyMoves(s, Apply(u, s, step), step.w)
  {
  }

  lemma QuietStepIsElsewhere(u: Setup, s: System, step: Step, k: Key)
    requires IsQuiet(step)
    ensures SameForKey(s, Apply(u, s, step), step.w, k)
  {
    if step.ClaimEvent? || step.SettleEvent? {
      EventStepOnlyMoves(u, s, step);
    } else {
      WorkerStepOnlyMoves(u, s, step);
    }
    OnlyMovesIsElsewhere(s, Apply(u, s, step), step.w, k);
  }

  lemma {:induction false} ReserveIsElsewhere(u: Setup, s: System, step: Step, k: Key, start: int)
    requires WithinRetention(u, s, start) && step.Reserve? && !ActsOn(s, step, k)
    ensures SameForKey(s, Apply(u, s, step), step.w, k)
  {
    Store.NothingExpires(s.tables, start, s.now, u.retention);
  }

  lemma {:induction false} CallIsElsewhere(u: Setup, s: System, step: Step, k: Key)
    requires step.Call? && !ActsOn(s, step, k)
    ensures SameForKey(s, Apply(u, s, step), step.w, k)
  {
    if Apply(u, s, step) != s {
      var r := s.workers[step.w].req;
      CountAppend(s.effects, Effect(KeyOf(r), CallStep(s.outside, u.provider, r, step.disbursementId, step.nowText, step.draw).1), k);
    }
  }

  lemma {:induction false} FinishIsElsewhere(u: Setup, s: System, w: nat, k: Key)
    requires !ActsOn(s, Finish(w), k)
    ensures SameForKey(s, Apply(u, s, Finish(w)), w, k)
  {
  }

  lemma {:induction false} GiveUpIsElsewhere(u: Setup, s: System, w: nat, k: Key)
    requires !ActsOn(s, GiveUp(w), k)
    ensures SameForKey(s, Apply(u, s, GiveUp(w)), w, k)
  {
  }

  // The worker is past its reservation for k.
  predicate Concerns(worker: Worker, k: Key) {
    (worker.Owning? || worker.Served? || worker.Failing? || worker.Done?) && KeyOf(worker.req) == k
  }

  // The worker that moved has nothing to do with k, or did not move.
  lemma {:induction false} MoverIsElsewhere(u: Setup, s: System, step: Step, k: Key)
    requires !step.Tick? && !ActsOn(s, step, k)
    ensures var s' := Apply(u, s, step);
            step.w in s'.workers ==> !Concerns(s'.workers[step.w], k) || (step.w in s.workers && s'.workers[step.w] == s.workers[step.w])
  {
  }

  lemma {:induction false} UnconcernedWorkerOk(c: Codec, s: System, s': System, w: nat, k: Key)
    requires Inv(c, s, k) && SameForKey(s, s', w, k)
    requires w in s'.workers ==> !Concerns(s'.workers[w], k) || (w in s.workers && s'.workers[w] == s.workers[w])
    ensures Inv(c, s', k)
  {
    if w in s.workers {
      assert WorkerOk(c, s, k, s.workers[w]);
    }
    SameForKeyKeepsInv(c, s, s', w, k);
  }

  lemma TickKeepsInv(u: Setup, s: System, step: Step, k: Key)
    requires Inv(u.codec, s, k) && step.Tick?
    ensures Inv(u.codec, Apply(u, s, step), k)
  {
    var s' := Apply(u, s, step);
    forall v | v in s'.workers ensures WorkerOk(u.codec, s', k, s'.workers[v]) {
      assert WorkerOk(u.codec, s, k, s.workers[v]);
    }
  }

  lemma {:induction false} OtherStepKeepsInv(u: Setup, s: System, step: Step, k: Key, start: int)
    requires Inv(u.codec, s, k) && WithinRetention(u, s, start) && !ActsOn(s, step, k)
    ensures Inv(u.codec, Apply(u, s, step), k)
  {
    if step.Tick? {
      TickKeepsInv(u, s, step, k);
      return;
    }
    match step {
      case Reserve(_) => ReserveIsElsewhere(u, s, step, k, start);
      case Call(_, _, _, _) => CallIsElsewhere(u, s, step, k);
      case Finish(w) => FinishIsElsewhere(u, s, w, k);
      case GiveUp(w) => GiveUpIsElsewhere(u, s, w, k);
      case _ => QuietStepIsElsewhere(u, s, step, k);
    }
    MoverIsElsewhere(u, s, step, k);
    UnconcernedWorkerOk(u.codec, s, Apply(u, s, step), step.w, k);
  }

  lemma {:induction false} ReserveKeepsKey(u: Setup, s: System, w: nat, k: Key, start: int)
    requires Inv(u.codec, s, k) && WithinRetention(u, s, start)
    requires w in s.workers && s.workers[w].Calling? && KeyOf(s.workers[w].req) == k
    ensures KeyOk(u.codec, Apply(u, s, Reserve(w)), k)
  {
    Store.NothingExpires(s.tables, start, s.now, u.retention);
  }

  // A worker that comes to own the key has just inserted its record, so no other owns it.
  lemma {:induction false} ReserveKeepsOneOwner(u: Setup, s: System, w: nat, k: Key, start: int)
    requires Inv(u.codec, s, k) && WithinRetention(u, s, start)
    requires w in s.workers && s.workers[w].Calling? && KeyOf(s.workers[w].req) == k
    ensures OneOwner(Apply(u, s, Reserve(w)), k)
  {
    Store.NothingExpires(s.tables, start, s.now, u.retention);
    forall v | v in s.workers ensures Owns(s.workers[v], k) ==> k in s.tables.records {
      assert WorkerOk(u.codec, s, k, s.workers[v]);
    }
  }

  lemma {:induction false} ReserveKeepsOthers(u: Setup, s: System, w: nat, k: Key, start: int, v: nat)
    requires Inv(u.codec, s, k) && WithinRetention(u, s, start)
    requires w in s.workers && s.workers[w].Calling? && KeyOf(s.workers[w].req) == k
    requires v in s.workers && v != w
    ensures WorkerOk(u.codec, Apply(u, s, Reserve(w)), k, s.workers[v])
  {
    Store.NothingExpires(s.tables, start, s.now, u.retention);
    assert WorkerOk(u.codec, s, k, s.workers[v]);
  }

  lemma {:induction false} ReserveAnswersWell(u: Setup, s: System, w: nat, k: Key, start: int)
    requires ReadsBack(u.codec)
    requires Inv(u.codec, s, k) && WithinRetention(u, s, start)
    requires w in s.workers && s.workers[w].Calling? && KeyOf(s.workers[w].req) == k
    ensures var s' := Apply(u, s, Reserve(w)); WorkerOk(u.codec, s', k, s'.workers[w])
  {
    Store.NothingExpires(s.tables, start, s.now, u.retention);
    if k in s.completions {
      StoredReadsBack(u.codec, s.completions[k]);
    }
  }

  lemma {:induction false} ReserveKeepsInv(u: Setup, s: System, w: nat, k: Key, start: int)
    requires ReadsBack(u.codec)
    requires Inv(u.codec, s, k) && WithinRetention(u, s, start)
    requires w in s.workers && s.workers[w].Calling? && KeyOf(s.workers[w].req) == k
    ensures Inv(u.codec, Apply(u, s, Reserve(w)), k)
  {
    var s' := Apply(u, s, Reserve(w));
    ReserveKeepsKey(u, s, w, k, start);
    ReserveKeepsOneOwner(u, s, w, k, start);
    forall v | v in s'.workers ensures WorkerOk(u.codec, s', k, s'.workers[v]) {
      if v == w {
        ReserveAnswersWell(u, s, w, k, start);
      } else {
        ReserveKeepsOthers(u, s, w, k, start, v);
      }
    }
  }

  // The first and only call for a key finds the provider without a record of it.
  lemma {:induction false} CallKeepsKey(u: Setup, s: System, step: Step, k: Key)
    requires Inv(u.codec, s, k) && step.Call?
    requires step.w in s.workers && s.workers[step.w].Owning? && KeyOf(s.workers[step.w].req) == k && Accepts(s.workers[step.w].req)
    ensures var s' := Apply(u, s, step);
            KeyOk(u.codec, s', k) && s'.tables == s.tables && s'.completions == s.completions && WorkerOk(u.codec, s', k, s'.workers[step.w])
  {
    var w, r := step.w, s.workers[step.w].req;
    assert WorkerOk(u.codec, s, k, s.workers[w]);
    assert !AlreadyServed(s.outside, r);
    CountAppend(s.effects, Effect(k, CallStep(s.outside, u.provider, r, step.disbursementId, step.nowText, step.draw).1), k);
  }

  lemma {:induction false} CallKeepsInv(u: Setup, s: System, step: Step, k: Key)
    requires Inv(u.codec, s, k) && step.Call?
    requires step.w in s.workers && s.workers[step.w].Owning? && KeyOf(s.workers[step.w].req) == k
    ensures Inv(u.codec, Apply(u, s, step), k)
  {
    if Accepts(s.workers[step.w].req) {
      CallKeepsKey(u, s, step, k);
      OthersUnaffected(u.codec, s, Apply(u, s, step), step.w, k);
    }
  }

  // When the owner of a key acts, no other worker's claim on that key is disturbed.
  lemma OthersUnaffected(c: Codec, s: System, s': System, w: nat, k: Key)
    requires OneOwner(s, k) && w in s.workers && Owns(s.workers[w], k)
    requires forall v :: v in s.workers ==> WorkerOk(c, s, k, s.workers[v])
    requires s'.workers.Keys == s.workers.Keys && forall v :: v in s.workers && v != w ==> s'.workers[v] == s.workers[v]
    requires k in s.completions ==> k in s'.completions && s'.completions[k] == s.completions[k]
    requires k in s.completions && k in s.tables.records ==> k in s'.tables.records && s'.tables.records[k].fingerprint == s.tables.records[k].fingerprint
    ensures forall v :: v in s'.workers && v != w ==> !Owns(s'.workers[v], k) && WorkerOk(c, s', k, s'.workers[v])
  {
    forall v | v in s'.workers && v != w ensures !Owns(s'.workers[v], k) && WorkerOk(c, s', k, s'.workers[v]) {
      assert WorkerOk(c, s, k, s.workers[v]);
    }
  }

  lemma {:induction false} CallRaisesKeepsInv(u: Setup, s: System, w: nat, k: Key)
    requires Inv(u.codec, s, k)
    requires w in s.workers && s.workers[w].Owning? && KeyOf(s.workers[w].req) == k
    ensures Inv(u.codec, Apply(u, s, CallRaises(w)), k)
  {
    assert WorkerOk(u.codec, s, k, s.workers[w]);
    SameForKeyKeepsInv(u.codec, s, Apply(u, s, CallRaises(w)), w, k);
  }

  lemma {:induction false} FinishKeepsInv(u: Setup, s: System, w: nat, k: Key)
    requires Inv(u.codec, s, k)
    requires w in s.workers && s.workers[w].Served? && KeyOf(s.workers[w].req) == k
    ensures Inv(u.codec, Apply(u, s, Finish(w)), k)
  {
    assert WorkerOk(u.codec, s, k, s.workers[w]);
    OthersUnaffected(u.codec, s, Apply(u, s, Finish(w)), w, k);
  }

  lemma {:induction false} GiveUpKeepsInv(u: Setup, s: System, w: nat, k: Key)
    requires Inv(u.codec, s, k)
    requires w in s.workers && s.workers[w].Failing? && KeyOf(s.workers[w].req) == k
    ensures Inv(u.codec, Apply(u, s, GiveUp(w)), k)
  {
    assert WorkerOk(u.codec, s, k, s.workers[w]);
    OthersUnaffected(u.codec, s, Apply(u, s, GiveUp(w)), w, k);
  }

  lemma StepKeepsInv(u: Setup, s: System, step: Step, k: Key, start: int)
    requires ReadsBack(u.codec)
    requires Inv(u.codec, s, k) && WithinRetention(u, s, start)
    ensures Inv(u.codec, Apply(u, s, step), k)
  {
    if !ActsOn(s, step, k) || Apply(u, s, step) == s {
      if !ActsOn(s, step, k) { OtherStepKeepsInv(u, s, step, k, start); }
    } else {
      match step {
        case Reserve(w) => ReserveKeepsInv(u, s, w, k, start);
        case Call(_, _, _, _) => CallKeepsInv(u, s, step, k);
        case CallRaises(w) => CallRaisesKeepsInv(u, s, w, k);
        case Finish(w) => FinishKeepsInv(u, s, w, k);
        case GiveUp(w) => GiveUpKeepsInv(u, s, w, k);
        case _ =>
      }
    }
  }

  lemma {:induction false} NowGrows(u: Setup, s: System, step: Step)
    ensures Apply(u, s, step).now >= s.now
  {
  }

  lemma {:induction false} RunKeepsInv(u: Setup, start: int, steps: seq<Step>, k: Key)
    requires ReadsBack(u.codec)
    requires Run(u, start, steps).now <= start + u.retention
    ensures Inv(u.codec, Run(u, start, steps), k) && WithinRetention(u, Run(u, start, steps), start)
  {
    if steps == [] {
    } else {
      var before, step := steps[..|steps| - 1], steps[|steps| - 1];
      NowGrows(u, Run(u, start, before), step);
      RunKeepsInv(u, start, before, k);
      StaysWritten(u, Run(u, start, before), step, start);
      StepKeepsInv(u, Run(u, start, before), step, k, start);
    }
  }

  // ----- what a run can show -----

  // In every run within the retention period, however the workers interleave, fail or
  // die: each key has at most one owner and at most one effect at the providers, and
  // completing never fails.
  lemma {:induction false} AtMostOneEffect(u: Setup, start: int, steps: seq<Step>, k: Key)
    requires ReadsBack(u.codec)
    requires Run(u, start, steps).now <= start + u.retention
    ensures OneOwner(Run(u, start, steps), k)
    ensures EffectsOn(Run(u, start, steps).effects, k) <= 1
    ensures k in Run(u, start, steps).completions ==> EffectsOn(Run(u, start, steps).effects, k) == 1
  {
    var s := Run(u, start, steps);
    RunKeepsInv(u, start, steps, k);
    if k in s.completions {
      MemberIsCounted(s.effects, Effect(k, s.completions[k]));
    }
  }

  lemma {:induction false} MemberIsCounted(effects: seq<Effect>, e: Effect)
    requires e in effects
    ensures EffectsOn(effects, e.key) >= 1
  {
    if effects[|effects| - 1] != e {
      assert e in effects[..|effects| - 1];
      MemberIsCounted(effects[..|effects| - 1], e);
    }
  }

  // Both callers are done, each with a result, for one key.
  predicate GotResults(workers: map<nat, Worker>, v: nat, w: nat) {
    && v in workers && workers[v].Done? && (workers[v].outcome.Reused? || workers[v].outcome.Delivered?)
    && w in workers && workers[w].Done? && (workers[w].outcome.Reused? || workers[w].outcome.Delivered?)
    && KeyOf(workers[v].req) == KeyOf(workers[w].req)
  }

  // The worker is about to reserve a key that is recorded for another request.
  predicate AsksForAnother(c: Codec, s: System, w: nat) {
    && w in s.workers && s.workers[w].Calling? && KeyOf(s.workers[w].req) in s.tables.records
    && s.tables.records[KeyOf(s.workers[w].req)].fingerprint != Fingerprint(c, s.workers[w].req)
  }

  // Every caller that got a result, new or reused, got the one result recorded for its
  // key, and its request has the fingerprint of the request that paid.
  lemma {:induction false} AllCallersAgree(u: Setup, start: int, steps: seq<Step>, v: nat, w: nat)
    requires ReadsBack(u.codec)
    requires Run(u, start, steps).now <= start + u.retention
    requires GotResults(Run(u, start, steps).workers, v, w)
    ensures var workers := Run(u, start, steps).workers;
            && workers[v].outcome.result == workers[w].outcome.result
            && Fingerprint(u.codec, workers[v].req) == Fingerprint(u.codec, workers[w].req)
  {
    var s := Run(u, start, steps);
    RunKeepsInv(u, start, steps, KeyOf(s.workers[v].req));
    assert WorkerOk(u.codec, s, KeyOf(s.workers[v].req), s.workers[v]);
    assert WorkerOk(u.codec, s, KeyOf(s.workers[v].req), s.workers[w]);
  }

  // While a record exists, a reservation for another request is refused and changes no table.
  lemma {:induction false} OtherRequestRefused(u: Setup, start: int, steps: seq<Step>, w: nat)
    requires ReadsBack(u.codec)
    requires Run(u, start, steps).now <= start + u.retention
    requires AsksForAnother(u.codec, Run(u, start, steps), w)
    ensures var s := Run(u, start, steps);
            Apply(u, s, Reserve(w)) == Become(s, w, Done(s.workers[w].req, Refused))
  {
    var s := Run(u, start, steps);
    RunKeepsInv(u, start, steps, KeyOf(s.workers[w].req));
    Store.NothingExpires(s.tables, start, s.now, u.retention);
  }
}
