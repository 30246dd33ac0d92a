// What every run of the approval service keeps
// (src/domain/workflow/service.py, src/domain/workflow/state_machine.py).
module WorkflowRuns {
  import opened Basics
  import opened PolicyEvaluator
  import opened StateMachine
  import opened RequestTables
  import opened ApprovalWorkflow

  // A record the service may have written.
  predicate GoodRecord(e: Record, r: Request) {
    && e.request == r.id && e.tenant == r.tenant
    && e.event != CancelEvent
    && IsReadable(e.actor)
    && (e.event == ApproveEvent || e.event == RejectEvent ==> IsReadable(e.notes))
  }

  predicate GoodRequest(rules: seq<Rule>, key: Key, r: Request) {
    && (r.tenant, r.id) == key
    && r.amount > 0
    && r.tier == Evaluated(rules, r.amount).tier
    && r.state != Draft
    && IsPath(r.trail, Draft, r.state)
    && forall i :: 0 <= i < |r.trail| ==> GoodRecord(r.trail[i], r)
  }

  lemma MovingKeepsRecords(r: Request, e: Event, actor: string, notes: string)
    requires forall i :: 0 <= i < |r.trail| ==> GoodRecord(r.trail[i], r)
    requires Moved(r, e, actor, notes).Some?
    requires e != CancelEvent && IsReadable(actor) && (e == ApproveEvent || e == RejectEvent ==> IsReadable(notes))
    ensures var q := Moved(r, e, actor, notes).value;
            forall i :: 0 <= i < |q.trail| ==> GoodRecord(q.trail[i], q)
  {
    var q := Moved(r, e, actor, notes).value;
    forall i | 0 <= i < |q.trail| ensures GoodRecord(q.trail[i], q) {
      if i < |r.trail| { assert GoodRecord(r.trail[i], r); }
    }
  }

  lemma FixedTextsAreReadable(rule: string)
    ensures IsReadable(SYSTEM_ACTOR) && IsReadable(AutoNotes(rule))
  {
    assert !IsSpace(SYSTEM_ACTOR[0]) && !IsSpace(AutoNotes(rule)[0]);
  }

  function DraftOf(rules: seq<Rule>, op: Op): Request
    requires op.Submit?
  {
    Request(op.newId, Strip(op.tenant), Strip(op.custodian), op.amount, Upper(Strip(op.currency)),
            Strip(op.description), Evaluated(rules, op.amount).tier, Draft, [])
  }

  lemma {:induction false} SubmittedIsGood(rules: seq<Rule>, op: Op)
    requires op.Submit? && SubmitFault(op).None?
    ensures var r := Submitted(rules, op);
            GoodRequest(rules, (Strip(op.tenant), op.newId), r) && (r.state == Pending || r.state == Approved)
  {
    var e := Evaluated(rules, op.amount);
    var draft := DraftOf(rules, op);
    var notes := SubmitNotes(op.initialNotes, e.tier);
    var pending := Moved(draft, SubmitEvent, draft.custodian, notes).value;
    StrippedIsReadable(op.custodian);
    MovingExtendsThePath(draft, SubmitEvent, draft.custodian, notes);
    MovingKeepsRecords(draft, SubmitEvent, draft.custodian, notes);
    if e.autoApproved && op.autoApprove {
      FixedTextsAreReadable(e.rule);
      MovingExtendsThePath(pending, ApproveEvent, SYSTEM_ACTOR, AutoNotes(e.rule));
      MovingKeepsRecords(pending, ApproveEvent, SYSTEM_ACTOR, AutoNotes(e.rule));
    }
  }

  lemma AdvancedIsGood(rules: seq<Rule>, t: Table, op: Op)
    requires !op.Submit? && Advance(t, op).1.Ok? && GoodRequest(rules, KeyOf(op), t[KeyOf(op)])
    ensures GoodRequest(rules, KeyOf(op), Advance(t, op).1.value)
  {
    var r := t[KeyOf(op)];
    StrippedIsReadable(op.actor);
    if !op.Disburse? { StrippedIsReadable(OrText(op.notes, "")); }
    MovingExtendsThePath(r, EventOf(op), Strip(op.actor), NotesOf(op));
    MovingKeepsRecords(r, EventOf(op), Strip(op.actor), NotesOf(op));
  }

  // ----- runs -----

  function After(rules: seq<Rule>, ops: seq<Op>, n: nat): Table
    requires n <= |ops|
  {
    if n == 0 then map[] else Apply(rules, After(rules, ops, n - 1), ops[n - 1]).0
  }

  ghost predicate GoodTable(rules: seq<Rule>, t: Table) {
    forall k :: k in t ==> GoodRequest(rules, k, t[k])
  }

  lemma StepKeepsGood(rules: seq<Rule>, t: Table, op: Op)
    requires GoodTable(rules, t)
    ensures GoodTable(rules, Apply(rules, t, op).0)
  {
    if op.Submit? {
      if SubmitFault(op).None? {
        SubmittedIsGood(rules, op);
      }
    } else {
      AdvanceKeepsGood(rules, t, op);
    }
  }

  lemma AdvanceKeepsGood(rules: seq<Rule>, t: Table, op: Op)
    requires GoodTable(rules, t) && !op.Submit?
    ensures GoodTable(rules, Advance(t, op).0)
  {
    if Advance(t, op).1.Ok? {
      AdvancedIsGood(rules, t, op);
    }
  }

  lemma {:induction false} RunIsGood(rules: seq<Rule>, ops: seq<Op>, n: nat)
    requires n <= |ops|
    ensures GoodTable(rules, After(rules, ops, n))
  {
    if n == 0 {
    } else {
      RunIsGood(rules, ops, n - 1);
      StepKeepsGood(rules, After(rules, ops, n - 1), ops[n - 1]);
    }
  }

  lemma NeverCancelled(r: Request)
    requires forall i :: 0 <= i < |r.trail| ==> GoodRecord(r.trail[i], r)
    ensures CancelEvent !in Events(r.trail)
  {
    forall i | 0 <= i < |r.trail| ensures Events(r.trail)[i] != CancelEvent {
      assert GoodRecord(r.trail[i], r);
    }
  }

  // In every run the state of a stored request tells what happened to it; nothing is
  // stored as a draft, and money goes out only after submission and approval.
  lemma StoredStateTellsTheEvents(rules: seq<Rule>, ops: seq<Op>, n: nat, k: Key)
    requires n <= |ops| && k in After(rules, ops, n)
    ensures var r := After(rules, ops, n)[k];
            match r.state
            case Draft => false
            case Pending => Events(r.trail) == [SubmitEvent]
            case Approved => Events(r.trail) == [SubmitEvent, ApproveEvent]
            case Rejected => Events(r.trail) == [SubmitEvent, RejectEvent]
            case Disbursed => Events(r.trail) == [SubmitEvent, ApproveEvent, DisburseEvent]
  {
    RunIsGood(rules, ops, n);
    var r := After(rules, ops, n)[k];
    StateTellsTheEvents(r.trail, r.state);
    NeverCancelled(r);
    assert CancelEvent in [CancelEvent];
  }

  // Nobody approves or rejects without a reason on record.
  lemma {:induction false} ReasonsAreOnRecord(rules: seq<Rule>, ops: seq<Op>, n: nat, k: Key, i: nat)
    requires n <= |ops| && k in After(rules, ops, n) && i < |After(rules, ops, n)[k].trail|
    ensures var e := After(rules, ops, n)[k].trail[i];
            && IsReadable(e.actor) && (e.request, e.tenant) == (k.1, k.0)
            && (e.event == ApproveEvent || e.event == RejectEvent ==> IsReadable(e.notes))
  {
    RunIsGood(rules, ops, n);
    assert GoodRecord(After(rules, ops, n)[k].trail[i], After(rules, ops, n)[k]);
  }

  // A call for one tenant leaves the requests of all others alone.
  lemma TenantsAreApart(rules: seq<Rule>, t: Table, op: Op, k: Key)
    requires k.0 != Strip(op.tenant)
    ensures k in Apply(rules, t, op).0 <==> k in t
    ensures k in t ==> Apply(rules, t, op).0[k] == t[k]
  {
  }

  // A stored request is still stored, with the records it had and perhaps more.
  predicate Extends(t: Table, u: Table, k: Key) {
    k in t && k in u && t[k].trail <= u[k].trail
  }

  predicate TakesFreshId(t: Table, op: Op) {
    op.Submit? ==> (Strip(op.tenant), op.newId) !in t
  }

  predicate FreshIds(rules: seq<Rule>, ops: seq<Op>, m: nat, n: nat)
    requires m <= n <= |ops|
  {
    m == n || (FreshIds(rules, ops, m, n - 1) && TakesFreshId(After(rules, ops, n - 1), ops[n - 1]))
  }

  lemma ExtendsTwice(t: Table, u: Table, v: Table, k: Key)
    requires Extends(t, u, k) && Extends(u, v, k)
    ensures Extends(t, v, k)
  {
    var x, y, z := t[k].trail, u[k].trail, v[k].trail;
    assert x <= y <= z;
  }

  // Records are only ever added: what a request's trail said once it keeps saying.
  lemma {:induction false} TrailsOnlyGrow(rules: seq<Rule>, ops: seq<Op>, m: nat, n: nat, k: Key)
    requires m <= n <= |ops| && FreshIds(rules, ops, m, n) && k in After(rules, ops, m)
    ensures Extends(After(rules, ops, m), After(rules, ops, n), k)
    decreases n
  {
    if m < n {
      var t, u := After(rules, ops, n - 1), After(rules, ops, n);
      TrailsOnlyGrow(rules, ops, m, n - 1, k);
      TrailGrowsInOneStep(rules, t, ops[n - 1], k);
      ExtendsTwice(After(rules, ops, m), t, u, k);
    }
  }

  lemma TrailGrowsInOneStep(rules: seq<Rule>, t: Table, op: Op, k: Key)
    requires k in t && TakesFreshId(t, op)
    ensures Extends(t, Apply(rules, t, op).0, k)
  {
    if !op.Submit? && Advance(t, op).1.Ok? && k == KeyOf(op) {
      assert Moved(t[k], EventOf(op), Strip(op.actor), NotesOf(op)) == Some(Apply(rules, t, op).0[k]);
    }
  }

  // Who can approve: without a named role anyone with a reason can, whatever the tier.
  lemma {:induction false} ApprovalExactlyWhen(rules: seq<Rule>, ops: seq<Op>, n: nat, op: Op)
    requires n <= |ops| && op.Approve? && KeyOf(op) in After(rules, ops, n)
    requires IsReadable(Strip(op.actor)) && IsReadable(NotesOf(op))
    ensures var r := After(rules, ops, n)[KeyOf(op)];
            Apply(rules, After(rules, ops, n), op).1.Ok? <==>
            Events(r.trail) == [SubmitEvent] && (op.role.None? || op.role.value == "" || RoleLevel(op.role.value) >= TierLevel(r.tier))
  {
    StoredStateTellsTheEvents(rules, ops, n, KeyOf(op));
  }

  // The dashboard numbers of any run add up.
  lemma DashboardAddsUp(rules: seq<Rule>, ops: seq<Op>, n: nat, tenant: string)
    requires n <= |ops|
    ensures var s := Summary(After(rules, ops, n), tenant);
            && s.total == s.pending + s.approved + s.rejected + s.disbursed
            && s.total == |KeysOf(After(rules, ops, n), tenant)|
  {
    var t := After(rules, ops, n);
    RunIsGood(rules, ops, n);
    assert forall k :: k in t ==> t[k].state != Draft;
    SummaryAddsUp(t, tenant);
    SummaryCounts(t, tenant);
  }
}
