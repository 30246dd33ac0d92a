// The approval service of src/domain/workflow/service.py: a table of requests keyed by
// tenant and id, each advanced in place by its state machine.
module ApprovalWorkflow {
  import opened Basics
  import opened PolicyEvaluator
  import opened StateMachine
  import opened RequestTables

  datatype Error =
    | BlankTenant | BlankCustodian | BadAmount | BadCurrency | BlankDescription
    | BlankActor | MissingReason | NotFound | NoAuthority | InvalidTransition(from: State)

  // ----- texts -----

  // A text with something to read in it.
  predicate IsReadable(s: string) {
    exists i :: 0 <= i < |s| && !IsSpace(s[i])
  }

  lemma {:induction false} StripLeftStart(s: string)
    ensures StripLeft(s) != "" ==> !IsSpace(StripLeft(s)[0])
  {
    if s != "" && IsSpace(s[0]) { StripLeftStart(s[1..]); }
  }

  lemma {:induction false} StripRightIsPrefix(s: string)
    ensures StripRight(s) <= s
  {
    if s != "" && IsSpace(s[|s| - 1]) { StripRightIsPrefix(s[..|s| - 1]); }
  }

  lemma StrippedIsReadable(s: string)
    requires Strip(s) != ""
    ensures IsReadable(Strip(s))
  {
    StripLeftStart(s);
    StripRightIsPrefix(StripLeft(s));
    assert !IsSpace(Strip(s)[0]);
  }

  const SYSTEM_ACTOR := "SYSTEM_AUTO_APPROVER"

  function OrText(given: Option<string>, otherwise: string): string {
    if given.Some? && given.value != "" then given.value else otherwise
  }

  function TierName(t: Tier): string {
    match t
    case AutoApprove => "AUTO_APPROVE"
    case Manager => "MANAGER"
    case FinanceDirector => "FINANCE_DIRECTOR"
  }

  function SubmitNotes(given: Option<string>, t: Tier): string {
    OrText(given, "Submitted by custodian. Required tier: " + TierName(t))
  }

  function AutoNotes(rule: string): string {
    "Auto-approved by policy rule: " + rule
  }

  // ----- authority -----

  function TierLevel(t: Tier): nat {
    match t
    case AutoApprove => 0
    case Manager => 1
    case FinanceDirector => 2
  }

  function RoleLevel(role: string): nat {
    var r := Upper(Strip(role));
    if r == "MANAGER" || r == "LINE_MANAGER" || r == "FINANCE_MANAGER" then 1
    else if r == "FINANCE_DIRECTOR" || r == "CFO" || r == "DIRECTOR" || r == "ADMIN" then 2
    else 0
  }

  // Nobody's authority is looked at unless a role is named.
  predicate MayApprove(t: Tier, role: Option<string>) {
    role.Some? && role.value != "" ==> RoleLevel(role.value) >= TierLevel(t)
  }

  // ----- the calls -----

  datatype Op =
    | Submit(tenant: string, custodian: string, amount: int, currency: string, description: string,
             autoApprove: bool, initialNotes: Option<string>, newId: string)
    | Approve(tenant: string, id: string, actor: string, notes: Option<string>, role: Option<string>)
    | Reject(tenant: string, id: string, actor: string, notes: Option<string>)
    | Disburse(tenant: string, id: string, actor: string, notes: Option<string>)

  function SubmitFault(op: Op): Option<Error>
    requires op.Submit?
  {
    if Strip(op.tenant) == "" then Some(BlankTenant)
    else if Strip(op.custodian) == "" then Some(BlankCustodian)
    else if op.amount <= 0 then Some(BadAmount)
    else if |Strip(op.currency)| != 3 then Some(BadCurrency)
    else if Strip(op.description) == "" then Some(BlankDescription)
    else None
  }

  function Submitted(rules: seq<Rule>, op: Op): Request
    requires op.Submit?
  {
    var e := Evaluated(rules, op.amount);
    var draft := Request(op.newId, Strip(op.tenant), Strip(op.custodian), op.amount, Upper(Strip(op.currency)),
                         Strip(op.description), e.tier, Draft, []);
    var pending := Moved(draft, SubmitEvent, draft.custodian, SubmitNotes(op.initialNotes, e.tier)).value;
    if e.autoApproved && op.autoApprove then Moved(pending, ApproveEvent, SYSTEM_ACTOR, AutoNotes(e.rule)).value else pending
  }

  function EventOf(op: Op): Event
    requires !op.Submit?
  {
    match op
    case Approve(_, _, _, _, _) => ApproveEvent
    case Reject(_, _, _, _) => RejectEvent
    case Disburse(_, _, _, _) => DisburseEvent
  }

  function NotesOf(op: Op): string
    requires !op.Submit?
  {
    if op.Disburse? then Strip(OrText(op.notes, "Funds disbursed by finance custodian")) else Strip(OrText(op.notes, ""))
  }

  function KeyOf(op: Op): Key
    requires !op.Submit?
  {
    (Strip(op.tenant), Strip(op.id))
  }

  function Advance(t: Table, op: Op): (Table, Outcome<Request, Error>)
    requires !op.Submit?
  {
    var key := KeyOf(op);
    if Strip(op.actor) == "" then (t, Err(BlankActor))
    else if !op.Disburse? && NotesOf(op) == "" then (t, Err(MissingReason))
    else if key !in t then (t, Err(NotFound))
    else if op.Approve? && !MayApprove(t[key].tier, op.role) then (t, Err(NoAuthority))
    else
      match Moved(t[key], EventOf(op), Strip(op.actor), NotesOf(op))
      case None => (t, Err(InvalidTransition(t[key].state)))
      case Some(r) => (t[key := r], Ok(r))
  }

  function Apply(rules: seq<Rule>, t: Table, op: Op): (Table, Outcome<Request, Error>) {
    if !op.Submit? then Advance(t, op)
    else if SubmitFault(op).Some? then (t, Err(SubmitFault(op).value))
    else
      var r := Submitted(rules, op);
      (t[(r.tenant, r.id) := r], Ok(r))
  }

  // ----- the service -----

  class ApprovalWorkflowService {
    const rules: seq<Rule>
    var requests: map<Key, ApprovalRequest>

    // One object per key.
    ghost predicate Valid()
      reads this
    {
      forall j, k :: j in requests && k in requests && j != k ==> requests[j] != requests[k]
    }

    ghost function View(): Table
      reads this, requests.Values
    {
      map k | k in requests :: requests[k].View()
    }

    constructor (rules: seq<Rule>)
      ensures Valid() && View() == map[] && this.rules == rules
    {
      this.rules := rules;
      requests := map[];
    }

    method SubmitRequest(op: Op) returns (r: Outcome<ApprovalRequest, Error>)
      requires Valid() && op.Submit?
      modifies this
      ensures Valid()
      ensures View() == Apply(rules, old(View()), op).0
      ensures r.Ok? <==> Apply(rules, old(View()), op).1.Ok?
      ensures r.Ok? ==> fresh(r.value) && Ok(r.value.View()) == Apply(rules, old(View()), op).1
      ensures r.Err? ==> Err(r.error) == Apply(rules, old(View()), op).1
    {
      var fault := SubmitFault(op);
      if fault.Some? {
        return Err(fault.value);
      }
      var request := NewRequest(op);
      Keep(request);
      return Ok(request);
    }

    method Keep(request: ApprovalRequest)
      requires Valid() && forall k :: k in requests ==> requests[k] != request
      modifies this
      ensures Valid() && View() == old(View())[(request.tenant, request.id) := request.View()]
    {
      ghost var before := View();
      requests := requests[(request.tenant, request.id) := request];
      assert View() == before[(request.tenant, request.id) := request.View()];
    }

    // A draft that its custodian submits and that the policy may approve on the spot.
    method NewRequest(op: Op) returns (request: ApprovalRequest)
      requires op.Submit?
      ensures fresh(request) && request.View() == Submitted(rules, op)
    {
      var e := Evaluated(rules, op.amount);
      request := new ApprovalRequest(op.newId, Strip(op.tenant), Strip(op.custodian), op.amount, Upper(Strip(op.currency)),
                                     Strip(op.description), e.tier);
      var submitted := request.Transition(SubmitEvent, Strip(op.custodian), SubmitNotes(op.initialNotes, e.tier));
      if e.autoApproved && op.autoApprove {
        var approved := request.Transition(ApproveEvent, SYSTEM_ACTOR, AutoNotes(e.rule));
      }
    }

    method ApproveRequest(op: Op) returns (r: Outcome<ApprovalRequest, Error>)
      requires Valid() && op.Approve?
      modifies requests.Values
      ensures Valid() && requests == old(requests)
      ensures View() == Apply(rules, old(View()), op).0
      ensures r.Ok? ==> Ok(r.value.View()) == Apply(rules, old(View()), op).1
      ensures r.Err? ==> Err(r.error) == Apply(rules, old(View()), op).1
    {
      if Strip(op.actor) == "" {
        return Err(BlankActor);
      }
      if NotesOf(op) == "" {
        return Err(MissingReason);
      }
      var key := KeyOf(op);
      if key !in requests {
        return Err(NotFound);
      }
      var request := requests[key];
      if !MayApprove(request.tier, op.role) {
        return Err(NoAuthority);
      }
      r := Fire(key, ApproveEvent, Strip(op.actor), NotesOf(op));
    }

    method RejectRequest(op: Op) returns (r: Outcome<ApprovalRequest, Error>)
      requires Valid() && op.Reject?
      modifies requests.Values
      ensures Valid() && requests == old(requests)
      ensures View() == Apply(rules, old(View()), op).0
      ensures r.Ok? ==> Ok(r.value.View()) == Apply(rules, old(View()), op).1
      ensures r.Err? ==> Err(r.error) == Apply(rules, old(View()), op).1
    {
      if Strip(op.actor) == "" {
        return Err(BlankActor);
      }
      if NotesOf(op) == "" {
        return Err(MissingReason);
      }
      if KeyOf(op) !in requests {
        return Err(NotFound);
      }
      r := Fire(KeyOf(op), RejectEvent, Strip(op.actor), NotesOf(op));
    }

    method DisburseRequest(op: Op) returns (r: Outcome<ApprovalRequest, Error>)
      requires Valid() && op.Disburse?
      modifies requests.Values
      ensures Valid() && requests == old(requests)
      ensures View() == Apply(rules, old(View()), op).0
      ensures r.Ok? ==> Ok(r.value.View()) == Apply(rules, old(View()), op).1
      ensures r.Err? ==> Err(r.error) == Apply(rules, old(View()), op).1
    {
      if Strip(op.actor) == "" {
        return Err(BlankActor);
      }
      if KeyOf(op) !in requests {
        return Err(NotFound);
      }
      r := Fire(KeyOf(op), DisburseEvent, Strip(op.actor), NotesOf(op));
    }

    method GetSummaryStats(tenant: string) returns (s: Stats)
      ensures s == Summary(View(), Strip(tenant))
    {
      var clean := Strip(tenant);
      ghost var t := View();
      s := NO_STATS;
      NothingCounted(t, clean);
      var rest := requests.Keys;
      while rest != {}
        invariant rest <= t.Keys
        invariant IsTally(s, t, clean, t.Keys - rest)
      {
        var k :| k in rest;
        OneMoreCounted(s, t, clean, rest, k);
        if k.0 == clean {
          s := Counted(s, requests[k].View());
        }
        rest := rest - {k};
      }
      assert t.Keys - rest == t.Keys;
    }

    // One event on one stored request, in place; the objects of other keys stay as they are.
    method Fire(key: Key, event: Event, actor: string, notes: string) returns (r: Outcome<ApprovalRequest, Error>)
      requires Valid() && key in requests
      modifies requests.Values
      ensures Valid() && requests == old(requests)
      ensures match Moved(old(requests[key].View()), event, actor, notes)
              case None => r == Err(InvalidTransition(old(requests[key].state))) && View() == old(View())
              case Some(q) => r == Ok(requests[key]) && requests[key].View() == q && View() == old(View())[key := q]
    {
      var request := requests[key];
      ghost var before := View();
      var state := request.state;
      var to := request.Transition(event, actor, notes);
      assert forall k :: k in requests && k != key ==> requests[k].View() == before[k];
      if to.None? {
        assert View() == before;
        return Err(InvalidTransition(state));
      }
      assert View() == before[key := request.View()];
      return Ok(request);
    }
  }
}
