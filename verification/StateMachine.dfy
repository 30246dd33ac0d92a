// The approval state machine of src/domain/workflow/state_machine.py.
module StateMachine {
  import opened Basics
  import opened PolicyEvaluator

  datatype State = Draft | Pending | Approved | Rejected | Disbursed

  datatype Event = SubmitEvent | ApproveEvent | RejectEvent | DisburseEvent | CancelEvent

  function Target(s: State, e: Event): Option<State> {
    match (s, e)
    case (Draft, SubmitEvent) => Some(Pending)
    case (Draft, CancelEvent) => Some(Rejected)
    case (Pending, ApproveEvent) => Some(Approved)
    case (Pending, RejectEvent) => Some(Rejected)
    case (Approved, DisburseEvent) => Some(Disbursed)
    case _ => None
  }

  predicate IsTerminal(s: State) {
    s == Rejected || s == Disbursed
  }

  datatype Record = Record(request: string, tenant: string, from: State, event: Event, to: State, actor: string, notes: string)

  // What can be read off a request at one moment.
  datatype Request = Request(id: string, tenant: string, custodian: string, amount: int, currency: string,
                             description: string, tier: Tier, state: State, trail: seq<Record>)

  function Moved(r: Request, e: Event, actor: string, notes: string): Option<Request> {
    match Target(r.state, e)
    case None => None
    case Some(to) => Some(r.(state := to, trail := r.trail + [Record(r.id, r.tenant, r.state, e, to, actor, notes)]))
  }

  class ApprovalRequest {
    const id: string
    const tenant: string
    const custodian: string
    const amount: int
    const currency: string
    const description: string
    const tier: Tier
    var state: State
    var trail: seq<Record>

    function View(): Request
      reads this
    {
      Request(id, tenant, custodian, amount, currency, description, tier, state, trail)
    }

    constructor (id: string, tenant: string, custodian: string, amount: int, currency: string, description: string, tier: Tier)
      ensures View() == Request(id, tenant, custodian, amount, currency, description, tier, Draft, [])
    {
      this.id, this.tenant, this.custodian := id, tenant, custodian;
      this.amount, this.currency, this.description, this.tier := amount, currency, description, tier;
      state, trail := Draft, [];
    }

    method Transition(event: Event, actor: string, notes: string) returns (r: Option<State>)
      modifies this
      ensures r == Target(old(state), event)
      ensures r.None? ==> View() == old(View())
      ensures r.Some? ==> Moved(old(View()), event, actor, notes) == Some(View())
    {
      var to := Target(state, event);
      if to.None? {
        return None;
      }
      trail := trail + [Record(id, tenant, state, event, to.value, actor, notes)];
      state := to.value;
      return to;
    }
  }

  // ----- audit trails -----

  predicate IsPath(trail: seq<Record>, from: State, to: State) {
    if trail == [] then from == to
    else
      var last := trail[|trail| - 1];
      last.to == to && Target(last.from, last.event) == Some(to) && IsPath(trail[..|trail| - 1], from, last.from)
  }

  lemma MovingExtendsThePath(r: Request, e: Event, actor: string, notes: string)
    requires IsPath(r.trail, Draft, r.state) && Moved(r, e, actor, notes).Some?
    ensures var q := Moved(r, e, actor, notes).value; IsPath(q.trail, Draft, q.state)
  {
    var q := Moved(r, e, actor, notes).value;
    assert q.trail[..|q.trail| - 1] == r.trail;
  }

  function Events(trail: seq<Record>): seq<Event> {
    seq(|trail|, i requires 0 <= i < |trail| => trail[i].event)
  }

  // From a draft every state is reached by one sequence of events only, except that a
  // rejected request may also be a cancelled draft; no trail has more than three steps.
  lemma {:induction false} StateTellsTheEvents(trail: seq<Record>, s: State)
    requires IsPath(trail, Draft, s)
    ensures match s
            case Draft => Events(trail) == []
            case Pending => Events(trail) == [SubmitEvent]
            case Approved => Events(trail) == [SubmitEvent, ApproveEvent]
            case Rejected => Events(trail) == [SubmitEvent, RejectEvent] || Events(trail) == [CancelEvent]
            case Disbursed => Events(trail) == [SubmitEvent, ApproveEvent, DisburseEvent]
  {
    if trail == [] {
    } else {
      var front, last := trail[..|trail| - 1], trail[|trail| - 1];
      StateTellsTheEvents(front, last.from);
      assert Events(trail) == Events(front) + [last.event];
    }
  }

  // A state allows no further event exactly when it is terminal.
  lemma TerminalExactlyWhenStuck(s: State)
    ensures IsTerminal(s) <==> forall e :: Target(s, e) == None
  {
    assert Target(Draft, SubmitEvent).Some? && Target(Pending, ApproveEvent).Some? && Target(Approved, DisburseEvent).Some?;
  }
}
