// Tables of approval requests and the dashboard numbers computed from them
// (src/domain/workflow/service.py, get_summary_stats).
module RequestTables {
  import opened Sums
  import opened PolicyEvaluator
  import opened StateMachine

  type Key = (string, string)          // tenant, request id
  type Table = map<Key, Request>

  datatype Stats = Stats(total: int, pending: int, approved: int, rejected: int, disbursed: int,
                         tier1Auto: int, tier2Manager: int, tier3Director: int, totalPending: int, totalApproved: int)

  const NO_STATS := Stats(0, 0, 0, 0, 0, 0, 0, 0, 0, 0)

  // One request in the running counters, branch by branch.
  function Counted(s: Stats, r: Request): Stats {
    var s1 := s.(total := s.total + 1);
    var s2 :=
      match r.state
      case Pending =>
        var p := s1.(pending := s1.pending + 1, totalPending := s1.totalPending + r.amount);
        if r.tier == Manager then p.(tier2Manager := p.tier2Manager + 1)
        else if r.tier == FinanceDirector then p.(tier3Director := p.tier3Director + 1)
        else p
      case Approved => s1.(approved := s1.approved + 1, totalApproved := s1.totalApproved + r.amount)
      case Rejected => s1.(rejected := s1.rejected + 1)
      case Disbursed => s1.(disbursed := s1.disbursed + 1)
      case Draft => s1;
    if r.tier == AutoApprove then s2.(tier1Auto := s2.tier1Auto + 1) else s2
  }

  // What each number means: a weight on every request of the tenant.
  datatype Field = Total | InState(state: State) | OfTier(tier: Tier) | PendingOfTier(tier: Tier) | AmountInState(state: State)

  function WeightOf(r: Request, f: Field): int {
    match f
    case Total => 1
    case InState(s) => if r.state == s then 1 else 0
    case OfTier(t) => if r.tier == t then 1 else 0
    case PendingOfTier(t) => if r.state == Pending && r.tier == t then 1 else 0
    case AmountInState(s) => if r.state == s then r.amount else 0
  }

  function Weight(t: Table, tenant: string, f: Field): Key -> int {
    (k: Key) => if k in t && k.0 == tenant then WeightOf(t[k], f) else 0
  }

  ghost function Number(t: Table, tenant: string, keys: set<Key>, f: Field): int {
    SumOver(keys, Weight(t, tenant, f))
  }

  ghost function StatsOver(t: Table, tenant: string, keys: set<Key>): Stats {
    Stats(Number(t, tenant, keys, Total), Number(t, tenant, keys, InState(Pending)), Number(t, tenant, keys, InState(Approved)),
          Number(t, tenant, keys, InState(Rejected)), Number(t, tenant, keys, InState(Disbursed)),
          Number(t, tenant, keys, OfTier(AutoApprove)), Number(t, tenant, keys, PendingOfTier(Manager)),
          Number(t, tenant, keys, PendingOfTier(FinanceDirector)),
          Number(t, tenant, keys, AmountInState(Pending)), Number(t, tenant, keys, AmountInState(Approved)))
  }

  ghost function Summary(t: Table, tenant: string): Stats {
    StatsOver(t, tenant, t.Keys)
  }

  ghost predicate IsTally(s: Stats, t: Table, tenant: string, keys: set<Key>) {
    s == StatsOver(t, tenant, keys)
  }

  lemma OneMore(t: Table, tenant: string, keys: set<Key>, k: Key, f: Field)
    requires k !in keys
    ensures Number(t, tenant, keys + {k}, f) == Number(t, tenant, keys, f) + Weight(t, tenant, f)(k)
  {
    TakeOut(keys + {k}, Weight(t, tenant, f), k);
    assert keys + {k} - {k} == keys;
  }

  predicate EachGrewBy(a: Stats, b: Stats, r: Request) {
    && b.total == a.total + WeightOf(r, Total)
    && b.pending == a.pending + WeightOf(r, InState(Pending))
    && b.approved == a.approved + WeightOf(r, InState(Approved))
    && b.rejected == a.rejected + WeightOf(r, InState(Rejected))
    && b.disbursed == a.disbursed + WeightOf(r, InState(Disbursed))
    && b.tier1Auto == a.tier1Auto + WeightOf(r, OfTier(AutoApprove))
    && b.tier2Manager == a.tier2Manager + WeightOf(r, PendingOfTier(Manager))
    && b.tier3Director == a.tier3Director + WeightOf(r, PendingOfTier(FinanceDirector))
    && b.totalPending == a.totalPending + WeightOf(r, AmountInState(Pending))
    && b.totalApproved == a.totalApproved + WeightOf(r, AmountInState(Approved))
  }

  // The branches of the counting loop give every number its weight.
  lemma CountedGrows(a: Stats, b: Stats, r: Request)
    requires EachGrewBy(a, b, r)
    ensures b == Counted(a, r)
  {
  }

  lemma CountingStep(t: Table, tenant: string, keys: set<Key>, k: Key)
    requires k !in keys && k in t
    ensures StatsOver(t, tenant, keys + {k})
         == if k.0 == tenant then Counted(StatsOver(t, tenant, keys), t[k]) else StatsOver(t, tenant, keys)
  {
    forall f: Field ensures Number(t, tenant, keys + {k}, f) == Number(t, tenant, keys, f) + Weight(t, tenant, f)(k) {
      OneMore(t, tenant, keys, k, f);
    }
    if k.0 == tenant {
      CountedGrows(StatsOver(t, tenant, keys), StatsOver(t, tenant, keys + {k}), t[k]);
    }
  }

  lemma NothingCounted(t: Table, tenant: string)
    ensures IsTally(NO_STATS, t, tenant, t.Keys - t.Keys)
  {
    assert t.Keys - t.Keys == {};
  }

  // The counters are right for all keys but the rest; one more of them is counted.
  lemma OneMoreCounted(s: Stats, t: Table, tenant: string, rest: set<Key>, k: Key)
    requires k in rest && rest <= t.Keys && IsTally(s, t, tenant, t.Keys - rest)
    ensures IsTally(if k.0 == tenant then Counted(s, t[k]) else s, t, tenant, t.Keys - (rest - {k}))
  {
    CountingStep(t, tenant, t.Keys - rest, k);
    assert t.Keys - rest + {k} == t.Keys - (rest - {k});
  }

  function KeysOf(t: Table, tenant: string): set<Key> {
    set k | k in t && k.0 == tenant
  }

  function KeysIn(t: Table, tenant: string, s: State): set<Key> {
    set k | k in t && k.0 == tenant && t[k].state == s
  }

  // A sum of ones is a number of elements.
  lemma {:induction false} OnesAreCounted<K>(keys: set<K>, f: K -> int, chosen: set<K>)
    requires chosen <= keys && forall k :: k in keys ==> f(k) == if k in chosen then 1 else 0
    ensures SumOver(keys, f) == |chosen|
  {
    if keys == {} {
    } else {
      var x :| x in keys;
      TakeOut(keys, f, x);
      OnesAreCounted(keys - {x}, f, chosen - {x});
    }
  }

  // The numbers are the sizes of the sets they describe.
  lemma SummaryCounts(t: Table, tenant: string)
    ensures Summary(t, tenant).total == |KeysOf(t, tenant)|
    ensures Summary(t, tenant).pending == |KeysIn(t, tenant, Pending)|
    ensures Summary(t, tenant).approved == |KeysIn(t, tenant, Approved)|
    ensures Summary(t, tenant).rejected == |KeysIn(t, tenant, Rejected)|
    ensures Summary(t, tenant).disbursed == |KeysIn(t, tenant, Disbursed)|
  {
    OnesAreCounted(t.Keys, Weight(t, tenant, Total), KeysOf(t, tenant));
    forall s: State ensures Number(t, tenant, t.Keys, InState(s)) == |KeysIn(t, tenant, s)| {
      OnesAreCounted(t.Keys, Weight(t, tenant, InState(s)), KeysIn(t, tenant, s));
    }
  }

  // Without drafts the four states account for every request.
  lemma SummaryAddsUp(t: Table, tenant: string)
    requires forall k :: k in t ==> t[k].state != Draft
    ensures var s := Summary(t, tenant); s.total == s.pending + s.approved + s.rejected + s.disbursed
  {
    FourStates(t, tenant, t.Keys);
  }

  lemma {:induction false} FourStates(t: Table, tenant: string, keys: set<Key>)
    requires keys <= t.Keys && forall k :: k in keys ==> t[k].state != Draft
    ensures Number(t, tenant, keys, Total)
         == Number(t, tenant, keys, InState(Pending)) + Number(t, tenant, keys, InState(Approved))
          + Number(t, tenant, keys, InState(Rejected)) + Number(t, tenant, keys, InState(Disbursed))
  {
    if keys == {} {
    } else {
      var k :| k in keys;
      FourStates(t, tenant, keys - {k});
      TakeOut(keys, Weight(t, tenant, Total), k);
      TakeOut(keys, Weight(t, tenant, InState(Pending)), k);
      TakeOut(keys, Weight(t, tenant, InState(Approved)), k);
      TakeOut(keys, Weight(t, tenant, InState(Rejected)), k);
      TakeOut(keys, Weight(t, tenant, InState(Disbursed)), k);
    }
  }
}
