// The threshold policy of src/domain/workflow/policy_evaluator.py: rules sorted by
// their lower bound, an overlap check between neighbours only, first match wins.
module PolicyEvaluator {
  import opened Basics

  datatype Tier = AutoApprove | Manager | FinanceDirector

  datatype Rule = Rule(min: int, max: Option<int>, tier: Tier, name: string) {
    predicate Matches(amount: int) {
      min <= amount && (max.Some? ==> amount < max.value)
    }

    predicate WellFormed() {
      min > 0 && (max.Some? ==> min < max.value)
    }
  }

  // ----- sorted(rules, key=min): stable -----

  function InsertByMin(r: Rule, rs: seq<Rule>): seq<Rule> {
    if rs == [] || r.min <= rs[0].min then [r] + rs else [rs[0]] + InsertByMin(r, rs[1..])
  }

  function SortByMin(rs: seq<Rule>): seq<Rule> {
    if rs == [] then [] else InsertByMin(rs[0], SortByMin(rs[1..]))
  }

  ghost predicate Ascending(rs: seq<Rule>) {
    rs == [] || ((forall q :: q in rs[1..] ==> rs[0].min <= q.min) && Ascending(rs[1..]))
  }

  lemma {:induction false} InsertKeepsRules(r: Rule, rs: seq<Rule>)
    ensures multiset(InsertByMin(r, rs)) == multiset([r]) + multiset(rs)
  {
    if rs != [] && r.min > rs[0].min {
      InsertKeepsRules(r, rs[1..]);
      assert rs == [rs[0]] + rs[1..];
    }
  }

  lemma {:induction false} InsertKeepsAscending(r: Rule, rs: seq<Rule>)
    requires Ascending(rs)
    ensures Ascending(InsertByMin(r, rs))
  {
    if rs == [] || r.min <= rs[0].min {
      assert ([r] + rs)[1..] == rs;
    } else {
      var rest := InsertByMin(r, rs[1..]);
      InsertKeepsAscending(r, rs[1..]);
      InsertKeepsRules(r, rs[1..]);
      forall q | q in rest ensures rs[0].min <= q.min {
        assert q in multiset(rest);
      }
      assert ([rs[0]] + rest)[1..] == rest;
    }
  }

  lemma {:induction false} SortAscends(rs: seq<Rule>)
    ensures Ascending(SortByMin(rs))
  {
    if rs == [] {
    } else {
      SortAscends(rs[1..]);
      InsertKeepsAscending(rs[0], SortByMin(rs[1..]));
    }
  }

  lemma {:induction false} SortKeepsRules(rs: seq<Rule>)
    ensures multiset(SortByMin(rs)) == multiset(rs) && |SortByMin(rs)| == |rs|
  {
    if rs != [] {
      SortKeepsRules(rs[1..]);
      InsertKeepsRules(rs[0], SortByMin(rs[1..]));
      assert rs == [rs[0]] + rs[1..];
    }
    assert |multiset(SortByMin(rs))| == |SortByMin(rs)| && |multiset(rs)| == |rs|;
  }

  lemma {:induction false} AscendsBetween(rs: seq<Rule>, i: nat, j: nat)
    requires Ascending(rs) && i <= j < |rs|
    ensures rs[i].min <= rs[j].min
  {
    if i == 0 < j {
      assert rs[1..][j - 1] in rs[1..];
    } else if i > 0 {
      AscendsBetween(rs[1..], i - 1, j - 1);
    }
  }

  // ----- what the constructor checks -----

  predicate FineAt(rs: seq<Rule>, i: nat)
    requires i < |rs|
  {
    rs[i].WellFormed() && (i > 0 && rs[i - 1].max.Some? ==> rs[i - 1].max.value <= rs[i].min)
  }

  predicate FineUpTo(rs: seq<Rule>, n: nat)
    requires n <= |rs|
  {
    forall i :: 0 <= i < n ==> FineAt(rs, i)
  }

  predicate Accepted(rs: seq<Rule>) {
    rs != [] && FineUpTo(rs, |rs|)
  }

  datatype ConfigError = NoRules | NonPositiveMinimum(at: nat) | InvalidRange(at: nat) | Overlap(at: nat)

  // The error names the first rule, in sorted order, that is at fault.
  predicate Explains(rs: seq<Rule>, e: ConfigError) {
    if e.NoRules? then rs == []
    else
      && e.at < |rs|
      && FineUpTo(rs, e.at)
      && (e.NonPositiveMinimum? ==> rs[e.at].min <= 0)
      && (e.InvalidRange? ==> rs[e.at].min > 0 && !rs[e.at].WellFormed())
      && (e.Overlap? ==> rs[e.at].WellFormed() && !FineAt(rs, e.at))
  }

  datatype Evaluation = Evaluation(amount: int, tier: Tier, rule: string, autoApproved: bool, fallback: bool)

  function FirstMatch(rs: seq<Rule>, amount: int): (r: Option<Rule>)
    ensures r.Some? ==> r.value in rs && r.value.Matches(amount)
    ensures r.None? ==> forall q :: q in rs ==> !q.Matches(amount)
  {
    if rs == [] then None
    else if rs[0].Matches(amount) then Some(rs[0])
    else FirstMatch(rs[1..], amount)
  }

  const FALLBACK := "PETTYFLOW-POLICY-FALLBACK"

  // An amount no rule covers needs the highest authority.
  function Evaluated(rs: seq<Rule>, amount: int): Evaluation {
    match FirstMatch(rs, amount)
    case Some(r) => Evaluation(amount, r.tier, r.name, r.tier == AutoApprove, false)
    case None => Evaluation(amount, FinanceDirector, FALLBACK, false, true)
  }

  class ApprovalPolicyEvaluator {
    const rules: seq<Rule>

    constructor (rs: seq<Rule>)
      ensures rules == rs
    {
      rules := rs;
    }

    static method Create(supplied: seq<Rule>) returns (r: Outcome<ApprovalPolicyEvaluator, ConfigError>)
      ensures r.Ok? <==> Accepted(SortByMin(supplied))
      ensures r.Ok? ==> fresh(r.value) && r.value.rules == SortByMin(supplied)
      ensures r.Err? ==> Explains(SortByMin(supplied), r.error)
    {
      if supplied == [] {
        return Err(NoRules);
      }
      var sorted := SortByMin(supplied);
      SortKeepsRules(supplied);
      var fault := FirstFault(sorted);
      if fault.Some? {
        return Err(fault.value);
      }
      var e := new ApprovalPolicyEvaluator(sorted);
      return Ok(e);
    }

    static method FirstFault(sorted: seq<Rule>) returns (fault: Option<ConfigError>)
      requires sorted != []
      ensures fault.None? <==> Accepted(sorted)
      ensures fault.Some? ==> Explains(sorted, fault.value)
    {
      for idx := 0 to |sorted|
        invariant FineUpTo(sorted, idx)
      {
        var rule := sorted[idx];
        if rule.min <= 0 {
          assert !FineAt(sorted, idx);
          return Some(NonPositiveMinimum(idx));
        }
        if rule.max.Some? && rule.max.value <= rule.min {
          assert !FineAt(sorted, idx);
          return Some(InvalidRange(idx));
        }
        if idx > 0 {
          var prev := sorted[idx - 1];
          if prev.max.Some? && rule.min < prev.max.value {
            assert !FineAt(sorted, idx);
            return Some(Overlap(idx));
          }
        }
      }
      return None;
    }

    method Evaluate(amount: int) returns (r: Option<Evaluation>)
      ensures r == if amount <= 0 then None else Some(Evaluated(rules, amount))
    {
      if amount <= 0 {
        return None;
      }
      for i := 0 to |rules|
        invariant FirstMatch(rules, amount) == FirstMatch(rules[i..], amount)
      {
        var rule := rules[i];
        if rule.Matches(amount) {
          return Some(Evaluation(amount, rule.tier, rule.name, rule.tier == AutoApprove, false));
        }
      }
      return Some(Evaluation(amount, FinanceDirector, FALLBACK, false, true));
    }
  }

  // ----- disjoint ranges -----

  ghost predicate Disjoint(r: Rule, q: Rule) {
    forall x :: !(r.Matches(x) && q.Matches(x))
  }

  ghost predicate PairwiseDisjoint(rs: seq<Rule>) {
    forall i, j :: 0 <= i < j < |rs| ==> Disjoint(rs[i], rs[j])
  }

  predicate OnlyLastUnbounded(rs: seq<Rule>) {
    forall i :: 0 <= i < |rs| - 1 ==> rs[i].max.Some?
  }

  // Neighbours that do not overlap keep every pair apart.
  lemma {:induction false} BoundsChain(rs: seq<Rule>, i: nat, j: nat)
    requires Accepted(rs) && OnlyLastUnbounded(rs) && i < j < |rs|
    ensures rs[i].max.value <= rs[j].min
    decreases j
  {
    assert FineAt(rs, j);
    if i < j - 1 {
      BoundsChain(rs, i, j - 1);
      assert FineAt(rs, j - 1);
    }
  }

  // The neighbour check alone keeps the ranges apart exactly when no unbounded rule
  // stands before the last one.
  lemma DisjointExactlyWhenOnlyTheLastIsUnbounded(rs: seq<Rule>)
    requires Ascending(rs) && Accepted(rs)
    ensures PairwiseDisjoint(rs) <==> OnlyLastUnbounded(rs)
  {
    if OnlyLastUnbounded(rs) {
      forall i, j | 0 <= i < j < |rs| ensures Disjoint(rs[i], rs[j]) {
        BoundsChain(rs, i, j);
      }
    }
    if PairwiseDisjoint(rs) {
      var last := |rs| - 1;
      forall i | 0 <= i < last ensures rs[i].max.Some? {
        assert Disjoint(rs[i], rs[last]);
        AscendsBetween(rs, i, last);
        assert FineAt(rs, last);
        assert rs[last].Matches(rs[last].min);
        assert !rs[i].Matches(rs[last].min);
      }
    }
  }

  // On disjoint ranges the first match is the only match.
  lemma TheMatchIsUnique(rs: seq<Rule>, r: Rule, amount: int)
    requires PairwiseDisjoint(rs) && r in rs && r.Matches(amount)
    ensures FirstMatch(rs, amount) == Some(r)
  {
    var q := FirstMatch(rs, amount).value;
    var i :| 0 <= i < |rs| && rs[i] == r;
    var j :| 0 <= j < |rs| && rs[j] == q;
    assert i < j ==> Disjoint(rs[i], rs[j]);
    assert j < i ==> Disjoint(rs[j], rs[i]);
  }

  ghost predicate StrictlyAscending(rs: seq<Rule>) {
    rs == [] || ((forall q :: q in rs[1..] ==> rs[0].min < q.min) && StrictlyAscending(rs[1..]))
  }

  lemma {:induction false} AcceptedAscendsStrictly(rs: seq<Rule>, k: nat)
    requires Accepted(rs) && OnlyLastUnbounded(rs) && k <= |rs|
    ensures StrictlyAscending(rs[k..])
    decreases |rs| - k
  {
    if k < |rs| {
      AcceptedAscendsStrictly(rs, k + 1);
      assert rs[k..][1..] == rs[k + 1..];
      forall q | q in rs[k + 1..] ensures rs[k].min < q.min {
        var j :| k < j < |rs| && rs[j] == q;
        BoundsChain(rs, k, j);
        assert FineAt(rs, k);
      }
    }
  }

  lemma SameHead(s: seq<Rule>, t: seq<Rule>)
    requires StrictlyAscending(s) && Ascending(t) && multiset(s) == multiset(t) && s != [] && t != []
    ensures s[0] == t[0]
  {
    assert s[0] in multiset(t) && t[0] in multiset(s);
    assert s == [s[0]] + s[1..] && t == [t[0]] + t[1..];
  }

  lemma {:induction false} SortedFormIsUnique(s: seq<Rule>, t: seq<Rule>)
    requires StrictlyAscending(s) && Ascending(t) && multiset(s) == multiset(t)
    ensures s == t
  {
    assert |multiset(s)| == |s| && |multiset(t)| == |t|;
    if s != [] {
      SameHead(s, t);
      SameTail(s, t);
      SortedFormIsUnique(s[1..], t[1..]);
      assert s == [s[0]] + s[1..] && t == [t[0]] + t[1..];
    }
  }

  lemma SameTail(s: seq<Rule>, t: seq<Rule>)
    requires s != [] && t != [] && s[0] == t[0] && multiset(s) == multiset(t)
    ensures multiset(s[1..]) == multiset(t[1..])
  {
    assert s == [s[0]] + s[1..] && t == [t[0]] + t[1..];
    assert multiset(s[1..]) == multiset(s) - multiset([s[0]]);
    assert multiset(t[1..]) == multiset(t) - multiset([t[0]]);
  }

  // However the rules are supplied, disjoint ranges are accepted or not, and answer,
  // in one and the same way.
  lemma {:induction false} SupplyOrderDoesNotMatter(a: seq<Rule>, b: seq<Rule>, amount: int)
    requires multiset(a) == multiset(b)
    requires Accepted(SortByMin(a)) && OnlyLastUnbounded(SortByMin(a))
    ensures Accepted(SortByMin(b))
    ensures Evaluated(SortByMin(a), amount) == Evaluated(SortByMin(b), amount)
  {
    SortKeepsRules(a);
    SortKeepsRules(b);
    SortAscends(b);
    var s := SortByMin(a);
    AcceptedAscendsStrictly(s, 0);
    assert s[0..] == s;
    SortedFormIsUnique(s, SortByMin(b));
  }

  // With an unbounded rule before the last the supply order can decide the tier.
  lemma SupplyOrderCanMatter() returns (a: seq<Rule>, b: seq<Rule>)
    ensures multiset(a) == multiset(b) && Accepted(SortByMin(a)) && Accepted(SortByMin(b))
    ensures Evaluated(SortByMin(a), 1).tier != Evaluated(SortByMin(b), 1).tier
  {
    var p, q := Rule(1, None, Manager, "p"), Rule(1, None, FinanceDirector, "q");
    a, b := [p, q], [q, p];
    SortedPair(p, q);
    SortedPair(q, p);
  }

  lemma SortedPair(p: Rule, q: Rule)
    requires p.min <= q.min
    ensures SortByMin([p, q]) == [p, q]
  {
    assert [p, q][1..] == [q] && [q][1..] == [];
    assert SortByMin([q]) == [q] + [];
  }

  // An amount lies behind rule i, and before the next one, out of reach of all before.
  predicate GapAfter(rs: seq<Rule>, i: nat, amount: int)
    requires i < |rs|
  {
    && (forall j :: 0 <= j <= i ==> rs[j].max.Some?)
    && rs[i].max.value <= amount
    && (i + 1 < |rs| ==> amount < rs[i + 1].min)
  }

  predicate InGap(rs: seq<Rule>, amount: int)
    requires rs != []
  {
    amount < rs[0].min || exists i :: 0 <= i < |rs| && GapAfter(rs, i, amount)
  }

  lemma {:induction false} LastStarted(rs: seq<Rule>, amount: int, n: nat) returns (i: nat)
    requires Ascending(rs) && 0 < n <= |rs| && rs[0].min <= amount
    requires forall k :: n <= k < |rs| ==> amount < rs[k].min
    ensures i < |rs| && (forall j :: 0 <= j <= i ==> rs[j].min <= amount)
    ensures forall k :: i < k < |rs| ==> amount < rs[k].min
  {
    if rs[n - 1].min <= amount {
      i := n - 1;
      forall j | 0 <= j <= i ensures rs[j].min <= amount {
        AscendsBetween(rs, j, i);
      }
    } else {
      i := LastStarted(rs, amount, n - 1);
    }
  }

  lemma GapIsUncovered(rs: seq<Rule>, i: nat, amount: int, j: nat)
    requires Ascending(rs) && Accepted(rs) && i < |rs| && j < |rs| && GapAfter(rs, i, amount)
    ensures !rs[j].Matches(amount)
  {
    assert FineAt(rs, i);
    if j > i {
      AscendsBetween(rs, i + 1, j);
    } else if j < i {
      assert FineAt(rs, j + 1);
      AscendsBetween(rs, j + 1, i);
    }
  }

  // The fallback, and with it the highest tier, is for exactly the amounts below the
  // first rule, between two neighbours that do not touch, or above a last bounded rule.
  lemma FallbackExactlyInGaps(rs: seq<Rule>, amount: int)
    requires Ascending(rs) && Accepted(rs)
    ensures Evaluated(rs, amount).fallback <==> InGap(rs, amount)
    ensures InGap(rs, amount) ==> Evaluated(rs, amount).tier == FinanceDirector
  {
    if InGap(rs, amount) {
      forall j | 0 <= j < |rs| ensures !rs[j].Matches(amount) {
        AscendsBetween(rs, 0, j);
        if amount >= rs[0].min {
          var i :| 0 <= i < |rs| && GapAfter(rs, i, amount);
          GapIsUncovered(rs, i, amount, j);
        }
      }
    } else {
      var i := LastStarted(rs, amount, |rs|);
      assert !GapAfter(rs, i, amount);
      var j :| 0 <= j <= i && (rs[j].max.None? || rs[j].max.value > amount);
      assert rs[j] in rs && rs[j].Matches(amount);
    }
  }

  // ----- the default policy -----

  const MANAGER_THRESHOLD := 500_000
  const DIRECTOR_THRESHOLD := 5_000_000

  const DEFAULT_POLICY: seq<Rule> := [
    Rule(1, Some(MANAGER_THRESHOLD), AutoApprove, "001"),
    Rule(MANAGER_THRESHOLD, Some(DIRECTOR_THRESHOLD), Manager, "002"),
    Rule(DIRECTOR_THRESHOLD, None, FinanceDirector, "003")
  ]

  // The default policy covers every positive amount: nothing falls back.
  lemma DefaultPolicyTiers(amount: int)
    requires amount > 0
    ensures Accepted(DEFAULT_POLICY) && OnlyLastUnbounded(DEFAULT_POLICY)
    ensures var e := Evaluated(DEFAULT_POLICY, amount);
            && !e.fallback
            && e.tier == if amount < MANAGER_THRESHOLD then AutoApprove else if amount < DIRECTOR_THRESHOLD then Manager else FinanceDirector
  {
    var rs := DEFAULT_POLICY;
    assert rs[1..] == [rs[1], rs[2]] && rs[1..][1..] == [rs[2]] && [rs[2]][1..] == [];
    assert Ascending([rs[2]]) && Ascending(rs[1..]);
    DisjointExactlyWhenOnlyTheLastIsUnbounded(rs);
    var k := if amount < MANAGER_THRESHOLD then 0 else if amount < DIRECTOR_THRESHOLD then 1 else 2;
    TheMatchIsUnique(rs, rs[k], amount);
  }
}
