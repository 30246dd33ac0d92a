// When the order in which policy rules are supplied can decide the required tier
// (src/domain/workflow/policy_evaluator.py): exactly when two unbounded rules share the
// lowest unbounded threshold and ask for different tiers.
module PolicyOrder {
  import opened Basics
  import opened PolicyEvaluator

  // Every accepted way of supplying the same rules asks for the same tier.
  ghost predicate SameTierInEveryOrder(a: seq<Rule>) {
    forall b, x: int :: multiset(b) == multiset(a) && Accepted(SortByMin(b)) ==>
      Evaluated(SortByMin(b), x).tier == Evaluated(SortByMin(a), x).tier
  }

  predicate LowestUnbounded(rs: seq<Rule>, p: Rule) {
    p in rs && p.max.None? && forall q :: q in rs && q.max.None? ==> p.min <= q.min
  }

  ghost predicate LowestUnboundedAgree(rs: seq<Rule>) {
    forall p, q :: LowestUnbounded(rs, p) && LowestUnbounded(rs, q) ==> p.tier == q.tier
  }

  // ----- the first match, by position -----

  lemma {:induction false} FirstMatchPosition(rs: seq<Rule>, x: int) returns (k: nat)
    requires FirstMatch(rs, x).Some?
    ensures k < |rs| && rs[k] == FirstMatch(rs, x).value && rs[k].Matches(x)
    ensures forall i :: 0 <= i < k ==> !rs[i].Matches(x)
  {
    if rs[0].Matches(x) {
      k := 0;
    } else {
      var m := FirstMatchPosition(rs[1..], x);
      k := m + 1;
      forall i | 0 <= i < k ensures !rs[i].Matches(x) {
        if i > 0 { assert rs[i] == rs[1..][i - 1]; }
      }
    }
  }

  lemma {:induction false} FirstMatchAt(rs: seq<Rule>, x: int, k: nat)
    requires k < |rs| && rs[k].Matches(x) && forall i :: 0 <= i < k ==> !rs[i].Matches(x)
    ensures FirstMatch(rs, x) == Some(rs[k])
  {
    if k == 0 {
    } else {
      FirstMatchAt(rs[1..], x, k - 1);
    }
  }

  // A bounded first match is the only match.
  lemma BoundedMatchIsAlone(s: seq<Rule>, x: int, q: Rule)
    requires Ascending(s) && Accepted(s) && q in s && q.Matches(x)
    requires FirstMatch(s, x).Some? && FirstMatch(s, x).value.max.Some?
    ensures FirstMatch(s, x).value == q
  {
    var k := FirstMatchPosition(s, x);
    var j :| 0 <= j < |s| && s[j] == q;
    if k < j {
      assert FineAt(s, k + 1);
      AscendsBetween(s, k + 1, j);
    }
  }

  // An unbounded first match has the lowest unbounded threshold.
  lemma UnboundedMatchIsLowest(s: seq<Rule>, x: int)
    requires Ascending(s) && FirstMatch(s, x).Some? && FirstMatch(s, x).value.max.None?
    ensures LowestUnbounded(s, FirstMatch(s, x).value)
  {
    var k := FirstMatchPosition(s, x);
    forall q | q in s && q.max.None? ensures s[k].min <= q.min {
      if q.min < s[k].min {
        var j :| 0 <= j < |s| && s[j] == q;
        if j >= k { AscendsBetween(s, k, j); }
      }
    }
  }

  lemma SameRules(s: seq<Rule>, t: seq<Rule>)
    requires multiset(s) == multiset(t)
    ensures forall q :: q in s <==> q in t
  {
    forall q ensures q in s <==> q in t {
      assert q in s <==> q in multiset(s);
      assert q in t <==> q in multiset(t);
    }
  }

  lemma {:induction false} SameTier(s: seq<Rule>, t: seq<Rule>, x: int)
    requires Ascending(s) && Accepted(s) && Ascending(t) && Accepted(t) && multiset(s) == multiset(t)
    requires LowestUnboundedAgree(s)
    ensures Evaluated(s, x).tier == Evaluated(t, x).tier
  {
    SameRules(s, t);
    var p, q := FirstMatch(s, x), FirstMatch(t, x);
    if p.Some? && q.Some? {
      if p.value.max.Some? {
        BoundedMatchIsAlone(s, x, q.value);
      } else if q.value.max.Some? {
        BoundedMatchIsAlone(t, x, p.value);
      } else {
        UnboundedMatchIsLowest(s, x);
        UnboundedMatchIsLowest(t, x);
        assert LowestUnbounded(s, q.value);
      }
    }
  }

  // ----- the other direction: moving one rule to the front of its group -----

  function Moved(s: seq<Rule>, k: nat, l: nat): seq<Rule>
    requires k <= l < |s|
  {
    s[..k] + [s[l]] + s[k..l] + s[l + 1..]
  }

  lemma MovedRules(s: seq<Rule>, k: nat, l: nat)
    requires k <= l < |s|
    ensures multiset(Moved(s, k, l)) == multiset(s)
  {
    assert s[..l] == s[..k] + s[k..l];
    assert s == s[..l] + [s[l]] + s[l + 1..];
  }

  lemma {:induction false} AscendingFromNeighbours(rs: seq<Rule>)
    requires forall i :: 0 <= i < |rs| - 1 ==> rs[i].min <= rs[i + 1].min
    ensures Ascending(rs)
  {
    if |rs| > 1 {
      forall i | 0 <= i < |rs[1..]| - 1 ensures rs[1..][i].min <= rs[1..][i + 1].min {
        assert rs[i + 1].min <= rs[i + 2].min;
      }
      AscendingFromNeighbours(rs[1..]);
      forall q | q in rs[1..] ensures rs[0].min <= q.min {
        var j :| 0 <= j < |rs[1..]| && rs[1..][j] == q;
        AscendsBetween(rs[1..], 0, j);
        assert rs[0].min <= rs[0 + 1].min;
      }
    }
  }

  lemma {:induction false} SortedStays(rs: seq<Rule>)
    requires Ascending(rs)
    ensures SortByMin(rs) == rs
  {
    if rs == [] {
    } else {
      SortedStays(rs[1..]);
      assert rs == [rs[0]] + rs[1..];
      if |rs| > 1 { assert rs[1] in rs[1..]; }
    }
  }

  // Between two rules with one threshold all rules have it, and only the last of
  // them may be bounded.
  lemma GroupIsUnbounded(s: seq<Rule>, k: nat, l: nat, i: nat)
    requires Ascending(s) && Accepted(s) && k <= i <= l < |s| && s[k].min == s[l].min
    ensures s[i].min == s[l].min && (i < l ==> s[i].max.None?)
  {
    AscendsBetween(s, k, i);
    AscendsBetween(s, i, l);
    if i < l {
      AscendsBetween(s, i, i + 1);
      AscendsBetween(s, i + 1, l);
      assert FineAt(s, i) && FineAt(s, i + 1);
    }
  }

  lemma MovedIsAccepted(s: seq<Rule>, k: nat, l: nat)
    requires Ascending(s) && Accepted(s) && k <= l < |s| && s[k].min == s[l].min && s[l].max.None?
    ensures Accepted(Moved(s, k, l)) && Ascending(Moved(s, k, l))
  {
    var t := Moved(s, k, l);
    forall i | 0 <= i < |t| ensures FineAt(t, i) {
      MovedStep(s, k, l, i);
    }
    MovedAscends(s, k, l);
  }

  lemma {:induction false} MovedAscends(s: seq<Rule>, k: nat, l: nat)
    requires Ascending(s) && Accepted(s) && k <= l < |s| && s[k].min == s[l].min
    ensures Ascending(Moved(s, k, l))
  {
    var t := Moved(s, k, l);
    forall i | 0 <= i < |t| - 1 ensures t[i].min <= t[i + 1].min {
      MovedAt(s, k, l, i);
      MovedAt(s, k, l, i + 1);
      MovedNeighboursAscend(s, k, l, i + 1);
    }
    AscendingFromNeighbours(t);
  }

  // Where the rule at a position of the moved list comes from.
  function Origin(k: nat, l: nat, i: nat): nat {
    if i < k || i > l then i else if i == k then l else i - 1
  }

  lemma MovedAt(s: seq<Rule>, k: nat, l: nat, i: nat)
    requires k <= l < |s| && i < |s|
    ensures |Moved(s, k, l)| == |s| && Moved(s, k, l)[i] == s[Origin(k, l, i)]
  {
  }

  lemma MovedStep(s: seq<Rule>, k: nat, l: nat, i: nat)
    requires Ascending(s) && Accepted(s) && k <= l < |s| && s[k].min == s[l].min && s[l].max.None? && i < |s|
    ensures |Moved(s, k, l)| == |s| && FineAt(Moved(s, k, l), i)
  {
    var t := Moved(s, k, l);
    MovedAt(s, k, l, i);
    assert FineAt(s, Origin(k, l, i));
    if i > 0 {
      MovedAt(s, k, l, i - 1);
      MovedNeighboursFit(s, k, l, i);
      FineFromNeighbours(t, i);
    }
  }

  lemma FineFromNeighbours(t: seq<Rule>, i: nat)
    requires 0 < i < |t| && t[i].WellFormed() && (t[i - 1].max.Some? ==> t[i - 1].max.value <= t[i].min)
    ensures FineAt(t, i)
  {
  }

  lemma MovedNeighboursAscend(s: seq<Rule>, k: nat, l: nat, i: nat)
    requires Ascending(s) && Accepted(s) && k <= l < |s| && s[k].min == s[l].min && 0 < i < |s|
    ensures s[Origin(k, l, i - 1)].min <= s[Origin(k, l, i)].min
  {
    var p, o := Origin(k, l, i - 1), Origin(k, l, i);
    if k < i <= l + 1 && k < l {
      GroupIsUnbounded(s, k, l, p);
      if i <= l { GroupIsUnbounded(s, k, l, o); } else { AscendsBetween(s, l, i); }
    } else {
      AscendsBetween(s, i - 1, i);
    }
  }

  lemma MovedNeighboursFit(s: seq<Rule>, k: nat, l: nat, i: nat)
    requires Ascending(s) && Accepted(s) && k <= l < |s| && s[k].min == s[l].min && s[l].max.None? && 0 < i < |s|
    ensures var p, o := Origin(k, l, i - 1), Origin(k, l, i);
            s[p].max.Some? ==> s[p].max.value <= s[o].min
  {
    if k < i <= l + 1 && k < l {
      GroupIsUnbounded(s, k, l, Origin(k, l, i - 1));
    } else {
      assert FineAt(s, i);
      if i == k && k < l { GroupIsUnbounded(s, k, l, k); }
    }
  }

  lemma OtherOrder(s: seq<Rule>, q: Rule) returns (t: seq<Rule>)
    requires Ascending(s) && Accepted(s) && LowestUnbounded(s, q)
    ensures multiset(t) == multiset(s) && Accepted(t) && Ascending(t)
    ensures Evaluated(t, q.min).tier == q.tier
  {
    assert q.Matches(q.min);
    var l :| 0 <= l < |s| && s[l] == q;
    var k := FirstMatchPosition(s, q.min);
    if s[k].max.Some? {
      BoundedMatchIsAlone(s, q.min, q);
    }
    UnboundedMatchIsLowest(s, q.min);
    t := Moved(s, k, l);
    MovedRules(s, k, l);
    MovedIsAccepted(s, k, l);
    FirstMatchAt(t, q.min, k);
  }

  // Among the accepted orders alone the tier is settled exactly when the unbounded rules
  // that share the lowest unbounded threshold ask for one tier.
  lemma TierIsOrderFreeExactlyWhen(a: seq<Rule>)
    requires Accepted(SortByMin(a))
    ensures SameTierInEveryOrder(a) <==> LowestUnboundedAgree(a)
  {
    if LowestUnboundedAgree(a) {
      AgreementSettlesTheTier(a);
    }
    if SameTierInEveryOrder(a) {
      forall p, q | LowestUnbounded(a, p) && LowestUnbounded(a, q) ensures p.tier == q.tier {
        TierOfTheLowest(a, p);
        TierOfTheLowest(a, q);
      }
    }
  }

  lemma AgreementSettlesTheTier(a: seq<Rule>)
    requires Accepted(SortByMin(a)) && LowestUnboundedAgree(a)
    ensures SameTierInEveryOrder(a)
  {
    forall b, x: int | multiset(b) == multiset(a) && Accepted(SortByMin(b))
      ensures Evaluated(SortByMin(b), x).tier == Evaluated(SortByMin(a), x).tier
    {
      SupplyOrderSameTier(a, b, x);
    }
  }

  lemma {:induction false} SupplyOrderSameTier(a: seq<Rule>, b: seq<Rule>, x: int)
    requires multiset(a) == multiset(b) && Accepted(SortByMin(a)) && Accepted(SortByMin(b)) && LowestUnboundedAgree(a)
    ensures Evaluated(SortByMin(b), x).tier == Evaluated(SortByMin(a), x).tier
  {
    SortAscends(a);
    SortKeepsRules(a);
    SortAscends(b);
    SortKeepsRules(b);
    SameRules(SortByMin(a), a);
    AgreementCarriesOver(a, SortByMin(a));
    SameTier(SortByMin(a), SortByMin(b), x);
  }

  lemma AgreementCarriesOver(a: seq<Rule>, s: seq<Rule>)
    requires LowestUnboundedAgree(a) && forall q :: q in s <==> q in a
    ensures LowestUnboundedAgree(s)
  {
    forall p, q | LowestUnbounded(s, p) && LowestUnbounded(s, q) ensures p.tier == q.tier {
      assert LowestUnbounded(a, p) && LowestUnbounded(a, q);
    }
  }

  lemma TierOfTheLowest(a: seq<Rule>, q: Rule)
    requires Accepted(SortByMin(a)) && SameTierInEveryOrder(a) && LowestUnbounded(a, q)
    ensures Evaluated(SortByMin(a), q.min).tier == q.tier
  {
    var s := SortByMin(a);
    SortAscends(a);
    SortKeepsRules(a);
    SameRules(s, a);
    assert LowestUnbounded(s, q);
    var t := OtherOrder(s, q);
    SortedStays(t);
    assert Evaluated(SortByMin(t), q.min).tier == Evaluated(s, q.min).tier;
  }
}
