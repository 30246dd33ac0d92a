// When the order in which policy rules are supplied can decide whether the constructor
// accepts them (src/domain/workflow/policy_evaluator.py): exactly when a bounded rule
// shares its minimum with another rule. With PolicyOrder this says when the supply order
// matters at all.
module PolicyAcceptance {
  import opened Basics
  import opened PolicyEvaluator
  import opened PolicyOrder

  // Whatever order the same rules are supplied in, they are accepted.
  ghost predicate AcceptedInEveryOrder(a: seq<Rule>) {
    forall b :: multiset(b) == multiset(a) ==> Accepted(SortByMin(b))
  }

  // Rules with one minimum are all unbounded.
  predicate SharedMinimaUnbounded(rs: seq<Rule>) {
    forall p, q :: p in rs && q in rs && p != q && p.min == q.min ==> p.max.None? && q.max.None?
  }

  // A bounded rule of an accepted list occurs in it once.
  lemma BoundedOccursOnce(s: seq<Rule>, p: Rule)
    requires Ascending(s) && Accepted(s) && p in s && p.max.Some?
    ensures multiset(s)[p] == 1
  {
    var j :| 0 <= j < |s| && s[j] == p;
    if p in s[..j] {
      var k :| 0 <= k < j && s[k] == p;
      GroupIsUnbounded(s, k, j, k);
    }
    if p in s[j + 1..] {
      var k :| j < k < |s| && s[k] == p;
      GroupIsUnbounded(s, j, k, j);
    }
    assert s == s[..j] + [p] + s[j + 1..];
  }

  lemma OccursTwice(t: seq<Rule>, i: nat)
    requires 0 < i < |t| && t[i - 1] == t[i]
    ensures multiset(t)[t[i]] >= 2
  {
    assert t == t[..i - 1] + [t[i], t[i]] + t[i + 1..];
  }

  // A smaller minimum keeps its distance wherever the two rules stand.
  lemma LowerRuleEndsBefore(s: seq<Rule>, p: Rule, q: Rule)
    requires Ascending(s) && Accepted(s) && p in s && q in s && p.min < q.min && p.max.Some?
    ensures p.max.value <= q.min
  {
    var j :| 0 <= j < |s| && s[j] == p;
    var k :| 0 <= k < |s| && s[k] == q;
    if k < j { AscendsBetween(s, k, j); }
    AscendsBetween(s, j + 1, k);
    assert FineAt(s, j + 1);
  }

  lemma {:induction false} ReorderedIsFineAt(s: seq<Rule>, t: seq<Rule>, i: nat)
    requires Ascending(s) && Accepted(s) && Ascending(t) && multiset(s) == multiset(t)
    requires SharedMinimaUnbounded(s) && i < |t|
    ensures FineAt(t, i)
  {
    SameRules(s, t);
    assert t[i] in s;
    var k :| 0 <= k < |s| && s[k] == t[i];
    assert FineAt(s, k);
    if i > 0 && t[i - 1].max.Some? {
      var p, q := t[i - 1], t[i];
      assert p in s;
      AscendsBetween(t, i - 1, i);
      if p == q {
        BoundedOccursOnce(s, p);
        OccursTwice(t, i);
        assert false;
      }
      LowerRuleEndsBefore(s, p, q);
    }
  }

  lemma SharingSettlesAcceptance(a: seq<Rule>)
    requires Accepted(SortByMin(a)) && SharedMinimaUnbounded(a)
    ensures AcceptedInEveryOrder(a)
  {
    var s := SortByMin(a);
    SortAscends(a);
    SortKeepsRules(a);
    SameRules(s, a);
    forall b | multiset(b) == multiset(a) ensures Accepted(SortByMin(b)) {
      var t := SortByMin(b);
      SortAscends(b);
      SortKeepsRules(b);
      assert |multiset(a)| == |a| && |multiset(b)| == |b|;
      forall i | 0 <= i < |t| ensures FineAt(t, i) {
        ReorderedIsFineAt(s, t, i);
      }
    }
  }

  // Moving a bounded rule before another of its minimum breaks the neighbour check.
  lemma {:induction false} MovedIsRefused(s: seq<Rule>, k: nat, l: nat)
    requires Ascending(s) && Accepted(s) && k < l < |s| && s[k].min == s[l].min && s[l].max.Some?
    ensures Ascending(Moved(s, k, l)) && !Accepted(Moved(s, k, l))
  {
    var t := Moved(s, k, l);
    MovedAscends(s, k, l);
    assert FineAt(s, l);
    assert !FineAt(t, k + 1);
  }

  lemma RefusedOrder(a: seq<Rule>, p: Rule, q: Rule) returns (b: seq<Rule>)
    requires Accepted(SortByMin(a))
    requires p in a && q in a && p != q && p.min == q.min && p.max.Some?
    ensures multiset(b) == multiset(a) && !Accepted(SortByMin(b))
  {
    var s := SortByMin(a);
    SortAscends(a);
    SortKeepsRules(a);
    SameRules(s, a);
    var l :| 0 <= l < |s| && s[l] == p;
    var k :| 0 <= k < |s| && s[k] == q;
    if l < k { GroupIsUnbounded(s, l, k, l); }
    MovedIsRefused(s, k, l);
    MovedRules(s, k, l);
    SortedStays(Moved(s, k, l));
    b := Moved(s, k, l);
  }

  // Accepted rules are accepted in every order exactly when no bounded rule shares its
  // minimum with another.
  lemma AcceptanceIsOrderFreeExactlyWhen(a: seq<Rule>)
    requires Accepted(SortByMin(a))
    ensures AcceptedInEveryOrder(a) <==> SharedMinimaUnbounded(a)
  {
    if SharedMinimaUnbounded(a) {
      SharingSettlesAcceptance(a);
    }
    if AcceptedInEveryOrder(a) {
      forall p, q | p in a && q in a && p != q && p.min == q.min ensures p.max.None? && q.max.None? {
        if p.max.Some? { var b := RefusedOrder(a, p, q); }
        if q.max.Some? { var b := RefusedOrder(a, q, p); }
      }
    }
  }

  // The same two rules are accepted one way round and refused the other.
  lemma AcceptanceCanDependOnTheOrder() returns (a: seq<Rule>, b: seq<Rule>)
    ensures multiset(a) == multiset(b) && Accepted(SortByMin(a)) && !Accepted(SortByMin(b))
    ensures LowestUnboundedAgree(a)
  {
    var p, q := Rule(1, None, Manager, "p"), Rule(1, Some(5), Manager, "q");
    a, b := [p, q], [q, p];
    SortedPair(p, q);
    SortedPair(q, p);
    assert !FineAt(b, 1);
  }

  // Every order is accepted and asks for one and the same tier.
  ghost predicate EveryOrderAgrees(a: seq<Rule>) {
    forall b, x: int :: multiset(b) == multiset(a) ==>
      Accepted(SortByMin(b)) && Evaluated(SortByMin(b), x).tier == Evaluated(SortByMin(a), x).tier
  }

  // The supply order is immaterial, acceptance included, exactly when rules with one
  // minimum are all unbounded and those with the lowest unbounded threshold ask for one
  // tier.
  lemma OrderIsImmaterialExactlyWhen(a: seq<Rule>)
    requires Accepted(SortByMin(a))
    ensures EveryOrderAgrees(a) <==> SharedMinimaUnbounded(a) && LowestUnboundedAgree(a)
  {
    AcceptanceIsOrderFreeExactlyWhen(a);
    TierIsOrderFreeExactlyWhen(a);
    if EveryOrderAgrees(a) {
      forall b | multiset(b) == multiset(a) ensures Accepted(SortByMin(b)) {
        assert Evaluated(SortByMin(b), 0).tier == Evaluated(SortByMin(a), 0).tier;
      }
    }
  }
}
