// The link relation between transaction events and its connected components
// (src/services/fraud/split_tx_detector.py). Nothing here mentions the search
// that finds the components: this is what the search is proved against.
module LinkGraph {
  import opened Basics


  datatype TransactionEvent = TransactionEvent(
    transactionId: string,
    tenantId: string,
    custodianId: string,
    amountScaled: int,
    timestamp: int,              // microseconds
    merchantId: Option<string>,
    merchantName: Option<string>,
    receiptHash: Option<string>)

  // The constructor of the record refuses amounts that are not positive.
  predicate AllPositive(es: seq<TransactionEvent>) {
    forall i :: 0 <= i < |es| ==> es[i].amountScaled > 0
  }

  datatype Reason =
    | SameCustodian(custodian: string)
    | SameMerchantId(merchant: string)
    | SameMerchantName(name: string)
    | IdenticalReceiptHash(hash: string)

  // Python's truth test on an optional string.
  predicate Given(s: Option<string>) {
    s.Some? && s.value != ""
  }

  function LinkReason(e1: TransactionEvent, e2: TransactionEvent, windowSeconds: int): Option<Reason> {
    if Abs(e1.timestamp - e2.timestamp) > windowSeconds * MICROS_PER_SECOND then None
    else if e1.custodianId == e2.custodianId then Some(SameCustodian(e1.custodianId))
    else if Given(e1.merchantId) && Given(e2.merchantId) && e1.merchantId == e2.merchantId then
      Some(SameMerchantId(e1.merchantId.value))
    else if Given(e1.merchantName) && Given(e2.merchantName) && SameName(e1.merchantName.value, e2.merchantName.value) then
      Some(SameMerchantName(e1.merchantName.value))
    else if Given(e1.receiptHash) && Given(e2.receiptHash) && e1.receiptHash == e2.receiptHash then
      Some(IdenticalReceiptHash(e1.receiptHash.value))
    else None
  }

  predicate SameName(a: string, b: string) {
    Lower(Strip(a)) == Lower(Strip(b)) && Lower(Strip(a)) != ""
  }

  // ----- sums over events -----

  function SumAmounts(es: seq<TransactionEvent>): int {
    if es == [] then 0 else SumAmounts(es[..|es| - 1]) + es[|es| - 1].amountScaled
  }

  // The amounts of the first m events whose index lies in s.
  function SumAt(es: seq<TransactionEvent>, s: set<nat>, m: nat): int
    requires m <= |es|
  {
    if m == 0 then 0
    else SumAt(es, s, m - 1) + (if m - 1 in s then es[m - 1].amountScaled else 0)
  }

  lemma {:induction false} SumAtUnion(es: seq<TransactionEvent>, s: set<nat>, t: set<nat>, m: nat)
    requires m <= |es| && s !! t
    ensures SumAt(es, s + t, m) == SumAt(es, s, m) + SumAt(es, t, m)
  {
    if m == 0 {
    } else {
      SumAtUnion(es, s, t, m - 1);
    }
  }

  lemma {:induction false} SumAtMonotone(es: seq<TransactionEvent>, s: set<nat>, t: set<nat>, m: nat)
    requires m <= |es| && s <= t && AllPositive(es)
    ensures 0 <= SumAt(es, s, m) <= SumAt(es, t, m)
  {
    if m == 0 {
    } else {
      SumAtMonotone(es, s, t, m - 1);
    }
  }

  lemma {:induction false} SumAtSingleton(es: seq<TransactionEvent>, i: nat, m: nat)
    requires m <= |es|
    ensures SumAt(es, {i}, m) == if i < m then es[i].amountScaled else 0
  {
    if m == 0 {
    } else {
      SumAtSingleton(es, i, m - 1);
    }
  }

  lemma {:induction false} SumAtNone(es: seq<TransactionEvent>, s: set<nat>, m: nat)
    requires m <= |es| && s == {}
    ensures SumAt(es, s, m) == 0
  {
    if m == 0 {
    } else {
      SumAtNone(es, s, m - 1);
    }
  }

  lemma {:induction false} SumAtAll(es: seq<TransactionEvent>, s: set<nat>, m: nat)
    requires m <= |es| && forall i: nat :: i < m ==> i in s
    ensures SumAt(es, s, m) == SumAmounts(es[..m])
  {
    if m == 0 {
    } else {
      SumAtAll(es, s, m - 1);
      assert es[..m][..m - 1] == es[..m - 1];
    }
  }

  // ----- the graph on the events of one window -----

  datatype Graph = Graph(events: seq<TransactionEvent>, windowSeconds: int) {

    predicate Linked(i: nat, j: nat) {
      i < |events| && j < |events| && i != j && LinkReason(events[i], events[j], windowSeconds).Some?
    }

    // The detector asks about each pair once, with the earlier event first.
    function ReasonFor(i: nat, j: nat): Reason
      requires Linked(i, j)
    {
      if i < j then LinkReason(events[i], events[j], windowSeconds).value
      else LinkReason(events[j], events[i], windowSeconds).value
    }

    ghost predicate IsPath(p: seq<nat>) {
      && p != []
      && (forall k :: 0 <= k < |p| ==> p[k] < |events|)
      && (forall k :: 0 < k < |p| ==> Linked(p[k - 1], p[k]))
    }

    ghost predicate IsPathBetween(p: seq<nat>, i: nat, j: nat) {
      IsPath(p) && p[0] == i && p[|p| - 1] == j
    }

    ghost predicate Connected(i: nat, j: nat) {
      exists p :: IsPathBetween(p, i, j)
    }

    // The connected component of event i.
    ghost function Component(i: nat): set<nat> {
      set j | j in Range(|events|) && Connected(i, j)
    }

    ghost predicate Closed(s: set<nat>) {
      forall i, j :: i in s && Linked(i, j) ==> j in s
    }

    lemma ConnectedToItself(i: nat)
      requires i < |events|
      ensures Connected(i, i)
    {
      assert IsPathBetween([i], i, i);
    }

    lemma ConnectedExtends(i: nat, j: nat, k: nat)
      requires Connected(i, j) && Linked(j, k)
      ensures Connected(i, k)
    {
      var p :| IsPathBetween(p, i, j);
      assert IsPathBetween(p + [k], i, k);
    }

    lemma {:induction false} PathStaysInside(p: seq<nat>, s: set<nat>)
      requires IsPath(p) && Closed(s) && p[0] in s
      ensures p[|p| - 1] in s
    {
      if |p| > 1 {
        var q := p[..|p| - 1];
        PathStaysInside(q, s);
        assert q[|q| - 1] == p[|p| - 2] && Linked(p[|p| - 2], p[|p| - 1]);
      }
    }

    // A closed set that holds i holds everything connected to i.
    lemma ClosedHoldsComponent(s: set<nat>, i: nat)
      requires Closed(s) && i in s
      ensures Component(i) <= s
    {
      forall j | j in Component(i) ensures j in s {
        var p :| IsPathBetween(p, i, j);
        PathStaysInside(p, s);
      }
    }

    lemma ComponentIsClosed(i: nat)
      ensures Closed(Component(i))
    {
      forall j, k | j in Component(i) && Linked(j, k) ensures k in Component(i) {
        ConnectedExtends(i, j, k);
      }
    }

    // The complement of a component is closed too, because links are symmetric.
    lemma OutsideIsClosed(s: set<nat>)
      requires Closed(s)
      ensures Closed(Range(|events|) - s)
    {
      forall j, k | j in Range(|events|) - s && Linked(j, k) ensures k in Range(|events|) - s {
        assert Linked(k, j);
      }
    }

    lemma ComponentsAgree(i: nat, j: nat)
      requires i < |events| && j in Component(i)
      ensures Component(j) == Component(i)
    {
      ComponentIsClosed(i);
      ClosedHoldsComponent(Component(i), j);
      ComponentIsClosed(j);
      assert i in Component(j) by {
        var outside := Range(|events|) - Component(j);
        OutsideIsClosed(Component(j));
        ConnectedToItself(j);
        if i in outside { ClosedHoldsComponent(outside, i); }
      }
      ClosedHoldsComponent(Component(j), i);
    }

    // Components partition the window.
    lemma ComponentsPartition(i: nat, j: nat)
      requires i < |events| && j < |events|
      ensures i in Component(i)
      ensures Component(i) == Component(j) || Component(i) !! Component(j)
    {
      ConnectedToItself(i);
      if k :| k in Component(i) && k in Component(j) {
        ComponentsAgree(i, k);
        ComponentsAgree(j, k);
      }
    }
  }
}
