// The spend aggregation of src/services/analytics/spend_aggregator.py: a fast pass over
// columns against a plain pass over rows.
module SpendAggregator {
  import opened Basics
  import opened Sums

  datatype Row = Row(tenant: string, department: string, location: string, category: string, amount: int)

  datatype Batch = Batch(tenant: string, departments: seq<string>, locations: seq<string>, categories: seq<string>, amounts: seq<int>)

  datatype Metric = Metric(total: int, count: int, min: int, max: int) {
    function Add(amount: int): Metric {
      Metric(total + amount, count + 1, if amount < min then amount else min, if amount > max then amount else max)
    }
  }

  type Table = map<string, Metric>

  datatype Summary = Summary(tenant: string, total: int, transactions: nat, byDepartment: Table, byCategory: Table, byLocation: Table)

  // ----- one dimension: keys with amounts, in order -----

  type Entry = (string, int)

  function Sum(amounts: seq<int>): int {
    if amounts == [] then 0 else Sum(amounts[..|amounts| - 1]) + amounts[|amounts| - 1]
  }

  // The amounts booked under a key.
  function AmountsOf(es: seq<Entry>, k: string): seq<int> {
    if es == [] then []
    else
      var (key, amount) := es[|es| - 1];
      var before := AmountsOf(es[..|es| - 1], k);
      if key == k then before + [amount] else before
  }

  predicate IsLeast(x: int, s: seq<int>) {
    x in s && forall y :: y in s ==> x <= y
  }

  predicate IsGreatest(x: int, s: seq<int>) {
    x in s && forall y :: y in s ==> y <= x
  }

  predicate Describes(m: Metric, amounts: seq<int>) {
    m.total == Sum(amounts) && m.count == |amounts| && IsLeast(m.min, amounts) && IsGreatest(m.max, amounts)
  }

  // The row-wise accumulator starts a key at its first amount.
  function Note(t: Table, e: Entry): Table {
    t[e.0 := if e.0 in t then t[e.0].Add(e.1) else Metric(e.1, 1, e.1, e.1)]
  }

  function RowTable(es: seq<Entry>): Table {
    if es == [] then map[] else Note(RowTable(es[..|es| - 1]), es[|es| - 1])
  }

  const SENTINEL := 999_999_999_999

  // The columnar accumulator starts every key of the column beforehand.
  function Prepared(column: seq<string>): Table {
    map k | k in column :: Metric(0, 0, SENTINEL, 0)
  }

  function ColumnTable(column: seq<string>, es: seq<Entry>): (t: Table)
    requires forall i :: 0 <= i < |es| ==> es[i].0 in column
    ensures t.Keys == Elems(column)
  {
    if es == [] then Prepared(column)
    else
      var t := ColumnTable(column, es[..|es| - 1]);
      var e := es[|es| - 1];
      t[e.0 := t[e.0].Add(e.1)]
  }

  function Finish(t: Table): Table {
    map k | k in t :: t[k].(min := if t[k].count > 0 then t[k].min else 0)
  }

  lemma AppendAmount(s: seq<int>, x: int)
    ensures (s + [x])[..|s|] == s && Sum(s + [x]) == Sum(s) + x
    ensures forall y :: y in s + [x] <==> y in s || y == x
  {
    assert (s + [x])[..|s|] == s;
  }

  lemma AddDescribes(m: Metric, amounts: seq<int>, x: int)
    requires Describes(m, amounts)
    ensures Describes(m.Add(x), amounts + [x])
  {
    AppendAmount(amounts, x);
  }

  lemma {:induction false} RowTableIsExact(es: seq<Entry>, k: string)
    ensures k in RowTable(es) <==> AmountsOf(es, k) != []
    ensures k in RowTable(es) ==> Describes(RowTable(es)[k], AmountsOf(es, k))
  {
    if es == [] {
    } else {
      var front, e := es[..|es| - 1], es[|es| - 1];
      RowTableIsExact(front, k);
      if e.0 == k && k in RowTable(front) { AddDescribes(RowTable(front)[k], AmountsOf(front, k), e.1); }
    }
  }

  // The sentinels take part in the minimum and the maximum as if they were amounts.
  predicate DescribesWithSentinels(m: Metric, amounts: seq<int>) {
    && m.total == Sum(amounts)
    && m.count == |amounts|
    && (m.min == SENTINEL || m.min in amounts) && m.min <= SENTINEL && (forall y :: y in amounts ==> m.min <= y)
    && (m.max == 0 || m.max in amounts) && m.max >= 0 && (forall y :: y in amounts ==> y <= m.max)
  }

  lemma {:induction false} ColumnTableIsClamped(column: seq<string>, es: seq<Entry>, k: string)
    requires forall i :: 0 <= i < |es| ==> es[i].0 in column
    requires k in column
    ensures DescribesWithSentinels(ColumnTable(column, es)[k], AmountsOf(es, k))
  {
    if es == [] {
    } else {
      var front, e := es[..|es| - 1], es[|es| - 1];
      ColumnTableIsClamped(column, front, k);
      if e.0 == k { AddKeepsSentinels(ColumnTable(column, front)[k], AmountsOf(front, k), e.1); }
    }
  }

  lemma AddKeepsSentinels(m: Metric, amounts: seq<int>, x: int)
    requires DescribesWithSentinels(m, amounts)
    ensures DescribesWithSentinels(m.Add(x), amounts + [x])
  {
    AppendAmount(amounts, x);
  }

  lemma {:induction false} KeyHasAmounts(es: seq<Entry>, k: string)
    ensures AmountsOf(es, k) != [] <==> exists i :: 0 <= i < |es| && es[i].0 == k
  {
    if es == [] {
    } else {
      var front, last := es[..|es| - 1], |es| - 1;
      KeyHasAmounts(front, k);
      if es[last].0 != k && AmountsOf(es, k) != [] {
        var i :| 0 <= i < |front| && front[i].0 == k;
        assert es[i].0 == k;
      }
      if i :| 0 <= i < |es| && es[i].0 == k {
        if i < last { assert front[i].0 == k; }
      }
    }
  }

  // ----- the two passes agree, sentinels apart -----

  // The column of a dimension and its entries, row by row.
  predicate Matches(column: seq<string>, es: seq<Entry>) {
    |column| == |es| && forall i :: 0 <= i < |es| ==> es[i].0 == column[i]
  }

  predicate Capped(f: Metric, r: Metric) {
    && f.total == r.total && f.count == r.count
    && f.min == (if r.min < SENTINEL then r.min else SENTINEL)
    && f.max == (if r.max > 0 then r.max else 0)
  }

  lemma SameKeys(column: seq<string>, es: seq<Entry>, k: string)
    requires Matches(column, es)
    ensures k in column <==> AmountsOf(es, k) != []
  {
    KeyHasAmounts(es, k);
    if k in column {
      var i :| 0 <= i < |column| && column[i] == k;
      assert es[i].0 == k;
    }
  }

  // On a full column both passes have the same keys, totals and counts; the fast pass
  // caps the least amount at the one sentinel and the greatest amount from below at zero.
  lemma {:induction false} PassesCompared(column: seq<string>, es: seq<Entry>, k: string)
    requires Matches(column, es)
    ensures k in Finish(ColumnTable(column, es)) <==> k in RowTable(es)
    ensures k in RowTable(es) ==> Capped(Finish(ColumnTable(column, es))[k], RowTable(es)[k])
  {
    SameKeys(column, es, k);
    RowTableIsExact(es, k);
    if k in column {
      ColumnTableIsClamped(column, es, k);
    }
  }

  lemma {:induction false} AmountsAreEntries(es: seq<Entry>, k: string, x: int)
    ensures x in AmountsOf(es, k) <==> (k, x) in es
  {
    if es == [] {
    } else {
      var front, e := es[..|es| - 1], es[|es| - 1];
      AmountsAreEntries(front, k, x);
      assert es == front + [e];
      if e.0 == k { AppendAmount(AmountsOf(front, k), e.1); }
    }
  }

  // Some amount under the key is not above the one sentinel, and some is not below the
  // other.
  predicate ReachesDown(es: seq<Entry>, k: string) {
    exists e :: e in es && e.0 == k && e.1 <= SENTINEL
  }

  predicate ReachesUp(es: seq<Entry>, k: string) {
    exists e :: e in es && e.0 == k && e.1 >= 0
  }

  // The sentinels stay invisible: no key has all its amounts above the one or below
  // the other.
  predicate HidesSentinels(es: seq<Entry>) {
    forall e :: e in es ==> ReachesDown(es, e.0) && ReachesUp(es, e.0)
  }

  predicate InRange(m: Metric) {
    m.min <= SENTINEL && m.max >= 0
  }

  lemma MetricInRange(es: seq<Entry>, k: string)
    requires k in RowTable(es)
    ensures InRange(RowTable(es)[k]) <==> ReachesDown(es, k) && ReachesUp(es, k)
  {
    var m := RowTable(es)[k];
    RowTableIsExact(es, k);
    AmountsAreEntries(es, k, m.min);
    AmountsAreEntries(es, k, m.max);
    if e :| e in es && e.0 == k && e.1 <= SENTINEL { AmountsAreEntries(es, k, e.1); }
    if e :| e in es && e.0 == k && e.1 >= 0 { AmountsAreEntries(es, k, e.1); }
  }

  predicate AllInRange(t: Table) {
    forall k :: k in t ==> InRange(t[k])
  }

  lemma EntryHasMetric(es: seq<Entry>, e: Entry)
    requires e in es
    ensures e.0 in RowTable(es)
  {
    RowTableIsExact(es, e.0);
    AmountsAreEntries(es, e.0, e.1);
  }

  lemma MetricHasEntry(es: seq<Entry>, k: string) returns (e: Entry)
    requires k in RowTable(es)
    ensures e in es && e.0 == k
  {
    RowTableIsExact(es, k);
    e := (k, AmountsOf(es, k)[0]);
    AmountsAreEntries(es, k, e.1);
  }

  lemma TableInRange(es: seq<Entry>)
    ensures AllInRange(RowTable(es)) <==> HidesSentinels(es)
  {
    if AllInRange(RowTable(es)) {
      forall e | e in es ensures ReachesDown(es, e.0) && ReachesUp(es, e.0) {
        EntryHasMetric(es, e);
        MetricInRange(es, e.0);
      }
    }
    if HidesSentinels(es) {
      forall k | k in RowTable(es) ensures InRange(RowTable(es)[k]) {
        var e := MetricHasEntry(es, k);
        MetricInRange(es, k);
      }
    }
  }

  lemma TablesAgreeWhenInRange(column: seq<string>, es: seq<Entry>)
    requires Matches(column, es)
    ensures Finish(ColumnTable(column, es)) == RowTable(es) <==> AllInRange(RowTable(es))
  {
    var f, r := Finish(ColumnTable(column, es)), RowTable(es);
    forall k ensures k in f <==> k in r {
      PassesCompared(column, es, k);
    }
    forall k | k in r ensures f[k] == r[k] <==> InRange(r[k]) {
      PassesCompared(column, es, k);
    }
    if AllInRange(r) {
      assert f == r;
    }
  }

  // The fast table equals the plain one exactly when among the rows no key has all its
  // amounts above the one sentinel or all below zero.
  lemma PassesAgreeExactlyWhen(column: seq<string>, es: seq<Entry>)
    requires Matches(column, es)
    ensures Finish(ColumnTable(column, es)) == RowTable(es) <==> HidesSentinels(es)
  {
    TablesAgreeWhenInRange(column, es);
    TableInRange(es);
  }

  // ----- totals are conserved -----

  function TotalIn(t: Table): string -> int {
    (k: string) => if k in t then t[k].total else 0
  }

  function CountIn(t: Table): string -> int {
    (k: string) => if k in t then t[k].count else 0
  }

  ghost function GrandTotal(t: Table): int {
    SumOver(t.Keys, TotalIn(t))
  }

  ghost function GrandCount(t: Table): int {
    SumOver(t.Keys, CountIn(t))
  }

  function AllAmounts(es: seq<Entry>): seq<int> {
    seq(|es|, i requires 0 <= i < |es| => es[i].1)
  }

  lemma UpdateMovesTheSums(t: Table, k: string, m: Metric)
    ensures GrandTotal(t[k := m]) == GrandTotal(t) + m.total - (if k in t then t[k].total else 0)
    ensures GrandCount(t[k := m]) == GrandCount(t) + m.count - (if k in t then t[k].count else 0)
  {
    ChangeOne(t.Keys, TotalIn(t), t[k := m].Keys, TotalIn(t[k := m]), k);
    ChangeOne(t.Keys, CountIn(t), t[k := m].Keys, CountIn(t[k := m]), k);
  }

  // Over the keys of a dimension the totals and the counts add up to those of all rows.
  lemma {:induction false} RowTableConserves(es: seq<Entry>)
    ensures GrandTotal(RowTable(es)) == Sum(AllAmounts(es)) && GrandCount(RowTable(es)) == |es|
  {
    if es == [] {
    } else {
      var front, e := es[..|es| - 1], es[|es| - 1];
      RowTableConserves(front);
      UpdateMovesTheSums(RowTable(front), e.0, Note(RowTable(front), e)[e.0]);
      assert AllAmounts(es)[..|es| - 1] == AllAmounts(front);
    }
  }

  lemma {:induction false} ColumnTableConserves(column: seq<string>, es: seq<Entry>)
    requires forall i :: 0 <= i < |es| ==> es[i].0 in column
    ensures GrandTotal(ColumnTable(column, es)) == Sum(AllAmounts(es)) && GrandCount(ColumnTable(column, es)) == |es|
  {
    if es == [] {
      ZeroSums(Prepared(column));
    } else {
      var front, e := es[..|es| - 1], es[|es| - 1];
      ColumnTableConserves(column, front);
      UpdateMovesTheSums(ColumnTable(column, front), e.0, ColumnTable(column, es)[e.0]);
      assert AllAmounts(es)[..|es| - 1] == AllAmounts(front);
    }
  }

  lemma {:induction false} ZeroSums(t: Table)
    requires forall k :: k in t ==> t[k].total == 0 && t[k].count == 0
    ensures GrandTotal(t) == 0 && GrandCount(t) == 0
  {
    SameSum(t.Keys, TotalIn(t), (k: string) => 0);
    SameSum(t.Keys, CountIn(t), (k: string) => 0);
    ZeroSum(t.Keys);
  }

  lemma {:induction false} ZeroSum(keys: set<string>)
    ensures SumOver(keys, (k: string) => 0) == 0
  {
    if keys == {} {
    } else {
      var x :| x in keys;
      TakeOut(keys, (k: string) => 0, x);
      ZeroSum(keys - {x});
    }
  }

  lemma FinishKeepsTheSums(t: Table)
    ensures GrandTotal(Finish(t)) == GrandTotal(t) && GrandCount(Finish(t)) == GrandCount(t)
  {
    assert Finish(t).Keys == t.Keys;
    SameSum(t.Keys, TotalIn(Finish(t)), TotalIn(t));
    SameSum(t.Keys, CountIn(Finish(t)), CountIn(t));
  }
}
