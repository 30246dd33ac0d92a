// The two summaries of src/services/analytics/spend_aggregator.py over the tables of
// SpendAggregator, and how they compare.
module SpendSummary {
  import opened SpendAggregator

  datatype Dimension = Department | Category | Location

  function KeyOf(r: Row, d: Dimension): string {
    match d
    case Department => r.department
    case Category => r.category
    case Location => r.location
  }

  function Entries(rows: seq<Row>, d: Dimension): seq<Entry> {
    seq(|rows|, i requires 0 <= i < |rows| => (KeyOf(rows[i], d), rows[i].amount))
  }

  function AmountsIn(rows: seq<Row>): seq<int> {
    seq(|rows|, i requires 0 <= i < |rows| => rows[i].amount)
  }

  function Matching(rows: seq<Row>, tenant: string): seq<Row> {
    if rows == [] then []
    else
      var last := rows[|rows| - 1];
      var before := Matching(rows[..|rows| - 1], tenant);
      if last.tenant == tenant then before + [last] else before
  }

  function PlainSummary(rows: seq<Row>, tenant: string): Summary {
    var m := Matching(rows, tenant);
    Summary(tenant, Sum(AmountsIn(m)), |m|, RowTable(Entries(m, Department)), RowTable(Entries(m, Category)), RowTable(Entries(m, Location)))
  }

  function TableOf(s: Summary, d: Dimension): Table {
    match d
    case Department => s.byDepartment
    case Category => s.byCategory
    case Location => s.byLocation
  }

  lemma AppendRow(rows: seq<Row>, r: Row)
    ensures Sum(AmountsIn(rows + [r])) == Sum(AmountsIn(rows)) + r.amount
    ensures forall d :: RowTable(Entries(rows + [r], d)) == Note(RowTable(Entries(rows, d)), (KeyOf(r, d), r.amount))
  {
    assert AmountsIn(rows + [r]) == AmountsIn(rows) + [r.amount];
    AppendAmount(AmountsIn(rows), r.amount);
    forall d ensures RowTable(Entries(rows + [r], d)) == Note(RowTable(Entries(rows, d)), (KeyOf(r, d), r.amount)) {
      var es := Entries(rows + [r], d);
      assert es[..|es| - 1] == Entries(rows, d);
    }
  }

  method GetExecutiveSummary(records: seq<Row>, tenant: string) returns (s: Summary)
    ensures s == PlainSummary(records, tenant)
  {
    var total, transactions: nat := 0, 0;
    var byDepartment: Table, byCategory: Table, byLocation: Table := map[], map[], map[];
    ghost var m: seq<Row> := [];
    for i := 0 to |records|
      invariant m == Matching(records[..i], tenant)
      invariant total == Sum(AmountsIn(m)) && transactions == |m|
      invariant byDepartment == RowTable(Entries(m, Department))
      invariant byCategory == RowTable(Entries(m, Category))
      invariant byLocation == RowTable(Entries(m, Location))
    {
      var r := records[i];
      assert records[..i + 1][..i] == records[..i];
      if r.tenant != tenant {
        continue;
      }
      AppendRow(m, r);
      m := m + [r];
      total := total + r.amount;
      transactions := transactions + 1;
      byDepartment := Note(byDepartment, (r.department, r.amount));
      byCategory := Note(byCategory, (r.category, r.amount));
      byLocation := Note(byLocation, (r.location, r.amount));
    }
    assert records[..|records|] == records;
    return Summary(tenant, total, transactions, byDepartment, byCategory, byLocation);
  }

  // ----- the columnar pass -----

  function Least(a: nat, b: nat): nat {
    if a < b then a else b
  }

  // zip stops at the shortest column.
  function ZipLength(b: Batch): (n: nat)
    ensures n <= |b.departments| && n <= |b.categories| && n <= |b.locations| && n <= |b.amounts|
  {
    Least(Least(|b.departments|, |b.categories|), Least(|b.locations|, |b.amounts|))
  }

  function ColumnOf(b: Batch, d: Dimension): seq<string> {
    match d
    case Department => b.departments
    case Category => b.categories
    case Location => b.locations
  }

  function Zipped(column: seq<string>, amounts: seq<int>, n: nat): (es: seq<Entry>)
    requires n <= |column| && n <= |amounts|
    ensures |es| == n && forall i :: 0 <= i < n ==> es[i].0 in column
  {
    seq(n, i requires 0 <= i < n => (column[i], amounts[i]))
  }

  function FastTable(b: Batch, d: Dimension): Table {
    Finish(ColumnTable(ColumnOf(b, d), Zipped(ColumnOf(b, d), b.amounts, ZipLength(b))))
  }

  function FastSummary(b: Batch): Summary {
    Summary(b.tenant, Sum(b.amounts), |b.amounts|, FastTable(b, Department), FastTable(b, Category), FastTable(b, Location))
  }

  method SumOf(amounts: seq<int>) returns (total: int)
    ensures total == Sum(amounts)
  {
    total := 0;
    for i := 0 to |amounts|
      invariant total == Sum(amounts[..i])
    {
      assert amounts[..i + 1][..i] == amounts[..i];
      total := total + amounts[i];
    }
    assert amounts[..|amounts|] == amounts;
  }

  // The table of a column after the first i rows.
  function Partial(column: seq<string>, amounts: seq<int>, i: nat): Table
    requires i <= |column| && i <= |amounts|
  {
    ColumnTable(column, Zipped(column, amounts, i))
  }

  lemma ZipStep(column: seq<string>, amounts: seq<int>, i: nat)
    requires i < |column| && i < |amounts|
    ensures column[i] in Partial(column, amounts, i)
    ensures Partial(column, amounts, i + 1)
         == Partial(column, amounts, i)[column[i] := Partial(column, amounts, i)[column[i]].Add(amounts[i])]
  {
    assert Zipped(column, amounts, i + 1)[..i] == Zipped(column, amounts, i);
  }

  // One more row in the accumulators of one dimension.
  method Accumulate(t: Table, column: seq<string>, amounts: seq<int>, i: nat) returns (t': Table)
    requires i < |column| && i < |amounts| && t == Partial(column, amounts, i)
    ensures t' == Partial(column, amounts, i + 1)
  {
    ZipStep(column, amounts, i);
    t' := t[column[i] := t[column[i]].Add(amounts[i])];
  }

  lemma PartialAtTheEnds(b: Batch, d: Dimension)
    ensures Partial(ColumnOf(b, d), b.amounts, 0) == Prepared(ColumnOf(b, d))
    ensures Finish(Partial(ColumnOf(b, d), b.amounts, ZipLength(b))) == FastTable(b, d)
  {
    assert Zipped(ColumnOf(b, d), b.amounts, 0) == [];
  }

  // The one loop over all columns.
  method Scan(b: Batch, departments: Table, categories: Table, locations: Table) returns (d: Table, c: Table, l: Table)
    requires departments == Partial(b.departments, b.amounts, 0)
    requires categories == Partial(b.categories, b.amounts, 0)
    requires locations == Partial(b.locations, b.amounts, 0)
    ensures d == Partial(b.departments, b.amounts, ZipLength(b))
    ensures c == Partial(b.categories, b.amounts, ZipLength(b))
    ensures l == Partial(b.locations, b.amounts, ZipLength(b))
  {
    d, c, l := departments, categories, locations;
    for i := 0 to ZipLength(b)
      invariant d == Partial(b.departments, b.amounts, i)
      invariant c == Partial(b.categories, b.amounts, i)
      invariant l == Partial(b.locations, b.amounts, i)
    {
      d := Accumulate(d, b.departments, b.amounts, i);
      c := Accumulate(c, b.categories, b.amounts, i);
      l := Accumulate(l, b.locations, b.amounts, i);
    }
  }

  method AggregateColumnar(b: Batch) returns (s: Summary)
    ensures s == FastSummary(b)
  {
    var total := SumOf(b.amounts);
    PartialAtTheEnds(b, Department);
    PartialAtTheEnds(b, Category);
    PartialAtTheEnds(b, Location);
    var d, c, l := Scan(b, Prepared(b.departments), Prepared(b.categories), Prepared(b.locations));
    return Summary(b.tenant, total, |b.amounts|, Finish(d), Finish(c), Finish(l));
  }

  // ----- main results -----

  // The rows of one tenant, turned into columns.
  function Columns(rows: seq<Row>, tenant: string): Batch {
    Batch(tenant,
          seq(|rows|, i requires 0 <= i < |rows| => rows[i].department),
          seq(|rows|, i requires 0 <= i < |rows| => rows[i].location),
          seq(|rows|, i requires 0 <= i < |rows| => rows[i].category),
          AmountsIn(rows))
  }

  lemma {:induction false} FastTableOnColumns(rows: seq<Row>, tenant: string, d: Dimension)
    ensures var b := Columns(rows, tenant);
            Matches(ColumnOf(b, d), Entries(rows, d)) && FastTable(b, d) == Finish(ColumnTable(ColumnOf(b, d), Entries(rows, d)))
  {
    var b := Columns(rows, tenant);
    assert Zipped(ColumnOf(b, d), b.amounts, ZipLength(b)) == Entries(rows, d);
  }

  lemma EqualByTables(s: Summary, t: Summary)
    requires s.tenant == t.tenant && s.total == t.total && s.transactions == t.transactions
    ensures s == t <==> forall d: Dimension :: TableOf(s, d) == TableOf(t, d)
  {
    if forall d: Dimension :: TableOf(s, d) == TableOf(t, d) {
      assert TableOf(s, Department) == TableOf(t, Department);
      assert TableOf(s, Category) == TableOf(t, Category);
      assert TableOf(s, Location) == TableOf(t, Location);
    }
  }

  lemma {:induction false} TablesAgree(rows: seq<Row>, tenant: string, d: Dimension)
    ensures TableOf(FastSummary(Columns(Matching(rows, tenant), tenant)), d) == TableOf(PlainSummary(rows, tenant), d)
       <==> HidesSentinels(Entries(Matching(rows, tenant), d))
  {
    var m := Matching(rows, tenant);
    FastTableOnColumns(m, tenant, d);
    PassesAgreeExactlyWhen(ColumnOf(Columns(m, tenant), d), Entries(m, d));
  }

  lemma {:induction false} MatchingComeFromRows(rows: seq<Row>, tenant: string)
    ensures forall r :: r in Matching(rows, tenant) <==> r in rows && r.tenant == tenant
  {
    if rows == [] {
    } else {
      MatchingComeFromRows(rows[..|rows| - 1], tenant);
      assert rows == rows[..|rows| - 1] + [rows[|rows| - 1]];
    }
  }

  // A row of the tenant with the same key whose amount is not above the one sentinel,
  // and one whose amount is not below the other.
  predicate HasLow(rows: seq<Row>, r: Row, d: Dimension) {
    exists q :: q in rows && q.tenant == r.tenant && KeyOf(q, d) == KeyOf(r, d) && q.amount <= SENTINEL
  }

  predicate HasHigh(rows: seq<Row>, r: Row, d: Dimension) {
    exists q :: q in rows && q.tenant == r.tenant && KeyOf(q, d) == KeyOf(r, d) && q.amount >= 0
  }

  // In no dimension has a key of the tenant only amounts above 999_999_999_999 or only
  // negative ones.
  predicate Presentable(rows: seq<Row>, tenant: string) {
    forall d: Dimension :: PresentableIn(rows, tenant, d)
  }

  predicate PresentableIn(rows: seq<Row>, tenant: string, d: Dimension) {
    forall r :: r in rows && r.tenant == tenant ==> HasLow(rows, r, d) && HasHigh(rows, r, d)
  }

  lemma EntriesComeFromRows(m: seq<Row>, d: Dimension)
    ensures forall r :: r in m ==> (KeyOf(r, d), r.amount) in Entries(m, d)
    ensures forall e :: e in Entries(m, d) ==> exists r :: r in m && e == (KeyOf(r, d), r.amount)
  {
    forall r | r in m ensures (KeyOf(r, d), r.amount) in Entries(m, d) {
      var i :| 0 <= i < |m| && m[i] == r;
      assert Entries(m, d)[i] == (KeyOf(r, d), r.amount);
    }
    forall e | e in Entries(m, d) ensures exists r :: r in m && e == (KeyOf(r, d), r.amount) {
      var i :| 0 <= i < |m| && Entries(m, d)[i] == e;
      assert m[i] in m;
    }
  }

  lemma LowAndHighEntries(rows: seq<Row>, r: Row, d: Dimension)
    requires r in rows
    ensures var es := Entries(Matching(rows, r.tenant), d);
            (HasLow(rows, r, d) <==> ReachesDown(es, KeyOf(r, d))) && (HasHigh(rows, r, d) <==> ReachesUp(es, KeyOf(r, d)))
  {
    var m := Matching(rows, r.tenant);
    MatchingComeFromRows(rows, r.tenant);
    EntriesComeFromRows(m, d);
    if q :| q in rows && q.tenant == r.tenant && KeyOf(q, d) == KeyOf(r, d) && q.amount <= SENTINEL {
      assert q in m && (KeyOf(q, d), q.amount) in Entries(m, d);
    }
    if q :| q in rows && q.tenant == r.tenant && KeyOf(q, d) == KeyOf(r, d) && q.amount >= 0 {
      assert q in m && (KeyOf(q, d), q.amount) in Entries(m, d);
    }
  }

  lemma HidesWhenPresentable(rows: seq<Row>, tenant: string, d: Dimension)
    ensures HidesSentinels(Entries(Matching(rows, tenant), d)) <==> PresentableIn(rows, tenant, d)
  {
    var m := Matching(rows, tenant);
    MatchingComeFromRows(rows, tenant);
    EntriesComeFromRows(m, d);
    forall r | r in m ensures HasLow(rows, r, d) && HasHigh(rows, r, d) <==> ReachesDown(Entries(m, d), KeyOf(r, d)) && ReachesUp(Entries(m, d), KeyOf(r, d)) {
      LowAndHighEntries(rows, r, d);
    }
    if HidesSentinels(Entries(m, d)) {
      forall r | r in m ensures HasLow(rows, r, d) && HasHigh(rows, r, d) {
        assert (KeyOf(r, d), r.amount) in Entries(m, d);
      }
    }
  }

  // The fast summary of a tenant's rows equals the plain one exactly when the rows are
  // presentable.
  lemma {:induction false} FastEqualsPlainExactlyWhen(rows: seq<Row>, tenant: string)
    ensures FastSummary(Columns(Matching(rows, tenant), tenant)) == PlainSummary(rows, tenant) <==> Presentable(rows, tenant)
  {
    var f, p := FastSummary(Columns(Matching(rows, tenant), tenant)), PlainSummary(rows, tenant);
    forall d: Dimension ensures TableOf(f, d) == TableOf(p, d) <==> PresentableIn(rows, tenant, d) {
      TablesAgree(rows, tenant, d);
      HidesWhenPresentable(rows, tenant, d);
    }
    EqualByTables(f, p);
  }

  // In particular for amounts from zero up to the sentinel.
  lemma {:induction false} FastEqualsPlain(rows: seq<Row>, tenant: string)
    requires forall r :: r in rows && r.tenant == tenant ==> 0 <= r.amount <= SENTINEL
    ensures FastSummary(Columns(Matching(rows, tenant), tenant)) == PlainSummary(rows, tenant)
  {
    forall d: Dimension ensures PresentableIn(rows, tenant, d) {
    }
    FastEqualsPlainExactlyWhen(rows, tenant);
  }

  lemma OneRowAlone(rows: seq<Row>, r: Row)
    requires |rows| == 1 && rows[0] == r && (r.amount < 0 || r.amount > SENTINEL)
    ensures !Presentable(rows, r.tenant)
  {
    assert r in rows && forall q :: q in rows ==> q == r;
    assert !PresentableIn(rows, r.tenant, Department);
  }

  // One refund alone, or one amount beyond the sentinel, is enough to tell them apart.
  lemma OneRowCanDiffer(rows: seq<Row>, r: Row)
    requires |rows| == 1 && rows[0] == r && (r.amount < 0 || r.amount > SENTINEL)
    ensures FastSummary(Columns(Matching(rows, r.tenant), r.tenant)) != PlainSummary(rows, r.tenant)
  {
    OneRowAlone(rows, r);
    FastEqualsPlainExactlyWhen(rows, r.tenant);
  }

  // In every dimension the totals and the counts add up to the grand ones.
  lemma PlainSummaryConserves(rows: seq<Row>, tenant: string, d: Dimension)
    ensures var s := PlainSummary(rows, tenant);
            GrandTotal(TableOf(s, d)) == s.total && GrandCount(TableOf(s, d)) == s.transactions
  {
    var m := Matching(rows, tenant);
    RowTableConserves(Entries(m, d));
    assert AllAmounts(Entries(m, d)) == AmountsIn(m);
  }

  lemma {:induction false} SumSplits(amounts: seq<int>, n: nat)
    requires n <= |amounts|
    ensures Sum(amounts) == Sum(amounts[..n]) + Sum(amounts[n..])
    decreases |amounts|
  {
    if n == |amounts| {
      assert amounts[..n] == amounts;
    } else {
      var front := amounts[..|amounts| - 1];
      SumSplits(front, n);
      assert front[..n] == amounts[..n] && front[n..] == amounts[n..][..|amounts[n..]| - 1];
    }
  }

  // The fast pass leaves out of each dimension exactly the amounts beyond the shortest
  // column, although its grand total counts them.
  lemma {:induction false} FastSummaryConserves(b: Batch, d: Dimension)
    ensures var (s, n) := (FastSummary(b), ZipLength(b));
            && s.total == GrandTotal(TableOf(s, d)) + Sum(b.amounts[n..])
            && s.transactions == GrandCount(TableOf(s, d)) + |b.amounts[n..]|
  {
    var n := ZipLength(b);
    var es := Zipped(ColumnOf(b, d), b.amounts, n);
    ColumnTableConserves(ColumnOf(b, d), es);
    FinishKeepsTheSums(ColumnTable(ColumnOf(b, d), es));
    SumSplits(b.amounts, n);
    assert AllAmounts(es) == b.amounts[..n];
  }
}
