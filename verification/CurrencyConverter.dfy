// The converter of src/domain/currency/exchange_rates.py: an exact-date map, a sorted
// date index and a memo table, proved to answer like one simple rule on the map alone.
module CurrencyConverter {
  import opened Basics
  import opened CurrencyArithmetic

  // ----- dates: strings in Python's order -----

  predicate Leq(a: string, b: string) {
    a == "" || (b != "" && (a[0] < b[0] || (a[0] == b[0] && Leq(a[1..], b[1..]))))
  }

  lemma {:induction false} LeqReflexive(a: string)
    ensures Leq(a, a)
  {
    if a == "" {
    } else {
      LeqReflexive(a[1..]);
    }
  }

  lemma {:induction false} LeqTotal(a: string, b: string)
    ensures Leq(a, b) || Leq(b, a)
  {
    if a != "" && b != "" { LeqTotal(a[1..], b[1..]); }
  }

  lemma {:induction false} LeqAntisymmetric(a: string, b: string)
    requires Leq(a, b) && Leq(b, a)
    ensures a == b
  {
    if a != "" && b != "" {
      LeqAntisymmetric(a[1..], b[1..]);
      assert a == [a[0]] + a[1..] && b == [b[0]] + b[1..];
    }
  }

  lemma {:induction false} LeqTransitive(a: string, b: string, c: string)
    requires Leq(a, b) && Leq(b, c)
    ensures Leq(a, c)
  {
    if a != "" && a[0] == b[0] == c[0] { LeqTransitive(a[1..], b[1..], c[1..]); }
  }

  // ----- the rule, on the map of exact rates alone -----

  type RateKey = (string, string, string)     // base, quote, date
  type Pair = (string, string)
  type Entry = (string, int)                  // date, rate
  type Rates = map<RateKey, int>

  const USD := "USD"

  datatype RateOutcome = Rate(value: int) | InvalidStored(from: string, to: string) | NotFound(from: string, to: string)

  ghost predicate HasRate(rates: Rates, f: string, t: string) {
    exists d :: (f, t, d) in rates
  }

  // The date whose rate counts: the latest one on or before the asked date, and if
  // there is none, the earliest one of all.
  ghost predicate IsSelected(rates: Rates, f: string, t: string, date: string, d: string) {
    && (f, t, d) in rates
    && if Leq(d, date) then forall e :: (f, t, e) in rates && Leq(e, date) ==> Leq(e, d)
       else forall e :: (f, t, e) in rates ==> Leq(d, e)
  }

  function Usable(f: string, t: string, rate: int): RateOutcome {
    if rate <= 0 then InvalidStored(f, t) else Rate(rate)
  }

  ghost predicate DirectlyResolves(rates: Rates, f: string, t: string, date: string, o: RateOutcome) {
    if HasRate(rates, f, t) then exists d :: IsSelected(rates, f, t, date, d) && o == Usable(f, t, rates[(f, t, d)])
    else o == NotFound(f, t)
  }

  ghost predicate SecondLeg(rates: Rates, t: string, date: string, first: int, o: RateOutcome) {
    exists second :: DirectlyResolves(rates, USD, t, date, second) &&
      o == if second.Rate? then Rate(CrossRate(first, second.value)) else second
  }

  // A pair without a rate of its own goes through the dollar, one leg after the other.
  ghost predicate CrossResolves(rates: Rates, f: string, t: string, date: string, o: RateOutcome) {
    exists first :: DirectlyResolves(rates, f, USD, date, first) &&
      if first.Rate? then SecondLeg(rates, t, date, first.value, o) else o == first
  }

  ghost predicate Resolves(rates: Rates, f: string, t: string, date: string, o: RateOutcome) {
    if f == t then o == Rate(SCALE)
    else if HasRate(rates, f, t) || f == USD || t == USD then DirectlyResolves(rates, f, t, date, o)
    else CrossResolves(rates, f, t, date, o)
  }

  lemma SelectionIsUnique(rates: Rates, f: string, t: string, date: string, d: string, e: string)
    requires IsSelected(rates, f, t, date, d) && IsSelected(rates, f, t, date, e)
    ensures d == e
  {
    if Leq(d, date) != Leq(e, date) {
      if Leq(d, date) { LeqTransitive(e, d, date); } else { LeqTransitive(d, e, date); }
    }
    LeqAntisymmetric(d, e);
  }

  lemma DirectIsUnique(rates: Rates, f: string, t: string, date: string, o: RateOutcome, p: RateOutcome)
    requires DirectlyResolves(rates, f, t, date, o) && DirectlyResolves(rates, f, t, date, p)
    ensures o == p
  {
    if HasRate(rates, f, t) {
      var d :| IsSelected(rates, f, t, date, d) && o == Usable(f, t, rates[(f, t, d)]);
      var e :| IsSelected(rates, f, t, date, e) && p == Usable(f, t, rates[(f, t, e)]);
      SelectionIsUnique(rates, f, t, date, d, e);
    }
  }

  lemma SecondLegIsUnique(rates: Rates, t: string, date: string, first: int, o: RateOutcome, p: RateOutcome)
    requires SecondLeg(rates, t, date, first, o) && SecondLeg(rates, t, date, first, p)
    ensures o == p
  {
    var o2 :| DirectlyResolves(rates, USD, t, date, o2) && o == if o2.Rate? then Rate(CrossRate(first, o2.value)) else o2;
    var p2 :| DirectlyResolves(rates, USD, t, date, p2) && p == if p2.Rate? then Rate(CrossRate(first, p2.value)) else p2;
    DirectIsUnique(rates, USD, t, date, o2, p2);
  }

  lemma CrossIsUnique(rates: Rates, f: string, t: string, date: string, o: RateOutcome, p: RateOutcome)
    requires CrossResolves(rates, f, t, date, o) && CrossResolves(rates, f, t, date, p)
    ensures o == p
  {
    var o1 :| DirectlyResolves(rates, f, USD, date, o1) && if o1.Rate? then SecondLeg(rates, t, date, o1.value, o) else o == o1;
    var p1 :| DirectlyResolves(rates, f, USD, date, p1) && if p1.Rate? then SecondLeg(rates, t, date, p1.value, p) else p == p1;
    DirectIsUnique(rates, f, USD, date, o1, p1);
    if o1.Rate? { SecondLegIsUnique(rates, t, date, o1.value, o, p); }
  }

  // The rule leaves no choice.
  lemma ResolutionIsUnique(rates: Rates, f: string, t: string, date: string, o: RateOutcome, p: RateOutcome)
    requires Resolves(rates, f, t, date, o) && Resolves(rates, f, t, date, p)
    ensures o == p
  {
    if f == t {
    } else if HasRate(rates, f, t) || f == USD || t == USD {
      DirectIsUnique(rates, f, t, date, o, p);
    } else {
      CrossIsUnique(rates, f, t, date, o, p);
    }
  }

  // ----- the sorted date index -----

  ghost predicate InDateOrder(es: seq<Entry>) {
    forall i, j :: 0 <= i < j < |es| ==> Leq(es[i].0, es[j].0) && es[i].0 != es[j].0
  }

  ghost predicate DistinctDates(es: seq<Entry>) {
    forall i, j :: 0 <= i < j < |es| ==> es[i].0 != es[j].0
  }

  function InsertByDate(es: seq<Entry>, x: Entry): seq<Entry> {
    if es == [] then [x]
    else if Leq(x.0, es[0].0) then [x] + es
    else [es[0]] + InsertByDate(es[1..], x)
  }

  // list.sort with the date as key.
  function SortByDate(es: seq<Entry>): seq<Entry> {
    if es == [] then [] else InsertByDate(SortByDate(es[..|es| - 1]), es[|es| - 1])
  }

  lemma {:induction false} InsertMembers(es: seq<Entry>, x: Entry)
    ensures forall y :: y in InsertByDate(es, x) <==> y == x || y in es
  {
    if es != [] && !Leq(x.0, es[0].0) {
      InsertMembers(es[1..], x);
      assert es == [es[0]] + es[1..];
    }
  }

  lemma {:induction false} InsertKeepsOrder(es: seq<Entry>, x: Entry)
    requires InDateOrder(es) && forall i :: 0 <= i < |es| ==> es[i].0 != x.0
    ensures InDateOrder(InsertByDate(es, x))
  {
    if es == [] {
    } else {
      if Leq(x.0, es[0].0) {
        forall j | 0 <= j < |es| ensures Leq(x.0, es[j].0) {
          if j > 0 { LeqTransitive(x.0, es[0].0, es[j].0); }
        }
      } else {
        var rest := InsertByDate(es[1..], x);
        InsertKeepsOrder(es[1..], x);
        InsertMembers(es[1..], x);
        LeqTotal(x.0, es[0].0);
        forall j | 0 <= j < |rest| ensures Leq(es[0].0, rest[j].0) && es[0].0 != rest[j].0 {
          assert rest[j] in rest;
        }
      }
    }
  }

  lemma {:induction false} SortMembers(es: seq<Entry>)
    ensures forall y :: y in SortByDate(es) <==> y in es
  {
    if es == [] {
    } else {
      SortMembers(es[..|es| - 1]);
      InsertMembers(SortByDate(es[..|es| - 1]), es[|es| - 1]);
      assert es == es[..|es| - 1] + [es[|es| - 1]];
    }
  }

  lemma {:induction false} SortOrders(es: seq<Entry>)
    requires DistinctDates(es)
    ensures InDateOrder(SortByDate(es))
  {
    if es == [] {
    } else {
      var front, last := es[..|es| - 1], es[|es| - 1];
      SortOrders(front);
      SortMembers(front);
      forall i | 0 <= i < |SortByDate(front)| ensures SortByDate(front)[i].0 != last.0 {
        assert SortByDate(front)[i] in front;
      }
      InsertKeepsOrder(SortByDate(front), last);
    }
  }

  // What indexing a rate does to one pair's list: the entry of that date is replaced,
  // or a new one is added, and the list stays sorted.
  ghost predicate IsUpdated(before: seq<Entry>, after: seq<Entry>, date: string, rate: int) {
    && InDateOrder(after)
    && forall y :: y in after <==> y == (date, rate) || (y in before && y.0 != date)
  }

  method IndexRate(before: seq<Entry>, date: string, rate: int) returns (after: seq<Entry>)
    requires InDateOrder(before)
    ensures IsUpdated(before, after, date, rate)
  {
    for i := 0 to |before|
      invariant forall k :: 0 <= k < i ==> before[k].0 != date
    {
      if before[i].0 == date {
        var replaced := before[i := (date, rate)];
        ReplacedMembers(before, i, (date, rate));
        SortMembers(replaced);
        SortOrders(replaced);
        return SortByDate(replaced);
      }
    }
    var extended := before + [(date, rate)];
    SortMembers(extended);
    SortOrders(extended);
    return SortByDate(extended);
  }

  lemma ReplacedMembers(es: seq<Entry>, i: nat, x: Entry)
    requires InDateOrder(es) && i < |es| && es[i].0 == x.0
    ensures DistinctDates(es[i := x])
    ensures forall y :: y in es[i := x] <==> y == x || (y in es && y.0 != x.0)
  {
    var fs := es[i := x];
    forall y ensures y in fs <==> y == x || (y in es && y.0 != x.0) {
      if y in fs {
        var k :| 0 <= k < |fs| && fs[k] == y;
        if k != i { assert es[k] == y; }
      }
      if y in es && y.0 != x.0 {
        var k :| 0 <= k < |es| && es[k] == y;
        assert fs[k] == y;
      }
      if y == x { assert fs[i] == y; }
    }
  }

  // bisect_right on the dates.
  method BisectRight(es: seq<Entry>, date: string) returns (at: nat)
    requires InDateOrder(es)
    ensures at <= |es|
    ensures forall k :: 0 <= k < at ==> Leq(es[k].0, date)
    ensures forall k :: at <= k < |es| ==> !Leq(es[k].0, date)
  {
    var lo, hi := 0, |es|;
    while lo < hi
      invariant 0 <= lo <= hi <= |es|
      invariant forall k :: 0 <= k < lo ==> Leq(es[k].0, date)
      invariant forall k :: hi <= k < |es| ==> !Leq(es[k].0, date)
    {
      var mid := (lo + hi) / 2;
      if !Leq(es[mid].0, date) {
        forall k | mid <= k < |es| ensures !Leq(es[k].0, date) {
          if k > mid && Leq(es[k].0, date) { LeqTransitive(es[mid].0, es[k].0, date); }
        }
        hi := mid;
      } else {
        forall k | 0 <= k <= mid ensures Leq(es[k].0, date) {
          if k < mid { LeqTransitive(es[k].0, es[mid].0, date); }
        }
        lo := mid + 1;
      }
    }
    return lo;
  }

  // ----- the converter -----

  type Index = map<Pair, seq<Entry>>

  function EntriesOf(index: Index, p: Pair): seq<Entry> {
    if p in index then index[p] else []
  }

  // A pair's list is sorted by date and holds exactly the pair's rates.
  ghost predicate Mirrors(rates: Rates, p: Pair, es: seq<Entry>) {
    && InDateOrder(es)
    && forall x: Entry :: x in es <==> Listed(rates, p, x)
  }

  predicate Listed(rates: Rates, p: Pair, x: Entry) {
    (p.0, p.1, x.0) in rates && rates[(p.0, p.1, x.0)] == x.1
  }

  ghost predicate IndexMirrors(rates: Rates, index: Index) {
    forall p: Pair :: Mirrors(rates, p, EntriesOf(index, p))
  }

  // Every memoized value is what the rule gives.
  ghost predicate MemoAgrees(rates: Rates, memo: Rates) {
    forall k :: k in memo ==> k.0 != k.1 && Resolves(rates, k.0, k.1, k.2, Rate(memo[k]))
  }

  datatype SetError = BadDate | RateNotPositive

  datatype ConvertOutcome = Converted(amount: int) | NegativeAmount | RateNotPositiveFor(from: string, to: string) | NoRate(why: RateOutcome)

  class Converter {
    var rates: Rates
    var rateIndex: Index
    var rateCache: Rates

    ghost predicate Valid()
      reads this
    {
      IndexMirrors(rates, rateIndex) && MemoAgrees(rates, rateCache)
    }

    constructor ()
      ensures Valid() && rates == map[]
    {
      rates, rateIndex, rateCache := map[], map[], map[];
    }

    method SetRate(b: string, q: string, scaledRate: int, date: string) returns (r: Outcome<(), SetError>)
      requires Valid()
      modifies this
      ensures Valid()
      ensures r.Err? <==> |date| != 10 || scaledRate <= 0
      ensures r.Err? ==> rates == old(rates)
      ensures r.Ok? ==> rates == old(rates)[(b, q, date) := scaledRate][(q, b, date) := InverseRate(scaledRate)]
    {
      if |date| != 10 {
        return Err(BadDate);
      }
      if scaledRate <= 0 {
        return Err(RateNotPositive);
      }
      PutRate(b, q, date, scaledRate);
      PutRate(q, b, date, InverseRate(scaledRate));
      rateCache := map[];
      return Ok(());
    }

    // One exact rate, in the map and in the index.
    method PutRate(b: string, q: string, date: string, rate: int)
      requires IndexMirrors(rates, rateIndex)
      modifies this`rates, this`rateIndex
      ensures IndexMirrors(rates, rateIndex)
      ensures rates == old(rates)[(b, q, date) := rate]
    {
      var p := (b, q);
      assert Mirrors(rates, p, EntriesOf(rateIndex, p));
      var es := IndexRate(EntriesOf(rateIndex, p), date, rate);
      UpdateMirrors(rates, rateIndex, p, es, date, rate);
      rates := rates[(b, q, date) := rate];
      rateIndex := rateIndex[p := es];
    }

    method LookupIndexedRate(f: string, t: string, date: string) returns (found: Option<RateOutcome>)
      requires Valid()
      ensures found.None? <==> !HasRate(rates, f, t)
      ensures found.Some? ==> DirectlyResolves(rates, f, t, date, found.value)
    {
      var es := EntriesOf(rateIndex, (f, t));
      assert Mirrors(rates, (f, t), es);
      if es == [] {
        NothingIndexed(rates, f, t);
        return None;
      }
      var at := BisectRight(es, date);
      var k := if at > 0 then at - 1 else 0;
      SelectedEntry(rates, f, t, es, date, at);
      return Some(Usable(f, t, es[k].1));
    }

    method GetRateScaled(f: string, t: string, date: string) returns (o: RateOutcome)
      requires Valid()
      modifies this`rateCache
      ensures Valid()
      ensures Resolves(rates, f, t, date, o)
      decreases if f == USD || t == USD then 0 else 1, 0
    {
      if f == t {
        return Rate(SCALE);
      }
      var key := (f, t, date);
      if key in rateCache {
        return Rate(rateCache[key]);
      }
      if key in rates {
        ExactDateIsSelected(rates, f, t, date);
        o := Usable(f, t, rates[key]);
      } else {
        var found := LookupIndexedRate(f, t, date);
        if found.Some? {
          o := found.value;
        } else if f != USD && t != USD {
          o := ThroughTheDollar(f, t, date);
        } else {
          o := NotFound(f, t);
        }
      }
      Remember(key, o);
    }

    method ThroughTheDollar(f: string, t: string, date: string) returns (o: RateOutcome)
      requires Valid() && f != USD && t != USD
      modifies this`rateCache
      ensures Valid()
      ensures CrossResolves(rates, f, t, date, o)
      decreases 0, 1
    {
      var first := GetRateScaled(f, USD, date);
      if !first.Rate? {
        return first;
      }
      var second := GetRateScaled(USD, t, date);
      return if second.Rate? then Rate(CrossRate(first.value, second.value)) else second;
    }

    method Remember(key: RateKey, o: RateOutcome)
      requires Valid() && key.0 != key.1 && Resolves(rates, key.0, key.1, key.2, o)
      modifies this`rateCache
      ensures Valid()
    {
      if o.Rate? {
        rateCache := rateCache[key := o.value];
      }
    }

    method Convert(amount: int, f: string, t: string, date: string) returns (c: ConvertOutcome)
      requires Valid()
      modifies this`rateCache
      ensures Valid()
      ensures ConvertsTo(rates, amount, f, t, date, c)
    {
      if amount < 0 {
        return NegativeAmount;
      }
      if f == t {
        return Converted(amount);
      }
      var o := GetRateScaled(f, t, date);
      c := AtRate(amount, f, t, o);
    }

    // What a holding was worth on one date, is worth on another, and the difference.
    method RevalueAmount(amount: int, f: string, t: string, earlier: string, now: string) returns (r: Outcome<(int, int, int), ConvertOutcome>)
      requires Valid()
      modifies this`rateCache
      ensures Valid()
      ensures r.Ok? ==> ConvertsTo(rates, amount, f, t, earlier, Converted(r.value.0))
      ensures r.Ok? ==> ConvertsTo(rates, amount, f, t, now, Converted(r.value.1))
      ensures r.Ok? ==> r.value.0 + r.value.2 == r.value.1
      ensures r.Err? ==> !r.error.Converted? && (ConvertsTo(rates, amount, f, t, earlier, r.error) || ConvertsTo(rates, amount, f, t, now, r.error))
    {
      var past := Convert(amount, f, t, earlier);
      if !past.Converted? {
        return Err(past);
      }
      var present := Convert(amount, f, t, now);
      if !present.Converted? {
        return Err(present);
      }
      return Ok((past.amount, present.amount, present.amount - past.amount));
    }
  }

  function AtRate(amount: nat, f: string, t: string, o: RateOutcome): ConvertOutcome {
    if !o.Rate? then NoRate(o)
    else if o.value <= 0 then RateNotPositiveFor(f, t)
    else Converted(ConvertBy(amount, o.value))
  }

  // The outcome of a conversion, from the map of exact rates alone.
  ghost predicate ConvertsTo(rates: Rates, amount: int, f: string, t: string, date: string, c: ConvertOutcome) {
    if amount < 0 then c == NegativeAmount
    else if f == t then c == Converted(amount)
    else exists o :: Resolves(rates, f, t, date, o) && c == AtRate(amount, f, t, o)
  }

  lemma ConversionIsUnique(rates: Rates, amount: int, f: string, t: string, date: string, c: ConvertOutcome, d: ConvertOutcome)
    requires ConvertsTo(rates, amount, f, t, date, c) && ConvertsTo(rates, amount, f, t, date, d)
    ensures c == d
  {
    if amount >= 0 && f != t {
      var o :| Resolves(rates, f, t, date, o) && c == AtRate(amount, f, t, o);
      var p :| Resolves(rates, f, t, date, p) && d == AtRate(amount, f, t, p);
      ResolutionIsUnique(rates, f, t, date, o, p);
    }
  }

  lemma UpdateMirrors(rates: Rates, index: Index, p: Pair, es: seq<Entry>, date: string, rate: int)
    requires IndexMirrors(rates, index)
    requires IsUpdated(EntriesOf(index, p), es, date, rate)
    ensures IndexMirrors(rates[(p.0, p.1, date) := rate], index[p := es])
  {
    var rates', index' := rates[(p.0, p.1, date) := rate], index[p := es];
    forall q: Pair ensures Mirrors(rates', q, EntriesOf(index', q)) {
      assert Mirrors(rates, q, EntriesOf(index, q));
      forall x: Entry ensures Listed(rates', q, x) <==> if q == p && x.0 == date then x.1 == rate else Listed(rates, q, x) {
        assert (q.0, q.1, x.0) == (p.0, p.1, date) <==> q == p && x.0 == date;
      }
    }
  }

  lemma NothingIndexed(rates: Rates, f: string, t: string)
    requires Mirrors(rates, (f, t), [])
    ensures !HasRate(rates, f, t)
  {
    assert forall x: Entry :: !Listed(rates, (f, t), x);
    forall d ensures (f, t, d) !in rates {
      assert (f, t, d) in rates ==> Listed(rates, (f, t), (d, rates[(f, t, d)]));
    }
  }

  lemma ExactDateIsSelected(rates: Rates, f: string, t: string, date: string)
    requires (f, t, date) in rates
    ensures HasRate(rates, f, t) && IsSelected(rates, f, t, date, date)
  {
    LeqReflexive(date);
  }

  // Where a dated rate of a pair stands in the pair's list.
  lemma PositionOf(rates: Rates, f: string, t: string, es: seq<Entry>, d: string) returns (m: nat)
    requires Mirrors(rates, (f, t), es) && (f, t, d) in rates
    ensures m < |es| && es[m].0 == d
  {
    var x := (d, rates[(f, t, d)]);
    assert Listed(rates, (f, t), x);
    assert x in es;
    m :| 0 <= m < |es| && es[m] == x;
  }

  // What bisection points at is what the rule selects.
  lemma SelectedEntry(rates: Rates, f: string, t: string, es: seq<Entry>, date: string, at: nat)
    requires Mirrors(rates, (f, t), es) && es != [] && at <= |es|
    requires forall k :: 0 <= k < at ==> Leq(es[k].0, date)
    requires forall k :: at <= k < |es| ==> !Leq(es[k].0, date)
    ensures var k := if at > 0 then at - 1 else 0;
            && HasRate(rates, f, t)
            && IsSelected(rates, f, t, date, es[k].0)
            && es[k].1 == rates[(f, t, es[k].0)]
  {
    var k := if at > 0 then at - 1 else 0;
    var d := es[k].0;
    assert es[k] in es;
    assert Listed(rates, (f, t), es[k]);
    forall e | (f, t, e) in rates ensures (at > 0 && Leq(e, date) ==> Leq(e, d)) && (at == 0 ==> Leq(d, e)) {
      var m := PositionOf(rates, f, t, es, e);
      LeqReflexive(e);
    }
  }
}
