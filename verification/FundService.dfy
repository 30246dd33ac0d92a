// The petty-cash funds of src/domain/funds/service.py: money moves from a fund to its
// custodians and out, and no run of the service creates or loses any.
module FundService {
  import opened Basics
  import opened Sums

  type Id = nat
  type FundKey = (Id, Id)           // tenant, fund
  type BalanceKey = (Id, Id, Id)    // tenant, fund, custodian

  const MAX_INT64: int := 9_223_372_036_854_775_807

  datatype Fund = Fund(id: Id, tenant: Id, name: string, currency: string, custodian: Id, available: int)

  datatype Error = BadAmount | BadCurrency | BlankName | FundNotFound | InsufficientFloat

  datatype Receipt = Created(fund: Fund) | Balance(fundId: Id, tenant: Id, custodian: Id, currency: string, amount: int)

  datatype State = State(funds: map<FundKey, Fund>, balances: map<BalanceKey, int>)

  datatype Op =
    | Create(tenant: Id, newId: Id, name: string, currency: string, custodian: Id, amount: int)
    | Allocate(tenant: Id, fund: Id, custodian: Id, amount: int)
    | Issue(tenant: Id, fund: Id, custodian: Id, amount: int)

  predicate IsLetter(c: char) {
    'A' <= c <= 'Z' || 'a' <= c <= 'z'
  }

  predicate IsCurrency(s: string) {
    |s| == 3 && IsLetter(s[0]) && IsLetter(s[1]) && IsLetter(s[2])
  }

  function BalanceOf(balances: map<BalanceKey, int>, k: BalanceKey): int {
    if k in balances then balances[k] else 0
  }

  // What one call does, or why it changes nothing.
  function Apply(s: State, op: Op): (State, Outcome<Receipt, Error>) {
    match op
    case Create(tenant, newId, name, currency, custodian, amount) =>
      if !(0 <= amount <= MAX_INT64) then (s, Err(BadAmount))
      else if !IsCurrency(currency) then (s, Err(BadCurrency))
      else if Strip(name) == "" then (s, Err(BlankName))
      else
        var fund := Fund(newId, tenant, Strip(name), Upper(currency), custodian, amount);
        (s.(funds := s.funds[(tenant, newId) := fund]), Ok(Created(fund)))
    case Allocate(tenant, f, custodian, amount) =>
      if !(0 < amount <= MAX_INT64) then (s, Err(BadAmount))
      else if (tenant, f) !in s.funds then (s, Err(FundNotFound))
      else if s.funds[(tenant, f)].available < amount then (s, Err(InsufficientFloat))
      else
        var fund := s.funds[(tenant, f)];
        var b := BalanceOf(s.balances, (tenant, f, custodian)) + amount;
        (State(s.funds[(tenant, f) := fund.(available := fund.available - amount)], s.balances[(tenant, f, custodian) := b]),
         Ok(Balance(f, tenant, custodian, fund.currency, b)))
    case Issue(tenant, f, custodian, amount) =>
      if !(0 < amount <= MAX_INT64) then (s, Err(BadAmount))
      else if (tenant, f) !in s.funds then (s, Err(FundNotFound))
      else if BalanceOf(s.balances, (tenant, f, custodian)) < amount then (s, Err(InsufficientFloat))
      else
        var b := BalanceOf(s.balances, (tenant, f, custodian)) - amount;
        (s.(balances := s.balances[(tenant, f, custodian) := b]), Ok(Balance(f, tenant, custodian, s.funds[(tenant, f)].currency, b)))
  }

  // ----- the service -----

  class Service {
    var funds: map<FundKey, Fund>
    var balances: map<BalanceKey, int>

    function View(): State
      reads this
    {
      State(funds, balances)
    }

    constructor ()
      ensures View() == State(map[], map[])
    {
      funds, balances := map[], map[];
    }

    method ValidateAmount(amount: int, allowZero: bool) returns (ok: bool)
      ensures ok <==> 0 <= amount <= MAX_INT64 && (amount == 0 ==> allowZero)
    {
      if amount < 0 || (amount == 0 && !allowZero) {
        return false;
      }
      return amount <= MAX_INT64;
    }

    method CreateFund(tenant: Id, newId: Id, name: string, currency: string, custodian: Id, amount: int) returns (r: Outcome<Receipt, Error>)
      modifies this
      ensures (View(), r) == Apply(old(View()), Create(tenant, newId, name, currency, custodian, amount))
    {
      var ok := ValidateAmount(amount, true);
      if !ok {
        return Err(BadAmount);
      }
      if !IsCurrency(currency) {
        return Err(BadCurrency);
      }
      if Strip(name) == "" {
        return Err(BlankName);
      }
      var fund := Fund(newId, tenant, Strip(name), Upper(currency), custodian, amount);
      funds := funds[(tenant, newId) := fund];
      return Ok(Created(fund));
    }

    method AllocateFloat(tenant: Id, fundId: Id, custodian: Id, amount: int) returns (r: Outcome<Receipt, Error>)
      modifies this
      ensures (View(), r) == Apply(old(View()), Allocate(tenant, fundId, custodian, amount))
    {
      var ok := ValidateAmount(amount, false);
      if !ok {
        return Err(BadAmount);
      }
      if (tenant, fundId) !in funds {
        return Err(FundNotFound);
      }
      var fund := funds[(tenant, fundId)];
      if fund.available < amount {
        return Err(InsufficientFloat);
      }
      funds := funds[(tenant, fundId) := fund.(available := fund.available - amount)];
      var balance := BalanceOf(balances, (tenant, fundId, custodian)) + amount;
      balances := balances[(tenant, fundId, custodian) := balance];
      return Ok(Balance(fundId, tenant, custodian, fund.currency, balance));
    }

    method IssueDisbursement(tenant: Id, fundId: Id, custodian: Id, amount: int) returns (r: Outcome<Receipt, Error>)
      modifies this
      ensures (View(), r) == Apply(old(View()), Issue(tenant, fundId, custodian, amount))
    {
      var ok := ValidateAmount(amount, false);
      if !ok {
        return Err(BadAmount);
      }
      if (tenant, fundId) !in funds {
        return Err(FundNotFound);
      }
      var balance := BalanceOf(balances, (tenant, fundId, custodian));
      if balance < amount {
        return Err(InsufficientFloat);
      }
      balances := balances[(tenant, fundId, custodian) := balance - amount];
      return Ok(Balance(fundId, tenant, custodian, funds[(tenant, fundId)].currency, balance - amount));
    }
  }

  // ----- runs from the empty service -----

  function After(ops: seq<Op>, n: nat): State
    requires n <= |ops|
  {
    if n == 0 then State(map[], map[]) else Apply(After(ops, n - 1), ops[n - 1]).0
  }

  function KeyOf(op: Op): FundKey {
    if op.Create? then (op.tenant, op.newId) else (op.tenant, op.fund)
  }

  // New funds get ids of their own.
  predicate FreshIds(ops: seq<Op>, n: nat)
    requires n <= |ops|
  {
    forall i :: 0 <= i < n && ops[i].Create? ==> KeyOf(ops[i]) !in After(ops, i).funds
  }

  function CreatedBy(s: State, op: Op, key: FundKey): int {
    if op.Create? && KeyOf(op) == key && Apply(s, op).1.Ok? then op.amount else 0
  }

  function PaidBy(s: State, op: Op, key: FundKey): int {
    if op.Issue? && KeyOf(op) == key && Apply(s, op).1.Ok? then op.amount else 0
  }

  // What a fund was created with.
  function Initial(ops: seq<Op>, n: nat, key: FundKey): int
    requires n <= |ops|
  {
    if n == 0 then 0 else Initial(ops, n - 1, key) + CreatedBy(After(ops, n - 1), ops[n - 1], key)
  }

  // What went out of a fund in accepted disbursements.
  function Disbursed(ops: seq<Op>, n: nat, key: FundKey): int
    requires n <= |ops|
  {
    if n == 0 then 0 else Disbursed(ops, n - 1, key) + PaidBy(After(ops, n - 1), ops[n - 1], key)
  }

  function Share(balances: map<BalanceKey, int>, key: FundKey): BalanceKey -> int {
    (k: BalanceKey) => if (k.0, k.1) == key && k in balances then balances[k] else 0
  }

  // What the custodians of a fund hold together.
  ghost function HeldByCustodians(balances: map<BalanceKey, int>, key: FundKey): int {
    SumOver(balances.Keys, Share(balances, key))
  }

  lemma HeldAfterUpdate(balances: map<BalanceKey, int>, k: BalanceKey, v: int, key: FundKey)
    ensures HeldByCustodians(balances[k := v], key)
         == HeldByCustodians(balances, key) + if (k.0, k.1) == key then v - BalanceOf(balances, k) else 0
  {
    ChangeOne(balances.Keys, Share(balances, key), balances[k := v].Keys, Share(balances[k := v], key), k);
  }

  // Custodians hold nothing of a fund that does not exist; nothing is ever negative.
  ghost predicate Sound(s: State) {
    && (forall key :: key in s.funds ==> s.funds[key].available >= 0)
    && (forall k :: k in s.balances ==> (k.0, k.1) in s.funds && s.balances[k] >= 0)
  }

  lemma {:induction false} RunIsSound(ops: seq<Op>, n: nat)
    requires n <= |ops|
    ensures Sound(After(ops, n))
  {
    if n == 0 {
    } else {
      RunIsSound(ops, n - 1);
    }
  }

  function Available(s: State, key: FundKey): int {
    if key in s.funds then s.funds[key].available else 0
  }

  ghost function Present(s: State, key: FundKey): int {
    Available(s, key) + HeldByCustodians(s.balances, key)
  }

  lemma StepConserves(s: State, op: Op, key: FundKey)
    requires Sound(s) && (op.Create? ==> KeyOf(op) !in s.funds)
    ensures Present(Apply(s, op).0, key) + PaidBy(s, op, key) == Present(s, key) + CreatedBy(s, op, key)
  {
    if op.Allocate? {
      var k := (op.tenant, op.fund, op.custodian);
      HeldAfterUpdate(s.balances, k, BalanceOf(s.balances, k) + op.amount, key);
    } else if op.Issue? {
      var k := (op.tenant, op.fund, op.custodian);
      HeldAfterUpdate(s.balances, k, BalanceOf(s.balances, k) - op.amount, key);
    }
  }

  // Money is neither made nor lost: what a fund started with is what is available, plus
  // what its custodians hold, plus what was disbursed.
  lemma {:induction false} MoneyIsConserved(ops: seq<Op>, n: nat, key: FundKey)
    requires n <= |ops| && FreshIds(ops, n)
    ensures Initial(ops, n, key) == Present(After(ops, n), key) + Disbursed(ops, n, key)
  {
    if n == 0 {
    } else {
      MoneyIsConserved(ops, n - 1, key);
      RunIsSound(ops, n - 1);
      StepConserves(After(ops, n - 1), ops[n - 1], key);
    }
  }

  lemma {:induction false} InitialIsBounded(ops: seq<Op>, n: nat, key: FundKey)
    requires n <= |ops| && FreshIds(ops, n)
    ensures 0 <= Initial(ops, n, key) <= MAX_INT64
    ensures key !in After(ops, n).funds ==> Initial(ops, n, key) == 0
  {
    if n == 0 {
    } else {
      InitialIsBounded(ops, n - 1, key);
    }
  }

  lemma {:induction false} DisbursedIsNotNegative(ops: seq<Op>, n: nat, key: FundKey)
    requires n <= |ops|
    ensures Disbursed(ops, n, key) >= 0
  {
    if n == 0 {
    } else {
      DisbursedIsNotNegative(ops, n - 1, key);
    }
  }

  // Although the service only looks at single amounts, no balance ever leaves the
  // 64-bit range.
  lemma BalancesFitInt64(ops: seq<Op>, n: nat, k: BalanceKey)
    requires n <= |ops| && FreshIds(ops, n) && k in After(ops, n).balances
    ensures 0 <= After(ops, n).balances[k] <= HeldByCustodians(After(ops, n).balances, (k.0, k.1)) <= MAX_INT64
    ensures (k.0, k.1) in After(ops, n).funds && 0 <= After(ops, n).funds[(k.0, k.1)].available <= MAX_INT64
  {
    var key := (k.0, k.1);
    RunIsSound(ops, n);
    MoneyIsConserved(ops, n, key);
    InitialIsBounded(ops, n, key);
    DisbursedIsNotNegative(ops, n, key);
    EachIsAtMostTheSum(After(ops, n).balances.Keys, Share(After(ops, n).balances, key), k);
  }

  // A call for one tenant leaves every other tenant's funds and balances alone.
  lemma TenantsAreApart(s: State, op: Op, tenant: Id)
    requires op.tenant != tenant
    ensures forall f :: Lookup(Apply(s, op).0.funds, (tenant, f)) == Lookup(s.funds, (tenant, f))
    ensures forall f, c :: BalanceOf(Apply(s, op).0.balances, (tenant, f, c)) == BalanceOf(s.balances, (tenant, f, c))
  {
  }

  function Lookup(funds: map<FundKey, Fund>, key: FundKey): Option<Fund> {
    if key in funds then Some(funds[key]) else None
  }
}
