// The balance cache of src/infrastructure/cache/redis_balance_cache.py: one Lua script
// as an atomic compare-and-set over a store of string keys, any number of callers
// interleaving their operations.
module BalanceCache {
  import opened Basics

  type Store = map<string, int>

  // ----- keys -----

  const PREFIX := "pettyflow:{"
  const BALANCE := "}:balance"
  const VERSION := "}:version"

  // The hash tag shared by the two keys of an account.
  function Tag(tenant: string, account: string): string {
    tenant + ":" + account
  }

  function BalanceKey(tag: string): string {
    PREFIX + tag + BALANCE
  }

  function VersionKey(tag: string): string {
    PREFIX + tag + VERSION
  }

  lemma BalanceKeysDiffer(x: string, y: string)
    requires BalanceKey(x) == BalanceKey(y)
    ensures x == y
  {
    MiddleOf(PREFIX, x, BALANCE);
    MiddleOf(PREFIX, y, BALANCE);
  }

  lemma VersionKeysDiffer(x: string, y: string)
    requires VersionKey(x) == VersionKey(y)
    ensures x == y
  {
    MiddleOf(PREFIX, x, VERSION);
    MiddleOf(PREFIX, y, VERSION);
  }

  lemma MiddleOf(p: string, x: string, q: string)
    ensures (p + x + q)[|p|..|p + x + q| - |q|] == x
  {
  }

  lemma KindsDiffer(x: string, y: string)
    ensures BalanceKey(x) != VersionKey(y)
  {
    var b, v := BalanceKey(x), VersionKey(y);
    assert b[|b| - 1] == 'e' && v[|v| - 1] == 'n';
  }

  // Some account of the one tenant shares its keys with some account of the other.
  ghost predicate ShareAKey(t: string, u: string) {
    exists a, b :: a != "" && b != "" && Tag(t, a) == Tag(u, b)
  }

  // One tenant id is the other with a colon and more appended.
  predicate Overlap(t: string, u: string) {
    t + ":" <= u || u + ":" <= t
  }

  lemma LongerTenantOverlaps(t: string, a: string, u: string, b: string)
    requires Tag(t, a) == Tag(u, b) && |t| < |u|
    ensures t + ":" <= u
  {
    var x := Tag(t, a);
    assert (t + ":") == x[..|t| + 1] && u == x[..|u|];
  }

  // Whatever the ids contain: accounts of different tenants share keys only if the
  // tenant ids overlap, and accounts of one tenant never do.
  lemma SharedTag(t: string, a: string, u: string, b: string)
    requires Tag(t, a) == Tag(u, b)
    ensures (t == u && a == b) || (t != u && Overlap(t, u))
  {
    var x := Tag(t, a);
    if |t| < |u| {
      LongerTenantOverlaps(t, a, u, b);
    } else if |u| < |t| {
      LongerTenantOverlaps(u, b, t, a);
    } else {
      assert t == x[..|t|] && u == x[..|u|];
      assert a == x[|t| + 1..] && b == x[|u| + 1..];
    }
  }

  // Ids that overlap: the rest of the longer one becomes part of an account id.
  lemma OverlapSharesAKey(t: string, u: string)
    requires t + ":" <= u
    ensures ShareAKey(t, u)
  {
    var rest := u[|t| + 1..];
    assert u == t + ":" + rest;
    assert Tag(t, rest + ":x") == Tag(u, "x");
    assert rest + ":x" != "" && "x" != "";
  }

  // Different tenants have accounts that share their keys exactly when their ids
  // overlap.
  lemma TenantsShareAKeyExactlyWhen(t: string, u: string)
    requires t != u
    ensures ShareAKey(t, u) <==> Overlap(t, u)
  {
    if ShareAKey(t, u) {
      var a, b :| a != "" && b != "" && Tag(t, a) == Tag(u, b);
      SharedTag(t, a, u, b);
    }
    if t + ":" <= u {
      OverlapSharesAKey(t, u);
    } else if u + ":" <= t {
      OverlapSharesAKey(u, t);
      var b, a :| b != "" && a != "" && Tag(u, b) == Tag(t, a);
      assert Tag(t, a) == Tag(u, b);
    }
  }

  // ----- the script and the operations -----

  function ValueAt(s: Store, key: string): int {
    if key in s then s[key] else 0
  }

  const ANY_VERSION := -1

  // The script answers with two integers; the codes -1 and -2 stand for errors.
  function Script(s: Store, balanceKey: string, versionKey: string, delta: int, expected: int): (Store, int, int) {
    var version := ValueAt(s, versionKey);
    if expected != ANY_VERSION && version != expected then (s, -1, version)
    else
      var balance := ValueAt(s, balanceKey);
      if balance + delta < 0 then (s, -2, balance)
      else (s[balanceKey := balance + delta][versionKey := version + 1], balance + delta, version + 1)
  }

  datatype Reply =
    | Missing
    | Found(balance: int, version: int)
    | Stored
    | Updated(balance: int, version: int)
    | Conflict(current: int)
    | Insufficient(current: int)
    | Refused

  function Decode(status: int, payload: int): Reply {
    if status == -1 then Conflict(payload)
    else if status == -2 then Insufficient(payload)
    else Updated(status, payload)
  }

  datatype Op =
    | Read(tenant: string, account: string)
    | Set(tenant: string, account: string, amount: int, version: int)
    | Increment(tenant: string, account: string, delta: int, expected: int)
    | Invalidate(tenant: string, account: string)
  {
    function TagOf(): string {
      Tag(tenant, account)
    }

    predicate Refused() {
      tenant == "" || account == "" || (Set? && version < 0)
    }

    // Replaces or removes what is stored for the account.
    predicate Resets() {
      !Refused() && (Set? || Invalidate?)
    }
  }

  function Apply(s: Store, op: Op): (Store, Reply) {
    var bk, vk := BalanceKey(op.TagOf()), VersionKey(op.TagOf());
    if op.Refused() then (s, Refused)
    else match op
      case Read(_, _) => (s, if bk !in s then Missing else Found(s[bk], if vk in s then s[vk] else 1))
      case Set(_, _, amount, version) => (s[bk := amount][vk := version], Stored)
      case Increment(_, _, delta, expected) =>
        var r := Script(s, bk, vk, delta, expected);
        (r.0, Decode(r.1, r.2))
      case Invalidate(_, _) => (s - {bk, vk}, Stored)
  }

  class RedisBalanceCache {
    var store: Store

    constructor ()
      ensures store == map[]
    {
      store := map[];
    }

    method GetBalance(tenant: string, account: string) returns (r: Reply)
      ensures (store, r) == Apply(store, Read(tenant, account))
    {
      if tenant == "" || account == "" {
        return Refused;
      }
      var tag := Tag(tenant, account);
      if BalanceKey(tag) !in store {
        return Missing;
      }
      var version := if VersionKey(tag) in store then store[VersionKey(tag)] else 1;
      return Found(store[BalanceKey(tag)], version);
    }

    method SetBalance(tenant: string, account: string, amount: int, version: int) returns (r: Reply)
      modifies this
      ensures (store, r) == Apply(old(store), Set(tenant, account, amount, version))
    {
      if version < 0 || tenant == "" || account == "" {
        return Refused;
      }
      store := store[BalanceKey(Tag(tenant, account)) := amount];
      store := store[VersionKey(Tag(tenant, account)) := version];
      return Stored;
    }

    method Eval(balanceKey: string, versionKey: string, delta: int, expected: int) returns (status: int, payload: int)
      modifies this
      ensures (store, status, payload) == Script(old(store), balanceKey, versionKey, delta, expected)
    {
      var version := ValueAt(store, versionKey);
      if expected != ANY_VERSION && version != expected {
        return -1, version;
      }
      var balance := ValueAt(store, balanceKey);
      var newBalance := balance + delta;
      if newBalance < 0 {
        return -2, balance;
      }
      store := store[balanceKey := newBalance];
      store := store[versionKey := version + 1];
      return newBalance, version + 1;
    }

    method AtomicIncrementBalance(tenant: string, account: string, delta: int, expected: int) returns (r: Reply)
      modifies this
      ensures (store, r) == Apply(old(store), Increment(tenant, account, delta, expected))
    {
      if tenant == "" || account == "" {
        return Refused;
      }
      var status, payload := Eval(BalanceKey(Tag(tenant, account)), VersionKey(Tag(tenant, account)), delta, expected);
      r := Decode(status, payload);
    }

    method InvalidateCache(tenant: string, account: string) returns (r: Reply)
      modifies this
      ensures (store, r) == Apply(old(store), Invalidate(tenant, account))
    {
      if tenant == "" || account == "" {
        return Refused;
      }
      store := store - {BalanceKey(Tag(tenant, account)), VersionKey(Tag(tenant, account))};
      return Stored;
    }
  }

  // ----- one account at a time -----

  datatype Slot = Slot(balance: Option<int>, version: Option<int>) {
    predicate Paired() {
      balance.Some? <==> version.Some?
    }
  }

  function Lookup(s: Store, key: string): Option<int> {
    if key in s then Some(s[key]) else None
  }

  function At(s: Store, tag: string): Slot {
    Slot(Lookup(s, BalanceKey(tag)), Lookup(s, VersionKey(tag)))
  }

  function OrZero(v: Option<int>): int {
    if v.Some? then v.value else 0
  }

  // What the script does to the slot it addresses, with its three outcomes told apart
  // directly and not through codes.
  function Incremented(slot: Slot, delta: int, expected: int): (Slot, Reply) {
    var b, v := OrZero(slot.balance), OrZero(slot.version);
    if expected != ANY_VERSION && v != expected then (slot, Conflict(v))
    else if b + delta < 0 then (slot, Insufficient(b))
    else (Slot(Some(b + delta), Some(v + 1)), Updated(b + delta, v + 1))
  }

  // No success is taken for an error, nor an error for a success.
  lemma ScriptIsDecodedRight(s: Store, tag: string, delta: int, expected: int)
    ensures var r := Script(s, BalanceKey(tag), VersionKey(tag), delta, expected);
            (At(r.0, tag), Decode(r.1, r.2)) == Incremented(At(s, tag), delta, expected)
  {
    KindsDiffer(tag, tag);
  }

  lemma OthersUntouched(s: Store, op: Op, tag: string)
    requires op.TagOf() != tag
    ensures At(Apply(s, op).0, tag) == At(s, tag)
  {
    var x := op.TagOf();
    KindsDiffer(x, tag);
    KindsDiffer(tag, x);
    if BalanceKey(x) == BalanceKey(tag) { BalanceKeysDiffer(x, tag); }
    if VersionKey(x) == VersionKey(tag) { VersionKeysDiffer(x, tag); }
  }

  // An operation touches no account but its own, unless the two tenant ids overlap.
  lemma AccountsAreIsolated(s: Store, op: Op, tenant: string, account: string)
    requires op.tenant != tenant || op.account != account
    requires op.tenant != tenant ==> !Overlap(op.tenant, tenant)
    ensures At(Apply(s, op).0, Tag(tenant, account)) == At(s, Tag(tenant, account))
  {
    if Tag(op.tenant, op.account) == Tag(tenant, account) {
      SharedTag(op.tenant, op.account, tenant, account);
    }
    OthersUntouched(s, op, Tag(tenant, account));
  }

  // No call of tenant t ever changes an account of tenant u.
  ghost predicate Isolated(t: string, u: string) {
    forall s: Store, op: Op, account: string :: op.tenant == t && account != "" ==> LeavesAlone(s, op, u, account)
  }

  predicate LeavesAlone(s: Store, op: Op, tenant: string, account: string) {
    At(Apply(s, op).0, Tag(tenant, account)) == At(s, Tag(tenant, account))
  }

  // Two tenants are isolated exactly when their ids do not overlap.
  lemma TenantsAreIsolatedExactlyWhen(t: string, u: string)
    requires t != u && t != ""
    ensures Isolated(t, u) <==> !Overlap(t, u)
  {
    TenantsShareAKeyExactlyWhen(t, u);
    if !Overlap(t, u) {
      forall s: Store, op: Op, account: string | op.tenant == t && account != "" ensures LeavesAlone(s, op, u, account) {
        AccountsAreIsolated(s, op, u, account);
      }
    } else {
      var a, b :| a != "" && b != "" && Tag(t, a) == Tag(u, b);
      SettingIsSeen(t, a);
      assert !LeavesAlone(map[], Set(t, a, 0, 0), u, b);
    }
  }

  lemma SettingIsSeen(t: string, a: string)
    requires t != "" && a != ""
    ensures At(Apply(map[], Set(t, a, 0, 0)).0, Tag(t, a)) != At(map[], Tag(t, a))
  {
    KindsDiffer(Tag(t, a), Tag(t, a));
  }

  // ----- runs: any interleaving is one sequence of atomic operations -----

  function After(s: Store, ops: seq<Op>, n: nat): Store
    requires n <= |ops|
  {
    if n == 0 then s else Apply(After(s, ops, n - 1), ops[n - 1]).0
  }

  function ReplyTo(s: Store, ops: seq<Op>, i: nat): Reply
    requires i < |ops|
  {
    Apply(After(s, ops, i), ops[i]).1
  }

  predicate AcceptedAt(s: Store, ops: seq<Op>, tag: string, i: nat)
    requires i < |ops|
  {
    ops[i].Increment? && ops[i].TagOf() == tag && ReplyTo(s, ops, i).Updated?
  }

  function AcceptedCount(s: Store, ops: seq<Op>, tag: string, i: nat, j: nat): nat
    requires i <= j <= |ops|
    decreases j - i
  {
    if i == j then 0 else AcceptedCount(s, ops, tag, i, j - 1) + if AcceptedAt(s, ops, tag, j - 1) then 1 else 0
  }

  function AcceptedSum(s: Store, ops: seq<Op>, tag: string, i: nat, j: nat): int
    requires i <= j <= |ops|
    decreases j - i
  {
    if i == j then 0 else AcceptedSum(s, ops, tag, i, j - 1) + if AcceptedAt(s, ops, tag, j - 1) then ops[j - 1].delta else 0
  }

  predicate NoReset(ops: seq<Op>, tag: string, i: nat, j: nat)
    requires i <= j <= |ops|
  {
    forall k :: i <= k < j ==> !(ops[k].Resets() && ops[k].TagOf() == tag)
  }

  lemma StepOnSlot(s: Store, op: Op, tag: string)
    requires !(op.Resets() && op.TagOf() == tag)
    ensures var r := Apply(s, op);
            if op.Increment? && op.TagOf() == tag && !op.Refused()
            then (At(r.0, tag), r.1) == Incremented(At(s, tag), op.delta, op.expected)
            else At(r.0, tag) == At(s, tag) && !(r.1.Updated? && op.TagOf() == tag)
  {
    if op.TagOf() != tag {
      OthersUntouched(s, op, tag);
    } else if op.Increment? && !op.Refused() {
      ScriptIsDecodedRight(s, tag, op.delta, op.expected);
    }
  }

  // After j operations the account holds this balance, no debt, at this version.
  predicate HoldsAt(s: Store, ops: seq<Op>, tag: string, j: nat, b: int, v: int)
    requires j <= |ops|
  {
    b >= 0 && At(After(s, ops, j), tag) == Slot(Some(b), Some(v))
  }

  // What operation j adds to the balance and to the version.
  function Gain(s: Store, ops: seq<Op>, tag: string, j: nat): (int, nat)
    requires j < |ops|
  {
    if AcceptedAt(s, ops, tag, j) then (ops[j].delta, 1) else (0, 0)
  }

  lemma RunStep(s: Store, ops: seq<Op>, tag: string, j: nat, b: int, v: int)
    requires j < |ops| && !(ops[j].Resets() && ops[j].TagOf() == tag)
    requires HoldsAt(s, ops, tag, j, b, v)
    ensures HoldsAt(s, ops, tag, j + 1, b + Gain(s, ops, tag, j).0, v + Gain(s, ops, tag, j).1)
  {
    StepOnSlot(After(s, ops, j), ops[j], tag);
  }

  // Between two resets of an account the balance is what it was plus every accepted
  // delta and never negative, and the version counts the accepted updates.
  lemma {:induction false} BalanceIsTheSumOfAcceptedDeltas(s: Store, ops: seq<Op>, tag: string, i: nat, j: nat, b: int, v: int)
    requires i <= j <= |ops| && NoReset(ops, tag, i, j)
    requires HoldsAt(s, ops, tag, i, b, v)
    ensures HoldsAt(s, ops, tag, j, b + AcceptedSum(s, ops, tag, i, j), v + AcceptedCount(s, ops, tag, i, j))
    decreases j - i
  {
    if i < j {
      BalanceIsTheSumOfAcceptedDeltas(s, ops, tag, i, j - 1, b, v);
      RunStep(s, ops, tag, j - 1, b + AcceptedSum(s, ops, tag, i, j - 1), v + AcceptedCount(s, ops, tag, i, j - 1));
    }
  }

  // An update that names the version seen at i meets a conflict exactly when another
  // update was accepted since, and otherwise succeeds exactly when the money is there.
  lemma VersionedUpdate(s: Store, ops: seq<Op>, tag: string, i: nat, j: nat, b: int, v: int)
    requires i <= j < |ops| && NoReset(ops, tag, i, j)
    requires HoldsAt(s, ops, tag, i, b, v) && v >= 0
    requires ops[j].Increment? && !ops[j].Refused() && ops[j].TagOf() == tag && ops[j].expected == v
    ensures ReplyTo(s, ops, j).Conflict? <==> AcceptedCount(s, ops, tag, i, j) > 0
    ensures ReplyTo(s, ops, j).Updated? <==> AcceptedCount(s, ops, tag, i, j) == 0 && b + ops[j].delta >= 0
    ensures ReplyTo(s, ops, j).Updated? ==> ReplyTo(s, ops, j) == Updated(b + ops[j].delta, v + 1)
  {
    BalanceIsTheSumOfAcceptedDeltas(s, ops, tag, i, j, b, v);
    StepOnSlot(After(s, ops, j), ops[j], tag);
    if AcceptedCount(s, ops, tag, i, j) == 0 { NoneAcceptedAddsNothing(s, ops, tag, i, j); }
  }

  lemma {:induction false} NoneAcceptedAddsNothing(s: Store, ops: seq<Op>, tag: string, i: nat, j: nat)
    requires i <= j <= |ops| && AcceptedCount(s, ops, tag, i, j) == 0
    ensures AcceptedSum(s, ops, tag, i, j) == 0
    decreases j - i
  {
    if i < j { NoneAcceptedAddsNothing(s, ops, tag, i, j - 1); }
  }

  ghost predicate AllPaired(s: Store) {
    forall tag: string :: At(s, tag).Paired()
  }

  lemma StepKeepsPaired(s: Store, op: Op)
    requires AllPaired(s)
    ensures AllPaired(Apply(s, op).0)
  {
    var s' := Apply(s, op).0;
    forall tag: string ensures At(s', tag).Paired() {
      assert At(s, tag).Paired();
      if op.TagOf() != tag {
        OthersUntouched(s, op, tag);
      } else if !op.Resets() {
        StepOnSlot(s, op, tag);
      } else {
        KindsDiffer(tag, tag);
      }
    }
  }

  // The balance and the version of an account are both present or both absent, after
  // any run from the empty store: the default version of a read is never needed.
  lemma {:induction false} KeysComeInPairs(ops: seq<Op>, n: nat)
    requires n <= |ops|
    ensures AllPaired(After(map[], ops, n))
  {
    if n > 0 {
      KeysComeInPairs(ops, n - 1);
      StepKeepsPaired(After(map[], ops, n - 1), ops[n - 1]);
    } else {
      assert forall tag: string :: At(map[], tag) == Slot(None, None);
    }
  }

  // Whatever was set before, an accepted update leaves no debt, and a refused one
  // changes nothing.
  lemma AcceptedLeavesNoDebt(s: Store, op: Op)
    ensures Apply(s, op).1.Updated? ==> Apply(s, op).1.balance >= 0
    ensures Apply(s, op).1.Updated? ==> At(Apply(s, op).0, op.TagOf()) == Slot(Some(Apply(s, op).1.balance), Some(Apply(s, op).1.version))
    ensures Apply(s, op).1.Conflict? || Apply(s, op).1.Insufficient? ==> Apply(s, op).0 == s
  {
    KindsDiffer(op.TagOf(), op.TagOf());
  }
}
