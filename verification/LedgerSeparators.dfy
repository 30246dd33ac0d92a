// Which separators the fields of a ledger block may hold without two blocks ever having
// the same canonical bytes (src/domain/ledger/hash_chain.py).
module LedgerSeparators {
  import opened Basics
  import opened CanonicalBytes
  import opened JoinedParts
  import opened LedgerChain

  // What callers are let to put into the fields. Bars in account ids and stored kinds,
  // colons in account ids and semicolons in stored kinds are always let through.
  datatype FieldPolicy = FieldPolicy(
    barsInTenant: bool, barsInTransaction: bool, barsInDescription: bool, barsInTimestamp: bool,
    semicolonsInAccounts: bool, colonsInKinds: bool)

  predicate Obeys(p: FieldPolicy, b: LedgerBlock) {
    && (p.barsInTenant || FreeOf(b.tenantId, '|'))
    && (p.barsInTransaction || FreeOf(b.transactionId, '|'))
    && (p.barsInDescription || FreeOf(b.description, '|'))
    && (p.barsInTimestamp || FreeOf(b.timestamp, '|'))
    && forall l :: l in b.legs ==> (p.semicolonsInAccounts || FreeOf(l.acct, ';')) && (p.colonsInKinds || FreeOf(l.kind, ':'))
  }

  // Blocks that hold to the policy and whose previous hashes are n bytes long are told
  // apart by their bytes, in everything but their own hash.
  ghost predicate Decodable(p: FieldPolicy, n: nat) {
    forall a: LedgerBlock, b: LedgerBlock ::
      Obeys(p, a) && Obeys(p, b) && |a.previousHash| == n == |b.previousHash| && Canonical(a) == Canonical(b) ==> a == b.(currentHash := a.currentHash)
  }

  predicate Strict(p: FieldPolicy) {
    && !p.barsInTenant && !p.barsInTransaction && !p.barsInDescription && !p.barsInTimestamp
    && !p.semicolonsInAccounts && !p.colonsInKinds
  }

  // ----- one bar too many -----

  datatype Slot = Tenant | Transaction | Description | Timestamp

  // A block with one text in a field, another in the account id of its one leg, and
  // nothing in the other fields.
  function Filled(slot: Slot, n: nat, text: string, acct: string): LedgerBlock {
    var b := LedgerBlock(1, "", "", "", [Leg(acct, "DEBIT", 1)], Repeat(0x30, n), [], "");
    match slot
    case Tenant => b.(tenantId := text)
    case Transaction => b.(transactionId := text)
    case Description => b.(description := text)
    case Timestamp => b.(timestamp := text)
  }

  // What then stands between the two: bars, the previous hash, and bars.
  function Between(slot: Slot, n: nat): string {
    match slot
    case Tenant => "|||" + Repeat('0', n) + "||"
    case Transaction => "||" + Repeat('0', n) + "||"
    case Description => "|" + Repeat('0', n) + "||"
    case Timestamp => "|"
  }

  function BetweenBytes(slot: Slot, n: nat): Bytes {
    match slot
    case Tenant => [BAR, BAR, BAR] + Repeat(0x30, n) + [BAR, BAR]
    case Transaction => [BAR, BAR] + Repeat(0x30, n) + [BAR, BAR]
    case Description => [BAR] + Repeat(0x30, n) + [BAR, BAR]
    case Timestamp => [BAR]
  }

  lemma TextBetween(slot: Slot, n: nat)
    ensures Utf8(Between(slot, n)) == BetweenBytes(slot, n)
  {
    BarsAreText();
    match slot {
      case Tenant => Around("|||", n);
      case Transaction => Around("||", n);
      case Description => Around("|", n);
      case Timestamp =>
    }
  }

  lemma BarsAreText()
    ensures Utf8("|") == [BAR] && Utf8("||") == [BAR, BAR] && Utf8("|||") == [BAR, BAR, BAR]
  {
    Utf8OfAscii("|");
    Utf8OfAscii("||");
    Utf8OfAscii("|||");
  }

  lemma Around(bars: string, n: nat)
    ensures Utf8(bars + Repeat('0', n) + "||") == Utf8(bars) + Repeat(0x30, n) + Utf8("||")
  {
    ZerosAreText(n);
    Utf8Append(bars + Repeat('0', n), "||");
    Utf8Append(bars, Repeat('0', n));
  }

  lemma {:induction false} ZerosAreText(n: nat)
    ensures Utf8(Repeat('0', n)) == Repeat(0x30, n)
  {
    Utf8OfAscii(Repeat('0', n));
  }

  // Nested fields, with nothing in the empty ones, as one run of bytes.
  lemma TenantApart(t: Bytes, z: Bytes, x: Bytes)
    ensures Field(t, BAR, Field([], BAR, Field([], BAR, Field(z, BAR, Field([], BAR, x))))) == t + ([BAR, BAR, BAR] + z + [BAR, BAR]) + x
  {
  }

  lemma TransactionApart(t: Bytes, z: Bytes, x: Bytes)
    ensures Field(t, BAR, Field([], BAR, Field(z, BAR, Field([], BAR, x)))) == t + ([BAR, BAR] + z + [BAR, BAR]) + x
  {
  }

  lemma DescriptionApart(t: Bytes, z: Bytes, x: Bytes)
    ensures Field(t, BAR, Field(z, BAR, Field([], BAR, x))) == t + ([BAR] + z + [BAR, BAR]) + x
  {
  }

  lemma LegApart(acct: string)
    ensures Join(LegParts([Leg(acct, "DEBIT", 1)])) == Utf8(acct) + RestOfLeg()
  {
    assert LegParts([Leg(acct, "DEBIT", 1)]) == [LegBytes(Leg(acct, "DEBIT", 1))];
  }

  function RestOfLeg(): Bytes {
    [COLON] + Field(DEBIT_BYTES, COLON, Decimal(1))
  }

  // What comes before the field does not depend on the text in it.
  function Before(slot: Slot, n: nat, rest: Bytes): Bytes {
    match slot
    case Tenant => Field(Decimal(1), BAR, rest)
    case Transaction => Field(Decimal(1), BAR, Field([], BAR, rest))
    case Description => Field(Decimal(1), BAR, Field([], BAR, Field([], BAR, rest)))
    case Timestamp => Field(Decimal(1), BAR, Field([], BAR, Field([], BAR, Field([], BAR, Field(Repeat(0x30, n), BAR, rest)))))
  }

  lemma FilledBytes(slot: Slot, n: nat, text: string, acct: string)
    ensures Canonical(Filled(slot, n, text, acct)) == Before(slot, n, Utf8(text) + BetweenBytes(slot, n) + (Utf8(acct) + RestOfLeg()))
  {
    var t, z, x := Utf8(text), Repeat(0x30, n), Utf8(acct) + RestOfLeg();
    LegApart(acct);
    match slot {
      case Tenant => TenantApart(t, z, x);
      case Transaction => TransactionApart(t, z, x);
      case Description => DescriptionApart(t, z, x);
      case Timestamp =>
    }
  }

  // The text in between, put before itself or after itself, is the same run of bytes.
  lemma OneBarTooMany(slot: Slot, n: nat, s: string)
    requires Utf8(s) == BetweenBytes(slot, n)
    ensures Canonical(Filled(slot, n, s, "")) == Canonical(Filled(slot, n, "", s))
  {
    FilledBytes(slot, n, s, "");
    FilledBytes(slot, n, "", s);
    PutBeforeOrAfter(BetweenBytes(slot, n), RestOfLeg());
  }

  lemma PutBeforeOrAfter(w: Bytes, rest: Bytes)
    ensures w + w + ([] + rest) == [] + w + (w + rest)
  {
  }

  predicate BarsAllowed(p: FieldPolicy, slot: Slot) {
    match slot
    case Tenant => p.barsInTenant
    case Transaction => p.barsInTransaction
    case Description => p.barsInDescription
    case Timestamp => p.barsInTimestamp
  }

  // Two blocks with different legs and the same bytes.
  lemma Undecodable(p: FieldPolicy, n: nat, a: LedgerBlock, b: LedgerBlock)
    requires Obeys(p, a) && Obeys(p, b) && |a.previousHash| == n == |b.previousHash|
    requires Canonical(a) == Canonical(b) && a.legs != b.legs
    ensures !Decodable(p, n)
  {
    assert a != b.(currentHash := a.currentHash);
  }

  lemma FilledObeys(p: FieldPolicy, slot: Slot, n: nat, text: string, acct: string)
    requires text == "" || BarsAllowed(p, slot)
    requires FreeOf(acct, ';')
    ensures Obeys(p, Filled(slot, n, text, acct))
  {
  }

  lemma BarsBreakDecoding(p: FieldPolicy, n: nat, slot: Slot)
    requires BarsAllowed(p, slot)
    ensures !Decodable(p, n)
  {
    var s := Between(slot, n);
    TextBetween(slot, n);
    OneBarTooMany(slot, n, s);
    FilledObeys(p, slot, n, s, "");
    FilledObeys(p, slot, n, "", s);
    assert Leg("", "DEBIT", 1).acct != Leg(s, "DEBIT", 1).acct;
    assert Filled(slot, n, s, "").legs[0] != Filled(slot, n, "", s).legs[0];
    Undecodable(p, n, Filled(slot, n, s, ""), Filled(slot, n, "", s));
  }

  // ----- the two conditions on legs -----

  function WithLegs(n: nat, legs: seq<Leg>): LedgerBlock {
    LedgerBlock(1, "", "", "", legs, Repeat(0x30, n), [], "")
  }

  lemma SemicolonsBreakDecoding(p: FieldPolicy, n: nat)
    requires p.semicolonsInAccounts
    ensures !Decodable(p, n)
  {
    var l := Leg("", "DEBIT", 1);
    var m := l.(acct := WithFirstLeg("", l.acct));
    SemicolonsAreAmbiguous(WithLegs(n, []), "", l);
    assert |[l, l]| != |[m]|;
    Undecodable(p, n, WithLegs(n, [l, l]), WithLegs(n, [m]));
  }

  lemma ColonsBreakDecoding(p: FieldPolicy, n: nat)
    requires p.colonsInKinds
    ensures !Decodable(p, n)
  {
    var l, m := Leg("", "" + ":" + "", 1), Leg("" + ":" + "", "", 1);
    ColonsInKindsAreAmbiguous(WithLegs(n, []), "", "", "", 1);
    assert l.acct != m.acct && [l][0] != [m][0];
    Undecodable(p, n, WithLegs(n, [l]), WithLegs(n, [m]));
  }

  lemma StrictDecodes(p: FieldPolicy, n: nat)
    requires Strict(p)
    ensures Decodable(p, n)
  {
    forall a: LedgerBlock, b: LedgerBlock | Obeys(p, a) && Obeys(p, b) && |a.previousHash| == n == |b.previousHash| && Canonical(a) == Canonical(b)
      ensures a == b.(currentHash := a.currentHash)
    {
      CanonicalDecodes(a, b);
    }
  }

  // The bytes identify the block exactly under the policy that keeps bars out of the four
  // text fields, semicolons out of account ids and colons out of stored kinds.
  lemma DecodableExactlyWhenStrict(p: FieldPolicy, n: nat)
    ensures Decodable(p, n) <==> Strict(p)
  {
    if Strict(p) {
      StrictDecodes(p, n);
    } else if p.semicolonsInAccounts {
      SemicolonsBreakDecoding(p, n);
    } else if p.colonsInKinds {
      ColonsBreakDecoding(p, n);
    } else {
      var slot :| BarsAllowed(p, slot);
      BarsBreakDecoding(p, n, slot);
    }
  }
}
