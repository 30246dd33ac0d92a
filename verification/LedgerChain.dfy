// The hash-chained ledger (src/domain/ledger/hash_chain.py and entry.py). HMAC is an
// arbitrary function; what is needed of it is stated where it is needed.
module LedgerChain {
  import opened Basics
  import opened CanonicalBytes
  import opened HashChains
  import opened JoinedParts

  // b"0" * 32: the digit, not the zero byte.
  const GENESIS: Bytes := Repeat(0x30, 32)
  const DEBIT_BYTES: Bytes := [0x44, 0x45, 0x42, 0x49, 0x54]
  const CREDIT_BYTES: Bytes := [0x43, 0x52, 0x45, 0x44, 0x49, 0x54]

  datatype EntryType = Debit | Credit

  function EntryValue(t: EntryType): string {
    if t == Debit then "DEBIT" else "CREDIT"
  }

  datatype LegData = LegData(accountId: string, entryType: EntryType, amountScaled: int)

  // A leg that could be built: its amount is positive.
  type PostingLeg = l: LegData | l.amountScaled > 0 witness LegData("", Debit, 1)

  function NewPostingLeg(accountId: string, entryType: EntryType, amountScaled: int): (leg: Option<PostingLeg>)
    ensures leg.None? <==> amountScaled <= 0
    ensures leg.Some? ==> leg.value.accountId == accountId && leg.value.entryType == entryType && leg.value.amountScaled == amountScaled
  {
    if amountScaled <= 0 then None else Some(LegData(accountId, entryType, amountScaled))
  }

  datatype TransactionBatch = TransactionBatch(
    transactionId: string, tenantId: string, description: string, legs: seq<PostingLeg>, timestamp: string)

  // A leg as stored in a block: its type is whatever text the block holds.
  datatype Leg = Leg(acct: string, kind: string, amt: int)

  datatype LedgerBlock = LedgerBlock(
    sequenceNumber: int, tenantId: string, transactionId: string, description: string,
    legs: seq<Leg>, previousHash: Bytes, currentHash: Bytes, timestamp: string)

  // ----- the canonical encoding -----

  function KindBytes(kind: string): Bytes {
    if kind == "DEBIT" then DEBIT_BYTES else if kind == "CREDIT" then CREDIT_BYTES else Utf8(kind)
  }

  function LegBytes(l: Leg): Bytes {
    Field(Utf8(l.acct), COLON, Field(KindBytes(l.kind), COLON, Decimal(l.amt)))
  }

  function LegParts(legs: seq<Leg>): seq<Bytes> {
    seq(|legs|, i requires 0 <= i < |legs| => LegBytes(legs[i]))
  }

  function Canonical(b: LedgerBlock): Bytes {
    Field(Decimal(b.sequenceNumber), BAR,
    Field(Utf8(b.tenantId), BAR,
    Field(Utf8(b.transactionId), BAR,
    Field(Utf8(b.description), BAR,
    Field(b.previousHash, BAR,
    Field(Utf8(b.timestamp), BAR, Join(LegParts(b.legs))))))))
  }

  lemma PartsGrow(legs: seq<Leg>, i: nat)
    requires i < |legs|
    ensures LegParts(legs[..i + 1]) == LegParts(legs[..i]) + [LegBytes(legs[i])]
  {
    var grown, before, last := LegParts(legs[..i + 1]), LegParts(legs[..i]), LegBytes(legs[i]);
    assert |grown| == i + 1 && |before| == i;
    assert legs[..i + 1][i] == legs[i] && grown[i] == last;
    forall k | 0 <= k < i ensures grown[k] == before[k] {
      assert legs[..i + 1][k] == legs[..i][k];
    }
    assert grown == before + [last];
  }

  // The loop of compute_canonical_bytes.
  method ComputeCanonicalBytes(b: LedgerBlock) returns (bytes: Bytes)
    ensures bytes == Canonical(b)
  {
    var parts := [];
    for i := 0 to |b.legs|
      invariant parts == LegParts(b.legs[..i])
    {
      PartsGrow(b.legs, i);
      parts := parts + [LegBytes(b.legs[i])];
    }
    assert b.legs[..|b.legs|] == b.legs;
    bytes := Field(Decimal(b.sequenceNumber), BAR, Field(Utf8(b.tenantId), BAR, Field(Utf8(b.transactionId), BAR,
             Field(Utf8(b.description), BAR, Field(b.previousHash, BAR, Field(Utf8(b.timestamp), BAR, Join(parts)))))));
  }

  // ----- decoding -----

  predicate FreeOf(s: string, sep: char) {
    sep !in s
  }

  // The fields that a caller may not put separators into. Account ids may hold bars and
  // colons, stored kinds bars and semicolons, and the previous hash any byte.
  predicate SeparatorFree(b: LedgerBlock) {
    && FreeOf(b.tenantId, '|') && FreeOf(b.transactionId, '|') && FreeOf(b.description, '|') && FreeOf(b.timestamp, '|')
    && LegsSeparatorFree(b.legs)
  }

  predicate LegsSeparatorFree(ls: seq<Leg>) {
    forall l :: l in ls ==> FreeOf(l.acct, ';') && FreeOf(l.kind, ':')
  }

  // The two constants are what encoding the two words gives.
  lemma KindBytesAreUtf8(kind: string)
    ensures KindBytes(kind) == Utf8(kind)
  {
    if kind == "DEBIT" || kind == "CREDIT" {
      Utf8OfAscii(kind);
    }
  }

  function PartOf(l: Leg): Part {
    Part(Utf8(l.acct), Utf8(l.kind), Decimal(l.amt))
  }

  function PartsOf(ls: seq<Leg>): seq<Part> {
    seq(|ls|, i requires 0 <= i < |ls| => PartOf(ls[i]))
  }

  lemma LegPartsAreEncoded(ls: seq<Leg>)
    ensures LegParts(ls) == Encoded(PartsOf(ls))
  {
    forall i | 0 <= i < |ls| ensures LegParts(ls)[i] == Encoded(PartsOf(ls))[i] {
      KindBytesAreUtf8(ls[i].kind);
    }
  }

  lemma PartsAreReadable(ls: seq<Leg>)
    requires LegsSeparatorFree(ls)
    ensures AllReadable(PartsOf(ls))
  {
    forall i | 0 <= i < |ls| ensures Readable(PartOf(ls[i])) {
      Utf8Bytes(ls[i].acct, SEMICOLON);
      Utf8Bytes(ls[i].kind, COLON);
      if COLON in Decimal(ls[i].amt) { DecimalBytes(ls[i].amt, COLON); }
    }
  }

  lemma PartIsInjective(l: Leg, m: Leg)
    requires PartOf(l) == PartOf(m)
    ensures l == m
  {
    Utf8Injective(l.acct, m.acct);
    Utf8Injective(l.kind, m.kind);
    DecimalInjective(l.amt, m.amt);
  }

  lemma LegsDecode(ls: seq<Leg>, ms: seq<Leg>)
    requires LegsSeparatorFree(ls) && LegsSeparatorFree(ms) && Join(LegParts(ls)) == Join(LegParts(ms))
    ensures ls == ms
  {
    LegPartsAreEncoded(ls);
    LegPartsAreEncoded(ms);
    PartsAreReadable(ls);
    PartsAreReadable(ms);
    PartsDecode(PartsOf(ls), PartsOf(ms));
    assert |ls| == |PartsOf(ls)| && |ms| == |PartsOf(ms)|;
    forall i | 0 <= i < |ls| ensures ls[i] == ms[i] {
      assert PartsOf(ls)[i] == PartOf(ls[i]) && PartsOf(ms)[i] == PartOf(ms[i]);
      PartIsInjective(ls[i], ms[i]);
    }
  }

  // Equal encodings come from equal content.
  lemma CanonicalDecodes(a: LedgerBlock, b: LedgerBlock)
    requires SeparatorFree(a) && SeparatorFree(b)
    requires |a.previousHash| == |b.previousHash|
    requires Canonical(a) == Canonical(b)
    ensures a == b.(currentHash := a.currentHash)
  {
    var a1, b1 := Join(LegParts(a.legs)), Join(LegParts(b.legs));
    var a2, b2 := Field(Utf8(a.timestamp), BAR, a1), Field(Utf8(b.timestamp), BAR, b1);
    var a3, b3 := Field(a.previousHash, BAR, a2), Field(b.previousHash, BAR, b2);
    var a4, b4 := Field(Utf8(a.description), BAR, a3), Field(Utf8(b.description), BAR, b3);
    var a5, b5 := Field(Utf8(a.transactionId), BAR, a4), Field(Utf8(b.transactionId), BAR, b4);
    var a6, b6 := Field(Utf8(a.tenantId), BAR, a5), Field(Utf8(b.tenantId), BAR, b5);
    NumberSplits(a.sequenceNumber, a6, b.sequenceNumber, b6);
    TextSplits(a.tenantId, a5, b.tenantId, b5);
    TextSplits(a.transactionId, a4, b.transactionId, b4);
    TextSplits(a.description, a3, b.description, b3);
    FixedFieldSplits(a.previousHash, a2, b.previousHash, b2, BAR);
    TextSplits(a.timestamp, a1, b.timestamp, b1);
    LegsDecode(a.legs, b.legs);
  }

  // ----- what separators in the fields can do -----

  // Moving a bar from one text field to the next gives another block with the same
  // bytes, and so with the same hash: from the tenant id to the transaction id, ...
  lemma BarsAreAmbiguous(b: LedgerBlock, x: string, y: string, z: string)
    ensures Canonical(b.(tenantId := x + "|" + y, transactionId := z)) == Canonical(b.(tenantId := x, transactionId := y + "|" + z))
  {
    var rest := Field(Utf8(b.description), BAR, Field(b.previousHash, BAR, Field(Utf8(b.timestamp), BAR, Join(LegParts(b.legs)))));
    Utf8Around(x, '|', y);
    Utf8Around(y, '|', z);
    FieldsAssociate(Utf8(x), BAR, Utf8(y), BAR, Field(Utf8(z), BAR, rest));
    FieldsAssociate(Utf8(y), BAR, Utf8(z), BAR, rest);
  }

  // ... from the transaction id to the description, ...
  lemma BarsInTheDescriptionAreAmbiguous(b: LedgerBlock, x: string, y: string, z: string)
    ensures Canonical(b.(transactionId := x + "|" + y, description := z)) == Canonical(b.(transactionId := x, description := y + "|" + z))
  {
    var rest := Field(b.previousHash, BAR, Field(Utf8(b.timestamp), BAR, Join(LegParts(b.legs))));
    Utf8Around(x, '|', y);
    Utf8Around(y, '|', z);
    FieldsAssociate(Utf8(x), BAR, Utf8(y), BAR, Field(Utf8(z), BAR, rest));
    FieldsAssociate(Utf8(y), BAR, Utf8(z), BAR, rest);
  }

  // ... and from the time stamp to the first account id.
  lemma BarsInTheTimestampAreAmbiguous(b: LedgerBlock, x: string, y: string, l: Leg, more: seq<Leg>)
    ensures Canonical(b.(timestamp := x + "|" + y, legs := [l] + more)) == Canonical(b.(timestamp := x, legs := [l.(acct := y + "|" + l.acct)] + more))
  {
    Utf8Around(x, '|', y);
    JoinedWithAccount(l, y, more);
    FieldsAssociate(Utf8(x), BAR, Utf8(y), BAR, Join(LegParts([l] + more)));
  }

  lemma JoinOfFirst(l: Leg, more: seq<Leg>)
    ensures Join(LegParts([l] + more)) == if more == [] then LegBytes(l) else Field(LegBytes(l), SEMICOLON, Join(LegParts(more)))
  {
    assert LegParts([l] + more)[1..] == LegParts(more);
  }

  lemma LegWithAccount(l: Leg, y: string)
    ensures LegBytes(l.(acct := y + "|" + l.acct)) == Field(Utf8(y), BAR, LegBytes(l))
  {
    Utf8Around(y, '|', l.acct);
    FieldsAssociate(Utf8(y), BAR, Utf8(l.acct), COLON, Field(KindBytes(l.kind), COLON, Decimal(l.amt)));
  }

  lemma {:induction false} JoinedWithAccount(l: Leg, y: string, more: seq<Leg>)
    ensures Join(LegParts([l.(acct := y + "|" + l.acct)] + more)) == Field(Utf8(y), BAR, Join(LegParts([l] + more)))
  {
    JoinOfFirst(l, more);
    JoinOfFirst(l.(acct := y + "|" + l.acct), more);
    LegWithAccount(l, y);
    if more != [] { FieldsAssociate(Utf8(y), BAR, LegBytes(l), SEMICOLON, Join(LegParts(more))); }
  }

  // The account id x and the rest of a debit of 1 written out, and after it y.
  function WithFirstLeg(x: string, y: string): string {
    x + ":" + "DEBIT" + ":" + "1" + ";" + y
  }

  // A semicolon in an account id can make one leg of two.
  lemma SemicolonsAreAmbiguous(b: LedgerBlock, x: string, l: Leg)
    ensures Canonical(b.(legs := [Leg(x, "DEBIT", 1), l])) == Canonical(b.(legs := [l.(acct := WithFirstLeg(x, l.acct))]))
  {
    var first, merged := Leg(x, "DEBIT", 1), l.(acct := WithFirstLeg(x, l.acct));
    TextOfFirstLeg(x, l.acct);
    JoinOfFirst(first, [l]);
    JoinOfFirst(l, []);
    JoinOfFirst(merged, []);
    assert [first] + [l] == [first, l] && [l] + [] == [l] && [merged] + [] == [merged];
    FieldsAssociate(LegBytes(first), SEMICOLON, Utf8(l.acct), COLON, Field(KindBytes(l.kind), COLON, Decimal(l.amt)));
  }

  lemma TextOfFirstLeg(x: string, y: string)
    ensures Utf8(WithFirstLeg(x, y)) == Field(LegBytes(Leg(x, "DEBIT", 1)), SEMICOLON, Utf8(y))
  {
    Utf8Around(x + ":" + "DEBIT" + ":" + "1", ';', y);
    Utf8Around(x + ":" + "DEBIT", ':', "1");
    Utf8Around(x, ':', "DEBIT");
    KindBytesAreUtf8("DEBIT");
    Utf8OfAscii("1");
    assert Utf8("1") == [0x31] == Decimal(1);
    FieldsAssociate(Utf8(x), COLON, Utf8("DEBIT"), COLON, Decimal(1));
  }

  // A colon in a stored kind can be taken for the end of the account id.
  lemma ColonsInKindsAreAmbiguous(b: LedgerBlock, x: string, y: string, z: string, amt: int)
    ensures Canonical(b.(legs := [Leg(x, y + ":" + z, amt)])) == Canonical(b.(legs := [Leg(x + ":" + y, z, amt)]))
  {
    KindBytesAreUtf8(y + ":" + z);
    KindBytesAreUtf8(z);
    Utf8Around(x, ':', y);
    Utf8Around(y, ':', z);
    FieldsAssociate(Utf8(x), COLON, Utf8(y), COLON, Field(Utf8(z), COLON, Decimal(amt)));
    FieldsAssociate(Utf8(y), COLON, Utf8(z), COLON, Decimal(amt));
  }

  // ----- the chain -----

  function LinkOf(b: LedgerBlock): Link<Bytes> {
    Link(b.previousHash, b.currentHash, Canonical(b))
  }

  function LinksOf(blocks: seq<LedgerBlock>): seq<Link<Bytes>> {
    seq(|blocks|, i requires 0 <= i < |blocks| => LinkOf(blocks[i]))
  }

  ghost predicate Verified(mac: Bytes -> Bytes, blocks: seq<LedgerBlock>) {
    Chained(mac, GENESIS, LinksOf(blocks))
  }

  ghost predicate DigestsAre32(mac: Bytes -> Bytes) {
    forall m :: |mac(m)| == 32
  }

  lemma PreviousHashesAre32(mac: Bytes -> Bytes, blocks: seq<LedgerBlock>)
    requires DigestsAre32(mac) && Verified(mac, blocks)
    ensures forall i :: 0 <= i < |blocks| ==> |blocks[i].previousHash| == 32
  {
    PrevLengths(mac, GENESIS, LinksOf(blocks), 32);
    assert forall i :: 0 <= i < |blocks| ==> LinksOf(blocks)[i].prev == blocks[i].previousHash;
  }

  lemma BlocksHoldPrevious(mac: Bytes -> Bytes, a: seq<LedgerBlock>, b: seq<LedgerBlock>)
    requires DigestsAre32(mac) && Verified(mac, a) && Verified(mac, b)
    requires forall i :: 0 <= i < |a| ==> SeparatorFree(a[i])
    requires forall i :: 0 <= i < |b| ==> SeparatorFree(b[i])
    ensures MessagesHoldPrev(LinksOf(a), LinksOf(b))
  {
    PreviousHashesAre32(mac, a);
    PreviousHashesAre32(mac, b);
    forall i, j | 0 <= i < |a| && 0 <= j < |b| && Canonical(a[i]) == Canonical(b[j]) ensures a[i].previousHash == b[j].previousHash {
      CanonicalDecodes(a[i], b[j]);
    }
  }

  // Two ledgers that both verify under one key and end in the same hash are the same
  // ledger, block by block and field by field.
  lemma LedgerHeadCommits(mac: Bytes -> Bytes, a: seq<LedgerBlock>, b: seq<LedgerBlock>)
    requires DigestsAre32(mac) && Verified(mac, a) && Verified(mac, b)
    requires forall i :: 0 <= i < |a| ==> SeparatorFree(a[i])
    requires forall i :: 0 <= i < |b| ==> SeparatorFree(b[i])
    requires NoCollision(mac, LinksOf(a), LinksOf(b)) && NeverGenesis(mac, GENESIS, LinksOf(a)) && NeverGenesis(mac, GENESIS, LinksOf(b))
    requires Head(GENESIS, LinksOf(a)) == Head(GENESIS, LinksOf(b))
    ensures a == b
  {
    PreviousHashesAre32(mac, a);
    PreviousHashesAre32(mac, b);
    BlocksHoldPrevious(mac, a, b);
    HeadCommits(mac, GENESIS, LinksOf(a), LinksOf(b));
    assert |a| == |LinksOf(a)| && |b| == |LinksOf(b)|;
    forall i | 0 <= i < |a| ensures a[i] == b[i] {
      assert LinksOf(a)[i] == LinkOf(a[i]) && LinksOf(b)[i] == LinkOf(b[i]);
      CanonicalDecodes(a[i], b[i]);
    }
  }

  // ----- balance -----

  function DebitTotal(legs: seq<PostingLeg>): int {
    if legs == [] then 0
    else DebitTotal(legs[..|legs| - 1]) + (if legs[|legs| - 1].entryType == Debit then legs[|legs| - 1].amountScaled else 0)
  }

  function CreditTotal(legs: seq<PostingLeg>): int {
    if legs == [] then 0
    else CreditTotal(legs[..|legs| - 1]) + (if legs[|legs| - 1].entryType == Debit then 0 else legs[|legs| - 1].amountScaled)
  }

  method ValidateBalance(tx: TransactionBatch) returns (balanced: bool)
    ensures balanced <==> DebitTotal(tx.legs) == CreditTotal(tx.legs)
  {
    var debits, credits := 0, 0;
    for i := 0 to |tx.legs|
      invariant debits == DebitTotal(tx.legs[..i]) && credits == CreditTotal(tx.legs[..i])
    {
      assert tx.legs[..i + 1][..i] == tx.legs[..i];
      if tx.legs[i].entryType == Debit {
        debits := debits + tx.legs[i].amountScaled;
      } else {
        credits := credits + tx.legs[i].amountScaled;
      }
    }
    assert tx.legs[..|tx.legs|] == tx.legs;
    return debits == credits;
  }

  // What a stored block says about its own balance.
  function StoredTotal(legs: seq<Leg>, kind: string): int {
    if legs == [] then 0
    else StoredTotal(legs[..|legs| - 1], kind) + (if legs[|legs| - 1].kind == kind then legs[|legs| - 1].amt else 0)
  }

  function Serialized(legs: seq<PostingLeg>): seq<Leg> {
    seq(|legs|, i requires 0 <= i < |legs| => Leg(legs[i].accountId, EntryValue(legs[i].entryType), legs[i].amountScaled))
  }

  lemma {:induction false} SerializedTotals(legs: seq<PostingLeg>)
    ensures StoredTotal(Serialized(legs), "DEBIT") == DebitTotal(legs)
    ensures StoredTotal(Serialized(legs), "CREDIT") == CreditTotal(legs)
  {
    if legs == [] {
    } else {
      var front := legs[..|legs| - 1];
      SerializedTotals(front);
      assert Serialized(legs)[..|legs| - 1] == Serialized(front);
      assert "DEBIT" != "CREDIT" by { assert "DEBIT"[0] != "CREDIT"[0]; }
    }
  }

  // ----- the byte cache -----

  class EncodeCache {
    var entries: map<string, Bytes>

    // The cache holds nothing but correct encodings.
    ghost predicate Valid()
      reads this
    {
      forall s :: s in entries ==> entries[s] == Utf8(s)
    }

    constructor ()
      ensures Valid()
    {
      entries := map[];
    }

    method GetBytes(s: string) returns (b: Bytes)
      requires Valid()
      modifies this
      ensures Valid() && b == Utf8(s)
    {
      if s in entries {
        return entries[s];
      }
      b := Utf8(s);
      entries := entries[s := b];
    }
  }

  datatype AppendError = CrossTenant | Unbalanced

  datatype Verdict = Intact | BrokenLink(at: nat) | Tampered(at: nat)

  class CryptographicLedgerChain {
    const tenantId: string
    const mac: Bytes -> Bytes            // HMAC-SHA256 under the chain's key
    var blocks: seq<LedgerBlock>

    // What every run of appends keeps: the chain verifies, the blocks are numbered
    // from one, belong to the tenant, and each is balanced with positive amounts only.
    ghost predicate Valid()
      reads this
    {
      && Verified(mac, blocks)
      && forall i :: 0 <= i < |blocks| ==> BlockOk(tenantId, blocks[i], i)
    }

    constructor (tenantId: string, mac: Bytes -> Bytes)
      ensures Valid() && blocks == [] && this.tenantId == tenantId && this.mac == mac
    {
      this.tenantId, this.mac := tenantId, mac;
      blocks := [];
    }

    method AppendTransaction(tx: TransactionBatch, cache: EncodeCache) returns (r: Outcome<LedgerBlock, AppendError>)
      requires Valid() && cache.Valid()
      modifies this, cache
      ensures Valid() && cache.Valid()
      ensures r.Err? ==> blocks == old(blocks)
      ensures tx.tenantId != tenantId <==> r == Err(CrossTenant)
      ensures tx.tenantId == tenantId && DebitTotal(tx.legs) != CreditTotal(tx.legs) <==> r == Err(Unbalanced)
      ensures r.Ok? ==> blocks == old(blocks) + [r.value]
      ensures r.Ok? ==>
        && r.value.transactionId == tx.transactionId && r.value.description == tx.description
        && r.value.timestamp == tx.timestamp && r.value.legs == Serialized(tx.legs)
    {
      if tx.tenantId != tenantId {
        return Err(CrossTenant);
      }
      var balanced := ValidateBalance(tx);
      if !balanced {
        return Err(Unbalanced);
      }
      var previousHash := if |blocks| > 0 then blocks[|blocks| - 1].currentHash else GENESIS;
      var seqNum := |blocks| + 1;
      var payload := EncodeForAppend(tx, seqNum, previousHash, cache);
      var block := Unsigned(tx, seqNum, previousHash).(currentHash := mac(payload));
      AppendVerifies(mac, tenantId, blocks, block, tx);
      blocks := blocks + [block];
      return Ok(block);
    }

    method VerifyIntegrity() returns (v: Verdict)
      ensures v == Intact <==> Verified(mac, blocks)
      ensures v != Intact ==> v.at < |blocks| && Verified(mac, blocks[..v.at])
      ensures v.BrokenLink? ==> blocks[v.at].previousHash != Head(GENESIS, LinksOf(blocks[..v.at]))
      ensures v.Tampered? ==> blocks[v.at].currentHash != mac(Canonical(blocks[v.at]))
    {
      var expected := GENESIS;
      for i := 0 to |blocks|
        invariant Verified(mac, blocks[..i])
        invariant expected == Head(GENESIS, LinksOf(blocks[..i]))
      {
        VerifiedPrefix(mac, blocks, i);
        if blocks[i].previousHash != expected {
          return BrokenLink(i);
        }
        var payload := ComputeCanonicalBytes(blocks[i]);
        if mac(payload) != blocks[i].currentHash {
          return Tampered(i);
        }
        expected := blocks[i].currentHash;
      }
      assert blocks[..|blocks|] == blocks;
      return Intact;
    }
  }

  ghost predicate BlockOk(tenantId: string, b: LedgerBlock, i: nat) {
    && b.sequenceNumber == i + 1
    && b.tenantId == tenantId
    && StoredTotal(b.legs, "DEBIT") == StoredTotal(b.legs, "CREDIT")
    && forall k :: 0 <= k < |b.legs| ==> b.legs[k].amt > 0
  }

  // The block that is being appended, before its own hash is known.
  function Unsigned(tx: TransactionBatch, seqNum: int, previousHash: Bytes): LedgerBlock {
    LedgerBlock(seqNum, tx.tenantId, tx.transactionId, tx.description, Serialized(tx.legs), previousHash, [], tx.timestamp)
  }

  // The encoder that append_transaction has inlined, with its cache.
  method EncodeForAppend(tx: TransactionBatch, seqNum: int, previousHash: Bytes, cache: EncodeCache) returns (payload: Bytes)
    requires cache.Valid()
    modifies cache
    ensures cache.Valid()
    ensures payload == Canonical(Unsigned(tx, seqNum, previousHash))
  {
    var tenantBytes := cache.GetBytes(tx.tenantId);
    var txBytes := cache.GetBytes(tx.transactionId);
    var descBytes := cache.GetBytes(tx.description);
    var tsBytes := cache.GetBytes(tx.timestamp);
    var parts := [];
    for i := 0 to |tx.legs|
      invariant cache.Valid()
      invariant parts == LegParts(Serialized(tx.legs[..i]))
    {
      var leg := tx.legs[i];
      var acctBytes := cache.GetBytes(leg.accountId);
      var kindBytes := if leg.entryType == Debit then DEBIT_BYTES else CREDIT_BYTES;
      parts := parts + [Field(acctBytes, COLON, Field(kindBytes, COLON, Decimal(leg.amountScaled)))];
      assert tx.legs[..i + 1] == tx.legs[..i] + [leg];
      EntryKinds(leg.entryType);
    }
    assert tx.legs[..|tx.legs|] == tx.legs;
    payload := Field(Decimal(seqNum), BAR, Field(tenantBytes, BAR, Field(txBytes, BAR, Field(descBytes, BAR,
               Field(previousHash, BAR, Field(tsBytes, BAR, Join(parts)))))));
  }

  lemma EntryKinds(t: EntryType)
    ensures KindBytes(EntryValue(t)) == if t == Debit then DEBIT_BYTES else CREDIT_BYTES
  {
    assert "DEBIT"[0] != "CREDIT"[0];
  }

  lemma {:induction false} AppendVerifies(mac: Bytes -> Bytes, tenantId: string, blocks: seq<LedgerBlock>, block: LedgerBlock, tx: TransactionBatch)
    requires Verified(mac, blocks) && forall i :: 0 <= i < |blocks| ==> BlockOk(tenantId, blocks[i], i)
    requires block.sequenceNumber == |blocks| + 1 && block.tenantId == tenantId
    requires block.legs == Serialized(tx.legs) && DebitTotal(tx.legs) == CreditTotal(tx.legs)
    requires block.previousHash == Head(GENESIS, LinksOf(blocks)) && block.currentHash == mac(Canonical(block))
    ensures Verified(mac, blocks + [block])
    ensures forall i :: 0 <= i < |blocks + [block]| ==> BlockOk(tenantId, (blocks + [block])[i], i)
  {
    NewBlockOk(tenantId, block, |blocks|, tx);
    ChainExtends(mac, GENESIS, LinksOf(blocks), LinkOf(block));
    assert LinksOf(blocks + [block]) == LinksOf(blocks) + [LinkOf(block)];
  }

  lemma NewBlockOk(tenantId: string, block: LedgerBlock, n: nat, tx: TransactionBatch)
    requires block.sequenceNumber == n + 1 && block.tenantId == tenantId
    requires block.legs == Serialized(tx.legs) && DebitTotal(tx.legs) == CreditTotal(tx.legs)
    ensures BlockOk(tenantId, block, n)
  {
    SerializedTotals(tx.legs);
  }

  // A chain verifies exactly when its beginning does and the next link fits.
  lemma VerifiedPrefix(mac: Bytes -> Bytes, blocks: seq<LedgerBlock>, i: nat)
    requires i < |blocks|
    ensures Verified(mac, blocks[..i + 1]) <==>
      Verified(mac, blocks[..i]) && blocks[i].previousHash == Head(GENESIS, LinksOf(blocks[..i])) && blocks[i].currentHash == mac(Canonical(blocks[i]))
    ensures Verified(mac, blocks) ==> Verified(mac, blocks[..i + 1])
    ensures Head(GENESIS, LinksOf(blocks[..i + 1])) == blocks[i].currentHash
  {
    var links := LinksOf(blocks[..i + 1]);
    assert links[..i] == LinksOf(blocks[..i]) && links[i] == LinkOf(blocks[i]);
    if Verified(mac, blocks) {
      PrefixIsChained(mac, GENESIS, LinksOf(blocks), i + 1);
      assert LinksOf(blocks)[..i + 1] == links;
    }
  }

  // Cutting blocks off the end goes unnoticed by verification ...
  lemma TruncationVerifies(mac: Bytes -> Bytes, blocks: seq<LedgerBlock>, k: nat)
    requires Verified(mac, blocks) && k <= |blocks|
    ensures Verified(mac, blocks[..k])
  {
    PrefixIsChained(mac, GENESIS, LinksOf(blocks), k);
    assert LinksOf(blocks)[..k] == LinksOf(blocks[..k]);
  }

  // ... but not by whoever remembers the head hash.
  lemma TruncationChangesTheHead(mac: Bytes -> Bytes, blocks: seq<LedgerBlock>, k: nat)
    requires DigestsAre32(mac) && Verified(mac, blocks) && k < |blocks|
    requires forall i :: 0 <= i < |blocks| ==> SeparatorFree(blocks[i])
    requires NoCollision(mac, LinksOf(blocks), LinksOf(blocks)) && NeverGenesis(mac, GENESIS, LinksOf(blocks))
    ensures Head(GENESIS, LinksOf(blocks[..k])) != Head(GENESIS, LinksOf(blocks))
  {
    BlocksHoldPrevious(mac, blocks, blocks);
    TruncationChangesHead(mac, GENESIS, LinksOf(blocks), k);
    assert LinksOf(blocks)[..k] == LinksOf(blocks[..k]);
  }
}
