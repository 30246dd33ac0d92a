// The tamper-evident audit log (src/infrastructure/audit/tamper_log.py) and the
// evidence sealer that writes to it (src/services/fraud/evidence_sealer.py).
module AuditLog {
  import opened Basics
  import opened CanonicalBytes
  import opened HashChains

  type Hash = string    // hexadecimal digests

  const GENESIS_HASH: Hash := Repeat('0', 64)

  datatype AuditEntry = AuditEntry(
    entryId: string, sequenceNumber: int, tenantId: string, eventType: string, actorId: string,
    payloadJson: string, timestamp: string, prevHash: Hash, currentHash: Hash)

  // What is hashed: everything but the entry id and the hash itself.
  function Material(e: AuditEntry): Bytes {
    Field(Utf8(e.prevHash), BAR,
    Field(Decimal(e.sequenceNumber), BAR,
    Field(Utf8(e.tenantId), BAR,
    Field(Utf8(e.eventType), BAR,
    Field(Utf8(e.actorId), BAR,
    Field(Utf8(e.payloadJson), BAR, Utf8(e.timestamp)))))))
  }

  function ComputeHash(mac: Bytes -> Hash, prevHash: Hash, sequenceNumber: int, tenantId: string, eventType: string, actorId: string,
                       payloadJson: string, timestamp: string): Hash
  {
    mac(Material(AuditEntry("", sequenceNumber, tenantId, eventType, actorId, payloadJson, timestamp, prevHash, "")))
  }

  // The payload is read between the fields before it and the time stamp after it, so
  // it may hold separators of its own.
  predicate SeparatorFree(e: AuditEntry) {
    '|' !in e.prevHash && '|' !in e.tenantId && '|' !in e.eventType && '|' !in e.actorId && '|' !in e.timestamp
  }

  lemma {:induction false} PayloadSplits(p: string, s: string, q: string, t: string)
    requires '|' !in s && '|' !in t && Field(Utf8(p), BAR, Utf8(s)) == Field(Utf8(q), BAR, Utf8(t))
    ensures p == q && s == t
  {
    Utf8Bytes(s, BAR);
    Utf8Bytes(t, BAR);
    LastFieldSplits(Utf8(p), Utf8(s), Utf8(q), Utf8(t), BAR);
    Utf8Injective(p, q);
    Utf8Injective(s, t);
  }

  // Equal material comes from entries that differ at most in what is not hashed.
  lemma MaterialDecodes(a: AuditEntry, b: AuditEntry)
    requires SeparatorFree(a) && SeparatorFree(b) && Material(a) == Material(b)
    ensures a == b.(entryId := a.entryId, currentHash := a.currentHash)
  {
    var a1, b1 := Field(Utf8(a.payloadJson), BAR, Utf8(a.timestamp)), Field(Utf8(b.payloadJson), BAR, Utf8(b.timestamp));
    var a2, b2 := Field(Utf8(a.actorId), BAR, a1), Field(Utf8(b.actorId), BAR, b1);
    var a3, b3 := Field(Utf8(a.eventType), BAR, a2), Field(Utf8(b.eventType), BAR, b2);
    var a4, b4 := Field(Utf8(a.tenantId), BAR, a3), Field(Utf8(b.tenantId), BAR, b3);
    var a5, b5 := Field(Decimal(a.sequenceNumber), BAR, a4), Field(Decimal(b.sequenceNumber), BAR, b4);
    TextSplits(a.prevHash, a5, b.prevHash, b5);
    NumberSplits(a.sequenceNumber, a4, b.sequenceNumber, b4);
    TextSplits(a.tenantId, a3, b.tenantId, b3);
    TextSplits(a.eventType, a2, b.eventType, b2);
    TextSplits(a.actorId, a1, b.actorId, b1);
    PayloadSplits(a.payloadJson, a.timestamp, b.payloadJson, b.timestamp);
  }

  // ----- one tenant's chain -----

  function LinkOf(e: AuditEntry): Link<Hash> {
    Link(e.prevHash, e.currentHash, Material(e))
  }

  function LinksOf(es: seq<AuditEntry>): seq<Link<Hash>> {
    seq(|es|, i requires 0 <= i < |es| => LinkOf(es[i]))
  }

  ghost predicate Numbered(es: seq<AuditEntry>) {
    forall i :: 0 <= i < |es| ==> es[i].sequenceNumber == i + 1
  }

  // What verify_integrity checks.
  ghost predicate Intact(mac: Bytes -> Hash, es: seq<AuditEntry>) {
    Numbered(es) && Chained(mac, GENESIS_HASH, LinksOf(es))
  }

  // The last hash of a tenant's log commits to all of it, up to the entry ids.
  lemma LogHeadCommits(mac: Bytes -> Hash, a: seq<AuditEntry>, b: seq<AuditEntry>)
    requires Intact(mac, a) && Intact(mac, b)
    requires forall i :: 0 <= i < |a| ==> SeparatorFree(a[i])
    requires forall i :: 0 <= i < |b| ==> SeparatorFree(b[i])
    requires NoCollision(mac, LinksOf(a), LinksOf(b)) && NeverGenesis(mac, GENESIS_HASH, LinksOf(a)) && NeverGenesis(mac, GENESIS_HASH, LinksOf(b))
    requires Head(GENESIS_HASH, LinksOf(a)) == Head(GENESIS_HASH, LinksOf(b))
    ensures |a| == |b| && forall i :: 0 <= i < |a| ==> a[i] == b[i].(entryId := a[i].entryId)
  {
    forall i, j | 0 <= i < |a| && 0 <= j < |b| && Material(a[i]) == Material(b[j]) ensures a[i].prevHash == b[j].prevHash {
      MaterialDecodes(a[i], b[j]);
    }
    HeadCommits(mac, GENESIS_HASH, LinksOf(a), LinksOf(b));
    assert |a| == |LinksOf(a)| && |b| == |LinksOf(b)|;
    forall i | 0 <= i < |a| ensures a[i] == b[i].(entryId := a[i].entryId) {
      assert LinksOf(a)[i] == LinkOf(a[i]) && LinksOf(b)[i] == LinkOf(b[i]);
      MaterialDecodes(a[i], b[i]);
    }
  }

  datatype Verdict = Verified | BrokenSequence(at: nat) | LinkMismatch(at: nat) | TamperedPayload(at: nat)

  type Store = map<string, seq<AuditEntry>>

  function EntriesOf(s: Store, tenant: string): seq<AuditEntry> {
    if tenant in s then s[tenant] else []
  }

  ghost predicate AllIntact(mac: Bytes -> Hash, s: Store) {
    forall t :: t in s ==> Intact(mac, s[t])
  }

  class WORMAuditLogger {
    const mac: Bytes -> Hash
    var store: Store

    // Every tenant's chain verifies and is numbered from one.
    ghost predicate Valid()
      reads this
    {
      AllIntact(mac, store)
    }

    constructor (mac: Bytes -> Hash)
      ensures Valid() && store == map[] && this.mac == mac
    {
      this.mac := mac;
      store := map[];
    }

    method AppendEvent(tenantId: string, eventType: string, actorId: string, payloadJson: string, entryId: string, timestamp: string)
      returns (entry: AuditEntry)
      requires Valid()
      modifies this
      ensures Valid()
      ensures (store, entry) == AppendStep(mac, old(store), tenantId, eventType, actorId, payloadJson, entryId, timestamp)
    {
      AppendKeepsIntact(mac, store, tenantId, eventType, actorId, payloadJson, entryId, timestamp);
      var entries := EntriesOf(store, tenantId);
      entry := NextEntry(mac, entries, tenantId, eventType, actorId, payloadJson, entryId, timestamp);
      store := store[tenantId := entries + [entry]];
    }

    method VerifyIntegrity(tenantId: string) returns (v: Verdict)
      ensures v == Verified <==> Intact(mac, EntriesOf(store, tenantId))
      ensures v != Verified ==> v.at < |EntriesOf(store, tenantId)| && Intact(mac, EntriesOf(store, tenantId)[..v.at])
    {
      if tenantId !in store || store[tenantId] == [] {
        return Verified;
      }
      var entries := store[tenantId];
      var expected := GENESIS_HASH;
      for i := 0 to |entries|
        invariant Intact(mac, entries[..i])
        invariant expected == Head(GENESIS_HASH, LinksOf(entries[..i]))
      {
        IntactPrefix(mac, entries, i);
        if Intact(mac, entries) { PrefixIntact(mac, entries, i + 1); }
        if entries[i].sequenceNumber != i + 1 {
          return BrokenSequence(i);
        }
        if entries[i].prevHash != expected {
          return LinkMismatch(i);
        }
        if entries[i].currentHash != mac(Material(entries[i])) {
          return TamperedPayload(i);
        }
        expected := entries[i].currentHash;
      }
      assert entries[..|entries|] == entries;
      return Verified;
    }
  }

  // The entry that append_event builds.
  function NextEntry(mac: Bytes -> Hash, entries: seq<AuditEntry>, tenantId: string, eventType: string, actorId: string,
                     payloadJson: string, entryId: string, timestamp: string): AuditEntry
  {
    var prevHash := if |entries| > 0 then entries[|entries| - 1].currentHash else GENESIS_HASH;
    var currentHash := ComputeHash(mac, prevHash, |entries| + 1, tenantId, eventType, actorId, payloadJson, timestamp);
    AuditEntry(entryId, |entries| + 1, tenantId, eventType, actorId, payloadJson, timestamp, prevHash, currentHash)
  }

  lemma NextEntryFits(mac: Bytes -> Hash, entries: seq<AuditEntry>, tenantId: string, eventType: string, actorId: string,
                      payloadJson: string, entryId: string, timestamp: string)
    requires Intact(mac, entries)
    ensures Intact(mac, entries + [NextEntry(mac, entries, tenantId, eventType, actorId, payloadJson, entryId, timestamp)])
  {
    ChainGrows(mac, entries, NextEntry(mac, entries, tenantId, eventType, actorId, payloadJson, entryId, timestamp));
  }

  // Appending extends the tenant's own chain and no other.
  function AppendStep(mac: Bytes -> Hash, s: Store, tenantId: string, eventType: string, actorId: string,
                      payloadJson: string, entryId: string, timestamp: string): (Store, AuditEntry)
  {
    var entries := EntriesOf(s, tenantId);
    var entry := NextEntry(mac, entries, tenantId, eventType, actorId, payloadJson, entryId, timestamp);
    (s[tenantId := entries + [entry]], entry)
  }

  lemma AppendKeepsIntact(mac: Bytes -> Hash, s: Store, tenantId: string, eventType: string, actorId: string,
                          payloadJson: string, entryId: string, timestamp: string)
    requires AllIntact(mac, s)
    ensures AllIntact(mac, AppendStep(mac, s, tenantId, eventType, actorId, payloadJson, entryId, timestamp).0)
  {
    NextEntryFits(mac, EntriesOf(s, tenantId), tenantId, eventType, actorId, payloadJson, entryId, timestamp);
  }

  lemma ChainGrows(mac: Bytes -> Hash, es: seq<AuditEntry>, e: AuditEntry)
    requires Intact(mac, es)
    requires e.sequenceNumber == |es| + 1 && e.prevHash == Head(GENESIS_HASH, LinksOf(es)) && e.currentHash == mac(Material(e))
    ensures Intact(mac, es + [e])
  {
    ChainExtends(mac, GENESIS_HASH, LinksOf(es), LinkOf(e));
    LinksGrow(es, e);
    assert Numbered(es + [e]);
  }

  lemma LinksGrow(es: seq<AuditEntry>, e: AuditEntry)
    ensures LinksOf(es + [e]) == LinksOf(es) + [LinkOf(e)]
  {
    var grown, before, last := LinksOf(es + [e]), LinksOf(es), LinkOf(e);
    assert |grown| == |es| + 1 && grown[|es|] == last;
    forall k | 0 <= k < |es| ensures grown[k] == before[k] {
      assert (es + [e])[k] == es[k];
    }
    assert grown == before + [last];
  }

  lemma IntactPrefix(mac: Bytes -> Hash, es: seq<AuditEntry>, i: nat)
    requires i < |es|
    ensures Intact(mac, es[..i + 1]) <==>
      Intact(mac, es[..i]) && es[i].sequenceNumber == i + 1
      && es[i].prevHash == Head(GENESIS_HASH, LinksOf(es[..i])) && es[i].currentHash == mac(Material(es[i]))
    ensures Head(GENESIS_HASH, LinksOf(es[..i + 1])) == es[i].currentHash
  {
    assert es[..i + 1] == es[..i] + [es[i]];
    LinksGrow(es[..i], es[i]);
    var links := LinksOf(es[..i + 1]);
    assert links[..i] == LinksOf(es[..i]) && links[i] == LinkOf(es[i]);
    NumberedPrefix(es, i);
  }

  lemma NumberedPrefix(es: seq<AuditEntry>, i: nat)
    requires i < |es|
    ensures Numbered(es[..i + 1]) <==> Numbered(es[..i]) && es[i].sequenceNumber == i + 1
  {
    assert es[..i + 1][i] == es[i];
    assert forall k :: 0 <= k < i ==> es[..i + 1][k] == es[..i][k];
  }

  lemma {:induction false} PrefixIsNumbered(es: seq<AuditEntry>, k: nat)
    requires Numbered(es) && k <= |es|
    ensures Numbered(es[..k])
  {
  }

  lemma {:induction false} PrefixIntact(mac: Bytes -> Hash, es: seq<AuditEntry>, k: nat)
    requires Intact(mac, es) && k <= |es|
    ensures Intact(mac, es[..k])
  {
    PrefixIsNumbered(es, k);
    PrefixIsChained(mac, GENESIS_HASH, LinksOf(es), k);
    assert LinksOf(es)[..k] == LinksOf(es[..k]);
  }
}
