// Sealing fraud evidence into the audit log and checking it later
// (src/services/fraud/evidence_sealer.py).
module EvidenceSealer {
  import opened Basics
  import opened CanonicalBytes
  import opened AuditLog

  datatype FraudEvidencePackage = FraudEvidencePackage(
    evidenceId: string, incidentType: string, tenantId: string, custodians: seq<string>, transactionIds: seq<string>,
    evidencePayload: string, createdAt: string, packageSha256: string)

  datatype SealedEvidenceReceipt = SealedEvidenceReceipt(package: FraudEvidencePackage, entry: AuditEntry)

  // JSON text of a package, and reading the digest field back out of a text.
  datatype Texts = Texts(dumps: FraudEvidencePackage -> string, shaOf: string -> Option<string>)

  ghost predicate ReadsDigest(x: Texts) {
    forall p :: x.shaOf(x.dumps(p)) == Some(p.packageSha256)
  }

  const EVENT_TYPE := "FRAUD_EVIDENCE_SEALED"
  const ACTOR_ID := "FRAUD_DETECTION_ENGINE"

  // The first entry with the given id.
  function FirstMatch(es: seq<AuditEntry>, entryId: string): Option<AuditEntry> {
    if es == [] then None
    else
      var earlier := FirstMatch(es[..|es| - 1], entryId);
      if earlier.Some? then earlier else if es[|es| - 1].entryId == entryId then Some(es[|es| - 1]) else None
  }

  function ShowsDigest(x: Texts, es: seq<AuditEntry>, receipt: SealedEvidenceReceipt): bool {
    var found := FirstMatch(es, receipt.entry.entryId);
    found.Some? && x.shaOf(found.value.payloadJson) == Some(receipt.package.packageSha256)
  }

  method SealPackage(logger: WORMAuditLogger, package: FraudEvidencePackage, x: Texts, entryId: string, timestamp: string)
    returns (receipt: SealedEvidenceReceipt)
    requires logger.Valid()
    modifies logger
    ensures logger.Valid()
    ensures (logger.store, receipt) == Seal(logger.mac, x, old(logger.store), package, entryId, timestamp)
  {
    var entry := logger.AppendEvent(package.tenantId, EVENT_TYPE, ACTOR_ID, x.dumps(package), entryId, timestamp);
    receipt := SealedEvidenceReceipt(package, entry);
  }

  method VerifySealedEvidence(logger: WORMAuditLogger, receipt: SealedEvidenceReceipt, x: Texts) returns (r: Outcome<bool, Verdict>)
    ensures var es := EntriesOf(logger.store, receipt.package.tenantId);
            if Intact(logger.mac, es) then r == Ok(ShowsDigest(x, es, receipt)) else r.Err?
  {
    var verdict := logger.VerifyIntegrity(receipt.package.tenantId);
    if verdict != Verified {
      return Err(verdict);
    }
    var found := FindEntry(EntriesOf(logger.store, receipt.package.tenantId), receipt.entry.entryId);
    if found.None? {
      return Ok(false);
    }
    return Ok(x.shaOf(found.value.payloadJson) == Some(receipt.package.packageSha256));
  }

  method FindEntry(es: seq<AuditEntry>, entryId: string) returns (found: Option<AuditEntry>)
    ensures found == FirstMatch(es, entryId)
  {
    for i := 0 to |es|
      invariant FirstMatch(es[..i], entryId) == None
    {
      assert es[..i + 1][..i] == es[..i];
      if es[i].entryId == entryId {
        MatchStays(es[..i + 1], es[i + 1..], entryId);
        assert es[..i + 1] + es[i + 1..] == es;
        return Some(es[i]);
      }
    }
    assert es[..|es|] == es;
    return None;
  }

  lemma {:induction false} MatchStays(es: seq<AuditEntry>, more: seq<AuditEntry>, entryId: string)
    requires FirstMatch(es, entryId).Some?
    ensures FirstMatch(es + more, entryId) == FirstMatch(es, entryId)
  {
    if more != [] {
      MatchStays(es, more[..|more| - 1], entryId);
      assert (es + more)[..|es + more| - 1] == es + more[..|more| - 1];
    } else {
      assert es + more == es;
    }
  }

  // ----- whatever is appended later -----

  datatype Append = Append(tenantId: string, eventType: string, actorId: string, payloadJson: string, entryId: string, timestamp: string)

  function RunFrom(mac: Bytes -> Hash, s: Store, later: seq<Append>): Store {
    if later == [] then s
    else
      var a := later[|later| - 1];
      AppendStep(mac, RunFrom(mac, s, later[..|later| - 1]), a.tenantId, a.eventType, a.actorId, a.payloadJson, a.entryId, a.timestamp).0
  }

  lemma {:induction false} LaterAppendsExtend(mac: Bytes -> Hash, s: Store, later: seq<Append>, tenant: string)
    requires AllIntact(mac, s)
    ensures AllIntact(mac, RunFrom(mac, s, later))
    ensures EntriesOf(s, tenant) <= EntriesOf(RunFrom(mac, s, later), tenant)
  {
    if later == [] {
    } else {
      var before, a := later[..|later| - 1], later[|later| - 1];
      LaterAppendsExtend(mac, s, before, tenant);
      AppendKeepsIntact(mac, RunFrom(mac, s, before), a.tenantId, a.eventType, a.actorId, a.payloadJson, a.entryId, a.timestamp);
    }
  }

  // Other tenants' appends leave a tenant's chain exactly as it was.
  lemma {:induction false} OtherTenantsUntouched(mac: Bytes -> Hash, s: Store, later: seq<Append>, tenant: string)
    requires forall i :: 0 <= i < |later| ==> later[i].tenantId != tenant
    ensures EntriesOf(RunFrom(mac, s, later), tenant) == EntriesOf(s, tenant)
  {
    if later == [] {
    } else {
      OtherTenantsUntouched(mac, s, later[..|later| - 1], tenant);
    }
  }

  // The store and the receipt after sealing.
  function Seal(mac: Bytes -> Hash, x: Texts, s: Store, package: FraudEvidencePackage, entryId: string, timestamp: string): (Store, SealedEvidenceReceipt) {
    var (sealed, entry) := AppendStep(mac, s, package.tenantId, EVENT_TYPE, ACTOR_ID, x.dumps(package), entryId, timestamp);
    (sealed, SealedEvidenceReceipt(package, entry))
  }

  lemma MatchAfterSealing(before: seq<AuditEntry>, entry: AuditEntry, es: seq<AuditEntry>)
    requires before + [entry] <= es
    ensures var taken := FirstMatch(before, entry.entryId);
            FirstMatch(es, entry.entryId) == if taken.Some? then taken else Some(entry)
  {
    var after := before + [entry];
    assert after[..|before|] == before && after[|before|] == entry;
    MatchStays(after, es[|after|..], entry.entryId);
    assert after + es[|after|..] == es;
  }

  // A sealed receipt passes verification forever, whoever appends whatever, exactly
  // when its entry id was new to the tenant's chain at the moment of sealing (or was
  // used before by an entry with the same digest). Later reuse of the id is harmless.
  lemma {:induction false} SealedForever(mac: Bytes -> Hash, x: Texts, s: Store, package: FraudEvidencePackage, entryId: string, timestamp: string, later: seq<Append>)
    requires AllIntact(mac, s) && ReadsDigest(x)
    ensures var (sealed, receipt) := Seal(mac, x, s, package, entryId, timestamp);
            var es := EntriesOf(RunFrom(mac, sealed, later), package.tenantId);
            var taken := FirstMatch(EntriesOf(s, package.tenantId), entryId);
            ShowsDigest(x, es, receipt) <==> taken.None? || x.shaOf(taken.value.payloadJson) == Some(package.packageSha256)
  {
    var (sealed, receipt) := Seal(mac, x, s, package, entryId, timestamp);
    AppendKeepsIntact(mac, s, package.tenantId, EVENT_TYPE, ACTOR_ID, x.dumps(package), entryId, timestamp);
    LaterAppendsExtend(mac, sealed, later, package.tenantId);
    MatchAfterSealing(EntriesOf(s, package.tenantId), receipt.entry, EntriesOf(RunFrom(mac, sealed, later), package.tenantId));
  }

  // And the chain it is checked against stays intact.
  lemma SealedChainIntact(mac: Bytes -> Hash, x: Texts, s: Store, package: FraudEvidencePackage, entryId: string, timestamp: string, later: seq<Append>)
    requires AllIntact(mac, s)
    ensures Intact(mac, EntriesOf(RunFrom(mac, Seal(mac, x, s, package, entryId, timestamp).0, later), package.tenantId))
  {
    var sealed := Seal(mac, x, s, package, entryId, timestamp).0;
    AppendKeepsIntact(mac, s, package.tenantId, EVENT_TYPE, ACTOR_ID, x.dumps(package), entryId, timestamp);
    LaterAppendsExtend(mac, sealed, later, package.tenantId);
  }
}
