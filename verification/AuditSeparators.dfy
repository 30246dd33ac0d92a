// Which fields of an audit entry may hold bars without two entries ever having the same
// hash material (src/infrastructure/audit/tamper_log.py).
module AuditSeparators {
  import opened AuditLog
  import opened CanonicalBytes

  // Where bars are let through; in the payload they always are.
  datatype FieldPolicy = FieldPolicy(
    barsInPrevHash: bool, barsInTenant: bool, barsInEventType: bool, barsInActor: bool, barsInTimestamp: bool)

  predicate Obeys(p: FieldPolicy, e: AuditEntry) {
    && (p.barsInPrevHash || '|' !in e.prevHash)
    && (p.barsInTenant || '|' !in e.tenantId)
    && (p.barsInEventType || '|' !in e.eventType)
    && (p.barsInActor || '|' !in e.actorId)
    && (p.barsInTimestamp || '|' !in e.timestamp)
  }

  // Entries that hold to the policy are told apart by what is hashed of them, in
  // everything but the entry id and their own hash.
  ghost predicate Decodable(p: FieldPolicy) {
    forall a: AuditEntry, b: AuditEntry ::
      Obeys(p, a) && Obeys(p, b) && Material(a) == Material(b) ==> a == b.(entryId := a.entryId, currentHash := a.currentHash)
  }

  predicate Strict(p: FieldPolicy) {
    !p.barsInPrevHash && !p.barsInTenant && !p.barsInEventType && !p.barsInActor && !p.barsInTimestamp
  }

  datatype Slot = PrevHash | Tenant | EventType | Actor | Timestamp

  predicate BarsAllowed(p: FieldPolicy, slot: Slot) {
    match slot
    case PrevHash => p.barsInPrevHash
    case Tenant => p.barsInTenant
    case EventType => p.barsInEventType
    case Actor => p.barsInActor
    case Timestamp => p.barsInTimestamp
  }

  // An entry with one text in a field, another in the payload, and nothing in the others.
  function Filled(slot: Slot, text: string, payload: string): AuditEntry {
    var e := AuditEntry("", 1, "", "", "", payload, "", "", "");
    match slot
    case PrevHash => e.(prevHash := text)
    case Tenant => e.(tenantId := text)
    case EventType => e.(eventType := text)
    case Actor => e.(actorId := text)
    case Timestamp => e.(timestamp := text)
  }

  // What then stands between the two.
  function Between(slot: Slot): string {
    match slot
    case PrevHash => "|1||||"
    case Tenant => "|||"
    case EventType => "||"
    case Actor => "|"
    case Timestamp => "|"
  }

  function BetweenBytes(slot: Slot): Bytes {
    match slot
    case PrevHash => [BAR, 0x31, BAR, BAR, BAR, BAR]
    case Tenant => [BAR, BAR, BAR]
    case EventType => [BAR, BAR]
    case Actor => [BAR]
    case Timestamp => [BAR]
  }

  lemma TextBetween(slot: Slot)
    ensures Utf8(Between(slot)) == BetweenBytes(slot)
  {
    Utf8OfAscii(Between(slot));
  }

  // Nested fields, with nothing in the empty ones, as one run of bytes.
  lemma PrevHashApart(t: Bytes, x: Bytes)
    ensures Field(t, BAR, Field([0x31], BAR, Field([], BAR, Field([], BAR, Field([], BAR, x))))) == t + [BAR, 0x31, BAR, BAR, BAR, BAR] + x
  {
  }

  lemma TenantApart(t: Bytes, x: Bytes)
    ensures Field(t, BAR, Field([], BAR, Field([], BAR, x))) == t + [BAR, BAR, BAR] + x
  {
  }

  lemma EventTypeApart(t: Bytes, x: Bytes)
    ensures Field(t, BAR, Field([], BAR, x)) == t + [BAR, BAR] + x
  {
  }

  // What comes before the field does not depend on the text in it.
  function Before(slot: Slot, rest: Bytes): Bytes {
    match slot
    case PrevHash => rest
    case Tenant => Field([], BAR, Field(Decimal(1), BAR, rest))
    case EventType => Field([], BAR, Field(Decimal(1), BAR, Field([], BAR, rest)))
    case Actor => Field([], BAR, Field(Decimal(1), BAR, Field([], BAR, Field([], BAR, rest))))
    case Timestamp => Field([], BAR, Field(Decimal(1), BAR, Field([], BAR, Field([], BAR, Field([], BAR, rest)))))
  }

  lemma FilledBytes(slot: Slot, text: string, payload: string)
    requires !slot.Timestamp?
    ensures Material(Filled(slot, text, payload)) == Before(slot, Utf8(text) + BetweenBytes(slot) + Field(Utf8(payload), BAR, []))
  {
    var t, x := Utf8(text), Field(Utf8(payload), BAR, []);
    match slot {
      case PrevHash => PrevHashApart(t, x);
      case Tenant => TenantApart(t, x);
      case EventType => EventTypeApart(t, x);
      case Actor =>
    }
  }

  // The text in between, put before itself or after itself, is the same run of bytes.
  lemma OneBarTooMany(slot: Slot, s: string)
    requires Utf8(s) == BetweenBytes(slot)
    ensures Material(Filled(slot, s, "")) == Material(Filled(slot, "", s))
  {
    if slot.Timestamp? {
      assert Field([], BAR, Utf8(s)) == Field(Utf8(s), BAR, []);
    } else {
      FilledBytes(slot, s, "");
      FilledBytes(slot, "", s);
      PutBeforeOrAfter(BetweenBytes(slot));
    }
  }

  lemma PutBeforeOrAfter(w: Bytes)
    ensures w + w + Field([], BAR, []) == [] + w + Field(w, BAR, [])
  {
  }

  lemma BarsBreakDecoding(p: FieldPolicy, slot: Slot)
    requires BarsAllowed(p, slot)
    ensures !Decodable(p)
  {
    var s := Between(slot);
    TextBetween(slot);
    OneBarTooMany(slot, s);
    var a, b := Filled(slot, s, ""), Filled(slot, "", s);
    assert Obeys(p, a) && Obeys(p, b);
    assert a.payloadJson != b.payloadJson;
    assert a != b.(entryId := a.entryId, currentHash := a.currentHash);
  }

  lemma StrictDecodes(p: FieldPolicy)
    requires Strict(p)
    ensures Decodable(p)
  {
    forall a: AuditEntry, b: AuditEntry | Obeys(p, a) && Obeys(p, b) && Material(a) == Material(b)
      ensures a == b.(entryId := a.entryId, currentHash := a.currentHash)
    {
      MaterialDecodes(a, b);
    }
  }

  // The hash material identifies the entry exactly under the policy that keeps bars out
  // of every text field but the payload.
  lemma DecodableExactlyWhenStrict(p: FieldPolicy)
    ensures Decodable(p) <==> Strict(p)
  {
    if Strict(p) {
      StrictDecodes(p);
    } else {
      var slot :| BarsAllowed(p, slot);
      BarsBreakDecoding(p, slot);
    }
  }
}
