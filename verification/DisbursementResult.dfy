// Disbursement requests and results, and the JSON form in which a result is stored
// and read back (src/domain/wallet/disbursement_manager.py and the two adapters).
module DisbursementResult {
  import opened Basics

  datatype Channel = VirtualCard | MobileMoney | Ach

  datatype CardStatus = Active | Inactive | Cancelled | Expired

  datatype CardBackend = Stripe | Marqeta | MockIssuer

  datatype PaymentStatus = Pending | Processing | Completed | Failed | Reversed

  datatype MobileBackend = MPesa | AchNetwork | Venmo | MockMobile

  type Metadata = map<string, string>

  datatype FloatDisbursementRequest = FloatDisbursementRequest(
    tenantId: string, custodianId: string, fundId: string, amountScaled: int, channel: Channel, currency: string,
    recipientAddress: string, cardholderName: string, description: string, idempotencyKey: string, metadata: Metadata)

  datatype VirtualCardResult = VirtualCardResult(
    cardId: string, tenantId: string, custodianId: string, fundId: string, lastFour: string, cardStatus: CardStatus,
    spendingLimitScaled: int, currency: string, idempotencyKey: string, backend: CardBackend, createdAt: string,
    expiresAt: string, metadata: Metadata)

  datatype MobileResult = MobileResult(
    disbursementId: string, tenantId: string, custodianId: string, fundId: string, recipient: string, amountScaled: int,
    currency: string, status: PaymentStatus, backend: MobileBackend, idempotencyKey: string, referenceNumber: string,
    initiatedAt: string, completedAt: Option<string>, failureReason: Option<string>, metadata: Metadata)

  datatype FloatDisbursementResult = FloatDisbursementResult(
    disbursementId: string, tenantId: string, custodianId: string, fundId: string, channel: Channel, amountScaled: int,
    currency: string, status: string, idempotencyKey: string, virtualCard: Option<VirtualCardResult>,
    mobileDisbursement: Option<MobileResult>, initiatedAt: string, completedAt: Option<string>, failureReason: Option<string>)

  // ----- enumeration values on the wire -----

  function ChannelValue(c: Channel): string {
    match c case VirtualCard => "virtual_card" case MobileMoney => "mobile_money" case Ach => "ach"
  }

  function ParseChannel(s: string): Option<Channel> {
    if s == "virtual_card" then Some(VirtualCard) else if s == "mobile_money" then Some(MobileMoney)
    else if s == "ach" then Some(Ach) else None
  }

  function CardStatusValue(c: CardStatus): string {
    match c case Active => "active" case Inactive => "inactive" case Cancelled => "cancelled" case Expired => "expired"
  }

  function ParseCardStatus(s: string): Option<CardStatus> {
    if s == "active" then Some(Active) else if s == "inactive" then Some(Inactive)
    else if s == "cancelled" then Some(Cancelled) else if s == "expired" then Some(Expired) else None
  }

  function CardBackendValue(b: CardBackend): string {
    match b case Stripe => "stripe" case Marqeta => "marqeta" case MockIssuer => "mock"
  }

  function ParseCardBackend(s: string): Option<CardBackend> {
    if s == "stripe" then Some(Stripe) else if s == "marqeta" then Some(Marqeta) else if s == "mock" then Some(MockIssuer) else None
  }

  function StatusValue(s: PaymentStatus): string {
    match s
    case Pending => "pending" case Processing => "processing" case Completed => "completed"
    case Failed => "failed" case Reversed => "reversed"
  }

  function ParseStatus(s: string): Option<PaymentStatus> {
    if s == "pending" then Some(Pending) else if s == "processing" then Some(Processing)
    else if s == "completed" then Some(Completed) else if s == "failed" then Some(Failed)
    else if s == "reversed" then Some(Reversed) else None
  }

  function MobileBackendValue(b: MobileBackend): string {
    match b case MPesa => "mpesa" case AchNetwork => "ach" case Venmo => "venmo" case MockMobile => "mock"
  }

  function ParseMobileBackend(s: string): Option<MobileBackend> {
    if s == "mpesa" then Some(MPesa) else if s == "ach" then Some(AchNetwork)
    else if s == "venmo" then Some(Venmo) else if s == "mock" then Some(MockMobile) else None
  }

  // ----- JSON values -----

  // The field names of the stored records, one constructor for each.
  datatype Field =
    | CardIdField | TenantIdField | CustodianIdField | FundIdField | LastFourField | CardStatusField
    | SpendingLimitScaledField | SpendingLimitFormattedField | CurrencyField | IdempotencyKeyField
    | BackendField | CreatedAtField | ExpiresAtField | MetadataField | DisbursementIdField | RecipientField
    | AmountScaledField | AmountFormattedField | StatusField | ReferenceNumberField | InitiatedAtField
    | CompletedAtField | FailureReasonField | ChannelField | VirtualCardField | MobileDisbursementField

  datatype Json = JNull | JStr(text: string) | JInt(number: int) | JRecord(fields: map<Field, Json>) | JObj(entries: map<string, Json>)

  function FromOptional(s: Option<string>): Json {
    if s.Some? then JStr(s.value) else JNull
  }

  function FromMetadata(m: Metadata): Json {
    JObj(map k | k in m :: JStr(m[k]))
  }

  // Subscripting: a missing key or a value of another kind raises.
  function StrAt(o: map<Field, Json>, k: Field): Option<string> {
    if k in o && o[k].JStr? then Some(o[k].text) else None
  }

  function IntAt(o: map<Field, Json>, k: Field): Option<int> {
    if k in o && o[k].JInt? then Some(o[k].number) else None
  }

  // .get(k): a missing key reads as null.
  function OptStrAt(o: map<Field, Json>, k: Field): Option<Option<string>> {
    if k !in o || o[k].JNull? then Some(None) else if o[k].JStr? then Some(Some(o[k].text)) else None
  }

  function MetadataAt(o: map<Field, Json>, k: Field): Option<Metadata> {
    if k !in o then Some(map[])
    else if o[k].JObj? && forall f :: f in o[k].entries ==> o[k].entries[f].JStr? then
      Some(map f | f in o[k].entries :: o[k].entries[f].text)
    else None
  }

  // ----- to_dict -----
  // The value written under each field; None where the dictionary has no such key.

  function CardEntry(c: VirtualCardResult, money: int -> string, field: Field): Option<Json> {
    match field
    case CardIdField => Some(JStr(c.cardId))
    case TenantIdField => Some(JStr(c.tenantId))
    case CustodianIdField => Some(JStr(c.custodianId))
    case FundIdField => Some(JStr(c.fundId))
    case LastFourField => Some(JStr(c.lastFour))
    case CardStatusField => Some(JStr(CardStatusValue(c.cardStatus)))
    case SpendingLimitScaledField => Some(JInt(c.spendingLimitScaled))
    case SpendingLimitFormattedField => Some(JStr(money(c.spendingLimitScaled)))
    case CurrencyField => Some(JStr(c.currency))
    case IdempotencyKeyField => Some(JStr(c.idempotencyKey))
    case BackendField => Some(JStr(CardBackendValue(c.backend)))
    case CreatedAtField => Some(JStr(c.createdAt))
    case ExpiresAtField => Some(JStr(c.expiresAt))
    case MetadataField => Some(FromMetadata(c.metadata))
    case _ => None
  }

  function CardToDict(c: VirtualCardResult, money: int -> string): Json {
    JRecord(map f: Field | CardEntry(c, money, f).Some? :: CardEntry(c, money, f).value)
  }

  function MobileEntry(m: MobileResult, money: int -> string, field: Field): Option<Json> {
    match field
    case DisbursementIdField => Some(JStr(m.disbursementId))
    case TenantIdField => Some(JStr(m.tenantId))
    case CustodianIdField => Some(JStr(m.custodianId))
    case FundIdField => Some(JStr(m.fundId))
    case RecipientField => Some(JStr(m.recipient))
    case AmountScaledField => Some(JInt(m.amountScaled))
    case AmountFormattedField => Some(JStr(money(m.amountScaled)))
    case CurrencyField => Some(JStr(m.currency))
    case StatusField => Some(JStr(StatusValue(m.status)))
    case BackendField => Some(JStr(MobileBackendValue(m.backend)))
    case IdempotencyKeyField => Some(JStr(m.idempotencyKey))
    case ReferenceNumberField => Some(JStr(m.referenceNumber))
    case InitiatedAtField => Some(JStr(m.initiatedAt))
    case CompletedAtField => Some(FromOptional(m.completedAt))
    case FailureReasonField => Some(FromOptional(m.failureReason))
    case MetadataField => Some(FromMetadata(m.metadata))
    case _ => None
  }

  function MobileToDict(m: MobileResult, money: int -> string): Json {
    JRecord(map f: Field | MobileEntry(m, money, f).Some? :: MobileEntry(m, money, f).value)
  }

  function ResultEntry(r: FloatDisbursementResult, money: int -> string, field: Field): Option<Json> {
    match field
    case DisbursementIdField => Some(JStr(r.disbursementId))
    case TenantIdField => Some(JStr(r.tenantId))
    case CustodianIdField => Some(JStr(r.custodianId))
    case FundIdField => Some(JStr(r.fundId))
    case ChannelField => Some(JStr(ChannelValue(r.channel)))
    case AmountScaledField => Some(JInt(r.amountScaled))
    case AmountFormattedField => Some(JStr(money(r.amountScaled)))
    case CurrencyField => Some(JStr(r.currency))
    case StatusField => Some(JStr(r.status))
    case IdempotencyKeyField => Some(JStr(r.idempotencyKey))
    case VirtualCardField => Some(if r.virtualCard.Some? then CardToDict(r.virtualCard.value, money) else JNull)
    case MobileDisbursementField => Some(if r.mobileDisbursement.Some? then MobileToDict(r.mobileDisbursement.value, money) else JNull)
    case InitiatedAtField => Some(JStr(r.initiatedAt))
    case CompletedAtField => Some(FromOptional(r.completedAt))
    case FailureReasonField => Some(FromOptional(r.failureReason))
    case _ => None
  }

  function ToDict(r: FloatDisbursementResult, money: int -> string): Json {
    JRecord(map f: Field | ResultEntry(r, money, f).Some? :: ResultEntry(r, money, f).value)
  }

  // ----- _result_from_dict -----

  function CardStatusAt(o: map<Field, Json>): Option<CardStatus> {
    var text :- StrAt(o, CardStatusField);
    ParseCardStatus(text)
  }

  function CardBackendAt(o: map<Field, Json>): Option<CardBackend> {
    var text :- StrAt(o, BackendField);
    ParseCardBackend(text)
  }

  function StatusAt(o: map<Field, Json>): Option<PaymentStatus> {
    var text :- StrAt(o, StatusField);
    ParseStatus(text)
  }

  function MobileBackendAt(o: map<Field, Json>): Option<MobileBackend> {
    var text :- StrAt(o, BackendField);
    ParseMobileBackend(text)
  }

  function ChannelAt(o: map<Field, Json>): Option<Channel> {
    var text :- StrAt(o, ChannelField);
    ParseChannel(text)
  }

  function CardFromDict(j: Json): Option<VirtualCardResult> {
    if !j.JRecord? then None
    else
      var o := j.fields;
      var cardId :- StrAt(o, CardIdField);
      var tenantId :- StrAt(o, TenantIdField);
      var custodianId :- StrAt(o, CustodianIdField);
      var fundId :- StrAt(o, FundIdField);
      var lastFour :- StrAt(o, LastFourField);
      var status :- CardStatusAt(o);
      var limit :- IntAt(o, SpendingLimitScaledField);
      var currency :- StrAt(o, CurrencyField);
      var key :- StrAt(o, IdempotencyKeyField);
      var backend :- CardBackendAt(o);
      var createdAt :- StrAt(o, CreatedAtField);
      var expiresAt :- StrAt(o, ExpiresAtField);
      var metadata :- MetadataAt(o, MetadataField);
      Some(VirtualCardResult(cardId, tenantId, custodianId, fundId, lastFour, status, limit, currency, key, backend,
                             createdAt, expiresAt, metadata))
  }

  function MobileFromDict(j: Json): Option<MobileResult> {
    if !j.JRecord? then None
    else
      var o := j.fields;
      var disbursementId :- StrAt(o, DisbursementIdField);
      var tenantId :- StrAt(o, TenantIdField);
      var custodianId :- StrAt(o, CustodianIdField);
      var fundId :- StrAt(o, FundIdField);
      var recipient :- StrAt(o, RecipientField);
      var amount :- IntAt(o, AmountScaledField);
      var currency :- StrAt(o, CurrencyField);
      var status :- StatusAt(o);
      var backend :- MobileBackendAt(o);
      var key :- StrAt(o, IdempotencyKeyField);
      var reference :- StrAt(o, ReferenceNumberField);
      var initiatedAt :- StrAt(o, InitiatedAtField);
      var completedAt :- OptStrAt(o, CompletedAtField);
      var failureReason :- OptStrAt(o, FailureReasonField);
      var metadata :- MetadataAt(o, MetadataField);
      Some(MobileResult(disbursementId, tenantId, custodianId, fundId, recipient, amount, currency, status, backend, key,
                        reference, initiatedAt, completedAt, failureReason, metadata))
  }

  // A nested result: absent or null reads as None.
  function OptionalCard(o: map<Field, Json>): Option<Option<VirtualCardResult>> {
    if VirtualCardField !in o || o[VirtualCardField].JNull? then Some(None)
    else
      var card :- CardFromDict(o[VirtualCardField]);
      Some(Some(card))
  }

  function OptionalMobile(o: map<Field, Json>): Option<Option<MobileResult>> {
    if MobileDisbursementField !in o || o[MobileDisbursementField].JNull? then Some(None)
    else
      var mobile :- MobileFromDict(o[MobileDisbursementField]);
      Some(Some(mobile))
  }

  function FromDict(j: Json): Option<FloatDisbursementResult> {
    if !j.JRecord? then None
    else
      var o := j.fields;
      var card :- OptionalCard(o);
      var mobile :- OptionalMobile(o);
      var disbursementId :- StrAt(o, DisbursementIdField);
      var tenantId :- StrAt(o, TenantIdField);
      var custodianId :- StrAt(o, CustodianIdField);
      var fundId :- StrAt(o, FundIdField);
      var channel :- ChannelAt(o);
      var amount :- IntAt(o, AmountScaledField);
      var currency :- StrAt(o, CurrencyField);
      var status :- StrAt(o, StatusField);
      var key :- StrAt(o, IdempotencyKeyField);
      var initiatedAt :- StrAt(o, InitiatedAtField);
      var completedAt :- OptStrAt(o, CompletedAtField);
      var failureReason :- OptStrAt(o, FailureReasonField);
      Some(FloatDisbursementResult(disbursementId, tenantId, custodianId, fundId, channel, amount, currency, status, key,
                                   card, mobile, initiatedAt, completedAt, failureReason))
  }

  // ----- the round trip -----

  lemma MetadataRoundTrip(m: Metadata, o: map<Field, Json>, k: Field)
    requires k in o && o[k] == FromMetadata(m)
    ensures MetadataAt(o, k) == Some(m)
  {
    var back := map f | f in o[k].entries :: o[k].entries[f].text;
    assert back == m;
  }

  // Each field of the record reads back as what the result holds.
  ghost predicate CardPartiesRead(o: map<Field, Json>, c: VirtualCardResult) {
    && StrAt(o, CardIdField) == Some(c.cardId) && StrAt(o, TenantIdField) == Some(c.tenantId)
    && StrAt(o, CustodianIdField) == Some(c.custodianId) && StrAt(o, FundIdField) == Some(c.fundId)
    && StrAt(o, LastFourField) == Some(c.lastFour)
  }

  ghost predicate CardTermsRead(o: map<Field, Json>, c: VirtualCardResult) {
    && IntAt(o, SpendingLimitScaledField) == Some(c.spendingLimitScaled) && StrAt(o, CurrencyField) == Some(c.currency)
    && StrAt(o, IdempotencyKeyField) == Some(c.idempotencyKey) && StrAt(o, CreatedAtField) == Some(c.createdAt)
    && StrAt(o, ExpiresAtField) == Some(c.expiresAt)
  }

  ghost predicate CardReads(o: map<Field, Json>, c: VirtualCardResult) {
    && CardPartiesRead(o, c) && CardTermsRead(o, c)
    && CardStatusAt(o) == Some(c.cardStatus) && CardBackendAt(o) == Some(c.backend)
    && MetadataAt(o, MetadataField) == Some(c.metadata)
  }

  ghost predicate MobilePartiesRead(o: map<Field, Json>, m: MobileResult) {
    && StrAt(o, DisbursementIdField) == Some(m.disbursementId) && StrAt(o, TenantIdField) == Some(m.tenantId)
    && StrAt(o, CustodianIdField) == Some(m.custodianId) && StrAt(o, FundIdField) == Some(m.fundId)
    && StrAt(o, RecipientField) == Some(m.recipient) && IntAt(o, AmountScaledField) == Some(m.amountScaled)
  }

  ghost predicate MobileTermsRead(o: map<Field, Json>, m: MobileResult) {
    && StrAt(o, CurrencyField) == Some(m.currency) && StrAt(o, IdempotencyKeyField) == Some(m.idempotencyKey)
    && StrAt(o, ReferenceNumberField) == Some(m.referenceNumber) && StrAt(o, InitiatedAtField) == Some(m.initiatedAt)
    && OptStrAt(o, CompletedAtField) == Some(m.completedAt) && OptStrAt(o, FailureReasonField) == Some(m.failureReason)
  }

  ghost predicate MobileReads(o: map<Field, Json>, m: MobileResult) {
    && MobilePartiesRead(o, m) && MobileTermsRead(o, m)
    && StatusAt(o) == Some(m.status) && MobileBackendAt(o) == Some(m.backend)
    && MetadataAt(o, MetadataField) == Some(m.metadata)
  }

  ghost predicate ResultPartiesRead(o: map<Field, Json>, r: FloatDisbursementResult) {
    && StrAt(o, DisbursementIdField) == Some(r.disbursementId) && StrAt(o, TenantIdField) == Some(r.tenantId)
    && StrAt(o, CustodianIdField) == Some(r.custodianId) && StrAt(o, FundIdField) == Some(r.fundId)
    && IntAt(o, AmountScaledField) == Some(r.amountScaled) && StrAt(o, CurrencyField) == Some(r.currency)
  }

  ghost predicate ResultTermsRead(o: map<Field, Json>, r: FloatDisbursementResult) {
    && StrAt(o, StatusField) == Some(r.status) && StrAt(o, IdempotencyKeyField) == Some(r.idempotencyKey)
    && StrAt(o, InitiatedAtField) == Some(r.initiatedAt) && OptStrAt(o, CompletedAtField) == Some(r.completedAt)
    && OptStrAt(o, FailureReasonField) == Some(r.failureReason)
  }

  ghost predicate ResultReads(o: map<Field, Json>, r: FloatDisbursementResult) {
    && ResultPartiesRead(o, r) && ResultTermsRead(o, r)
    && OptionalCard(o) == Some(r.virtualCard) && OptionalMobile(o) == Some(r.mobileDisbursement)
    && ChannelAt(o) == Some(r.channel)
  }

  lemma CardDecodes(o: map<Field, Json>, c: VirtualCardResult)
    requires CardReads(o, c)
    ensures CardFromDict(JRecord(o)) == Some(c)
  {
  }

  lemma MobileDecodes(o: map<Field, Json>, m: MobileResult)
    requires MobileReads(o, m)
    ensures MobileFromDict(JRecord(o)) == Some(m)
  {
  }

  lemma ResultDecodes(o: map<Field, Json>, r: FloatDisbursementResult)
    requires ResultReads(o, r)
    ensures FromDict(JRecord(o)) == Some(r)
  {
  }

  lemma CardPartiesWritten(c: VirtualCardResult, money: int -> string)
    ensures CardPartiesRead(CardToDict(c, money).fields, c)
  {
  }

  lemma CardTermsWritten(c: VirtualCardResult, money: int -> string)
    ensures CardTermsRead(CardToDict(c, money).fields, c)
  {
  }

  lemma CardNamesWritten(c: VirtualCardResult, money: int -> string)
    ensures CardStatusAt(CardToDict(c, money).fields) == Some(c.cardStatus)
    ensures CardBackendAt(CardToDict(c, money).fields) == Some(c.backend)
  {
  }

  lemma MobilePartiesWritten(m: MobileResult, money: int -> string)
    ensures MobilePartiesRead(MobileToDict(m, money).fields, m)
  {
  }

  lemma MobileReferencesWritten(m: MobileResult, money: int -> string)
    ensures var o := MobileToDict(m, money).fields;
            && StrAt(o, CurrencyField) == Some(m.currency) && StrAt(o, IdempotencyKeyField) == Some(m.idempotencyKey)
            && StrAt(o, ReferenceNumberField) == Some(m.referenceNumber)
  {
  }

  lemma MobileTimesWritten(m: MobileResult, money: int -> string)
    ensures var o := MobileToDict(m, money).fields;
            && StrAt(o, InitiatedAtField) == Some(m.initiatedAt)
            && OptStrAt(o, CompletedAtField) == Some(m.completedAt) && OptStrAt(o, FailureReasonField) == Some(m.failureReason)
  {
  }

  lemma MobileTermsWritten(m: MobileResult, money: int -> string)
    ensures MobileTermsRead(MobileToDict(m, money).fields, m)
  {
    MobileReferencesWritten(m, money);
    MobileTimesWritten(m, money);
  }

  lemma MobileNamesWritten(m: MobileResult, money: int -> string)
    ensures StatusAt(MobileToDict(m, money).fields) == Some(m.status)
    ensures MobileBackendAt(MobileToDict(m, money).fields) == Some(m.backend)
  {
  }

  lemma ResultPartiesWritten(r: FloatDisbursementResult, money: int -> string)
    ensures ResultPartiesRead(ToDict(r, money).fields, r)
  {
  }

  lemma ResultTermsWritten(r: FloatDisbursementResult, money: int -> string)
    ensures ResultTermsRead(ToDict(r, money).fields, r)
  {
  }

  lemma ChannelWritten(r: FloatDisbursementResult, money: int -> string)
    ensures ChannelAt(ToDict(r, money).fields) == Some(r.channel)
  {
  }

  lemma CardWritten(c: VirtualCardResult, money: int -> string)
    ensures CardReads(CardToDict(c, money).fields, c)
  {
    CardPartiesWritten(c, money);
    CardTermsWritten(c, money);
    CardNamesWritten(c, money);
    MetadataRoundTrip(c.metadata, CardToDict(c, money).fields, MetadataField);
  }

  lemma MobileWritten(m: MobileResult, money: int -> string)
    ensures MobileReads(MobileToDict(m, money).fields, m)
  {
    MobilePartiesWritten(m, money);
    MobileTermsWritten(m, money);
    MobileNamesWritten(m, money);
    MetadataRoundTrip(m.metadata, MobileToDict(m, money).fields, MetadataField);
  }

  lemma NestedCardRead(r: FloatDisbursementResult, money: int -> string)
    ensures OptionalCard(ToDict(r, money).fields) == Some(r.virtualCard)
  {
    if r.virtualCard.Some? {
      CardWritten(r.virtualCard.value, money);
      CardDecodes(CardToDict(r.virtualCard.value, money).fields, r.virtualCard.value);
    }
  }

  lemma NestedMobileRead(r: FloatDisbursementResult, money: int -> string)
    ensures OptionalMobile(ToDict(r, money).fields) == Some(r.mobileDisbursement)
  {
    if r.mobileDisbursement.Some? {
      MobileWritten(r.mobileDisbursement.value, money);
      MobileDecodes(MobileToDict(r.mobileDisbursement.value, money).fields, r.mobileDisbursement.value);
    }
  }

  // Reading back what was written gives the same result, however the money fields
  // that are only for display were formatted.
  lemma ResultRoundTrip(r: FloatDisbursementResult, money: int -> string)
    ensures FromDict(ToDict(r, money)) == Some(r)
  {
    NestedCardRead(r, money);
    NestedMobileRead(r, money);
    ResultPartiesWritten(r, money);
    ResultTermsWritten(r, money);
    ChannelWritten(r, money);
    ResultDecodes(ToDict(r, money).fields, r);
  }
}
