# PettyFlow: a verified model of the domain layer

PettyFlow handles petty cash for many tenants: floats are disbursed by card or mobile
money, booked in a hash-chained ledger, approved by a small workflow and watched by
fraud detectors. This project models the logic of that domain layer in Dafny and proves
what it promises, for all inputs, all runs and all interleavings.

`dafny verify dfyconfig.toml` checks everything.

## How it is built

A class of the source is a class here. Its methods change its fields step by step, with
the loops of the source, and each is proved against a specification function of the old
state. What the source promises over time is then proved about those functions: a run is
a sequence of operations, and an interleaving of concurrent callers is a sequence of
atomic steps.

- **Split-transaction detector** (`LinkGraph`, `GraphClustering`, `SlidingWindow`,
  `SplitTxDetector`, `SplitTxHistory`, `DirectPath`; `VelocityDetector` is its smaller
  sibling). The queue loop computes connected components; the evicting deques are the
  uncleared history of the window; with clustering on, the fallback path is dead code
  exactly when the minimum count is at least two.
- **Idempotent disbursement** (`IdempotencyStore`, `Settlement`, `DisbursementResult`,
  `Adapters`, `DisbursementManager`, `DisbursementProtocol`, `ProtocolEvents`,
  `PaymentLimits`, `EventLimits`). A transition system of any number of workers over one
  store and two providers, with failing calls, dying workers and a clock.
- **Hash chains** (`CanonicalBytes`, `JoinedParts`, `HashChains`, `LedgerChain`,
  `LedgerSeparators`, `AuditLog`, `AuditSeparators`, `EvidenceSealer`). The encodings byte
  by byte, exactly when they identify what they encode, and what a head hash commits to.
- **Currency** (`CurrencyArithmetic`, `CurrencyConverter`). Three tables that answer
  like one rule, and the error of the fixed-point arithmetic.
- **Spend aggregation** (`Sums`, `SpendAggregator`, `SpendSummary`). A fast pass that
  refines a plain one, up to its sentinels.
- **Perceptual hash** (`Bits`, `PerceptualHash`). Bit counting, bit packing and the
  duplicate store.
- **Balances** (`BalanceCache`, `FundService`). A compare-and-set protocol over string
  keys, and conservation of money.
- **Approval workflow** (`PolicyEvaluator`, `PolicyOrder`,
  `PolicyAcceptance`, `StateMachine`, `RequestTables`, `ApprovalWorkflow`, `WorkflowRuns`).

## Where the code and its documentation disagree

The model follows the code.

- The genesis hash of the ledger is 32 ASCII digits `0` (src/domain/ledger/hash_chain.py:16),
  not 32 zero bytes as the comment there says.
- The audit log announces that truncation is detected
  (src/infrastructure/audit/tamper_log.py:6), but verification accepts every prefix of a
  valid chain: `LedgerChain.TruncationVerifies`, and for the log `AuditLog.PrefixIntact`.
- The constructor of the split detector accepts a negative window
  (src/services/fraud/split_tx_detector.py:164), for which the custodian's deque is never
  the history in the window, and the tenant's only with clustering on:
  `SplitTxHistory.TenantDequeIsTheHistoryExactlyWhen`.
- The policy constructor asks for non-overlapping ranges
  (src/domain/workflow/policy_evaluator.py:205) but lets rules follow an unbounded one.
  When that breaks disjointness, when the order of the rules decides whether they are
  accepted, and when it decides the tier, is stated exactly.
- A cancelled card stays active in the table that answers retries
  (src/infrastructure/adapters/card_issuer.py:230): `Adapters.TablesAgreeUnlessCancelled`.
- A missing or unknown provider status raises after the event was claimed and keeps the claim
  (src/domain/wallet/disbursement_manager.py:302).
- Balance keys join tenant and account with a colon
  (src/infrastructure/cache/redis_balance_cache.py:78), so two tenants can share keys:
  exactly when one tenant id is the other with a colon and more appended.
- A key is paid once only as long as its record is kept
  (src/infrastructure/idempotency/store.py:111-117), or its channels are not mixed; a
  provider event likewise. `PaymentLimits` and `EventLimits` say exactly when.
- The loop of the Hamming distance never ends on hashes of opposite sign
  (src/services/fraud/perceptual_hash.py:86-88).

## Assumptions

- HMAC, SHA-256 and JSON are functions handed in. Where a theorem needs more it says so:
  no two different messages of the two chains at hand have one hash, none hashes to the
  genesis value, JSON text is read back as written.
- Clocks, random draws, UUIDs and provider answers are parameters. The window theorems
  need a clock that never goes back; new funds and requests get ids of their own where
  a theorem needs it.
- Timestamps are integer microseconds, dates are strings in Python's order, and amounts
  are integers scaled by 10,000.

## Model

| member | source | states |
|---|---|---|
| `LinkGraph.Graph.ComponentsPartition` | src/services/fraud/split_tx_detector.py:186-207 | two connected components of the link relation are equal or disjoint |
| `GraphClustering.BuildAdjacency` | src/services/fraud/split_tx_detector.py:227-234 | the adjacency lists hold, for every event, exactly its links with their reasons, in order |
| `GraphClustering.Explore` | src/services/fraud/split_tx_detector.py:244-255 | the queue loop ends, lists each event of the start's connected component once, and gathers exactly the reasons of the links inside it |
| `GraphClustering.ClusterEvents` | src/services/fraud/split_tx_detector.py:236-280 | the clusters are the connected components with at least the minimum number of events, by least event, each with its total, custodians, merchants, times, smurfing flag and link reasons |
| `GraphClustering.ClustersAreComponents` | src/services/fraud/split_tx_detector.py:236-280 | inside a cluster any two events are joined by a link path, no link leaves it, and clusters are pairwise disjoint |
| `GraphClustering.ListedExactlyWhenLarge` | src/services/fraud/split_tx_detector.py:257-278 | an event is in some cluster if and only if its component has the minimum size |
| `GraphClustering.ClustersConserveTheWindow` | src/services/fraud/split_tx_detector.py:257-280 | cluster totals plus the amounts of dropped events equal the total of the window |
| `SlidingWindow.EvictExpired` | src/services/fraud/split_tx_detector.py:176-184 | the loop that pops from the front computes the specified eviction |
| `SlidingWindow.EvictIsSince` | src/services/fraud/split_tx_detector.py:176-184 | on a window in time order popping from the front keeps exactly the events since the cutoff |
| `SplitTxDetector.SplitTransactionDetector.Create` | src/services/fraud/split_tx_detector.py:157-174 | construction fails exactly on a non-positive threshold |
| `SplitTxDetector.SplitTransactionDetector.GetClusters` | src/services/fraud/split_tx_detector.py:209-280 | evicts as asked, answers nothing for fewer than two events, and otherwise returns the clustering of the tenant's window |
| `SplitTxDetector.SplitTransactionDetector.RecordAndCheck` | src/services/fraud/split_tx_detector.py:282-344 | the new windows, and the alert: the first offending cluster if clustering is on and one offends, else the custodian's own window if it offends, else none |
| `SplitTxDetector.FirstClusterAlert` | src/services/fraud/split_tx_detector.py:303-325 | the cluster loop alerts if and only if the event's component breaks the rule, on the first such cluster, with its members and total |
| `SplitTxDetector.OwnWindowAlert` | src/services/fraud/split_tx_detector.py:327-344 | the fallback alerts if and only if the own window breaks the rule, describing that window |
| `SplitTxDetector.SplitTransactionDetector.WindowSum` | src/services/fraud/split_tx_detector.py:361-374 | the sum of the custodian's window after eviction |
| `SplitTxDetector.SplitTransactionDetector.ClearCustodian` | src/services/fraud/split_tx_detector.py:346-352 | drops the custodian's window and their events from the tenant's window, nothing else |
| `SplitTxDetector.SplitTransactionDetector.ClearTenant` | src/services/fraud/split_tx_detector.py:354-359 | drops every window of the tenant, no other |
| `SplitTxHistory.OwnDequeIsTheHistoryExactlyWhen` | src/services/fraud/split_tx_detector.py:176-184 | after any run under a clock that never goes back, the custodian's deque is the uncleared history that lies in the window, if and only if the window is not negative |
| `SplitTxHistory.TenantDequeIsTheHistoryExactlyWhen` | src/services/fraud/split_tx_detector.py:297-303 | the tenant's deque is, whatever queries evicted in between, if and only if the window is not negative or clustering is on |
| `SplitTxHistory.NegativeWindowKeepsTheEvent` | src/services/fraud/split_tx_detector.py:164-167 | with a negative window, which construction accepts, the own deque is the event alone in every run although no history lies in the window |
| `DirectPath.OwnDequeIsPartOfTenantDequeExactlyWhen` | src/services/fraud/split_tx_detector.py:291-303 | the two deques an event touches agree, one being the other restricted to the custodian, if and only if the window is not negative or clustering is off |
| `DirectPath.DirectPathOnlyForASingleEvent` | src/services/fraud/split_tx_detector.py:302-344 | when the own window breaks the rule, the cluster path alerts if and only if the tenant's window has at least two events |
| `DirectPath.DirectPathNeverFires` | src/services/fraud/split_tx_detector.py:302-344 | with clustering on, a minimum count of two or more and positive amounts the fallback never fires, whatever the window |
| `DirectPath.DirectPathFiresOnASingleEvent` | src/services/fraud/split_tx_detector.py:327-344 | with a minimum count of one or less a single event above the threshold makes it fire, clustering or not |
| `DirectPath.DirectPathIsDeadExactlyWhen` | src/services/fraud/split_tx_detector.py:302-344 | over all runs the fallback is dead code if and only if the minimum count is at least two and either clustering is on or the window is negative |
| `VelocityDetector.DisbursementVelocityDetector.RecordAndCheck` | src/services/fraud/velocity_detector.py:96-134 | records, evicts, and alerts exactly when the window holds more than the hourly limit |
| `VelocityDetector.DisbursementVelocityDetector.GetHourlyCount` | src/services/fraud/velocity_detector.py:136-148 | the size of the window after the eviction asked for |
| `VelocityDetector.CountIsRecentHistoryExactlyWhen` | src/services/fraud/velocity_detector.py:87-134 | the counted window is the uncleared history of the last window length, whatever queries came in between, if and only if the window is not negative |
| `VelocityDetector.NegativeWindowCountsTheRecord` | src/services/fraud/velocity_detector.py:75-85 | with a negative window, which construction accepts, the record alone is counted in every run although no history lies in the window |
| `IdempotencyStore.SQLiteIdempotencyStore.Reserve` | src/infrastructure/idempotency/store.py:101-152 | one atomic step: drops expired rows, then reserves, returns the row, or refuses another fingerprint |
| `IdempotencyStore.SQLiteIdempotencyStore.Complete` | src/infrastructure/idempotency/store.py:154-171 | finishes exactly an in-progress row with the same fingerprint |
| `IdempotencyStore.SQLiteIdempotencyStore.Abandon` | src/infrastructure/idempotency/store.py:192-202 | removes exactly an in-progress row with the same fingerprint |
| `IdempotencyStore.SQLiteIdempotencyStore.ClaimProviderEvent` | src/infrastructure/idempotency/store.py:204-230 | claims an unknown event, reports a replay, refuses another fingerprint |
| `IdempotencyStore.NothingExpires` | src/infrastructure/idempotency/store.py:111-117 | until the retention period has passed since the oldest row, reserving deletes nothing |
| `IdempotencyStore.AbandonUndoesReserve` | src/infrastructure/idempotency/store.py:192-202 | giving up a reservation restores the tables |
| `IdempotencyStore.AbandonUndoesClaim` | src/infrastructure/idempotency/store.py:232-243 | giving up a claim restores the tables |
| `IdempotencyStore.FinishedRowAnswers` | src/infrastructure/idempotency/store.py:101-171 | a finished row answers later reservations with the stored result, refuses others, and cannot be finished again |
| `Settlement.AfterCompletion` | src/domain/wallet/settlement.py:19-49 | in a run of legal transitions everything after COMPLETED is REVERSED, and that is the end |
| `Settlement.CompletesAtMostOnce` | src/domain/wallet/settlement.py:19-49 | a run of legal transitions visits COMPLETED at most once |
| `DisbursementResult.ResultRoundTrip` | src/domain/wallet/disbursement_manager.py:114-131 | every result, with its nested card or transfer, is read back unchanged from its dictionary |
| `DisbursementManager.StoredReadsBack` | src/domain/wallet/disbursement_manager.py:321-376 | a stored result is read back unchanged through JSON and the dictionary reader |
| `DisbursementManager.DisbursementManager.DisburseFloat` | src/domain/wallet/disbursement_manager.py:181-274 | the whole new state of store, providers and trail, and the outcome, for every branch: refused, busy, reused, raised, delivered |
| `DisbursementManager.DisbursementManager.IngestProviderEvent` | src/domain/wallet/disbursement_manager.py:276-319 | which outcome when, and that a refused transition leaves the event table as it was; a missing or unknown status keeps the claim |
| `DisbursementManager.RetryIsFree` | src/domain/wallet/disbursement_manager.py:181-274 | a retry within retention returns the first result and changes nothing |
| `DisbursementProtocol.RunKeepsInv` | src/domain/wallet/disbursement_manager.py:181-274 | every interleaving of reserve, call, complete, abandon, failures and clock ticks within retention keeps the protocol invariant of a key |
| `DisbursementProtocol.AtMostOneEffect` | src/domain/wallet/disbursement_manager.py:181-274 | in every such run a key has at most one owner and at most one effect at the providers, exactly one once completed |
| `DisbursementProtocol.AllCallersAgree` | src/domain/wallet/disbursement_manager.py:181-274 | all callers that got a result for a key got the same one, and their requests have one fingerprint |
| `DisbursementProtocol.OtherRequestRefused` | src/infrastructure/idempotency/store.py:118-152 | while a record exists a request with another fingerprint is refused and no table changes |
| `ProtocolEvents.AcceptedAtMostOnce` | src/domain/wallet/disbursement_manager.py:276-319 | in every run within retention a provider event is accepted at most once |
| `ProtocolEvents.AtMostOnePerChannel` | src/infrastructure/adapters/mobile_money.py:162-226 | without any bound on time a key is paid at most once per channel |
| `ProtocolEvents.PaysAgainAfterRetention` | src/infrastructure/idempotency/store.py:111-117 | one second after the retention period one key can be paid a second time, on the other channel: a run that does it |
| `PaymentLimits.OneChannelPaysOnce` | src/infrastructure/adapters/card_issuer.py:146-193 | if all requests for a key are for cards, or all for transfers, it is paid once at most, without any bound on time |
| `PaymentLimits.PaidOnceExactlyWhen` | src/domain/wallet/disbursement_manager.py:181-274 | a key is sure to be paid at most once if and only if no more time than the retention period passes or its channels are not mixed |
| `EventLimits.AcceptedAgainAfterRetention` | src/infrastructure/idempotency/store.py:111-117 | one second after the retention period, and a reservation, one event is accepted a second time: a run that does it |
| `EventLimits.AcceptedOnceExactlyWhen` | src/domain/wallet/disbursement_manager.py:276-319 | a legal event is sure to be accepted at most once if and only if no more time than the retention period passes or nothing is reserved |
| `Adapters.CardIssuerAdapter.CreateVirtualCard` | src/infrastructure/adapters/card_issuer.py:146-193 | issues one card per scoped key and answers a retry with the stored card |
| `Adapters.CardIssuerAdapter.CancelCard` | src/infrastructure/adapters/card_issuer.py:202-231 | cancels in the id table, and writes the other table under the bare key |
| `Adapters.MobileMoneyAdapter.Disburse` | src/infrastructure/adapters/mobile_money.py:162-226 | records one transfer per key and answers a retry with it |
| `Adapters.CardTablesMatch` | src/infrastructure/adapters/card_issuer.py:146-231 | after any run the two card tables hold the same cards, up to cancellation |
| `Adapters.OneCardPerKey` | src/infrastructure/adapters/card_issuer.py:146-193 | no key ever gets two cards |
| `Adapters.TablesAgreeUnlessCancelled` | src/infrastructure/adapters/card_issuer.py:202-231 | the two tables agree on a card if and only if no cancel call for it was made after it was there, by its own tenant or naming none |
| `Adapters.RetryAfterCancelIsActive` | src/infrastructure/adapters/card_issuer.py:230-231 | after create and cancel a retry is answered with the card still active |
| `CanonicalBytes.Utf8Injective` | src/domain/ledger/hash_chain.py:22-29 | UTF-8 of two strings is equal only for equal strings |
| `CanonicalBytes.DecimalInjective` | src/domain/ledger/hash_chain.py:41-81 | decimal printing is injective on all integers |
| `LedgerChain.ComputeCanonicalBytes` | src/domain/ledger/hash_chain.py:31-81 | the loop produces the canonical encoding of the block |
| `LedgerChain.CanonicalDecodes` | src/domain/ledger/hash_chain.py:31-81 | equal encodings imply equal sequence number, texts, legs and previous hash; texts hold no bar, account ids no semicolon and kinds no colon, and the hash may hold any byte |
| `LedgerChain.BarsAreAmbiguous` | src/domain/ledger/hash_chain.py:31-81 | with a bar in the tenant or transaction id two different blocks have one encoding |
| `LedgerChain.BarsInTheDescriptionAreAmbiguous` | src/domain/ledger/hash_chain.py:31-81 | the same for a bar in the description |
| `LedgerChain.BarsInTheTimestampAreAmbiguous` | src/domain/ledger/hash_chain.py:31-81 | the same for a bar in the time stamp of a block with a leg |
| `LedgerChain.SemicolonsAreAmbiguous` | src/domain/ledger/hash_chain.py:52-70 | with an account id that holds the text of a whole debit leg and a semicolon, one leg has the encoding of two |
| `LedgerChain.ColonsInKindsAreAmbiguous` | src/domain/ledger/hash_chain.py:52-70 | with a colon in a stored kind two different legs have one encoding |
| `LedgerSeparators.DecodableExactlyWhenStrict` | src/domain/ledger/hash_chain.py:31-81 | of all policies on which fields may hold separators, the bytes of blocks with previous hashes of one length identify all but the block's own hash if and only if bars are kept out of the four texts, semicolons out of account ids and colons out of kinds; each of the six conditions is needed alone, and no other |
| `JoinedParts.PartsDecode` | src/domain/ledger/hash_chain.py:69-71 | the joined legs are read off the back: amount, kind without colon, account id without semicolon |
| `HashChains.HeadCommits` | src/domain/ledger/hash_chain.py:189-214 | two chains that verify under one code and end in one hash have equal messages, by induction from the head |
| `LedgerChain.LedgerHeadCommits` | src/domain/ledger/hash_chain.py:189-214 | two ledgers that verify and have one head hash have the same length and equal blocks |
| `LedgerChain.NewPostingLeg` | src/domain/ledger/entry.py:50-58 | a leg is built, with the account, type and amount asked for, exactly for a positive amount |
| `LedgerChain.ValidateBalance` | src/domain/ledger/entry.py:68-87 | true exactly when debits equal credits |
| `LedgerChain.SerializedTotals` | src/domain/ledger/hash_chain.py:118-187 | the stored legs have the debit and credit totals of the transaction |
| `LedgerChain.EncodeCache.GetBytes` | src/domain/ledger/hash_chain.py:22-29 | the cache, filled or not, gives the bytes of the string |
| `LedgerChain.EncodeForAppend` | src/domain/ledger/hash_chain.py:132-176 | the inlined encoder with its cache yields the canonical encoding |
| `LedgerChain.CryptographicLedgerChain.AppendTransaction` | src/domain/ledger/hash_chain.py:118-187 | refuses exactly foreign and unbalanced batches, otherwise appends one block, and keeps the chain verified, numbered from one, balanced and positive in every leg |
| `LedgerChain.CryptographicLedgerChain.VerifyIntegrity` | src/domain/ledger/hash_chain.py:189-214 | succeeds if and only if the chain verifies, and otherwise names the first block at fault and why |
| `LedgerChain.TruncationVerifies` | src/domain/ledger/hash_chain.py:189-214 | every prefix of a valid chain passes verification |
| `LedgerChain.TruncationChangesTheHead` | src/domain/ledger/hash_chain.py:189-214 | but a proper prefix has another head hash |
| `AuditLog.MaterialDecodes` | src/infrastructure/audit/tamper_log.py:71-86 | equal hash material implies equal fields, although the payload may hold the separator |
| `AuditSeparators.DecodableExactlyWhenStrict` | src/infrastructure/audit/tamper_log.py:71-86 | of all policies on which fields may hold bars, the material identifies all but the entry id and the entry's own hash if and only if bars are kept out of every text but the payload; each of the five conditions is needed alone |
| `AuditLog.LogHeadCommits` | src/infrastructure/audit/tamper_log.py:136-180 | two logs that verify and have one head hash agree on everything that is hashed |
| `AuditLog.WORMAuditLogger.AppendEvent` | src/infrastructure/audit/tamper_log.py:88-130 | appends one entry to one tenant's list and keeps every tenant's chain intact |
| `AuditLog.WORMAuditLogger.VerifyIntegrity` | src/infrastructure/audit/tamper_log.py:136-180 | succeeds if and only if sequence, links and hashes are right, and otherwise names the first entry at fault |
| `AuditLog.AppendKeepsIntact` | src/infrastructure/audit/tamper_log.py:88-130 | an append by any tenant keeps every chain intact |
| `EvidenceSealer.SealPackage` | src/services/fraud/evidence_sealer.py:128-144 | appends the package to the tenant's chain and returns its entry |
| `EvidenceSealer.VerifySealedEvidence` | src/services/fraud/evidence_sealer.py:194-215 | raises on a broken chain, otherwise compares the digest in the first entry with the receipt's id |
| `EvidenceSealer.SealedForever` | src/services/fraud/evidence_sealer.py:128-215 | after any later appends a receipt passes if and only if its entry id was new at sealing, or taken by an entry with the same digest |
| `EvidenceSealer.SealedChainIntact` | src/services/fraud/evidence_sealer.py:128-215 | and the chain it is checked against still verifies |
| `EvidenceSealer.OtherTenantsUntouched` | src/infrastructure/audit/tamper_log.py:88-130 | appends by others leave a tenant's chain as it is |
| `CurrencyArithmetic.ConvertIsNearest` | src/domain/currency/exchange_rates.py:209-210 | a conversion is within half a unit of exact, ties upwards |
| `CurrencyArithmetic.ConvertIsMonotone` | src/domain/currency/exchange_rates.py:209-210 | a larger amount never converts to less |
| `CurrencyArithmetic.ConvertIsMonotoneInTheRate` | src/domain/currency/exchange_rates.py:209-210 | a better rate never converts to less |
| `CurrencyArithmetic.ConvertIsAdditiveWithinOne` | src/domain/currency/exchange_rates.py:209-210 | converting a sum or its parts differs by at most one unit |
| `CurrencyArithmetic.InverseIsNearest` | src/domain/currency/exchange_rates.py:130-134 | the stored inverse is the nearest fraction |
| `CurrencyArithmetic.InverseVanishes` | src/domain/currency/exchange_rates.py:130-134 | the stored inverse is zero if and only if the rate exceeds twice the square of the scale |
| `CurrencyArithmetic.RoundTripError` | src/domain/currency/exchange_rates.py:123-136 | the error bound of converting there and back through a rate and its stored inverse |
| `CurrencyArithmetic.CrossRateError` | src/domain/currency/exchange_rates.py:171-179 | how far one step by the cross rate can be from two steps |
| `CurrencyConverter.IndexRate` | src/domain/currency/exchange_rates.py:77-86 | the list stays strictly sorted and changes at the one date only |
| `CurrencyConverter.BisectRight` | src/domain/currency/exchange_rates.py:93-94 | the number of dates on or before the asked one |
| `CurrencyConverter.Converter.SetRate` | src/domain/currency/exchange_rates.py:106-136 | the new exact rates, both directions, the errors, and that index and memo stay right |
| `CurrencyConverter.Converter.LookupIndexedRate` | src/domain/currency/exchange_rates.py:88-104 | finds a rate if and only if the pair has one, and then the one the rule selects |
| `CurrencyConverter.Converter.GetRateScaled` | src/domain/currency/exchange_rates.py:138-183 | memo, exact date, index and the dollar cross together give the outcome of the rule on the exact rates alone |
| `CurrencyConverter.ResolutionIsUnique` | src/domain/currency/exchange_rates.py:138-183 | the rule (latest on or before, else earliest, else through the dollar) determines rate or error |
| `CurrencyConverter.SelectedEntry` | src/domain/currency/exchange_rates.py:88-104 | what bisection points at is what the rule selects |
| `CurrencyConverter.Converter.Convert` | src/domain/currency/exchange_rates.py:185-210 | a conversion is the arithmetic at the rate of the rule, with every error case |
| `CurrencyConverter.ConversionIsUnique` | src/domain/currency/exchange_rates.py:185-210 | the exact rates determine the result of a conversion |
| `CurrencyConverter.Converter.RevalueAmount` | src/domain/currency/exchange_rates.py:212-233 | both values are conversions at their dates and the gain is their difference |
| `SpendAggregator.RowTableIsExact` | src/services/analytics/spend_aggregator.py:155-200 | a key's row-wise metric is the sum, the number, the least and the greatest of its amounts |
| `SpendAggregator.ColumnTableIsClamped` | src/services/analytics/spend_aggregator.py:90-129 | the columnar metric is the same with the two sentinels taking part |
| `SpendAggregator.PassesAgreeExactlyWhen` | src/services/analytics/spend_aggregator.py:104-142 | on full columns the fast table equals the plain one if and only if among the rows no key has all its amounts above the one sentinel or all below zero |
| `SpendSummary.GetExecutiveSummary` | src/services/analytics/spend_aggregator.py:155-224 | the one loop computes the specified totals and tables of the tenant's rows |
| `SpendSummary.AggregateColumnar` | src/services/analytics/spend_aggregator.py:90-153 | the one loop computes the specified totals and tables of the columns, up to the shortest |
| `SpendSummary.FastEqualsPlainExactlyWhen` | src/services/analytics/spend_aggregator.py:90-224 | the fast summary of a tenant equals the plain one if and only if in every dimension each of its rows has a row with the same key at most 999_999_999_999 and one at least 0 |
| `SpendSummary.FastEqualsPlain` | src/services/analytics/spend_aggregator.py:90-224 | in particular for all amounts from 0 to 999_999_999_999 |
| `SpendSummary.OneRowCanDiffer` | src/services/analytics/spend_aggregator.py:104-129 | one row alone, negative or above the sentinel, makes the two summaries differ |
| `SpendSummary.PlainSummaryConserves` | src/services/analytics/spend_aggregator.py:155-224 | in each dimension totals and counts add up to the grand ones |
| `SpendSummary.FastSummaryConserves` | src/services/analytics/spend_aggregator.py:90-153 | in each dimension the fast totals and counts miss exactly the amounts beyond the shortest column |
| `PerceptualHash.HammingDistance` | src/services/fraud/perceptual_hash.py:79-89 | on hashes of one sign, negative ones too, clearing the lowest one until nothing is left ends and counts the ones |
| `PerceptualHash.LoopEndsExactlyOnOneSign` | src/services/fraud/perceptual_hash.py:84-89 | the loop comes to an end if and only if the hashes have one sign |
| `PerceptualHash.DistanceOnOneSign` | src/services/fraud/perceptual_hash.py:79-89 | on hashes of one sign, negative ones too, the distance is the number of positions where the bits of the hashes themselves differ, and zero only on equal ones |
| `Bits.BitOfIntXor` | src/services/fraud/perceptual_hash.py:84 | the difference is the bitwise exclusive or, negative numbers included |
| `Bits.BitOfClearLowest` | src/services/fraud/perceptual_hash.py:87 | the step is the bitwise conjunction of a number and its predecessor, negative numbers included |
| `PerceptualHash.DistanceCountsDifferingBits` | src/services/fraud/perceptual_hash.py:79-89 | the distance is the number of positions where the hashes differ |
| `PerceptualHash.ZeroOnlyOnEqualHashes` | src/services/fraud/perceptual_hash.py:79-89 | the distance is zero if and only if the hashes are equal |
| `PerceptualHash.DistanceIsSymmetric` | src/services/fraud/perceptual_hash.py:79-89 | the distance is symmetric |
| `PerceptualHash.TriangleInequality` | src/services/fraud/perceptual_hash.py:79-89 | the distance obeys the triangle inequality |
| `PerceptualHash.ComputeDHash` | src/services/fraud/perceptual_hash.py:64-76 | the two loops pack the 64 comparisons |
| `PerceptualHash.FingerprintBits` | src/services/fraud/perceptual_hash.py:64-76 | bit 8 * row + col is set if and only if left is brighter than right, and the result is below 2^64 |
| `PerceptualHash.EqualFingerprints` | src/services/fraud/perceptual_hash.py:64-76 | two images have one fingerprint if and only if all their comparisons agree |
| `PerceptualHash.DuplicateReceiptDetector.Register` | src/services/fraud/perceptual_hash.py:146-191 | flags the earliest near entry if there is one, always appends, and leaves other tenants alone |
| `PerceptualHash.FlaggedExactlyWhenNear` | src/services/fraud/perceptual_hash.py:159-191 | flagged if and only if a stored fingerprint is near; the same picture always the second time |
| `PerceptualHash.JudgementIsUnique` | src/services/fraud/perceptual_hash.py:159-191 | entries and fingerprint determine the flag |
| `PerceptualHash.FlaggedTogether` | src/services/fraud/perceptual_hash.py:163-165 | two receipts flagged against one entry differ in at most twice the threshold |
| `BalanceCache.SharedTag` | src/infrastructure/cache/redis_balance_cache.py:71-81 | accounts with one hash tag are one account, or belong to tenants of whose ids one is the other with a colon and more appended |
| `BalanceCache.TenantsShareAKeyExactlyWhen` | src/infrastructure/cache/redis_balance_cache.py:71-81 | two tenants have accounts that share their keys if and only if their ids overlap in that way |
| `BalanceCache.ScriptIsDecodedRight` | src/infrastructure/cache/redis_balance_cache.py:14-38 | no success of the script is decoded as an error, nor the other way round |
| `BalanceCache.RedisBalanceCache.Eval` | src/infrastructure/cache/redis_balance_cache.py:14-38 | the script as one atomic step |
| `BalanceCache.RedisBalanceCache.AtomicIncrementBalance` | src/infrastructure/cache/redis_balance_cache.py:118-163 | the new store and the decoded answer |
| `BalanceCache.AccountsAreIsolated` | src/infrastructure/cache/redis_balance_cache.py:71-81 | an operation leaves every other account unchanged, of its own tenant or of one whose id does not overlap |
| `BalanceCache.TenantsAreIsolatedExactlyWhen` | src/infrastructure/cache/redis_balance_cache.py:71-81 | no call of one tenant ever changes an account of another if and only if their ids do not overlap |
| `BalanceCache.BalanceIsTheSumOfAcceptedDeltas` | src/infrastructure/cache/redis_balance_cache.py:14-38 | in every interleaving without a reset the balance is the start plus the accepted deltas, never negative, and the version counts them |
| `BalanceCache.VersionedUpdate` | src/infrastructure/cache/redis_balance_cache.py:22-24 | an update naming a version conflicts if and only if something was accepted since, and otherwise succeeds if and only if the money is there |
| `BalanceCache.KeysComeInPairs` | src/infrastructure/cache/redis_balance_cache.py:83-116 | after any run balance and version keys are both present or both absent |
| `BalanceCache.AcceptedLeavesNoDebt` | src/infrastructure/cache/redis_balance_cache.py:29-37 | an accepted update never leaves a negative balance, whatever was set before |
| `FundService.Service.CreateFund` | src/domain/funds/service.py:44-67 | the new fund, or the reason it was refused |
| `FundService.Service.AllocateFloat` | src/domain/funds/service.py:69-84 | moves the amount from the fund to the custodian, or refuses and changes nothing |
| `FundService.Service.IssueDisbursement` | src/domain/funds/service.py:86-98 | takes the amount from the custodian, or refuses and changes nothing |
| `FundService.MoneyIsConserved` | src/domain/funds/service.py:44-98 | over every run: initial amount = available + all custodian balances + disbursed |
| `FundService.BalancesFitInt64` | src/domain/funds/service.py:123-131 | hence no balance leaves the 64-bit range, although only single amounts are checked |
| `FundService.RunIsSound` | src/domain/funds/service.py:69-98 | no amount is ever negative and nobody holds money of a fund that does not exist |
| `FundService.TenantsAreApart` | src/domain/funds/service.py:108-112 | a call for one tenant leaves every other tenant's funds and balances alone |
| `PolicyEvaluator.ApprovalPolicyEvaluator.Create` | src/domain/workflow/policy_evaluator.py:181-209 | accepts exactly the rule lists whose sorted form passes the neighbour checks, and otherwise names the first rule at fault |
| `PolicyEvaluator.ApprovalPolicyEvaluator.Evaluate` | src/domain/workflow/policy_evaluator.py:215-274 | the first match in sorted order, or the fallback; no answer for amounts that are not positive |
| `PolicyEvaluator.DisjointExactlyWhenOnlyTheLastIsUnbounded` | src/domain/workflow/policy_evaluator.py:193-209 | the neighbour check alone makes all ranges disjoint if and only if no unbounded rule stands before the last |
| `PolicyEvaluator.TheMatchIsUnique` | src/domain/workflow/policy_evaluator.py:245-249 | on disjoint ranges the first match is the only one |
| `PolicyEvaluator.SupplyOrderDoesNotMatter` | src/domain/workflow/policy_evaluator.py:187-274 | disjoint rules are accepted and answer alike in whatever order they are supplied |
| `PolicyEvaluator.SupplyOrderCanMatter` | src/domain/workflow/policy_evaluator.py:193-209 | two unbounded rules that are accepted both ways round and ask for different tiers |
| `PolicyAcceptance.AcceptanceIsOrderFreeExactlyWhen` | src/domain/workflow/policy_evaluator.py:187-209 | rules accepted in one order are accepted in every order if and only if no bounded rule shares its minimum with another |
| `PolicyAcceptance.AcceptanceCanDependOnTheOrder` | src/domain/workflow/policy_evaluator.py:202-209 | two rules that are accepted one way round and refused the other |
| `PolicyOrder.TierIsOrderFreeExactlyWhen` | src/domain/workflow/policy_evaluator.py:215-274 | among the accepted orders the tier is settled if and only if the unbounded rules sharing the lowest threshold ask for one tier |
| `PolicyAcceptance.OrderIsImmaterialExactlyWhen` | src/domain/workflow/policy_evaluator.py:187-274 | for any accepted list every supply order is accepted and asks for the same tier if and only if both conditions hold |
| `PolicyEvaluator.FallbackExactlyInGaps` | src/domain/workflow/policy_evaluator.py:245-261 | the fallback, with the finance director, is for exactly the amounts below the first rule, in a gap between neighbours, or above a last bounded rule |
| `PolicyEvaluator.DefaultPolicyTiers` | src/domain/workflow/policy_evaluator.py:138-157 | the default policy covers every positive amount, with its two thresholds |
| `StateMachine.ApprovalRequest.Transition` | src/domain/workflow/state_machine.py:194-245 | the table decides; a legal event adds one record and sets the state, another changes nothing |
| `StateMachine.StateTellsTheEvents` | src/domain/workflow/state_machine.py:92-98 | from a draft the state determines the sequence of events, except that rejected may be cancelled |
| `StateMachine.TerminalExactlyWhenStuck` | src/domain/workflow/state_machine.py:100-104 | the terminal states are exactly those from which the table allows nothing |
| `ApprovalWorkflow.ApprovalWorkflowService.SubmitRequest` | src/domain/workflow/service.py:109-214 | the new table and request, approved on the spot if the policy allows, or the first fault |
| `ApprovalWorkflow.ApprovalWorkflowService.ApproveRequest` | src/domain/workflow/service.py:216-268 | advances the one request in place, or names the first reason not to |
| `ApprovalWorkflow.ApprovalWorkflowService.RejectRequest` | src/domain/workflow/service.py:270-318 | advances the one request in place, or names the first reason not to |
| `ApprovalWorkflow.ApprovalWorkflowService.DisburseRequest` | src/domain/workflow/service.py:320-359 | advances the one request in place, or names the first reason not to |
| `ApprovalWorkflow.ApprovalWorkflowService.GetSummaryStats` | src/domain/workflow/service.py:410-462 | the counting loop computes the specified numbers of the tenant |
| `WorkflowRuns.RunIsGood` | src/domain/workflow/service.py:162-346 | over every run each stored trail is a path of the table from DRAFT to the state, with the tier of its amount |
| `WorkflowRuns.StoredStateTellsTheEvents` | src/domain/workflow/service.py:162-346 | no draft is stored, and DISBURSED means exactly SUBMIT, APPROVE, DISBURSE |
| `WorkflowRuns.ReasonsAreOnRecord` | src/domain/workflow/service.py:231-302 | approvals and rejections carry a readable reason, every record a readable actor |
| `WorkflowRuns.TrailsOnlyGrow` | src/domain/workflow/state_machine.py:216-245 | records are only added, never changed or removed |
| `WorkflowRuns.TenantsAreApart` | src/domain/workflow/service.py:240-246 | a call for one tenant leaves other tenants' requests alone |
| `WorkflowRuns.ApprovalExactlyWhen` | src/domain/workflow/service.py:248-253 | with actor and reason given, approval succeeds if and only if the request was only submitted and any role named has the authority |
| `RequestTables.SummaryCounts` | src/domain/workflow/service.py:426-446 | the dashboard numbers are sizes of the sets they describe |
| `WorkflowRuns.DashboardAddsUp` | src/domain/workflow/service.py:426-446 | in every run total = pending + approved + rejected + disbursed |

## Left out

- BalanceCache.RedisBalanceCache.Eval: does not model Lua's number printing, which is exact only below 10^14; balances are unbounded integers here.
- PerceptualHash.ComputeDHash: starts from the 9 x 8 grey pixels; decoding and resizing belong to the imaging library.
- GraphClustering.ClusterEvents: gives custodians, merchants and link reasons as sets instead of sorted lists, and of the cluster id only its running number.
- SplitTxDetector.FirstClusterAlert: gives custodians and merchants of the alert as sets instead of sorted lists.
- SplitTxDetector.SplitTransactionDetector.RecordAndCheck: compares times in integer microseconds where the source compares seconds as floats; white space and case folding are ASCII.
- VelocityDetector.DisbursementVelocityDetector.RecordAndCheck: leaves the hourly total query and the formatted fields of the alert out.
- DisbursementManager.DisbursementManager.DisburseFloat: leaves the optional audit logger and the in-memory expiry map of results out; get_or_reserve and close of the store are not modelled.
- DisbursementResult.ResultRoundTrip: names dictionary fields by constructors instead of strings; formatted money is an unconstrained function, which the reader ignores.
- Adapters.MobileMoneyAdapter.Disburse: models the mock back end; get_card, get_disbursement_status and the counters are not part of this model.
- LedgerChain.CryptographicLedgerChain.AppendTransaction: leaves account names, categories and currencies out, which are not hashed.
- EvidenceSealer.SealPackage: creating a package and its digest, and the three wrappers that build packages from alerts, are not part of this model.
- CurrencyConverter.Converter.SetRate: takes the rate already scaled and rounded, and currency codes already normalised; the source label is not kept.
- SpendSummary.AggregateColumnar: leaves percentages, averages and formatted amounts out.
- SpendSummary.GetExecutiveSummary: leaves percentages, averages and formatted amounts out.
- FundService.Service.CreateFund: upper-cases ASCII letters only; identifiers are numbers.
- ApprovalWorkflow.ApprovalWorkflowService.SubmitRequest: leaves receipt metadata, time stamps and the broadcast to listeners out.
- ApprovalWorkflow.ApprovalWorkflowService.ApproveRequest: returns the stored object as the source does, but a caller that changes it directly is outside the model.
- list_requests and get_request: filtering, ordering by creation time and paging are not part of this model.
- is_actor_authorized and the auto-approval wrapper of the policy evaluator: single comparisons that would only add easy members.
- Conditions on argument types (an int that is not a bool, a str): the types of Dafny replace them.
- HTTP, gRPC, WebSocket, the browser code, PDF and CSV output, scripts and deployment: input, output and presentation.
- reconciliation, category_anomaly, risk_scorer and telemetry: straight-line classification and short sums that would only add easy members.
- ocr_processor, migrations, ERP, Plaid and pain.001 building, kms_vault and jwt_verifier: regular expressions, database effects, data plumbing and library calls.
