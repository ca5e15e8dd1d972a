# Tollway, modelled and proved

Tollway settles machine payments: a service gates a resource behind a payment,
an agent pays within a policy, frequent payments run through off-chain channels,
and every settlement yields a signed receipt. This project models the parts of
it that carry state or that other guarantees rest on, and proves what they
promise.

**The settlement gate** (`Gate`, `GateInFlight`, `GateReceipts`,
`GateReleases`, `GateLocks`, `GateLimits`, `GateReplays`, `GateTraces`,
`GateReports`, `GateClock`, `SettlementCache`, `Receipts`). A request verifies a payment, joins an attempt already in flight or
starts one, looks in the cache, takes a lock, looks again, settles, signs, writes
and releases. The gate is a transition system: the code between two awaits is one
step, any number of requests run in any number of gates over one shared store,
and an adversary picks the order of the steps, the answer of every awaited call,
and whether a call that failed has taken effect. Some results hold in every
reachable state with no hypothesis: one attempt per key in a gate, receipts that
agree with the offer, one release per acquired lock, and exactly which settled
payers end without a receipt. The others concern one payment and come in three
levels of trust (`GateLocks.Trust`), on the lock, the entry and the requests of that
payment's key only; whatever fails or expires for other payments is free:

- the lock does not expire under its holder: then holders exclude each other;
- also its receipts can be signed, its cached entry stays and a failed write of it
  has taken effect: then the payment settles at most once across all gates, whoever
  else writes the store;
- also nobody but the gates writes its entry: then it is one purchase with one
  receipt.

Inside one gate the in-flight map does what the lock does across gates: over any
cache, a payment settles at most once, and a repeated one is answered from the cache
and never settles (`GateReplays`). Two more modules speak about the events of a run
alone: which payments share a key, and that every receipt handed out was verified,
settled and signed for that payment (`GateTraces`); and that every status, error,
replay mark and cache error a request reports is read off the answers its calls were
given (`GateReports`).

The runs in `GateLimits` break the four hypotheses of the second level one at a
time and settle twice, and break the third and split a purchase over two
receipts. `GateClock` turns the first hypothesis into a bound on the time between
acquire and release, over lock cells written as the Redis cache writes them, and
shows that Redis does what the store of the gate does.

**Encodings** (`Canonical`, `CanonicalUnique`, `JsonReader`, `KeyOrder`,
`JsonString`, `Decimal`, `Utf8`, `Base64Url`, `Csv`, `Glob`, `GlobProperties`). A
signature and a cache binding cover canonical JSON, so what matters is that different
values never print alike; the proofs read a printed value back from the front of
any text it is followed by. Canonical text, UTF-8, base64url and the CSV export are
proved against readers of their standards, and the glob compiler against a direct
recursive matcher.

**Policy and client** (`PaymentLog`, `Policy`, `Client`, `ClientOverlap`). The
engine keeps three maps, two pruned queues and a day marker. Ghost fields hold the
log of every payment ever recorded, and each method is proved against that log.
On top of it `Client` proves that every run of payments keeps every limit, and
`ClientOverlap` by how much payments that overlap can exceed one.

**Channels and reconciliation** (`Commitments`, `CommitmentStore`,
`ClosePolicy`, `Channels`, `ChannelRuns`, `ChannelHistory`, `ChannelOverlap`,
`OverlappingCommits`, `OverlappingCloses`, `OverlappingCalls`, `CallsAlone`,
`Reconcile`, `ReconcileVerdict`, `Agreement`). The manager's methods are proved
against functions on what the store holds; runs of those functions give the stream
invariant, and every field of a channel as the history of the calls that succeeded
on it. Calls that overlap are a
transition system of their own, with the history of every call, and the results
say exactly which overlaps break a promise. The reconciler, an independent
checker, is proved to accept exactly the consistent streams, and the two packages
are proved to agree.

Strings of the TypeScript packages are sequences of UTF-16 code units (`JsText`).
Clock readings, adapter answers, settlement results, signatures and receipt ids
are parameters.

## What the proofs found

- The security scanner's documentation says that `**` spans directories. The
  expression it compiles to does not cross a newline, so a path with a newline in
  a directory name can escape a pattern. `GlobProperties.NewlineBlindExactly`
  says for which patterns this cannot happen.
- A payment that settles but whose receipt fails verification is not recorded.
  The log is what settled exactly when that never happens
  (`Client.SettledIsBooked`); when it does, settled spend has no bound
  (`Client.RejectedReceiptsEscapeEveryLimit`).
- A limit on payments per minute that is not a whole number lets in the next whole
  number (`Client.WithinRateIsRoundedUp`).
- Payments that overlap can exceed a limit, on any day or in any window, by no more
  than what was in flight at the last check that passed
  (`ClientOverlap.OverlapBound`).
- A comment in the channel manager says that a concurrent close sees the closing
  state and bails. The status is checked when the channel is read and not when it
  is marked; a channel is settled again exactly when a close marks one that is
  closing or closed already (`OverlappingCloses.AskedAgainExactly`). Commits that
  overlap break the stream, in exactly one way (`OverlappingCalls.StreamInvExactly`);
  a commitment stored after a close has listed the stream is not settled
  (`OverlappingCalls.StaleSettlementExactly`); and a closed channel is final exactly
  when no call on it is under way (`OverlappingCalls.ClosedStaysExactly`).
- The store keeps the old stream when a channel id is opened again, and the next
  close settles it (`ChannelRuns.ReusedIdSettlesOldStream`).
- The design document has reconciliation detect an unexpected remainder. The
  code reports one only when settled amount and remainder are both zero
  (`ReconcileVerdict.DriftKinds`), and a channel whose settled amount and remainder
  do not add up to its deposit reconciles (`Agreement.RemainderNeverCompared`); the
  model follows the code.
- With suppression, the order of the input can decide the verdict, exactly when the
  highest commitments disagree (`ReconcileVerdict.SuppressionExactly`).
- A throwing `onCacheError` always costs a payer the receipt of a settled payment
  (`GateReceipts.MishapFails`).

## Model

| member | source | states |
|---|---|---|
| `GateInFlight.OneAttemptPerKey` | packages/server/src/gate.ts:182-197 | In one gate at most one attempt per key runs at any time, in every interleaving and with any failures |
| `GateInFlight.FlightKept` | packages/server/src/gate.ts:166-197 | Every step keeps: the in-flight map holds exactly the running attempts, each under its own gate and key; promises have settled exactly for finished attempts; every waiter points at an attempt of its own gate and key |
| `GateInFlight.EntryExactlyWhileLeading` | packages/server/src/gate.ts:190-196 | In every reachable state the in-flight entry of a key exists exactly while its leader is between the insertion and the finally |
| `GateInFlight.LeaderDeletesOwnEntry` | packages/server/src/gate.ts:194-196 | A leader deletes its own entry and no other |
| `GateInFlight.WaiterSharesResult` | packages/server/src/gate.ts:185-188 | A request that joined an attempt ends with that attempt's result, read against its own offer, and never reports a cache error |
| `GateInFlight.InFlightEmptiesOut` | packages/server/src/gate.ts:192-196 | Once every request has ended, all in-flight maps are empty |
| `GateInFlight.TenSteps` | packages/server/src/gate.ts:166-351 | No request takes more than ten steps in any run |
| `GateInFlight.NeverStuck` | packages/server/src/gate.ts:166-302 | A request that has not ended can step, or waits for an attempt that can |
| `GateReceipts.PaidReceiptAgrees` | packages/server/src/gate.ts:205-230 | Without any hypothesis on the cache, every receipt handed out agrees with that request's own offer on model, network, resource, amount, asset and payee |
| `GateReceipts.SettledPayerGetsReceipt` | packages/server/src/gate.ts:257-351 | A request whose settle call succeeded and that has ended holds the receipt of that very transaction, fresh and for its own offer, exactly when its signing did not fail and its onCacheError did not throw, under every combination of failing cache write and lock release; otherwise it has failed |
| `GateReceipts.MishapFails` | packages/server/src/gate.ts:323-350 | A request whose signing failed or whose onCacheError threw never ends in anything but a failure |
| `GateReceipts.FreshNeverMismatched` | packages/server/src/gate.ts:214-216 | A request that settled is never told that its payment was for a different offer |
| `GateReceipts.CacheErrorOnlyAfterSettling` | packages/server/src/gate.ts:224-228 | Only a request that itself settled reports a cache error |
| `GateReceipts.ReceiptsKept` | packages/server/src/gate.ts:232-351 | Every step keeps: fresh results carry the receipt of their own settlement and offer, refusals and errors come without a settlement or with a failed signing or callback, and no request settles twice |
| `GateReleases.OneReleasePerAcquire` | packages/server/src/gate.ts:252-302 | Every path after a successful acquire makes exactly one release call, every other path none |
| `GateLocks.LocksKept` | packages/server/src/gate.ts:241-283 | Every step keeps, for any one key: one holder of its lock while that outlives its holder; the settlement cached or its settler still before the write, and nothing settled while a request is about to settle, while also signing and the entry of that key can be relied on; one receipt while also only gates write the entry. Events of other keys are free |
| `GateLocks.AtMostOneSettlement` | packages/server/src/gate.ts:185-302 | Any number of gates and requests over one locking cache: at most one settle call for a key reports success, in every interleaving, whoever else writes entries and whatever fails or expires for other payments, while the key's lock outlives its holders, its entry lives, writes of it take effect and its receipts can be signed |
| `GateLocks.MutualExclusion` | packages/server/src/cache.ts:142-154 | While the lock of a key does not expire under its holder, and whatever else fails, a request is alone on the key between acquire and release, so releasing without an owner check deletes its own lock |
| `GateLocks.PaidIsCached` | packages/server/src/gate.ts:337-350 | When also nobody but the gates writes the entry of the key, the receipt of a settled outcome is the one cached under it |
| `GateLocks.OnePaymentOnePurchase` | packages/server/src/gate.ts:205-302 | Under the same hypotheses on that key all its settled outcomes carry the same receipt and were requested for the same offer |
| `GateReleases.NoLockLeftBehind` | packages/server/src/gate.ts:252-302 | Once every request of a key has ended its lock is not held, when no acquire of that key fails after taking the lock and no release of it fails before giving it back |
| `GateReleases.LockExactly` | packages/server/src/gate.ts:252-302 | The lock of a key is there after a step exactly when an acquire of that key took it, or it was there and no release of that key or expiry freed it |
| `GateReleases.EntryExactly` | packages/server/src/gate.ts:340-349 | The entry of a key is the receipt last written under it, by a write that took effect or from outside, until it expires |
| `GateLimits.HypothesesNeeded` | packages/server/src/cache.ts:108-111 | Runs of two gates that settle one payment twice, one for each of the four hypotheses of at-most-once broken alone: the lock expires under its holder, signing fails, a write is lost, the cached receipt expires |
| `GateLimits.ForeignWriteSplitsReceipts` | packages/server/src/cache.ts:126-137 | A run in which a foreign but canonical receipt in the store gives one purchase two receipts |
| `GateLimits.ThrowingCallbackLosesReceipt` | packages/server/src/gate.ts:345-349 | A run in which a throwing onCacheError turns a settled payment into a failure |
| `GateClock.ShortCriticalPartsKeepLocks` | packages/server/src/gate.ts:120-124 | Over lock cells written as the Redis cache writes them, with a time to live of 30 seconds, the lock of a key does not expire under its holder in any run in which the requests of that key leave their critical part sooner, so the hypothesis of the results on locks is a bound on the time from acquire to release |
| `GateClock.AcquireRefines` | packages/server/src/cache.ts:142-151 | SET NX on Redis finds and takes the lock exactly as the gate's store does |
| `GateClock.ReleaseRefines` | packages/server/src/cache.ts:152-154 | DEL on Redis gives back that lock and leaves what the gate sees of every other key |
| `GateClock.SetRefines` | packages/server/src/cache.ts:139-141 | Writing a receipt to Redis is the gate's write, and takes no lock |
| `GateClock.TimeFades` | packages/server/src/cache.ts:99-101 | What Redis still holds later is the gate's store less some expired locks and entries |
| `GateReplays.OneGateSettlesOnce` | packages/server/src/gate.ts:182-255 | In one gate over any cache, with a lock or without, at most one settle call for a key reports success, in every interleaving, while its entry lives, writes of it take effect and its receipts can be signed; nothing is asked of the lock, of other payments, or of who else writes the entry |
| `GateReplays.CachedNeverSettles` | packages/server/src/gate.ts:241-246 | In every cached mode a request whose first lookup answers while its payment is cached has no settlement of its own in any continuation, and ends with the cached receipt as a replay when that agrees with its offer and with the mismatch otherwise |
| `GateReplays.SettledElsewhereNeverSettles` | packages/server/src/gate.ts:258-282 | A request that finds the payment cached under its lock never settles either, and ends with the receipt, the mismatch, or its release error exactly when its release fails |
| `GateReplays.LockedOutIsTurnedAway` | packages/server/src/gate.ts:252-255 | A request that finds the lock taken never settles and is told 409, settlement in progress, whatever the cache holds by then |
| `GateReplays.WithoutCacheSettles` | packages/server/src/gate.ts:333-335 | Without a cache every accepted payment was settled for the request itself or for the one it waited for |
| `GateReplays.WithoutCacheNoStore` | packages/server/src/gate.ts:241-249 | Without a cache no step of a request changes the store |
| `GateTraces.KeysTellPaymentsApart` | packages/server/src/gate.ts:178-180 | In every run two verified requests have the same key exactly when their models and their verified nonces are equal, for models without a colon |
| `GateTraces.PaidReceiptIsEarned` | packages/server/src/gate.ts:180-335 | While only the gates write its entry, the receipt of an accepted payment was issued for that payment: some request with the same model and the same verified nonce asked for an offer with the receipt's terms, was verified for the receipt's payer, settled in the receipt's transaction, and had the receipt's id, time and signature from its signer |
| `GateReports.OutcomeIsWhatHappened` | packages/server/src/gate.ts:205-351 | The outcome of every request is read off the answers given to the attempt it made or joined: replayed exactly when it did not settle itself; a cache error, of the write before the release, for the settling request only; 409 mismatch exactly from a receipt for another offer; 409 in progress only from a lost lock; 502 with the reason of a refused settlement; an error exactly for the call that threw, joined with a release failure when that failed too, and never a success after one |
| `GateReports.EndsInVerification` | packages/server/src/gate.ts:173-176 | A request that ends without an attempt was rejected with 402 and the verifier's reason, or failed in its verification |
| `Receipts.BindingsCompareFields` | packages/server/src/gate.ts:139-160 | Comparing the two canonical binding strings is comparing the six fields, nothing more and nothing less |
| `SettlementCache.InMemorySettlementCache.Get` | packages/server/src/cache.ts:45-55 | Returns the receipt of the latest set under the key exactly while its time to live lasts; deleting an expired entry is never observable |
| `SettlementCache.InMemorySettlementCache.Set` | packages/server/src/cache.ts:56-58 | Adds one write to the history the lookups are specified by |
| `SettlementCache.WriteLives` | packages/server/src/cache.ts:40-60 | A write is returned for its time to live, the last moment excluded, and changes what no other key returns |
| `SettlementCache.RedisSettlementCache.Get` | packages/server/src/cache.ts:121-138 | The cached receipt of the key, a value that is not a canonical receipt reading as a miss |
| `SettlementCache.RedisSettlementCache.Set` | packages/server/src/cache.ts:139-141 | The key is cached for the rounded-up time to live and no longer; no other entry changes, and no lock but the one whose name the key spells |
| `SettlementCache.RedisSettlementCache.Acquire` | packages/server/src/cache.ts:142-151 | Succeeds exactly when the key is not locked, then locks it for exactly the rounded-up time, and touches no other lock and no entry but the one named like the lock |
| `SettlementCache.RedisSettlementCache.Release` | packages/server/src/cache.ts:152-154 | Unlocks the key, whoever held it, and no other; no entry changes but the one named like the lock |
| `SettlementCache.RoundUp` | packages/server/src/cache.ts:118-118 | The least whole number of units, at least one, that is not shorter than the duration |
| `SettlementCache.KeysInjective` | packages/server/src/cache.ts:84-87 | Different keys have different entries and locks, and an entry is a lock exactly when its key starts with the lock prefix |
| `SettlementCache.KeySpacesDisjoint` | packages/server/src/cache.ts:84-87 | No entry of a `<model>:<nonce>` key is ever taken for a lock |
| `Canonical.CanonicalJson` | packages/core/src/receipt/canonical.ts:18-40 | The key-by-key printer yields the canonical text, and fails exactly when a number that is not finite occurs in a printed position |
| `CanonicalUnique.CanonicalJsonUnambiguous` | packages/core/src/receipt/canonical.ts:12-40 | Two values print to the same text exactly when they are equal up to key order and dropped undefined properties |
| `CanonicalUnique.PrintUnique` | packages/core/src/receipt/canonical.ts:18-40 | A printed value can be told from whatever delimited text follows it, at every nesting depth |
| `CanonicalUnique.EquivPrints` | packages/core/src/receipt/canonical.ts:12-17 | Structurally equal values print to the same text |
| `KeyOrder.SortSorts` | packages/core/src/receipt/canonical.ts:32-32 | Keys are printed in strict code-unit order, and none is lost or added |
| `KeyOrder.SortAscends` | packages/core/src/receipt/canonical.ts:32-32 | Of two listed keys the earlier is a proper prefix of the later or has the smaller code unit where they first differ |
| `KeyOrder.SortedUnique` | packages/core/src/receipt/canonical.ts:32-32 | A set of keys has one sorted listing |
| `JsonString.QuoteUnique` | packages/core/src/receipt/canonical.ts:19-21 | A quoted string, with every escape of section 7 of RFC 8259, can be told from whatever follows it |
| `JsonReader.CanonicalJsonIsJson` | packages/core/src/receipt/canonical.ts:12-40 | A reader of the JSON grammar, written without the printer, reads the canonical text of a value as that value, every object with its names in ascending order by code unit and without undefined properties |
| `JsonReader.PrintReadsBack` | packages/core/src/receipt/canonical.ts:18-40 | The same at the front of any delimited text, leaving exactly what follows |
| `JsonReader.CharsReadBack` | packages/core/src/receipt/canonical.ts:19-21 | The reader of section 7 of RFC 8259 gets every string back from its quoted form, whatever follows |
| `JsonReader.UnitLength` | packages/core/src/receipt/canonical.ts:19-21 | A unit is printed as itself, as a letter escape for the seven units that have one, or as a four-digit escape in lower case for the other controls and lone surrogates |
| `JsonReader.PlainIsPrintedAsItself` | packages/core/src/receipt/canonical.ts:19-21 | Text without controls, quotes, backslashes and surrogates is printed as itself between quotes |
| `Decimal.PrintIntUnique` | packages/core/src/receipt/canonical.ts:22-27 | A printed integer can be told from whatever non-digit text follows it |
| `Utf8.CanonicalBytesUnambiguous` | packages/core/src/receipt/canonical.ts:42-44 | Two values have the same signed bytes exactly when they are equal up to key order and undefined properties |
| `Utf8.PrintPaired` | packages/core/src/receipt/canonical.ts:18-44 | Canonical text never contains a lone surrogate |
| `Utf8.BytesUnique` | packages/core/src/encoding.ts:6-8 | UTF-8 encoding loses nothing on text without lone surrogates |
| `Utf8.BytesEqualExactly` | packages/core/src/encoding.ts:6-8 | Two texts have the same bytes exactly when they are equal after replacing lone surrogates by U+FFFD |
| `Utf8.BytesAreUtf8` | packages/core/src/encoding.ts:6-8 | A decoder of section 4 of RFC 3629 reads the bytes as the code points of the text, a lone surrogate as U+FFFD |
| `Base64Url.BytesToBase64Url` | packages/core/src/encoding.ts:10-16 | The loop over the bytes computes the URL-safe spelling the results below are about |
| `Base64Url.Base64UrlToBytes` | packages/core/src/encoding.ts:18-27 | Fills the array with the decoded bytes; fails exactly when the platform decoder does |
| `Base64Url.RoundTrip` | packages/core/src/encoding.ts:10-27 | Decoding an encoded byte string gives it back |
| `Base64Url.PaddingRestored` | packages/core/src/encoding.ts:15-20 | The unpadded length is never 1 mod 4, the padding put back is exactly what was stripped, and only the URL-safe alphabet is used |
| `Base64Url.ReencodesExactlyCanonical` | packages/core/src/encoding.ts:10-27 | A text survives decode-then-encode exactly when it is a canonical spelling |
| `Base64Url.EncodesTheBits` | packages/core/src/encoding.ts:10-16 | The text is the bits of the bytes in groups of six, the last filled with zeros, each written in the alphabet of section 5 of RFC 4648 |
| `Csv.ToCsv` | packages/observability/src/index.ts:216-233 | The line-by-line printer computes the export the round trip is about |
| `Csv.ExportRoundTrip` | packages/observability/src/index.ts:200-233 | A reader of section 2 of RFC 4180 recovers exactly the header and every exported metric, whatever quotes, commas and line breaks the fields contain |
| `Csv.ExportInjective` | packages/observability/src/index.ts:216-233 | Different metric lists have different exports |
| `Csv.ColumnsAre` | packages/observability/src/index.ts:205-233 | Every field stands under the column of its name |
| `Glob.GlobMatch` | scripts/security/scan_diff.py:230-252 | Compiling and matching accepts exactly what a direct recursive glob matcher accepts |
| `Glob.RegexIsGlob` | scripts/security/scan_diff.py:230-252 | The language of the compiled expression is the language of the direct matcher, `**` not crossing newlines |
| `GlobProperties.NewlineFreePaths` | scripts/security/scan_diff.py:231-241 | On newline-free paths the compiled expression is exactly the documented matcher; it never accepts more |
| `GlobProperties.NewlineBlindExactly` | scripts/security/scan_diff.py:231-241 | The compiled expression meets the documented meaning on every path exactly when the pattern has a slash and no `**` |
| `GlobProperties.SameDepth` | scripts/security/scan_diff.py:242-247 | A pattern with a slash and no `**` matches only paths with the same number of slashes |
| `GlobProperties.BareNameMatchesLastSegment` | scripts/security/scan_diff.py:250-251 | A bare pattern without `**` matches a path exactly when it matches the last segment and no directory before it has a newline in its name |
| `GlobProperties.LiteralMatchesItself` | scripts/security/scan_diff.py:230-252 | A pattern without wildcards matches exactly its own path, or with no slash its own name in any directory without a newline |
| `GlobProperties.StarSuffix` | scripts/security/scan_diff.py:230-252 | A star stands for exactly the runs without a slash |
| `Policy.PolicyEngine.Check` | packages/core/src/policy.ts:114-212 | Every decision equals the one computed from the complete payment log, rule by rule in order, and nothing is recorded |
| `Policy.RefusalExactly` | packages/core/src/policy.ts:114-212 | Each of the seven rules is the one named exactly when every rule before it leaves room and it is well formed and does not; allowed exactly when all leave room |
| `Policy.InvalidExactly` | packages/core/src/policy.ts:114-212 | The invalid-amount error is given exactly when the amount asked for, or a limit that is reached with room under every earlier one, is malformed |
| `Policy.RateLimitNumbers` | packages/core/src/policy.ts:182-193 | A finite limit blocks from that many requests in the last minute on, NaN and infinity never, negative infinity always |
| `Policy.PolicyEngine.Record` | packages/core/src/policy.ts:214-218 | Appends exactly one payment to the log, booked on the current UTC day, or rejects the amount and changes no sum |
| `Policy.PolicyEngine.ApplyRecord` | packages/core/src/policy.ts:89-101 | Adds the payment to the three sums and both queues, keeping them equal to the log |
| `Policy.PolicyEngine.ResetDailyIfNeeded` | packages/core/src/policy.ts:81-87 | The day advances to that of the clock and the daily map still equals the log's sums for that day |
| `Policy.PolicyEngine.PruneWindow` | packages/core/src/policy.ts:103-111 | Front-only pruning is exact: afterwards both queues hold precisely the payments of the last minute |
| `Policy.QueueCount` | packages/core/src/policy.ts:182-192 | The length of the pruned queue is the number of logged payments in the closed window of a minute |
| `Policy.QueueSpend` | packages/core/src/policy.ts:199-201 | The sum over the pruned samples is the logged spend of the asset in the closed window of a minute |
| `Policy.MapsAfter` | packages/core/src/policy.ts:93-96 | Adding one payment to the three maps keeps them equal to the sums of the log, for every asset and key |
| `PaymentLog.PayeeUnderKey` | packages/core/src/policy.ts:167-179 | The `payee:asset` sum is never below what the payee was paid, so a cap is never exceeded |
| `PaymentLog.KeyIsPayee` | packages/core/src/policy.ts:95-96 | The `payee:asset` sums are exact when no payee has a colon |
| `PaymentLog.DayIs` | packages/core/src/policy.ts:56-58 | A day is 24 hours from the epoch, also before it |
| `Client.TollwayClient.Pay` | packages/client/src/index.ts:124-163 | Check, settle, verify, record in this order: the outcome and the log afterwards are those of the specification the run theorems use |
| `Client.BudgetsAlwaysHold` | packages/client/src/index.ts:135-162 | After every run of non-overlapping payments: daily spend per asset, lifetime spend, spend per capped payee, and payments and spend in every closed 60-second window are within their limits |
| `Client.PayKeepsLimits` | packages/client/src/index.ts:135-162 | One payment keeps all five limits, whatever the answers of router, settler and verifier |
| `Client.DailyAfterPayment` | packages/core/src/policy.ts:140-151 | The daily budget holds even when midnight falls between the check and the record |
| `Client.RateAfterPayment` | packages/core/src/policy.ts:181-192 | Every closed 60-second window, wherever it starts, keeps the request limit although the engine only looked at the window ending at the check |
| `Client.WithinRateIsRoundedUp` | packages/core/src/policy.ts:181-192 | A window keeps a finite positive request limit exactly when it holds at most that many payments, a fraction counting as the next whole number |
| `Client.SpendRateAfterPayment` | packages/core/src/policy.ts:194-209 | The same for the spend of each asset |
| `Client.LogIsWhatWasPaid` | packages/client/src/index.ts:124-165 | The log of a run is exactly what its successful calls asked for, in order; a call that is blocked, does not settle or has its receipt rejected consumes nothing |
| `Client.PaidModelsAllowed` | packages/core/src/policy.ts:118-138 | No run pays by a disabled model, or by a channel below its minimum deposit |
| `Client.PaidModelIs` | packages/client/src/index.ts:210-222 | A model on the request wins over the router, the router over the default |
| `Client.PayEnds` | packages/client/src/index.ts:124-170 | Each outcome of a payment has exactly one cause: the router, the rule check names, a malformed amount, the settlement, the receipt; and only a payment that ends well is booked |
| `Client.SettledIsBooked` | packages/client/src/index.ts:147-162 | The engine's log is what settled in a run exactly when no settled receipt was rejected; then all five limits hold of what settled |
| `Client.RejectedReceiptsEscapeEveryLimit` | packages/client/src/index.ts:153-158 | A payment that settles and whose receipt is rejected can be made any number of times: nothing is recorded and the settled spend has no bound, whatever the policy |
| `ClientOverlap.PayIsCheckThenRecord` | packages/client/src/index.ts:135-162 | A call that nothing overlaps is its check step followed by its record step, or by the end of its flight |
| `ClientOverlap.TakeKeepsBound` | packages/client/src/index.ts:136-161 | Every step of every interleaving keeps: spent and in flight together exceed a limit by no more than what was in flight when the last concerned check passed |
| `ClientOverlap.OverlapBound` | packages/client/src/index.ts:136-161 | However calls overlap, no limit is exceeded on any UTC day, in any 60-second window, for any payee or over the lifetime by more than what was in flight at the last concerned check that had passed when the last payment was booked there |
| `ClientOverlap.ApartKeepsLimit` | packages/client/src/index.ts:136-161 | A limit holds on every day and in every window of every run in which no check passes while a payment that concerns the same limit is in flight, whatever other payments do |
| `ClientOverlap.ApartKeepsAll` | packages/client/src/index.ts:136-161 | When that is so for every limit, all five hold as in a run of calls one after the other |
| `ClientOverlap.FlightsExactly` | packages/client/src/index.ts:136-161 | Every way in which the payments in flight can end keeps a lifetime or per-payee limit exactly when what is spent and what is in flight keep it together |
| `ClientOverlap.TwoInFlightExactly` | packages/client/src/index.ts:136-161 | For two payments of one asset in flight that is current + a + b against the lifetime ceiling |
| `CommitmentStore.MemoryCommitmentStore.PutChannel` | packages/channels/src/store.ts:24-27 | The channel is replaced, and an existing stream under its id is kept |
| `CommitmentStore.MemoryCommitmentStore.UpdateChannel` | packages/channels/src/store.ts:31-37 | Only the patched fields of an existing channel change; an unknown id changes nothing |
| `CommitmentStore.MemoryCommitmentStore.AppendCommitment` | packages/channels/src/store.ts:38-42 | The commitment goes to the end of its channel's stream; no channel and no other stream changes |
| `CommitmentStore.MemoryCommitmentStore.ListCommitments` | packages/channels/src/store.ts:43-46 | A listing ordered by sequence with the same commitments, those of equal sequence in the order they were appended |
| `Commitments.SortIsStable` | packages/channels/src/store.ts:45-45 | Commitments that share a sequence keep their order |
| `Commitments.StableSortIsUnique` | packages/channels/src/store.ts:45-45 | Order and stability leave only one possible listing |
| `Commitments.SortEndsWithLatest` | packages/channels/src/manager.ts:202-204 | The sorted stream ends with the commitment of the highest sequence, the last stored of several |
| `Channels.ChannelManager.OpenChannel` | packages/channels/src/manager.ts:62-88 | A channel with nothing committed under the id the adapter gave; a bad deposit or a throwing adapter changes nothing |
| `Channels.ChannelManager.Commit` | packages/channels/src/manager.ts:90-136 | The result and the store are those of the specification the stream invariant is proved about, for every refusal and a throwing signer |
| `Channels.ChannelManager.List` | packages/channels/src/manager.ts:142-146 | The stored stream in sequence order, or the not-found error |
| `Channels.ChannelManager.ShouldClose` | packages/channels/src/manager.ts:148-193 | The integer and whole-second tests decide as the ratio of committed to deposit and the elapsed time do |
| `Channels.ChannelManager.Close` | packages/channels/src/manager.ts:195-247 | The adapter is asked to settle the latest commitment; the channel is closed on a matching settlement and rolled back otherwise |
| `Channels.RollbackRestores` | packages/channels/src/manager.ts:207-234 | Marking a channel as closing and rolling it back restores the store exactly |
| `ChannelRuns.StreamsAlwaysHold` | packages/channels/src/manager.ts:62-136 | After every run with fresh ids each stream has sequences 0..n-1 and well-formed cumulative amounts, positive, strictly increasing and within the deposit; committed is the last of them or zero, sequence is n-1 |
| `ChannelRuns.StepKeepsStreams` | packages/channels/src/manager.ts:62-247 | Every single call keeps that invariant |
| `ChannelRuns.AppendKeepsTracked` | packages/channels/src/manager.ts:100-133 | The next commitment continues the stream, through printing and parsing of the cumulative amount |
| `ChannelRuns.OpenKeepsStreams` | packages/channels/src/manager.ts:73-86 | A successful open keeps the invariant exactly when the id it got back has no commitments yet |
| `ChannelRuns.ReusedIdSettlesOldStream` | packages/channels/src/store.ts:24-27 | Reopened under the id of a channel with commitments, a channel with nothing committed asks to settle what the old one had committed |
| `ChannelRuns.CommittedIsSum` | packages/channels/src/manager.ts:100-133 | Over any run the committed amount grows by exactly the sum of the accepted amounts |
| `ChannelRuns.FailedCallsLeaveNoTrace` | packages/channels/src/manager.ts:62-247 | A run leads to exactly the store its successful calls lead to by themselves |
| `ChannelRuns.OtherChannelsUntouched` | packages/channels/src/manager.ts:62-247 | A run without calls on a channel leaves it and its stream as they were |
| `ChannelRuns.ClosedIsTerminal` | packages/channels/src/manager.ts:195-242 | A closed channel and its stream never change again |
| `ChannelRuns.CloseSettlesCommitted` | packages/channels/src/manager.ts:202-246 | An open channel is closed exactly when the adapter settles its committed amount digit for digit, and the request carries that amount and the last blob |
| `ChannelRuns.CloseAsksExactly` | packages/channels/src/manager.ts:202-219 | After any fresh run a close asks for the network and the deposit the channel was opened with, the sum of the accepted amounts, and the blob signed last, empty without a commit |
| `ChannelRuns.ShouldCloseStays` | packages/channels/src/manager.ts:159-172 | Once the drawdown calls for closing it does so at every later time while the channel is open, whatever is called in between |
| `ChannelHistory.ChannelIsItsHistory` | packages/channels/src/manager.ts:62-241 | After any run the store tracks exactly the channels that were opened, and every field of a channel is told by the calls that succeeded on it |
| `ChannelHistory.CloseAsksForLatest` | packages/channels/src/manager.ts:202-219 | Whatever the store holds, close asks for the commitment with the highest sequence, the last stored of several, and for zero without one |
| `ChannelHistory.OpenAnswers` | packages/channels/src/manager.ts:62-88 | open refuses exactly a deposit that is not a positive amount, and otherwise does as the adapter does |
| `ChannelHistory.CommitAnswers` | packages/channels/src/manager.ts:90-140 | commit goes through exactly for a positive amount that the deposit of an open channel still covers and the adapter signs; every refusal names the first condition that fails |
| `ChannelHistory.CloseAnswers` | packages/channels/src/manager.ts:195-241 | close refuses exactly unknown and non-open channels before the adapter, fails exactly on a throwing adapter or another amount than asked for, and otherwise reports and stores the adapter's hash and remainder |
| `ChannelHistory.ShouldCloseAnswers` | packages/channels/src/manager.ts:148-193 | shouldClose says yes exactly when committed over deposit reaches the threshold to the nearest millionth or the last use is whole seconds of the timeout ago, and complains exactly about the first setting or amount that makes no sense |
| `ClosePolicy.ExactOnMillionths` | packages/channels/src/manager.ts:165-171 | For thresholds in whole millionths the scaled integer comparison is committed/deposit >= threshold |
| `ClosePolicy.DiffersOnlyNearThreshold` | packages/channels/src/manager.ts:165-171 | For any threshold it differs from that exactly when the ratio lies between the threshold and its rounding, so only within half a millionth |
| `ClosePolicy.TinyThresholdIsDueAtOnce` | packages/channels/src/manager.ts:168-170 | A positive threshold under half a millionth is due before any commitment |
| `ClosePolicy.IdleIsWholeSeconds` | packages/channels/src/manager.ts:186-189 | Whole idle seconds reach the timeout exactly when the elapsed time reaches the timeout rounded up to a second |
| `ChannelOverlap.DepositBoundAlways` | packages/channels/src/manager.ts:94-133 | However commits, closes and opens interleave at their awaits, no channel commits and no commitment stores more than the deposit |
| `OverlappingCommits.InStepExactly` | packages/channels/src/manager.ts:94-133 | In every interleaving, once no commit is under way on a channel, the channel is in step with its stream exactly when no stored commit read the channel between the read and the advance of another stored one |
| `OverlappingCalls.StreamInvExactly` | packages/channels/src/manager.ts:62-247 | In every interleaving, once all calls have ended, the stream invariant holds exactly when no two stored commits on one channel overlapped in that way |
| `OverlappingCalls.CrossingForgets` | packages/channels/src/manager.ts:94-133 | On any channel that takes two commits they can cross: both are stored under one sequence, and the channel forgets the first amount |
| `OverlappingCloses.AskedAgainExactly` | packages/channels/src/manager.ts:196-219 | In every interleaving, two settlements of one channel are outstanding at once exactly when some close marked a channel whose status was closing already; and one is outstanding or accepted when another is asked for exactly when some close marked a channel that was closing or closed already. The check of the status at line 198 does not cover the transition at line 209 |
| `OverlappingCloses.AskedAgainSlips` | packages/channels/src/manager.ts:196-209 | And then a close that asked while another was busy had passed its status check before that other one marked the channel |
| `OverlappingCloses.AcceptedStaysClosed` | packages/channels/src/manager.ts:231-242 | While no close slips past another in that way, a channel whose settlement was accepted never looks open again |
| `OverlappingCalls.TwoClosesBothAsk` | packages/channels/src/manager.ts:196-219 | Two overlapping closes of any open channel can both reach the adapter, although the source's comment says the second one bails |
| `OverlappingCalls.SlippedButNotAtOnce` | packages/channels/src/manager.ts:220-226 | Passing the status check in time is not enough: with a failed settlement in between, the two are never outstanding at once |
| `OverlappingCalls.StaleSettlementExactly` | packages/channels/src/manager.ts:202-219 | In every interleaving in which commits do not overlap each other, a close asks for the committed amount exactly when no commitment was stored after it listed the stream, and for less otherwise |
| `OverlappingCalls.ClosedStaysExactly` | packages/channels/src/manager.ts:94-247 | In every interleaving, a closed channel and its stream never change again, whatever comes next, exactly when no commit and no close on the channel is under way |
| `OverlappingCalls.CommitAfterClose` | packages/channels/src/manager.ts:115-133 | A case in which they do change: a commit that waits for its signature while the channel is closed goes through, and more is committed than was settled |
| `CallsAlone.CommitAlone` | packages/channels/src/manager.ts:90-140 | A commit that nothing overlaps, taken step by step, starts and ends as the method does |
| `CallsAlone.CloseAlone` | packages/channels/src/manager.ts:195-241 | A close that nothing overlaps asks and ends as the method does |
| `Reconcile.ReconcileChannel` | packages/reconcile/src/index.ts:101-184 | The push-by-push audit reports exactly the drifts of the specification the verdict theorems are about, in order, under any suppression |
| `ReconcileVerdict.VerdictIsConsistency` | packages/reconcile/src/index.ts:101-184 | Without suppression ok holds exactly when both amounts are well formed and either nothing was committed and nothing settled, or the sequences are a permutation of 0..n-1 and the highest one's well-formed amount equals the settled one |
| `ReconcileVerdict.DriftKinds` | packages/reconcile/src/index.ts:139-184 | With distinct sequences: a gap is reported exactly for an incomplete stream; under-settled, over-settled and malformed amounts exactly when the highest commitment says so, shortfall and excess being the difference; unexpected-remainder exactly when that amount is positive and both settlement amounts are zero |
| `ReconcileVerdict.DriftsWithoutStream` | packages/reconcile/src/index.ts:109-132 | A missing commitment is reported exactly when something well formed was settled and nothing committed; a malformed settlement is reported alone |
| `ReconcileVerdict.VerdictForgetsOrder` | packages/reconcile/src/index.ts:133-134 | Reordering the commitments never changes the verdict |
| `ReconcileVerdict.DriftsForgetOrder` | packages/reconcile/src/index.ts:133-134 | With distinct sequences the whole result is the same in every order, under any suppression |
| `ReconcileVerdict.OrderMattersExactly` | packages/reconcile/src/index.ts:133-181 | The drift list is the same in every order exactly when the commitments with the highest sequence carry one amount or all match the settlement |
| `ReconcileVerdict.SuppressedVerdict` | packages/reconcile/src/index.ts:86-95 | With suppression ok holds exactly when every drift is suppressed |
| `ReconcileVerdict.ReportIsWhatIsNotSuppressed` | packages/reconcile/src/index.ts:86-95 | The report holds exactly the drifts that are not suppressed, each kind once, in the order in which they are looked for |
| `ReconcileVerdict.SuppressionExactly` | packages/reconcile/src/index.ts:86-95 | The verdict is the same in every order under every suppression exactly when the commitments with the highest sequence carry one amount or all match the settlement |
| `ReconcileVerdict.SuppressedGapRevealsOrder` | packages/reconcile/src/index.ts:133-181 | An input where it is not: with gaps suppressed, the order of two commitments under one sequence decides between ok and under-settled |
| `ReconcileVerdict.RemainderNeverAlone` | packages/reconcile/src/index.ts:162-181 | unexpected-remainder is never reported without under-settled |
| `Agreement.ManagerAndReconcilerAgree` | packages/reconcile/src/index.ts:101-184 | For every run with a close the manager accepts, before any further calls or after, the listed stream reconciles with that settlement exactly when the remainder is a digit string |
| `Agreement.RemainderNeverCompared` | packages/reconcile/src/index.ts:162-184 | A correct stream settled for its committed amount reconciles with every remainder, also one that leaves part of the deposit unaccounted for |
| `Agreement.TamperingIsNoticed` | packages/reconcile/src/index.ts:101-184 | Losing or doubling any one commitment of a correct stream is reported |
| `Decimal.PrintThenParse` | packages/channels/src/manager.ts:100-113 | Parsing a printed amount gives it back |
| `Decimal.ParseThenPrint` | packages/channels/src/manager.ts:231-231 | Printing a parsed amount gives it back exactly when it has no superfluous leading zero |

## Left out

- Gate as an object: the gate's methods suspend in the middle, so it is modelled on values, as a transition system over states with an in-flight map, and not as a class whose methods run to completion; the shared store, the map and the promises are fields of that state.
- A process that dies between two awaits: its requests simply take no further step in the model, but its in-flight map does not disappear.
- Store calls that take effect at another time than they answer: a cache call takes effect at the moment it answers; an effect before the answer, while the response is under way, or after it is not modelled.
- The clock of the shared store: in the gate lock and entry expiry are events that can happen at any moment; `GateClock` bounds those of locks by their time to live, and those of entries stay free.
- SettlementCache.RedisSettlementCache.Get: whether a stored text is a canonical receipt is an abstract property of the value (`Serialised` or `Foreign`); JSON parsing and the receipt schema are not part of this model.
- Two gates over a cache without a lock: the source says it deduplicates per gate only.
- Facilitator, x402, MPP and Stellar calls, key handling and signatures: they appear as the answers of settle, sign and adapter calls.
- Model selection in the gate, challenge building and header parsing before verification, and the response headers of a settled outcome.
- GateTraces.KeysTellPaymentsApart: for models without a colon; the two models the gate settles have none.
- JsonReader.CanonicalJsonIsJson: the reader takes integers and no insignificant whitespace, of which canonical text has none.
- Canonical.CanonicalJson: numbers are integers or not finite; the printing of fractions and exponents is not modelled.
- Decimal.PrintIntUnique: for integers only, for the same reason.
- Csv.ToCsv: latencies are integers, for the same reason.
- Glob.GlobMatch: the regular expression is built as a syntax tree and read by its language; `re.escape` and Python's regular expression parser are not modelled.
- Policy.PolicyEngine.Check: readings of the clock do not go back, dates are within the range of `Date`, and the wording of a decision's detail is left out.
- Client.BudgetsAlwaysHold: for calls that do not overlap and readings that do not go back; `ClientOverlap` says what overlapping calls keep and lose.
- Client.TollwayClient.Pay: event handlers and the normalisation of errors, which change no decision and no state.
- ChannelRuns.StreamsAlwaysHold: for calls that do not overlap; `OverlappingCalls` says exactly when overlapping calls keep the same.
- Channels.ChannelManager.ShouldClose: the scaled threshold is computed over the reals, without the rounding of a floating-point product, and timestamps are what `Date.parse` makes of them.
- A store other than the in-memory one, and store calls that fail: the in-memory store never throws.
- OverlappingCloses.AskedAgainExactly: marking the channel and calling the adapter are one step, although the source awaits between them; nothing of the store is read in between, and a settlement counts as outstanding from the mark on, an accepted one, in the second reading, for ever.
- Reconcile.ReconcileChannel: a drift carries the values its detail text is made of, not the text; sequences are integers.
- `reconcileCharge`, which only runs the receipt schema, and `recover` and the MPP charge handler, which only throw.
- Metric filtering and rollups, webhooks with their retries, the model router, the dashboard, the web app, the framework adapters, the demo and the other security scripts: they would add only easy members.
