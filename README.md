# Offline-first shipments: a verified Dafny model

This project models the offline-first shipment subsystem of a React Native logistics app, and
proves properties of the model. The subsystem has four cooperating parts and a few small pure
helpers:

- **Offline write queue** (`OfflineStorage`, from `src/utils/offline-storage.ts`). A persisted
  list of offline shipments, each with an id, its payload, a creation time and a status
  (pending, syncing, synced or failed). It also holds the vehicle-brand and contract
  dictionaries saved for offline use.
- **Read cache** (`CacheUtils`, from `src/utils/cache-utils.ts`):
  - a list snapshot capped at 20 shipments;
  - a "details" snapshot and a "basic" snapshot per shipment id;
  - a prefix-based clear;
  - the record synthesised from an offline payload, which is prepended to the cached list.
- **Sync coordinator** (`OfflineSync`, from `src/services/offline-sync.ts`). Class
  `OfflineSyncService` has:
  - an `isSyncing` gate;
  - a list of completion callbacks;
  - a sequential pass over the pending and failed entries.
- **Read path** (`ShipmentsApi`, from `src/api/shipments-api.ts`). `getShipments` and
  `getShipment` pick live data with write-through, or fall back on the cache, according to
  connectivity, the server's reply and what the cache holds.
- **Helpers**:
  - `getNetworkErrorInfo` (`NetworkUtils`);
  - `isDigit` (`IsDigit`);
  - `toOptions` (`ToOptions`);
  - the integer and percentage input sanitisers of the approval sheet (`ApprovalInputs`).

Shared modules:
- `Wrappers`: `Option`, `Result` and `Outcome`.
- `Types`: the entities of `src/types/types.ts` that the core reads.
- `Text`: digit strings, `parseInt` and the decimal text of a number.
- `Storage`: the device key-value store.

**How the store is modelled.**
- AsyncStorage is a class `Store`. Its field `entries` is a map from keys to typed values, not
  to JSON text.
- A value that does not parse is the `Unreadable` value.
- Whether reads or writes throw during one call is the field `faults`.
- Every storage operation is a method with `modifies store`entries`. It is proved to leave
  exactly the store that a value-level function describes (`AddSpec`, `CacheShipmentsSpec`,
  `SyncSpec`, ...). The properties are lemmas about those functions.

**What is a parameter.**
- The clock is a parameter `now`.
- The connectivity probe is a parameter `net`.
- Server replies are parameters too. During a sync pass the server is an oracle
  `respond: nat -> Reply`, read as "the reply to the k-th submission of this pass".

**Behaviour of the code worth knowing:**
- A successfully submitted queue entry is removed at once (`src/services/offline-sync.ts:72`).
  No code path writes the status `synced`.
- Every failed submission, whatever its HTTP status (403 included), marks the entry `failed`
  (`src/services/offline-sync.ts:76`), so it is submitted again on the next pass.
- The callbacks run, and the cache is cleared, whenever the pass had at least one candidate,
  even if every submission failed (`src/services/offline-sync.ts:80-86`). The callbacks run
  before the cache is cleared.
- Storage errors are swallowed by every queue and cache operation except
  `addOfflineShipmentToCache`, which rethrows them.

## Model

| member | source | states |
|---|---|---|
| OfflineStorage.QueueIn | src/utils/offline-storage.ts:61-64 | A missing or unparsable queue reads as the empty queue |
| OfflineStorage.Removed | src/utils/offline-storage.ts:70-72 | Filtering never lengthens the queue (its exact contents are in `RemovedMembers`) |
| OfflineStorage.WithStatus | src/utils/offline-storage.ts:86-88 | The status update keeps the queue's length (per entry: `WithStatusPointwise`) |
| OfflineStorage.AddSpec | src/utils/offline-storage.ts:41-58 | On a write failure the store is unchanged; otherwise the queue is the old queue (`[]` if unreadable) plus one pending entry whose id and data come from the payload; no other key changes |
| OfflineStorage.RemoveSpec | src/utils/offline-storage.ts:67-77 | The queue becomes the read queue without the entries with that id (an unreadable queue is rewritten as `[]`); no other key changes |
| OfflineStorage.UpdateSpec | src/utils/offline-storage.ts:80-93 | The queue becomes the read queue with the status of the matching entries replaced; no other key changes |
| OfflineStorage.GetOfflineShipments | src/utils/offline-storage.ts:30-38 | Returns the stored queue, or `[]` when the read throws, the key is missing or the text does not parse |
| OfflineStorage.AddOfflineShipment | src/utils/offline-storage.ts:41-58 | Leaves the store `AddSpec` describes; never reports an error |
| OfflineStorage.RemoveOfflineShipment | src/utils/offline-storage.ts:67-77 | Leaves the store `RemoveSpec` describes; never reports an error |
| OfflineStorage.UpdateOfflineShipmentStatus | src/utils/offline-storage.ts:80-93 | Leaves the store `UpdateSpec` describes; never reports an error |
| OfflineStorage.SaveVehicleBrands | src/utils/offline-storage.ts:96-99 | Writes the brand list, then the last-sync stamp |
| OfflineStorage.GetVehicleBrands | src/utils/offline-storage.ts:102-105 | Returns the stored brand list, or `[]` |
| OfflineStorage.SaveContracts | src/utils/offline-storage.ts:108-111 | Writes the contract list, then the last-sync stamp |
| OfflineStorage.GetContracts | src/utils/offline-storage.ts:114-117 | Returns the stored contract list, or `[]` |
| OfflineStorage.RemovedMembers | src/utils/offline-storage.ts:67-73 | Removal keeps exactly the entries whose id differs; when no entry has the id, the queue is unchanged |
| OfflineStorage.WithStatusPointwise | src/utils/offline-storage.ts:80-89 | Per position: id, data and creation time are kept; the status becomes the new one exactly where the id matches |
| OfflineStorage.RemovedAppend | src/utils/offline-storage.ts:70-72 | Removal distributes over concatenation, so the kept entries stay in order |
| OfflineStorage.RemoveUndoesAdd | src/utils/offline-storage.ts:41-73 | Removing the id of a freshly appended entry restores the queue, when no older entry shares that id |
| OfflineStorage.RemoveIdempotent | src/utils/offline-storage.ts:67-73 | A second removal of the same id changes nothing |
| OfflineStorage.UpdateIdempotent | src/utils/offline-storage.ts:86-89 | Applying the same status update twice equals applying it once |
| OfflineStorage.RemovedAfterStatus | src/utils/offline-storage.ts:67-89 | A status change to the entries that are then removed leaves no trace |
| OfflineStorage.DictionaryRoundTrip | src/utils/offline-storage.ts:96-117 | On a working store each reader returns the list last saved; each save leaves the other dictionary and the queue alone; with nothing saved the reader returns `[]` |
| CacheUtils.BasicKeyInjective | src/utils/cache-utils.ts:104-106 | Different ids have different basic-snapshot keys |
| CacheUtils.DetailsKeyInjective | src/utils/cache-utils.ts:84-86 | Different ids have different details-snapshot keys |
| CacheUtils.KeysApart | src/utils/cache-utils.ts:5-10 | A basic key is never a details key, neither is the list key, and all three are cache keys |
| CacheUtils.StorageKeysAreNotCacheKeys | src/utils/cache-utils.ts:162-171 | The queue, dictionary and last-sync keys are outside the prefixes `clearCache` selects |
| CacheUtils.StorageKeysAreNotSnapshotKeys | src/utils/cache-utils.ts:5-10 | No snapshot key coincides with a queue or dictionary key |
| CacheUtils.Cap | src/utils/cache-utils.ts:37 | `slice(0, 20)`: a prefix of the input of length `min(|s|, 20)` |
| CacheUtils.ClearSpec | src/utils/cache-utils.ts:162-176 | When listing or removing keys throws, nothing changes; otherwise exactly the cache keys go; values are never altered |
| CacheUtils.CacheShipments | src/utils/cache-utils.ts:31-58 | Writes the capped list, then a basic snapshot for each kept shipment in order (loop invariant over `WithBasics`); a failed list write stops everything |
| CacheUtils.GetCachedShipments | src/utils/cache-utils.ts:61-72 | Returns the cached list, or null when the read throws or nothing parses |
| CacheUtils.CacheShipmentDetails | src/utils/cache-utils.ts:75-92 | Writes the details snapshot under the shipment's own id |
| CacheUtils.CacheBasicShipmentData | src/utils/cache-utils.ts:95-111 | Writes the basic snapshot under the shipment's own id |
| CacheUtils.GetCachedShipmentDetails | src/utils/cache-utils.ts:114-130 | Returns the details snapshot of the id, or null |
| CacheUtils.GetCachedBasicShipmentData | src/utils/cache-utils.ts:133-149 | Returns the basic snapshot of the id, or null |
| CacheUtils.HasCachedData | src/utils/cache-utils.ts:152-159 | True iff the list key is present and readable, even with text that would not parse; true whenever a list is cached |
| CacheUtils.ClearCache | src/utils/cache-utils.ts:162-176 | Leaves the store `ClearSpec` describes |
| CacheUtils.GetLastCacheUpdate | src/utils/cache-utils.ts:179-186 | Null iff no list is cached; otherwise the list's time stamp |
| CacheUtils.FindById | src/utils/cache-utils.ts:209-214 | `find` by numeric id: absent iff the id is `NaN` or no element has it; otherwise the first element that has it, and whenever an element is the first with that id, it is the result |
| CacheUtils.BuildOfflineShipment | src/utils/cache-utils.ts:216-290 | The record has the payload's id and the in-transit offline status. Its brand name is `Неизвестно` when no dictionary brand matches, else a dictionary name or `Неизвестно`. Its contract number is `Офлайн контракт` when no contract matches. Its bin comes from the payload first, then from the user's counterparty. Its times fall back to `now` |
| CacheUtils.OfflineBrandName | src/utils/cache-utils.ts:209-222 | When a dictionary brand is the first to match the payload's brand id, the record's brand name is that brand's name, or `Неизвестно` when the name is empty |
| CacheUtils.OfflineContractNumberOf | src/utils/cache-utils.ts:212-248 | When a contract is the first to match the payload's contract id, the record's contract number is that contract's number, or `Офлайн контракт` when the number is empty |
| CacheUtils.AddOfflineShipmentToCache | src/utils/cache-utils.ts:189-338 | Leaves the store `AddToCacheSpec` describes; reports a failed write to the caller, unlike every other cache writer |
| CacheUtils.WithBasicsOther | src/utils/cache-utils.ts:51-54 | Writing basic snapshots leaves every other key alone |
| CacheUtils.WithBasicsHas | src/utils/cache-utils.ts:51-54 | Every shipment written has a basic snapshot under its id, stamped `now`, holding one of the written shipments with that id; it is that very shipment unless a later one shares its id |
| CacheUtils.CachedListAfterCacheShipments | src/utils/cache-utils.ts:31-48 | After `cacheShipments(xs, f)` on a working store, the list is the first `min(|xs|, 20)` shipments of `xs`, in order, under filter `f` |
| CacheUtils.BasicEntriesAfterCacheShipments | src/utils/cache-utils.ts:37-54 | Every kept shipment has a basic entry with its id; the basic entry of any id no kept shipment has is unchanged, so shipments past the twentieth get none |
| CacheUtils.DetailsUntouchedByCacheShipments | src/utils/cache-utils.ts:31-58 | Caching a list writes no details snapshot |
| CacheUtils.DetailsRoundTrip | src/utils/cache-utils.ts:75-130 | The details reader returns the shipment last written for that id; every other id's details, every basic snapshot and the list are unchanged |
| CacheUtils.BasicRoundTrip | src/utils/cache-utils.ts:95-149 | The same round trip for basic snapshots |
| CacheUtils.ClearCacheEffect | src/utils/cache-utils.ts:162-176 | After a clear on a working store, no list, details or basic snapshot remains, and the queue and both dictionaries are kept |
| CacheUtils.AddToCacheWithList | src/utils/cache-utils.ts:294-316 | With a cached list: the new list is the synthesised record followed by the old list, cut to 20, under the old filter; the record gets a basic snapshot |
| CacheUtils.AddToCacheWithoutList | src/utils/cache-utils.ts:317-333 | Without a cached list: a one-element list under the empty filter, plus the basic snapshot |
| CacheUtils.CacheShipmentsKeepsCap | src/utils/cache-utils.ts:12-48 | Caching a list keeps every cached list within 20 shipments |
| CacheUtils.SnapshotWritersKeepCap | src/utils/cache-utils.ts:75-111 | Snapshot writers and the clear keep the cap |
| CacheUtils.AddToCacheKeepsCap | src/utils/cache-utils.ts:294-330 | Adding an offline record keeps the cap |
| OfflineSync.Candidates | src/services/offline-sync.ts:58-61 | The candidates are exactly the pending and failed entries, never more than the queue |
| OfflineSync.CandidatesAppend | src/services/offline-sync.ts:58-61 | Filtering keeps queue order: it distributes over concatenation |
| OfflineSync.UpToMembers | src/services/offline-sync.ts:68-78 | An id was submitted iff one of the first `n` candidates has it, and accepted iff one of those was accepted |
| OfflineSync.Settle | src/services/offline-sync.ts:68-78 | The reference outcome of a pass never lengthens the queue |
| OfflineSync.SettleMembers | src/services/offline-sync.ts:68-78 | After a pass, the survivors are exactly the entries whose id was not accepted, each marked failed if its id was submitted |
| OfflineSync.SettleNothing | src/services/offline-sync.ts:63-66 | Submitting nothing leaves the queue as it was |
| OfflineSync.SettleRemove | src/services/offline-sync.ts:72 | An accepted submission removes its id from the settled queue |
| OfflineSync.SettleFail | src/services/offline-sync.ts:70-76 | A rejected submission (syncing, then failed) marks its id failed in the settled queue |
| OfflineSync.DrainIsSettle | src/services/offline-sync.ts:68-78 | The loop's queue after `n` iterations equals the reference outcome for the first `n` candidates |
| OfflineSync.SettleStep | src/services/offline-sync.ts:69-77 | One more iteration moves the reference outcome by that id |
| OfflineSync.AttemptOnHealthyStore | src/services/offline-sync.ts:69-77 | On a working store, one iteration rewrites the queue key and nothing else |
| OfflineSync.DrainOnHealthyStore | src/services/offline-sync.ts:68-78 | On a working store, the loop rewrites only the queue key |
| OfflineSync.AttemptAfterRewrite | src/services/offline-sync.ts:69-77 | An iteration on a rewritten queue depends only on that queue |
| OfflineSync.DrainOnReadOnlyStore | src/services/offline-sync.ts:68-78 | When every write throws, the loop leaves the store as it was |
| OfflineSync.AttemptOnReadOnlyStore | src/services/offline-sync.ts:69-77 | When every write throws, one iteration changes nothing |
| OfflineSync.SyncOnHealthyStore | src/services/offline-sync.ts:54-86 | With no candidates, a pass changes nothing; otherwise the queue follows the loop and then the cache is cleared |
| OfflineSync.ClearAfterQueueWrite | src/services/offline-sync.ts:85 | The clear after the loop keeps the new queue and the dictionaries, and drops the list |
| OfflineSync.SyncOutcome | src/services/offline-sync.ts:54-86 | A pass on a working store leaves the reference queue and keeps the dictionaries; it leaves no cached list when there was a candidate |
| OfflineSync.SyncOnFaultyStore | src/services/offline-sync.ts:54-92 | A store that cannot be read, or cannot be written, comes out of a pass unchanged |
| OfflineSync.SettledMarksEveryCandidate | src/services/offline-sync.ts:68-78 | After a pass: no entry is syncing unless it already was, every surviving submitted entry is failed, and unsubmitted entries are untouched |
| OfflineSync.CandidatesKeepUniqueIds | src/services/offline-sync.ts:58-61 | Filtering keeps ids unique |
| OfflineSync.SettledWithUniqueIds | src/services/offline-sync.ts:68-78 | With unique ids, an accepted candidate is gone and a rejected one stays, failed |
| OfflineSync.AddWithFreshId | src/utils/offline-storage.ts:41-54 | The corrected enqueue: appends one pending entry carrying a fresh id, earlier entries unchanged |
| OfflineSync.AddWithFreshIdKeepsUniqueIds | src/utils/offline-storage.ts:41-54 | Enqueueing with a fresh id keeps ids unique |
| OfflineSync.RejectedEntryIsLost | src/services/offline-sync.ts:68-78 | As written: two id-less creations, the first rejected and the second accepted, leave an empty queue |
| OfflineSync.RejectedEntryKeptWithFreshIds | src/services/offline-sync.ts:68-78 | With fresh ids, the same replies leave the rejected creation queued as failed |
| OfflineSync.IndexOf | src/services/offline-sync.ts:29 | `indexOf`: -1 iff absent, else the first position holding the callback |
| OfflineSync.RemoveFirstCount | src/services/offline-sync.ts:28-33 | Unsubscribing drops exactly one occurrence when subscribed, and nothing otherwise |
| OfflineSync.RemoveUndoesAddCallback | src/services/offline-sync.ts:23-33 | Unsubscribing a just-subscribed new callback restores the list |
| OfflineSync.OfflineSyncService.constructor | src/services/offline-sync.ts:10-13 | Starts not syncing, with no callbacks |
| OfflineSync.OfflineSyncService.AddSyncCompleteCallback | src/services/offline-sync.ts:23-25 | Appends the callback |
| OfflineSync.OfflineSyncService.RemoveSyncCompleteCallback | src/services/offline-sync.ts:28-33 | Removes the first occurrence only (loop search proved against `IndexOf`) |
| OfflineSync.OfflineSyncService.NotifySyncComplete | src/services/offline-sync.ts:36-44 | Calls every callback once, in registration order; each call has its own `try`/`catch`, so a raising callback cannot stop the later ones, and raising is therefore not recorded in `Callback` |
| OfflineSync.OfflineSyncService.SyncOfflineShipments | src/services/offline-sync.ts:47-93 | While a pass runs, it returns at once and changes nothing. Otherwise: the store follows `SyncSpec`; the candidates' payloads are submitted in queue order; callbacks run only when there was a candidate; it ends not syncing |
| OfflineSync.OfflineSyncService.Pass | src/services/offline-sync.ts:54-86 | The body of the `try`: read, submit, notify, clear |
| OfflineSync.OfflineSyncService.SubmitAll | src/services/offline-sync.ts:68-78 | The loop submits each candidate's payload in order, and the store follows `Drain` (loop invariant) |
| OfflineSync.OfflineSyncService.SubmitOne | src/services/offline-sync.ts:69-77 | Marks syncing, then removes or marks failed |
| OfflineSync.OfflineSyncService.GetOfflineCount | src/services/offline-sync.ts:96-101 | The number of pending and failed entries |
| OfflineSync.CountAfterAdd | src/services/offline-sync.ts:96-101 | Each offline creation raises the count by one on a working store |
| ShipmentsApi.ShipmentsUrl | src/api/shipments-api.ts:26 | The status is appended only when it is a non-empty string |
| ShipmentsApi.ShipmentsUrlDistinguishesFilters | src/api/shipments-api.ts:26 | Distinct filters give distinct URLs, except that no filter and the empty filter coincide |
| ShipmentsApi.CacheAllShipments | src/api/shipments-api.ts:159-169 | Caches the unfiltered list under filter `''` when the server answers; otherwise nothing |
| ShipmentsApi.GetShipments | src/api/shipments-api.ts:25-69 | Answers and writes exactly as `ShipmentsAnswer` / `ShipmentsEffect` decide from connectivity, reply and cache |
| ShipmentsApi.GetShipment | src/api/shipments-api.ts:72-128 | Answers and writes exactly as `ShipmentAnswer` / `ShipmentEffect` decide |
| ShipmentsApi.ShipmentsOffline | src/api/shipments-api.ts:45-56 | Offline (a false or null flag), the server reply plays no part, nothing is written, and the answer is the cached list whatever its filter, or `[]` |
| ShipmentsApi.ShipmentsWriteThrough | src/api/shipments-api.ts:34-44 | Online success returns the server list unchanged and caches its first 20 under the requested filter; with filter exactly `''` and a successful refresh, the unfiltered list replaces it |
| ShipmentsApi.CacheAllNeverSurfaces | src/api/shipments-api.ts:40-42 | The refresh never changes the answer, and happens only when the status is exactly `''` |
| ShipmentsApi.ShipmentsOnError | src/api/shipments-api.ts:57-68 | When the probe or the request throws, the answer is the cached list if any, else the original error; nothing is written |
| ShipmentsApi.OnlineThenOfflineList | src/api/shipments-api.ts:34-56 | A list read online (non-empty or absent filter) is what a later offline read returns, capped at 20 |
| ShipmentsApi.ShipmentOffline | src/api/shipments-api.ts:90-108 | Offline, `getShipment` never rejects: details, else basic, else null; nothing is written |
| ShipmentsApi.ShipmentOnError | src/api/shipments-api.ts:109-127 | On a throw: details, else basic, else the original error |
| ShipmentsApi.ShipmentWriteThrough | src/api/shipments-api.ts:77-89 | Online, a returned shipment is answered and cached as details, so a later offline read finds it; a body without a shipment answers null and writes nothing |
| ShipmentsApi.BasicServesOfflineDetails | src/api/shipments-api.ts:90-108 | A shipment seen in an online list read is found offline by id through its basic snapshot when it has no details |
| ShipmentsApi.OfflineAfterClear | src/api/shipments-api.ts:45-56 | After a clear, offline reads find an empty list and a null shipment |
| NetworkUtils.GetNetworkErrorInfo | src/utils/network-utils.ts:15-29 | A message exists iff there is an error object; it is never empty, and it is one of the four fixed messages or the server's own |
| NetworkUtils.ErrorInfoPriority | src/utils/network-utils.ts:16-28 | `NETWORK_ERROR`, then `ECONNABORTED`, then status 404, then the server's message if non-empty, else the unknown-error message |
| NetworkUtils.TransportCodeIgnoresResponse | src/utils/network-utils.ts:16-22 | With a transport code the response plays no part |
| IsDigit.IsDigit | src/utils/isDigit.ts:1-4 | The scan accepts exactly the empty string, a digit string, or digits-dot-digits (proved against a direct definition) |
| IsDigit.RunToEndIsDigits | src/utils/isDigit.ts:3 | `\d+$` matches exactly the non-empty digit strings |
| IsDigit.ScanAgreesWithShape | src/utils/isDigit.ts:3 | The regular-expression scan and the declarative shape agree on every non-empty text |
| IsDigit.ShapeImpliesScan | src/utils/isDigit.ts:3 | Every text of the shape is accepted by the scan |
| IsDigit.ScanImpliesShape | src/utils/isDigit.ts:3 | Every text the scan accepts has the shape |
| IsDigit.DigitPrefixStopsAt | src/utils/isDigit.ts:3 | The leading digit run ends at the first non-digit |
| IsDigit.DecimalAccepted | src/utils/isDigit.ts:2-3 | Digit strings (including the empty one) and `a.b` with non-empty digit strings are accepted |
| IsDigit.EdgeDotRejected | src/utils/isDigit.ts:3 | A leading or trailing dot is rejected |
| IsDigit.AtMostOneDot | src/utils/isDigit.ts:3 | An accepted text has at most one dot |
| IsDigit.ForeignCharRejected | src/utils/isDigit.ts:3 | Any character other than a digit or a dot is rejected |
| ToOptions.StringOr | src/utils/toOptions.ts:19-21 | `String(v \|\| fallback)` is non-empty for a truthy `v` |
| ToOptions.ToOptions | src/utils/toOptions.ts:9-23 | A null or non-array input gives `[]`. Otherwise there is one option per item, in order: a truthy label field gives its string form, and only a falsy one gives `''`. The value and the key are the value field's string form when it is truthy; otherwise the value is `''` and the key is `option-<index>`. A key is never empty |
| ToOptions.PositionKeysDistinct | src/utils/toOptions.ts:21 | Items at different positions with falsy values get different keys |
| ApprovalInputs.DigitsOnly | src/components/ShipmentApprovalBottomSheet.tsx:91 | The cleaned text is all digits and no longer than the input |
| ApprovalInputs.DigitsAndDotsOnly | src/components/ShipmentApprovalBottomSheet.tsx:65 | The cleaned text holds only digits and dots |
| ApprovalInputs.IntegerChange | src/components/ShipmentApprovalBottomSheet.tsx:86-100 | The setter is called iff the cleaned text has at most 9 digits, always with the cleaned text, whose value is below 10^9 |
| ApprovalInputs.IntGuardNeverFires | src/components/ShipmentApprovalBottomSheet.tsx:94-97 | After the length check, `parseInt(clean) > 2147483647` never holds |
| ApprovalInputs.DigitsOnlyFilters | src/components/ShipmentApprovalBottomSheet.tsx:91 | Cleaning keeps a digit string as it is and distributes over concatenation, so it removes exactly the non-digits |
| ApprovalInputs.PercentageChange | src/components/ShipmentApprovalBottomSheet.tsx:60-83 | Rejects iff the cleaned text has two or more dots, or more than two digits after the dot. An accepted value is the cleaned text, with at most one dot, and the message is either empty or the range message |
| ApprovalInputs.PercentMessageExact | src/components/ShipmentApprovalBottomSheet.tsx:54-57 | After an accepted change, the range message is shown iff the value is non-empty and is `.` or exceeds 100, counted exactly in hundredths |
| ApprovalInputs.NaNOnlyForLoneDot | src/components/ShipmentApprovalBottomSheet.tsx:55-56 | Among accepted non-empty values, `parseFloat` gives `NaN` only for `.` |
| ApprovalInputs.ScaledComparison | src/components/ShipmentApprovalBottomSheet.tsx:56 | With at most two fraction digits, comparing with 100 is the same as comparing hundredths with 10000 |
| ApprovalInputs.NothingNumeric | src/components/ShipmentApprovalBottomSheet.tsx:65-82 | An input with no digits and no dots sets `''` and clears the message (and the integer handler sets `''`) |
| ApprovalInputs.CleanPercentagePassesThrough | src/components/ShipmentApprovalBottomSheet.tsx:65-75 | A value already made of digits, with at most one dot and at most two digits after it, passes through unchanged |
| Text.ParseInt | src/utils/cache-utils.ts:210 | `parseInt` is `NaN` exactly when no digit follows the optional blanks and sign |
| Text.ParseIntSigned | src/utils/cache-utils.ts:210-213 | `parseInt` of blanks, an optional `+` or `-`, a digit run and text that does not continue the run is the run's value, negated for `-`; the blanks and the trailing text play no part |
| Text.ParseIntOfDigits | src/components/ShipmentApprovalBottomSheet.tsx:94 | A digit string parses to its own value |
| Text.DigitsValueAppend | src/components/ShipmentApprovalBottomSheet.tsx:94 | The value of `a + b` is `value(a) * 10^|b| + value(b)` |

## Left out

- Timing and concurrency. Each call takes its time stamp from the parameter `now`, and two stamps written by one call are equal. The source awaits between storage calls, and other calls may interleave there. The model runs each call on its own.
- Faults are fixed for the whole of one call. A store that fails one write and not the next is not modelled.
- JSON is not modelled. A stored value that does not parse is the value `Unreadable`, which every reader treats as missing. Malformed records inside a list, or a list missing a field, are not modelled.
- The `OfflineShipmentState.Synced` status is declared but never produced, because the code never writes it.
- `getInstance`, the singleton, is not modelled: the class is created with its constructor.
- The outer `catch` of `syncOfflineShipments` is not modelled. Every storage helper catches its own errors, and a rejected submission is caught inside the loop. The only way to reach that `catch` is a wrong-kind value under the queue key (next line), which the model does not represent. The `finally` is modelled: the gate is reset on every path.
- OfflineStorage.QueueIn: a value of the wrong kind under an app key (say a string under `offline_shipments`) reads as missing, and `AddSpec`, `RemoveSpec` and `UpdateSpec` then overwrite it with a fresh queue. The source behaves differently. `getOfflineData` returns any truthy parsed value, so `.push`, `.filter` and `.map` throw. Their `catch` leaves the store unchanged, `getOfflineCount` rejects, and a sync pass ends in its outer `catch`. The same holds for `CacheUtils.ListIn` and `OfflineStorage.StoredBrands`/`StoredContracts`. The app itself only ever writes a list of the right kind under each of these keys, so only another writer could cause this.
- Toast messages, `console` logging and the rendering of the approval sheet are not modelled.
- Shipment fields the core only copies (weights, lab data, operators, logs) are not part of `Types.Shipment`. The shipment records the core builds keep only the fields it reads or fills in.
- `checkApiConnection`, `pingServer`, `createShipment`, `updateShipment`, `deleteShipment`, `getCounterpartyData` and the user-profile helpers of the offline store are not modelled. They are thin HTTP or storage wrappers.
- OfflineSync.SyncOfflineShipments: the server is an oracle indexed by submission number within the pass. A pass submits one payload per candidate. The submitted payloads are a method result; nothing is sent anywhere.
- Text.ParseInt: hexadecimal prefixes and Unicode white space are not modelled. Only ASCII blanks, an optional sign and decimal digits are.
- ApprovalInputs.ParseFloat: modelled only on texts of digits and dots, the only texts the handler passes it. The value is exact. This agrees with binary floating point here, because an accepted value has at most two fraction digits, and 100 and every such value above 100 compare the same way in both.
- ToOptions.JsString: numbers are modelled as integers only. Fractional numbers, `NaN`, objects and arrays as field values are not modelled.
- NetworkUtils.GetNetworkErrorInfo: only a string message in the response body is modelled. A truthy non-string message would be returned as is.

## Findings

| source | as written | input that shows it | evidently intended | confidence | as-written member | corrected member |
|---|---|---|---|---|---|---|
| src/utils/offline-storage.ts:47 | The queued entry copies `payload.id`, but the only creator never sets an id. So every queued entry's id is `undefined`, and `removeOfflineShipment(undefined)` after one successful submission deletes every id-less entry, including one the server just rejected | Two offline creations. The first submission is rejected and the second accepted. The queue ends empty, and the first creation is lost without the server ever accepting it | Each queued entry carries its own id. A rejected entry stays queued as `failed` and is retried | not executed | OfflineSync.RejectedEntryIsLost | OfflineSync.RejectedEntryKeptWithFreshIds |
