# Verified model of the Intune to ServiceNow CMDB connector

The connector reads managed devices from Microsoft Graph, maps each one to a CMDB record, writes the records
to ServiceNow, and retires the records of devices that have vanished. This project models the stateful and
algorithmic parts of one run, and of the runs of a deployment over time, and proves what holds of them whatever
the remote systems answer. Check everything with `dafny verify dfyconfig.toml`.

| file | part of the connector |
|---|---|
| `SyncRun.dfy` | one run from the kept devices to the saved state: payloads, batches, report, retirement |
| `Retirement.dfy`, `SyncState.dfy`, `StateFile.dfy` | the state that survives between runs, every history of runs, and the state file under crashes |
| `AbortGuard.dfy` | the per-CI writer: a worker pool whose guard is read without the lock |
| `ReferenceResolver.dfy` | manufacturers and models: lookup, creation, and models that wait for a manufacturer |
| `UserResolver.dfy` | Entra users to `sys_user` records: ordered keys, batches, chunks, cache |
| `EncodedQuery.dfy` | encoded queries as they are printed, against a parser and an evaluator |
| `BatchGet.dfy`, `Retry.dfy`, `ManagedDevices.dfy`, `CmdbReader.dfy` | batched, retried and paged reads |
| `DryRunPreview.dfy`, `IdentifyReconcile.dfy`, `ItemErrors.dfy`, `Writers.dfy` | what the two writers say about a batch |
| `Mapping.dfy` | serial numbers, MAC addresses, and the order in which layers of values override one another |
| `Json.dfy`, `Text.dfy`, `Sequences.dfy`, `Wrappers.dfy` | JSON values as Python reads them, Python string operations, slicing and joining, `Option` |

How it is put together:

- A remote system is a nondeterministic environment: an answer is a function of the request's position, a value
  chosen with `*`, or a parameter. Where a property needs an honest server, the assumption is a named predicate
  (`UserResolver.Honest`, `ManagedDevices.Serves`, `BatchGet.AnsweredOnce`, `ReferenceResolver.Grants`).
- A POST is a request of the HTTP client, which sends it again after a retryable answer. The writer and the reference
  resolver count both: requests (`posts`) and what goes over the wire (`sends`), through `Retry.Request`.
- The replies to writes, creates and batches are JSON values, read as the code reads them: where Python would raise on a
  shape that is not expected, so does the model.
- An object whose methods update its fields is a class with those fields. Each of its methods is proved equal to a
  step of a pure specification (`ReferenceResolver.Step`, `AbortGuard.Apply`, `UserResolver.ResolveInOrder`,
  `SyncState.Observed`, `Retirement.DiskAfterRun`), and the results are proved about that specification over all
  sequences of steps.
- What an operation makes of one input is also stated in the fields of the input itself, without the functions that
  compute it: `AbortGuard.PostedResults`, `IdentifyReconcile.ItemIsRead`, `ReferenceResolver.CreatesAreNamed`,
  `UserResolver.KeyByKey`, `SyncRun.SentAre`, `SyncState.LastSightingWins`, `Retirement.PatchesIff` and others.
- `SyncRun.Run` calls the modelled writers, the modelled state and the modelled retirement, and its postcondition
  hands the run to `Retirement`, whose theorems are about all histories of such runs.

Some properties one would expect are false of the code. Each has its exact condition:

- The bound on create requests of the abort guard holds for every interleaving exactly when the server never ends a request,
  2xx or not, with a reply on which reading raises: that exception leaves the worker unrecorded
  (`AbortGuard.BoundHoldsIffNoMalformedReply`; a 400 of that kind breaks it in `AbortGuard.RefusalsBreakTheBound`).
- Neither bounds sends: a create request goes out once for every history exactly when retries are off or the server gives
  creates no retryable answer, or nothing is created (`AbortGuard.SentOnceIff`, `ReferenceResolver.SentOnceIff`; a server that answers 503 reaches
  the limit in `AbortGuard.BusyServerReachesSendBound` and `ReferenceResolver.BusyServerResends`).
- A batch of users agrees with looking each up alone under the `user_name` key, for every server answer, exactly when no
  user's local part is brought into the batch ahead of that user's own UPN (`UserResolver.UserNameBatchAgreesIff`; two
  users for whom it is in `UserResolver.HomonymsGoWrong`).
- A listing is right for every limit exactly when the ownership filter is not in effect, or passes all the devices that the
  client-side check keeps (`ManagedDevices.FilterIsSafeIff`). The check folds case and the filter as sent does not, so a server that
  takes it at its word loses a device spelled otherwise (`ManagedDevices.SpellingIsLost`).
- One run leaves at least (q-p)/q of whatever is remembered exactly when it does not save a state it could not load
  (`Retirement.DrainsIff`, with a fleet that is lost in `Retirement.UnreadableRunDrops`).
- A failed write of the state file leaves the files as they were exactly when it made no temporary file or removed it
  (`StateFile.CrashLeavesOldOrNew`; the failing removal in `StateFile.StrayIsPossible`).
- An optional batched lookup is not harmless: it ends the run exactly when some batch reply cannot be read
  (`BatchGet.GraphClient.Get`, and the concrete `BatchGet.OptionalLookupFails`).
- Joining query clauses is conjunction of what they ask exactly when none starts a query of its own with `NQ` and none opens
  with an OR-term after something was asked (`EncodedQuery.CombineConjoins`; `EncodedQuery.OrClauseWidens` and
  `EncodedQuery.NewQueryEscapes` select rows that a clause excludes).
- Retirement compares Intune ids only, so "a CI written in this run is not retired in this run" holds exactly when no
  remembered id outside the writes shares its CI with one of them (`Retirement.OwnWritesSurviveIff`).
- The report's counters are the histogram of its final outcomes, whatever the writer answers, exactly when no two
  devices sent share an id (`SyncRun.CountersExactIff`).
- A serial number of fillers alone, such as `---`, is accepted (`Mapping.SerialAcceptedIff`).

## Model

| member | source | states |
|---|---|---|
| `SyncRun.Run` | src/intune_cmdb_sync/sync.py:62-166 | Whatever the remote systems answer and wherever the run dies between loading and saving, its PATCHes and the state it leaves are those of one `Retirement` run whose sightings are the non-error results with a sys_id, in order, each under the name and class of a device sent; once it got past the writes, those results are the writer's, one per payload in order, on their own devices; if it returns, every kept device is accounted for and the run is degraded exactly once per reason (nothing written, guard tripped, writer aborted, save failed); a dry run leaves the per-CI writer without a POST, and the writer stays a run of its machine |
| `SyncRun.CountersExactIff` | src/intune_cmdb_sync/models.py:142-153 | The counters equal the histogram of final actions for every sequence of recorded actions iff no key is recorded twice |
| `SyncRun.CountersPartition` | src/intune_cmdb_sync/models.py:142-153 | Inserted, updated, unchanged, error and skipped records add up to all records |
| `SyncRun.CountersOfResults` | src/intune_cmdb_sync/sync.py:437-456 | The counters of a run are the numbers of its results of each action, real writes and predictions alike; a prediction that could not be made counts as a skip |
| `SyncRun.RunReport.Record` | src/intune_cmdb_sync/models.py:142-153 | Recording appends one outcome and keeps every counter equal to the number of records with its action |
| `SyncRun.SentOrSkipped` | src/intune_cmdb_sync/sync.py:343-408 | The ids skipped and the ids sent are together, with multiplicity, the ids of the kept devices |
| `SyncRun.PayloadsAreIdentifiable` | src/intune_cmdb_sync/sync.py:386-406 | Every payload has an id, a class, and a serial number or a name among the values that go out |
| `SyncRun.SentAre` | src/intune_cmdb_sync/sync.py:357-406 | The payloads are, in order, those of the kept devices with an id, a class, and a serial number or a name among their values, each with its own fields |
| `SyncRun.SkipsAre` | src/intune_cmdb_sync/sync.py:357-395 | Skipped for no class: an id and no class; skipped for no identifier: no id, or an id and a class but neither serial number nor name |
| `SyncRun.BuildPayloads` | src/intune_cmdb_sync/sync.py:333-408 | The payloads, the outcome index and the skip records are those the devices call for; nothing waiting for a writer is recorded yet |
| `SyncRun.WriteBatch` | src/intune_cmdb_sync/sync.py:416-464 | Every result is recorded in order on the outcome of its id and unknown ids are ignored; a failed batch counts as one failure per item; the state learns exactly the non-error results that carry a sys_id |
| `SyncRun.AllLand` | src/intune_cmdb_sync/sync.py:437-456 | When a writer answers each item in its place, each payload is recorded on its own outcome with what its own result says |
| `SyncRun.WriteAll` | src/intune_cmdb_sync/sync.py:110-111 | Batch boundaries do not show in the books: all batches together record one result per payload, in order |
| `SyncRun.RetireMissing` | src/intune_cmdb_sync/sync.py:476-535 | The PATCHes sent are the decision's, under the remembered sys_ids and class tables; exactly those that succeeded are forgotten and counted; the guard degrades the run |
| `SyncRun.DegradedMeans` | src/intune_cmdb_sync/sync.py:113-163 | The reasons for degrading a run, spelled out in the report, the policy and the known devices |
| `Retirement.PatchesAreJustified` | src/intune_cmdb_sync/sync.py:496-531 | A run PATCHes only ids it remembers, under the remembered sys_id, that the fetch does not report, and at most p/q of what it knows |
| `Retirement.PatchesIff` | src/intune_cmdb_sync/sync.py:480-531 | A run that gets to retire PATCHes exactly the known devices with a sys_id that the fetch does not report, if retirement is on, unlimited and not dry and they are at most p/q of the known; each under its sys_id, through its class table or the default one |
| `Retirement.LeavesIff` | src/intune_cmdb_sync/sync.py:531-535 | A run that saved leaves what it knew but the devices whose PATCH succeeded |
| `Retirement.QuietRuns` | src/intune_cmdb_sync/sync.py:480-515 | Corollary of the decision: dry runs, limited runs, empty fetches and runs over the guard PATCH nothing; dry runs and empty fetches leave the state alone |
| `Retirement.FailedPatchKeepsEntry` | src/intune_cmdb_sync/sync.py:521-533 | A PATCH that fails leaves its entry as it was for the next run |
| `Retirement.ForgetsOnlyRetired` | src/intune_cmdb_sync/sync.py:531-533 | An entry disappears only by a PATCH of its id that succeeded while the fetch did not report it |
| `Retirement.DrainBound` | src/intune_cmdb_sync/sync.py:500-510 | After any k runs with fraction p/q that do not save over a state they could not load, at least ((q-p)/q)^k of the remembered devices are left |
| `Retirement.DrainsIff` | src/intune_cmdb_sync/sync.py:500-533 | A run leaves (q-p)/q of every possible state iff it does not save over a state it could not load, or the fraction is 1 |
| `Retirement.UnreadableRunDrops` | src/intune_cmdb_sync/state.py:33-72 | For a run that saves over a state it could not load and any fraction below 1, a fleet of which less than (q-p)/q is left |
| `Retirement.Provenance` | src/intune_cmdb_sync/sync.py:458-464 | From empty state, over any crashes and failures, whatever is PATCHed goes out under the sys_id that a writer last returned for that very id, without error, in the latest earlier run that was told of it, was not dry and saved, and whoever saved since had read the file |
| `Retirement.OwnWritesSurviveIff` | src/intune_cmdb_sync/state.py:87-93 | No run retires a CI it has written iff no remembered id outside the writes shares a CI with one of them |
| `SyncState.SightingsAreLocal` | src/intune_cmdb_sync/state.py:74-85 | Observing adds ids, touches no other entry, and a sys_id comes from the entry or from a sighting of that id |
| `SyncState.LastSightingWins` | src/intune_cmdb_sync/state.py:74-85 | After any sightings an id's sys_id and class are those of its last sighting with one, its name that of its last sighting, and what no sighting brings stays |
| `SyncState.State.Observe` | src/intune_cmdb_sync/state.py:74-85 | The new state is the old one with this sighting taken in |
| `SyncState.State.Forget` | src/intune_cmdb_sync/state.py:95-97 | The new state is the old one without these ids |
| `StateFile.CrashLeavesOldOrNew` | src/intune_cmdb_sync/storage.py:56-68 | Stopping after any file-system step leaves the whole old or the whole new payload, the new one iff the move happened, and at most one stray temporary file; a write that raises leaves the files as before iff it made no temporary file or removed it |
| `StateFile.StrayIsPossible` | src/intune_cmdb_sync/storage.py:65-68 | A removal that fails in the handler leaves the temporary file |
| `StateFile.LocalStateStore.Write` | src/intune_cmdb_sync/storage.py:50-68 | The write is a run of that step machine ending in the new payload or, if it raises, with the old payload, and with the old files iff no temporary file was made or it was removed |
| `AbortGuard.GuardTripsExactly` | src/intune_cmdb_sync/servicenow/writers/cmdb_instance.py:58-83 | In every interleaving the guard has tripped iff the first T outcomes recorded were all errors, and quotes T; T = 0 never trips |
| `AbortGuard.OneSuccessDisarms` | src/intune_cmdb_sync/servicenow/writers/cmdb_instance.py:66-71 | Once a success is recorded before the trip, no continuation trips the guard |
| `AbortGuard.NoneClearedAfterTrip` | src/intune_cmdb_sync/servicenow/writers/cmdb_instance.py:171-179 | After the trip the verdict never changes and only create requests already past the check still go out |
| `AbortGuard.PostBound` | src/intune_cmdb_sync/servicenow/writers/cmdb_instance.py:48-83 | A run that tripped the guard or has no success issued at most T + W - 1 create requests, plus one per worker that died of a reply it could not digest |
| `AbortGuard.BoundHoldsIffNoMalformedReply` | src/intune_cmdb_sync/servicenow/writers/cmdb_instance.py:193-241 | The bound on create requests without that allowance holds for every interleaving iff the server sends no final reply, 2xx or not, on which reading raises |
| `AbortGuard.RefusalsBreakTheBound` | src/intune_cmdb_sync/servicenow/writers/cmdb_instance.py:194-201 | With every request refused by a 400 whose first item has a number for its errors, some interleaving issues T + W create requests |
| `ItemErrors.RaisesIff` | src/intune_cmdb_sync/servicenow/writers/errors.py:22-52 | Looking for the message of a refusal raises iff it is an object whose result is an object whose items are a list whose first is an object whose errors are true and neither list, text nor object |
| `ItemErrors.ErrorsAreRead` | src/intune_cmdb_sync/servicenow/writers/errors.py:137-146 | An item has no error messages iff its errors are false, or a list of entries that say nothing, or an object without keys that do |
| `AbortGuard.BoundIsReached` | src/intune_cmdb_sync/servicenow/writers/cmdb_instance.py:54-83 | For every failing answer, some interleaving issues exactly T + W - 1 create requests, each sent as often as the retry loop sends it |
| `AbortGuard.SendBound` | src/intune_cmdb_sync/http.py:141-200 | Such a run sends at most (R+1) * (T + W - 1) POSTs over the wire, plus R+1 per worker that died of a reply it could not digest |
| `AbortGuard.BusyServerReachesSendBound` | src/intune_cmdb_sync/http.py:141-200 | A server that answers every send with 503 is sent exactly (R+1) * (T + W - 1) POSTs in some interleaving |
| `AbortGuard.SentOnceIff` | src/intune_cmdb_sync/http.py:141-200 | Every create request is sent once in all interleavings iff R is 0 or no answer is retryable |
| `AbortGuard.EveryPostIsARequest` | src/intune_cmdb_sync/http.py:141-200 | What each create request meets in an interleaving is an exchange of the retry loop: nothing final before its end, at most R+1 sends, and it raises iff the last answer is retryable |
| `AbortGuard.BatchResults` | src/intune_cmdb_sync/servicenow/writers/cmdb_instance.py:54-56 | A finished batch has one result per item in batch order, and items not attempted are errors |
| `AbortGuard.PostedResults` | src/intune_cmdb_sync/servicenow/writers/cmdb_instance.py:187-241 | In every interleaving a posted device is no error iff the last reply to its request is a 2xx object whose result has no error and whose attributes have a sys_id; it then has that sys_id, and is inserted iff it was created when it was updated |
| `AbortGuard.SuccessIff` | src/intune_cmdb_sync/servicenow/writers/cmdb_instance.py:58-71 | A reply counts as a success of the guard iff it accepts a CI in that sense |
| `AbortGuard.WorkerDiesIff` | src/intune_cmdb_sync/servicenow/writers/cmdb_instance.py:193-226 | Which final replies kill their worker, in the shape of the body |
| `AbortGuard.MoveIsProgress` | src/intune_cmdb_sync/servicenow/writers/cmdb_instance.py:54-56 | Within a batch every step lowers a measure, so every interleaving ends |
| `AbortGuard.SomeWorkerCanMove` | src/intune_cmdb_sync/servicenow/writers/cmdb_instance.py:54-56 | Until every task is settled some worker can move |
| `AbortGuard.CmdbInstanceWriter.Record` | src/intune_cmdb_sync/servicenow/writers/cmdb_instance.py:58-83 | The locked section takes the guard to the recorded guard of the specification |
| `AbortGuard.CmdbInstanceWriter.Perform` | src/intune_cmdb_sync/servicenow/writers/cmdb_instance.py:171-241 | Each atomic step of a worker is the step of the machine on the object's own fields |
| `AbortGuard.CmdbInstanceWriter.Write` | src/intune_cmdb_sync/servicenow/writers/cmdb_instance.py:48-56 | Under any scheduler and server a batch ends in one answer per item, or in the exception of a dead worker |
| `ReferenceResolver.CreatesAtMostOnce` | src/intune_cmdb_sync/reference_resolver.py:94-180 | Over any devices and answers each folded name has at most one create request per table, never one that was primed, and a dry run has none |
| `ReferenceResolver.CreatesAreNamed` | src/intune_cmdb_sync/reference_resolver.py:94-143 | Whatever is created is the name some device reports for that table, or its alias, trimmed, and what is cached was primed or is such a name folded |
| `ReferenceResolver.AliasesShareACompany` | src/intune_cmdb_sync/reference_resolver.py:97-115 | Two devices whose manufacturers alias to one name, with any devices between them, are given one company, or both none, by one create request |
| `ReferenceResolver.CreatedIsUsed` | src/intune_cmdb_sync/reference_resolver.py:198-234 | A created company is used iff it came back with a sys_id under the name it was sent with, folded; under another name it is counted as blank |
| `ReferenceResolver.CreateIsRead` | src/intune_cmdb_sync/reference_resolver.py:198-216 | A 2xx reply to a create is worth the sys_id of its result iff it has one, and ends the run iff an object is expected and something else is there |
| `ReferenceResolver.SendsPerName` | src/intune_cmdb_sync/http.py:141-200 | Over any devices and answers on the wire each folded name is sent in at most R+1 POSTs per table, and in none by a dry run |
| `ReferenceResolver.SentOnceIff` | src/intune_cmdb_sync/http.py:141-200 | Every name is sent at most once for all histories iff R is 0, the server gives creates no retryable answer, or the configuration creates nothing |
| `ReferenceResolver.BusyServerResends` | src/intune_cmdb_sync/http.py:141-200 | A server that answers 503 is sent the same company, or under a known company the same model, R+1 times |
| `ReferenceResolver.ModelsAreLinked` | src/intune_cmdb_sync/reference_resolver.py:115-131 | Every model is created under a manufacturer that is in the cache |
| `ReferenceResolver.AwaitingMeansNoManufacturer` | src/intune_cmdb_sync/reference_resolver.py:118-150 | A model waits iff model creation is on, some device named it, it is not cached, and no device naming it had a resolved manufacturer; it was attempted iff one had |
| `ReferenceResolver.OrderDoesNotMatter` | src/intune_cmdb_sync/reference_resolver.py:121-150 | Two device lists with the same members leave the same waiting set, the same attempted models and the same known companies |
| `ReferenceResolver.CompaniesExact` | src/intune_cmdb_sync/reference_resolver.py:102-113 | The companies known at the end are the primed ones and the named ones whose creation the server grants |
| `ReferenceResolver.ReferencesAreCached` | src/intune_cmdb_sync/reference_resolver.py:94-143 | Corollary of the step: a device is given exactly what the caches hold for its two names after its own lookup |
| `ReferenceResolver.FoundIsFirst` | src/intune_cmdb_sync/reference_resolver.py:182-196 | A name is primed iff a usable record carries it, with the earliest such record's sys_id |
| `ReferenceResolver.ReferenceResolver.Prime` | src/intune_cmdb_sync/reference_resolver.py:78-92 | Priming asks the two tables for the usable aliased names in chunks of forty, adds to each cache what the returned records say, and changes nothing else |
| `ReferenceResolver.PrimingAsksForNames` | src/intune_cmdb_sync/reference_resolver.py:182-196 | The queries of a priming together select exactly the rows whose name holds no caret and is, trimmed, one of the names or its target in the alias map |
| `ReferenceResolver.QueriesAreFew` | src/intune_cmdb_sync/reference_resolver.py:182-190 | A priming takes ceil(n / 40) requests for n names |
| `ReferenceResolver.ReferenceResolver.ReferencesFor` | src/intune_cmdb_sync/reference_resolver.py:94-143 | The five fields take the specification's step and the two references are the specification's |
| `ReferenceResolver.ReferenceResolver.ReferencesForAll` | src/intune_cmdb_sync/reference_resolver.py:94-143 | A sequence of calls is a run of the specification |
| `UserResolver.AssignmentsAreSound` | src/intune_cmdb_sync/user_resolver.py:89-118 | Whatever is returned, an assigned record is the only returned one whose folded field is one of that user's own safe values for that key |
| `UserResolver.EveryAssignmentIsSound` | src/intune_cmdb_sync/user_resolver.py:55-118 | After any sequence of calls and answers, every assignment in the cache was made by one call, for an id unknown until then, and is the only record that call was returned with one of that user's own safe values |
| `UserResolver.AssignedByFields` | src/intune_cmdb_sync/user_resolver.py:89-168 | In the fields: the record alone, of those returned, has the employee number, or the mail or else the UPN, or the UPN or its local part, or the object id of that very user, folded, according to the key it matched on |
| `UserResolver.CachedForGood` | src/intune_cmdb_sync/user_resolver.py:55-71 | Once an id is cached, found or not, its answer is the same after any further calls |
| `UserResolver.BatchIsAlone` | src/intune_cmdb_sync/user_resolver.py:55-119 | Against an honest server each user of a batch who stands in order gets what looking that user up alone, key by key, gives |
| `UserResolver.KeyByKey` | src/intune_cmdb_sync/user_resolver.py:89-168 | Looking a user up alone under one key gives a record iff that record alone carries the user's value in the key's field, for user_name the UPN before its local part |
| `UserResolver.FirstKeyDecides` | src/intune_cmdb_sync/user_resolver.py:60-67 | Over an order of keys, the first that gives a record decides |
| `UserResolver.UserNameBatchAgreesIff` | src/intune_cmdb_sync/user_resolver.py:141-168 | For the two-valued key the batch agrees with the single lookup for all records and users iff for every user somebody has the UPN among their values before anybody has the local part, or the first to have either has both, the UPN first |
| `UserResolver.HomonymsGoWrong` | src/intune_cmdb_sync/user_resolver.py:141-154 | Users b@o and b@x, in this order, are a batch that fails the condition |
| `UserResolver.LocalFirstMisassigns` | src/intune_cmdb_sync/user_resolver.py:97-118 | Where it does not, two concrete records make the batch assign the wrong one |
| `UserResolver.CleanUsersStandInOrder` | src/intune_cmdb_sync/user_resolver.py:141-154 | Single-valued keys, and users whose local part is nobody's later UPN, always stand in order |
| `UserResolver.CleanUsersStandThroughout` | src/intune_cmdb_sync/user_resolver.py:73-87 | Such users stand in order at every key tried, so that the batch results below apply to them |
| `UserResolver.BatchIsFirstHit` | src/intune_cmdb_sync/user_resolver.py:89-119 | For a user in order, the grouped and inverted lookup is the first of the user's own values that hits exactly one record |
| `UserResolver.CandidatesDescribe` | src/intune_cmdb_sync/user_resolver.py:133-154 | The candidate table has one entry per folded safe value, listing exactly the users who own it |
| `UserResolver.ChunksAnswerTogether` | src/intune_cmdb_sync/user_resolver.py:170-182 | Honest pages of the chunks hold, with multiplicity, exactly the table's records with one of the values |
| `UserResolver.PendingMeans` | src/intune_cmdb_sync/user_resolver.py:57-58 | What a call resolves has distinct ids, none of them cached, and covers every uncached id |
| `UserResolver.PendingIsLast` | src/intune_cmdb_sync/user_resolver.py:57-58 | Of users with one id the last is resolved |
| `UserResolver.PendingInOrder` | src/intune_cmdb_sync/user_resolver.py:57-58 | They are resolved in the order in which their ids first appear |
| `UserResolver.CachedAnswersAreAlone` | src/intune_cmdb_sync/user_resolver.py:55-71 | What is cached for an uncached user is the single-user answer, so earlier calls and other users do not matter |
| `UserResolver.OriginalsAreOwn` | src/intune_cmdb_sync/user_resolver.py:84-87 | Every value sent is a query-safe value of some user, as that user spells it |
| `UserResolver.RequestsAreFew` | src/intune_cmdb_sync/user_resolver.py:170-182 | A key takes ceil(n / 50) requests for n values, none with more than fifty |
| `UserResolver.UserResolver.ResolveMany` | src/intune_cmdb_sync/user_resolver.py:55-71 | The cache grows by the specification's answers for the uncached users and changes nowhere else; the answer reads the cache; every value asked for is a safe value of an uncached user of the call, so nothing is asked about a cached id alone |
| `UserResolver.UserResolver.ResolveByKey` | src/intune_cmdb_sync/user_resolver.py:73-119 | One key's lookup is the specification's match over the records returned |
| `EncodedQuery.OrQueryParsesBack` | src/intune_cmdb_sync/snow_query.py:37-48 | An OR query parses to one group of equalities on its field iff no value holds a caret |
| `EncodedQuery.OrQuerySelects` | src/intune_cmdb_sync/snow_query.py:37-48 | It selects the rows whose field is one of the values and that meet the clause |
| `EncodedQuery.AppendedClauseStandsAlone` | src/intune_cmdb_sync/snow_query.py:45-48 | Appending a clause with a caret goes on from the last query as the clause reads by itself iff the clause does not open with an OR-term where there is a group to join |
| `EncodedQuery.OrderingAsksNothing` | src/intune_cmdb_sync/cmdb_report.py:229-231 | An appended ordering changes nothing of what a query asks |
| `EncodedQuery.NewQuerySelects` | src/intune_cmdb_sync/cmdb_report.py:229-231 | Appending `NQ` and a query selects the rows of either |
| `EncodedQuery.CombineConjoins` | src/intune_cmdb_sync/cmdb_report.py:229-231 | Combined clauses parse to one query of all their groups iff none of them holds an `NQ` term and none opens with an OR-term after something was asked |
| `EncodedQuery.CombineSelects` | src/intune_cmdb_sync/cmdb_report.py:229-231 | Combining such clauses selects the rows that meet them all |
| `EncodedQuery.OrClauseWidens` | src/intune_cmdb_sync/cmdb_report.py:229-231 | A concrete combined query selects a row that one of its clauses excludes |
| `EncodedQuery.NewQueryEscapes` | src/intune_cmdb_sync/cmdb_report.py:229-231 | A clause with an `NQ` term selects a row whatever the clause before it says |
| `EncodedQuery.InTermReadsBack` | src/intune_cmdb_sync/servicenow/writers/errors.py:75-86 | An IN list reads back as its values iff none holds a comma |
| `EncodedQuery.LookupSelects` | src/intune_cmdb_sync/servicenow/writers/cmdb_instance.py:141-155 | The preview's query selects the rows with one of the serial numbers or one of the names |
| `EncodedQuery.ChunksSelectTheSame` | src/intune_cmdb_sync/snow_query.py:51-53 | The chunk queries together select what the whole list does |
| `EncodedQuery.UsableIsExact` | src/intune_cmdb_sync/snow_query.py:27-34 | Usable values are exactly the safe trimmed inputs, each once |
| `EncodedQuery.UsableQueryIsExact` | src/intune_cmdb_sync/snow_query.py:23-48 | A query over usable values always exists and selects exactly the rows carrying one of them |
| `EncodedQuery.UsableValues` | src/intune_cmdb_sync/snow_query.py:27-34 | The loop computes the specified list |
| `BatchGet.EveryKeyHasOneVerdict` | src/intune_cmdb_sync/graph.py:539-581 | Every url ends with one verdict, that of the last round that asked for it; the result holds exactly the resolved ones with their bodies; the rest are absent, lost with a batch, or still throttled |
| `BatchGet.BodiesBelong` | src/intune_cmdb_sync/graph.py:539-548 | Each body in the result answered a sub-request for that key's own url |
| `BatchGet.AskedAgainOnlyIfThrottled` | src/intune_cmdb_sync/graph.py:553-565 | A key asked in a later round was throttled in every round before |
| `BatchGet.ThrottledMeans` | src/intune_cmdb_sync/graph.py:539-554 | What is asked again is exactly the keys answered with a throttling status, each once |
| `BatchGet.StatusDecides` | src/intune_cmdb_sync/graph.py:544-554 | A key is asked again iff its own sub-answer has status 429, 503 or 504, and answered iff it has a 2xx |
| `BatchGet.SubIsRead` | src/intune_cmdb_sync/graph.py:539-548 | A sub-answer is read as its own id, its own status and, for a 2xx, its own body |
| `BatchGet.SubRaisesIff` | src/intune_cmdb_sync/graph.py:539-562 | Where reading a sub-answer raises, in its fields |
| `BatchGet.ReplyRaisesIff` | src/intune_cmdb_sync/graph.py:539 | A reply cannot be read iff it is no JSON object, or its responses cannot be gone through, or one of them cannot be read |
| `BatchGet.CallsAreFew` | src/intune_cmdb_sync/graph.py:507-518 | k rounds over n urls in full chunks of twenty take at most k times ceil(n / 20) batch requests |
| `Sequences.CeilIsCeiling` | src/intune_cmdb_sync/graph.py:592-594 | The number of chunks is the ceiling of n / size |
| `BatchGet.GraphClient.Get` | src/intune_cmdb_sync/graph.py:492-581 | The result is that of a run of rounds in chunks of at most twenty; it fails iff some batch request made got a 2xx reply that cannot be read or, for a required lookup, no 2xx reply; with R retries it takes at most (R+1)^2 * ceil(n / 20) sends and at most R pauses, the a-th min(2^a, 60) seconds |
| `BatchGet.OptionalLookupFails` | src/intune_cmdb_sync/graph.py:539-548 | Against a server that answers a batch with a JSON list, an optional lookup of any urls fails |
| `Retry.Request` | src/intune_cmdb_sync/http.py:118-200 | At most R + 1 sends with a pause between each two; returns the first final answer iff there is one among them, and raises the last error only after all of them |
| `Retry.FinalIff` | src/intune_cmdb_sync/http.py:160-194 | A request ends at a 2xx and at every status but 408, 429, 500, 502, 503 and 504 |
| `Retry.BackoffIsBounded` | src/intune_cmdb_sync/http.py:72-80 | Every pause is in [0, 120] seconds, and below the exponential ceiling when the server gives no hint |
| `Retry.PauseIs` | src/intune_cmdb_sync/http.py:30-80 | The pause is what Retry-After says, else what X-RateLimit-Reset says, as a time where it is large, within [0, 120]; else a share of 1, 2, 4, ... seconds |
| `ManagedDevices.CollectDevices` | src/intune_cmdb_sync/graph.py:316-364 | Against any server the requests made are those of the listing followed link by link, after one more where the filter is rejected; what is kept is the limit's worth of the pages pulled, no page is pulled after the limit is met, and the collection fails iff some answer is no readable page, other than a 400 to a first request that carried the filter |
| `ManagedDevices.AnsweredIffRead` | src/intune_cmdb_sync/graph.py:338-352 | All the pages of a listing could be read iff every answer met was a readable 2xx page or the rejection of the filter by the first |
| `ManagedDevices.AnsweredMeans` | src/intune_cmdb_sync/graph.py:338-352 | In the status: a 2xx is a page, and a 400 is forgiven to a first request that carried the filter |
| `ManagedDevices.RejectionCostsOneRequest` | src/intune_cmdb_sync/graph.py:338-349 | After a 400 to the filtered request the collection is that of a client that sends no filter: same pages, same devices, same success or failure, one request later |
| `ManagedDevices.OwnershipIsServerIndependent` | src/intune_cmdb_sync/sync.py:170-181 | For a server that lists the fleet, and with the filter lists what its own predicate passes, or rejects it: if that predicate passes what the ownership check keeps, a collection that does not fail is the first `limit` devices the check keeps of the whole fleet, however it is paged |
| `ManagedDevices.FilterIsSafeIff` | src/intune_cmdb_sync/graph.py:316-369 | For a server that lists the fleet, all collections of a readable listing keep the first `limit` devices they should, whatever the limit, iff the filter is not in effect or passes every device of the fleet that the check keeps |
| `ManagedDevices.SpellingIsLost` | src/intune_cmdb_sync/graph.py:366-369 | A filter that compares the owner type as spelled drops a device the check keeps |
| `CmdbReader.Fetch` | src/intune_cmdb_sync/cmdb_report.py:148-188 | Against a fixed result list: its first max_rows rows, truncated iff it has at least that many, in exactly the stated number of requests |
| `DryRunPreview.Preview` | src/intune_cmdb_sync/servicenow/writers/cmdb_instance.py:85-127 | One prediction per item in order, that of a linear scan of all rows fetched; if a lookup fails, every item is unpredicted |
| `DryRunPreview.ReadIndexes` | src/intune_cmdb_sync/servicenow/writers/cmdb_instance.py:129-169 | The two indexes agree with the scan on every key but the blank one, which they never hold |
| `DryRunPreview.UpdateIffFetched` | src/intune_cmdb_sync/servicenow/writers/cmdb_instance.py:115-126 | An update is predicted iff a fetched row carries the item's serial number or name |
| `DryRunPreview.SerialBeforeName` | src/intune_cmdb_sync/servicenow/writers/cmdb_instance.py:111-126 | The record predicted is the first with the item's serial number, and the first with its name only where no record has the serial number |
| `DryRunPreview.FetchedAre` | src/intune_cmdb_sync/servicenow/writers/cmdb_instance.py:136-158 | What is fetched is what the server gives for the classes of the batch that have something to be looked up by |
| `DryRunPreview.QueryAsksForItems` | src/intune_cmdb_sync/servicenow/writers/cmdb_instance.py:140-158 | The query of a class selects exactly the rows whose serial number or name is that of one of its items, trimmed, and holds neither comma nor caret |
| `IdentifyReconcile.ParseResults` | src/intune_cmdb_sync/servicenow/writers/ire.py:170-241 | One result per item under its own id, unless reading raises on a matched item; an item counts as written iff the reply has an error-free item with a known operation at its position; short replies and unknown operations fail that device alone |
| `IdentifyReconcile.ItemIsRead` | src/intune_cmdb_sync/servicenow/writers/ire.py:198-235 | A result is no error iff no entry of the item's errors has a message and its upper-cased operation is one of the seven literal names; INSERT is inserted, NO_CHANGE unchanged, the others updated, under the item's sysId |
| `IdentifyReconcile.Write` | src/intune_cmdb_sync/servicenow/writers/ire.py:133-168 | A batch ends the run iff the request was lost or reading its reply raises, fails as a whole iff it was refused otherwise, and is answered item by item in all other cases |
| `IdentifyReconcile.ItemsAreRead` | src/intune_cmdb_sync/servicenow/writers/ire.py:160-174 | The items are those of `result.items`, where that can be gone through |
| `Mapping.SerialAcceptedIff` | src/intune_cmdb_sync/mapping.py:54-74 | The exact condition on the words of a raw serial number for it to be accepted, and the value it gets |
| `Mapping.SerialIsStable` | src/intune_cmdb_sync/mapping.py:63-74 | Serial numbers with the same words normalise alike, and normalising is idempotent |
| `Mapping.SqueezeSameIffSameWords` | src/intune_cmdb_sync/mapping.py:120-124 | Two texts squeeze alike iff they have the same words |
| `Mapping.MacReadsBack` | src/intune_cmdb_sync/mapping.py:251-259 | A MAC address is accepted iff it has twelve hexadecimal digits, not all zero; it strips back to them upper-cased; normalising is idempotent |
| `Mapping.PairsShape` | src/intune_cmdb_sync/mapping.py:258-259 | Every third character of the result is a colon and the others are the digits in order |
| `Mapping.MacShape` | src/intune_cmdb_sync/mapping.py:251-259 | An accepted address has seventeen characters, colons at every third place, and its hexadecimal digits in order, upper-cased |
| `Mapping.HexAre` | src/intune_cmdb_sync/mapping.py:251-259 | The digits are the hexadecimal characters of the address |
| `Mapping.BuildValues` | src/intune_cmdb_sync/mapping.py:180-221 | A field is present iff the last layer that speaks of it gives it a value, and has that value; dropped fields never are |
| `Mapping.LayersInOrder` | src/intune_cmdb_sync/mapping.py:180-221 | Which layer a field comes from: dropped before overridden before extra before install status, owner, correlation id, references and what the device reports |
| `Mapping.CleanIsWords` | src/intune_cmdb_sync/mapping.py:120-124 | A cleaned name is its words with single blanks between them, or nothing |
| `Text.StripIsMiddle` | src/intune_cmdb_sync/snow_query.py:31 | Trimming takes white space off both ends and touches nothing else |
| `Mapping.SentSerialIsTrustworthy` | src/intune_cmdb_sync/mapping.py:158-161 | A serial number that reaches a payload and is not set by an admin is normalised, long enough, not blocklisted, and has two different characters or is fillers alone |

## Left out

- AbortGuard.PostBound: allows one extra create request per reply that could not be digested, because the bound without it is false; `AbortGuard.BoundHoldsIffNoMalformedReply` gives the exact condition.
- Retirement.DrainBound: leaves out runs that save over a state they could not load, because the bound is false of them; `Retirement.DrainsIff` gives the exact condition.
- SyncRun.Run: accounting is about runs that return; an exception other than `ServiceNowError` ends the run in the code, and here it ends the run with the report as it stands. Collecting, enriching and priming, between loading the state and the first write, are modelled apart: here they can only end the run. A run without a configured state path loads and saves nothing and is not degraded for it; here there is a path, and a run that means to save and does not is degraded.
- EncodedQuery.CombineConjoins: `NQ`, `OR` and `ORDERBY` are read as operators; other operators and markers, such as `EQ` or `GROUPBY`, are opaque conditions.
- UserResolver.BatchIsAlone: assumes that lookups are neither truncated nor case-sensitive, and that the user stands in order; `UserResolver.EveryAssignmentIsSound` assumes nothing.
- UserResolver.OriginalsAreOwn: match keys the configuration does not know, and `entra_id` without a configured field, are not part of this model; `user_active_only` is the visible part of the table.
- ManagedDevices.CollectDevices: a server answers the same request alike throughout one collection, and a listing that never ends is followed only where the limit ends it. Resends of a GET are not counted here.
- BatchGet.GraphClient.Get: assumes that the server answers each sub-request at most once.
- ReferenceResolver.OrderDoesNotMatter: assumes that whether the server grants a company's creation depends on its folded name alone.
- DryRunPreview.QueryAsksForItems: IN lists are printed in order of first appearance, where the code sorts them; the rows selected are the same.
- Rows of Table API lookups, CMDB pages and the devices of a listing are records already; an answer of another shape ends a run in the code, and here is one of the points at which a run can die.
- Lower-casing is a parameter. Nothing is assumed of it in most results; some use that only the empty string lowers to the empty string.
- Alias maps are taken as already folded, the dictionary the resolver builds in its constructor.
- The row limits of Table API lookups: only the completeness results above need them not to bite.
- Floating point: pauses are reals and the retirement fraction is the rational p/q.
- Values of CMDB fields are text already rendered; unit conversion, `stringify_attributes` and timestamps are not part of this model.
- The worker pool and the lock are interleaved atomic steps. The preview, the guard and the report are not told apart by thread.
- The S3 state store, and the JSON form of the state: the state is an abstract cell that may be unreadable and whose save may fail.
- Tokens, credentials, HTTP transport, secrets, configuration checks, the command line, logging, warnings and message texts. A message is kept only as the fact that there is one.
- Enrichment of devices and users, hardware detail and custom attributes: they change field values and nothing proved here depends on which.
- The CMDB report's findings and the endpoint probe's verdicts: tables in which one branch settles each case.
