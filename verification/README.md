# A verified model of the gateway's stateful cores

The repository is a multi-tenant AI API gateway. This project models the parts of it whose
correctness depends on schedules, histories or on several functions agreeing, and proves what those
parts are for:

* the single-flight TTL cache of routing policies (`RoutingPolicyProtocol`, `RoutingPolicySource`);
* the transactions that many gateway replicas run against one database: key issuance
  (`KeyIssuance`, `KeyIssuer`), accounts entering channels (`ChannelEntry`, `BulkStore`, `MoveAlone`) and the
  synchronisation of account models (`ModelSync`);
* the store of quota facts (`QuotaFacts`, `QuotaConvergence`);
* the bulk endpoint with its worker pool (`BulkExecutor`, `WorkerPool`);
* the encrypted account bundle (`Bundle`, `BundleEnvelope`, `BundleExport`, `BundleImport`);
* the catalogue of models, the bucket registry of the rate limiter, the key documents of the
  verifier and the scanner of the tool listing (`ModelCatalogue`, `BucketRegistry`,
  `KeyDocuments`, `ToolSurface`).

Concurrency is modelled as a state machine. A critical section under a mutex, a statement of a
transaction, a channel operation is one step; a run is any list of enabled steps, of any number of
goroutines or replicas, and the theorems are about every run. `Exec` is the state a list of events
leads to, or nothing when some step was not enabled. Where the source works on fields, rows or
slices in place, there is also a class whose methods are tied to the steps of that machine or to a
function of the old state.

Assumptions, all of them visible as parameters or hypotheses:

* PostgreSQL's `now()` is the start of the transaction; advisory locks and row locks are held to the
  end of it; a statement sees committed rows and those of its own transaction.
* JSON, SHA-256, Argon2id and GCM are parameters. JSON decoding is assumed to undo JSON encoding, a
  digest to have 32 bytes, and GCM (NIST SP 800-38D, section 7) to decrypt exactly the ciphertexts
  that encryption under the same key produces. No hash is assumed to be injective except where a
  theorem names that as a hypothesis.
* In the worker pool a refresh that ends before the batch is cancelled gives what its account id alone
  decides. In the source the refreshes of a batch share an admission budget, and each has a time limit
  of its own.
* Go strings are sequences of code points; their byte order is the order of the code points.

What turned out not to hold is stated with an input that shows it and with the exact condition under
which it does hold:

* the dry run of a move batch can announce a move that the real batch then refuses
  (`BulkStore.MovePreviewCanMislead`, `BulkStore.MoveBatchPreview`);
* a credential in its time of grace may no longer be usable when a model sync commits
  (`ModelSync.GraceMayEndBeforeTheCommit`, `ModelSync.UsableSinceTheStart`);
* a late partial snapshot brings back a fact a complete one has removed
  (`QuotaConvergence.OrderMatters`, `QuotaConvergence.LatePartialsDoNotCommute`);
* a goroutine that joined a load fails when the request of its leader is cancelled, although its own
  goes on (`RoutingPolicyProtocol.CutOffReachesWaiters`, `RoutingPolicyProtocol.Transparency`);
* a refresh that is running when its batch is cancelled can fail with the error of the ended context, so
  that its item is neither what the refresh gives alone nor marked cancelled (`WorkerPool.CutShort`,
  `WorkerPool.CancelledItems`);
* the failure of one source of an account can be lost to the failure and recovery of another
  (`QuotaConvergence.OneClearsBoth`, `QuotaConvergence.SharedProbeRow`);
* the verifier accepts a key its document lists as revoked, when the record the report looks at is
  another one or is missing, or the revocation is in a form it overlooks
  (`KeyDocuments.UnnamedKeyIsAccepted`, `KeyDocuments.ListedTwiceIsAccepted`,
  `KeyDocuments.MisspeltIsAccepted`, `KeyDocuments.UnprintedIsAccepted`,
  `KeyDocuments.NestedIsAccepted`, `KeyDocuments.AcceptedThoughRevoked`).

## Model

| member | source | states |
|---|---|---|
| RoutingPolicyProtocol.SingleFlight | backend/cmd/gateway/routing_policy_source.go:129-199 | In every schedule a key is in flight exactly while one goroutine loads it; that one holds the registered call; a call is closed once, when it has an outcome; nobody waits on a call that is neither registered nor closed; the leader and every released waiter of a call have the one outcome of that call. |
| RoutingPolicyProtocol.WaitersCanBeReleased | backend/cmd/gateway/routing_policy_source.go:142-151 | From any reachable state at most three steps, whatever the leader reads, release a waiter with an outcome of the call it waited on. |
| RoutingPolicyProtocol.LoadsAreSpaced | backend/cmd/gateway/routing_policy_source.go:131-137 | Of two successful loads of one key the later starts at least one TTL after the earlier finished. |
| RoutingPolicyProtocol.LoadsSpan | backend/cmd/gateway/routing_policy_source.go:181-192 | n successful loads of a key span at least n-1 TTLs. |
| RoutingPolicyProtocol.HitsAreFresh | backend/cmd/gateway/routing_policy_source.go:135-138 | A cache hit hands out the result of a published load that finished less than one TTL before. |
| RoutingPolicyProtocol.CacheIsLastGoodLoad | backend/cmd/gateway/routing_policy_source.go:186-192 | After any run the cache holds for each key the last load that succeeded; a failed load leaves it alone. |
| RoutingPolicyProtocol.Transparency | backend/cmd/gateway/routing_policy_source.go:129-199 | While the database does not change, a goroutine that did not give up waiting gets what a lookup without any cache gives for its key if and only if the load behind its answer was not cut off by the end of its leader's request, or the lookup fails with that very error; after a cut-off load it gets the leader's error. |
| RoutingPolicyProtocol.CutOffReachesWaiters | backend/cmd/gateway/routing_policy_source.go:142-196 | For every key whose lookup would succeed there is a run in which a goroutine that nobody cancelled gets the error of its leader's cancelled request. |
| RoutingPolicyProtocol.CutOnlyByCutOff | backend/cmd/gateway/routing_policy_source.go:156-172 | A run in which no leader's request ends during its load has no load that was cut off. |
| RoutingPolicyProtocol.ReachableIsTrue | backend/cmd/gateway/routing_policy_source.go:129-199 | In every schedule registered calls are open and of their key, and while the database does not change every cached entry is what a direct lookup gives: what RoutingPolicySource.Serve supposes. |
| RoutingPolicySource.Source.Enter | backend/cmd/gateway/routing_policy_source.go:130-154 | The first critical section, on the maps and call objects of the heap, is the corresponding step of the protocol and decides as the protocol does. |
| RoutingPolicySource.Source.Load | backend/cmd/gateway/routing_policy_source.go:156-184 | The unlocked reads give exactly the outcome of a direct lookup, with the account list in an array of its own and the expiry one TTL after the load ended. |
| RoutingPolicySource.Source.Publish | backend/cmd/gateway/routing_policy_source.go:186-198 | The second critical section is the settling step of the protocol: store on success, hand over, delete, close. |
| RoutingPolicySource.Source.Begin | backend/cmd/gateway/routing_policy_source.go:97-121 | The bare policy depends on the selection mode of the request only, and is the answer exactly when queries, tenant or group are missing; a hit is the cached entry of this very tenant, group and model, still valid. |
| RoutingPolicySource.Source.Await | backend/cmd/gateway/routing_policy_source.go:142-151 | What a released waiter reads from the call is the outcome the protocol has for that call. |
| RoutingPolicySource.Source.Deliver | backend/cmd/gateway/routing_policy_source.go:118-127 | An error gives no policy; otherwise the policy is the bare one with the entry's configuration, in new arrays only, so that it shares none with the source or with a load still to be published. |
| RoutingPolicySource.Serve | backend/cmd/gateway/routing_policy_source.go:97-226 | From start to end, over any true cache, a request as hit, leader or waiter gets a policy with the mode of the request, the waits of its pool, and for a named model the accounts of the one route there is, under that model; with two routes, a failing route or a failing pool it gets none. Its arrays are its own and the cache stays true. |
| RoutingPolicySource.DeliverWhilePending | backend/cmd/gateway/routing_policy_source.go:186-226 | A policy handed out while another load is finished but not yet published stays apart from the source after that publication, too. |
| RoutingPolicySource.ApplyFallback | backend/cmd/gateway/routing_policy_source.go:215-226 | Fills the waits, and the account list only for a named model with accounts, in a fresh array. |
| RoutingPolicySource.Source.TamperWithAnswer | backend/cmd/gateway/routing_policy_source.go:221-225 | A write into the account list of a policy that was handed out leaves every cached and every pending answer as it was. |
| KeyIssuance.IssuanceQuota | backend/internal/admin/issuer.go:163-258 | Over any number of replicas, any set of issuances of one actor committed by the run whose time stamps lie less than one window apart has at most the permitted number of members. |
| KeyIssuance.OneAuditRowPerKey | backend/internal/admin/issuer.go:189-236 | Committed keys and issuance rows correspond one to one, in the same order and with the same prefix. |
| KeyIssuance.PlaintextAfterCommit | backend/internal/admin/issuer.go:238-258 | A call returns a plaintext only after its key is committed, and the stored digest is of that plaintext; a call still running or refused for another reason than a database failure has committed nothing; no call commits twice. |
| KeyIssuance.OnlyHeadsAreKept | backend/internal/admin/keygen.go:69-73 | In every run key rows, issuance rows and replies carry the first sixteen characters of the bearer, or all of a shorter one, so that no committed row has a longer bearer; other rows carry nothing of it. |
| KeyIssuance.KeysWereAdmitted | backend/internal/admin/issuer.go:95-135 | Every committed key goes back to an admission of its own call that passed the permission check, for an active target and with a well-formed request, and has its tenant, user and bearer. |
| KeyIssuance.TurnedAwayByCount | backend/internal/admin/issuer.go:174-207 | A call is turned away for the rate under its lock exactly when what it counted there fills the window; only with room left does it go on to insert, or find its target gone. |
| KeyIssuance.SomebodyGoesOn | backend/internal/admin/issuer.go:163-258 | In every run a call that has not ended can take its next step, or waits for the lock of its actor, whose holder can. |
| KeyIssuance.CountCommit | backend/internal/admin/issuer.go:174-188 | While a call holds its actor's lock nobody else can add to the window it has counted. |
| KeyIssuer.Issuer.Issue | backend/internal/admin/issuer.go:91-259 | The code run alone is one schedule of the machine. A key is issued exactly for a well-formed request with permission, an active target and room in the window, when no statement fails; the reply, the key row and the audit row carry the bearer's first sixteen characters, and the row belongs to the tenant and user asked for. |
| KeyIssuer.Issuer.CountInWindow | backend/sql/queries/admin_audit.sql:26-45 | Counts the issuances with a target of the actor or its legacy key later than the instant minus the window; refusals do not count. |
| ChannelEntry.EveryMemberWasSeen | backend/internal/accountbulkhttp/store_postgres.go:138-229 | At the commit of every move and every creation, confirmed or not, each other member of the channel is one the risk check has seen; the update of a move never misses its row. |
| ChannelEntry.MixingNeedsConfirmation | backend/internal/accountbulkhttp/store_postgres.go:183-192 | If no account changes its nature, two members of a channel that differ were both there before the run or the later one was let in with a confirmation. |
| ChannelEntry.NoDeadlock | backend/internal/accountbulkhttp/store_postgres.go:145-168 | Account row first, channel lock second: no cycle of waiting transactions in any schedule of moves and creations. |
| ChannelEntry.SomebodyCanStep | backend/internal/gatewayhttp/accountcreate/atomic.go:91-130 | While a transaction is running some transaction can go on. |
| MoveAlone.MoveIsASchedule | backend/internal/accountbulkhttp/store_postgres.go:138-229 | A move run alone is one schedule of ChannelEntry that ends as the code answers, with the accounts the code leaves and nothing locked. |
| MoveAlone.CreationIsASchedule | backend/internal/gatewayhttp/accountcreate/atomic.go:91-130 | A creation run alone needs a confirmation exactly if it differs from some member of its channel, and otherwise, or confirmed, leaves the account in its channel with its nature. |
| MixedRisk.Evaluate | backend/internal/mixedchannelrisk/risk.go:35-116 | The risk is high exactly when a peer other than the candidate, not known to be in another channel, has another provider id (ids that are not positive being one), another vendor or another credential type after trimming and lower case, the type being the authentication mode or, if that is blank, the account type. Every difference is reported once, under its dimension and the id of the peer, with the value of the peer and then that of the candidate. |
| BulkStore.Store.ApplyFieldUpdate | backend/internal/accountbulkhttp/store_postgres.go:76-133 | The row and the audit rows afterwards, and the answer, for a missing account, nothing to do, a dry run and a write; field by field, each requested value is in its own field and the others are what they were. |
| BulkStore.Store.MoveChannel | backend/internal/accountbulkhttp/store_postgres.go:138-229 | The same for a move, with the missing channel and the missing confirmation; the confirmation is missing exactly when some other account of the target differs from the moved one in provider, vendor or credential type, by their own fields. |
| BulkStore.Store.ListRiskPeers | backend/internal/accountbulkhttp/store_postgres.go:169-182 | The peers read are exactly the accounts of the tenant in that channel, each with its own profile. |
| BulkStore.FieldPreviewIsFaithful | backend/internal/accountbulkhttp/store_postgres.go:91-127 | From one state a dry field update changes nothing, announces the real status and code, and shows the very values the real update writes. |
| BulkStore.MovePreviewIsFaithful | backend/internal/accountbulkhttp/store_postgres.go:183-223 | The same for one move; a missing confirmation is announced as a rejection. |
| BulkStore.FieldBatchPreviewIsFaithful | backend/internal/accountbulkhttp/handler.go:226-240 | The dry run of a whole set_* batch over distinct accounts foretells status, code and final field values of every item of the real batch. |
| BulkStore.ReplayWritesNothing | backend/internal/accountbulkhttp/store_postgres.go:91-96 | A finished set_* batch sent again changes no row and writes no item audit; every item is skipped or still missing. |
| BulkStore.UpdateAllSettles | backend/internal/accountbulkhttp/store_postgres.go:104-127 | After a real set_* batch every account named and visible has its row with just the requested fields changed, every other account and every channel is what it was, and nothing is left to write for the accounts named. |
| BulkStore.MoveBatchPreview | backend/internal/accountbulkhttp/store_postgres.go:153-198 | The dry run of a move batch announces every real status if and only if the batch is confirmed or all its movable accounts, those that are visible, elsewhere, with an existing target and no differing member in it, are of one kind. |
| BulkStore.MovableIsAnnounced | backend/internal/accountbulkhttp/store_postgres.go:193-204 | The movable accounts are exactly those a dry move says it would move. |
| BulkStore.MovePreviewCanMislead | backend/internal/accountbulkhttp/store_postgres.go:193-198 | Two accounts of different vendors and an empty target: both announced as applicable, one refused. |
| BulkExecutor.DeduplicateIDs | backend/internal/accountbulkhttp/handler.go:155-167 | Fails exactly on an id that is not positive; otherwise keeps each id once, in the order of first occurrence. |
| BulkExecutor.ValidateRequest | backend/internal/accountbulkhttp/handler.go:151-213 | Accepts exactly the requests with positive ids, the argument of their action, distinct ids within the limit, a reason where accounts are disabled, cleared or recovered, and no more than 512 bytes of it; kept ids and duplicates add up to the ids sent. |
| Utf8.EncodesWell | backend/internal/accountbulkhttp/handler.go:197-199 | The bytes counted are those of UTF-8: every character is one of the sequences of section 4 of RFC 3629 and stands for itself. |
| BulkExecutor.Aggregate | backend/internal/accountbulkhttp/handler.go:394-420 | Every item is in exactly one counter; the two id lists are the sorted ids of their statuses; partial success means some good and some bad. |
| BulkExecutor.Answer | backend/internal/accountbulkhttp/handler.go:226-240 | Counters and removed duplicates add up to the length of the request; the id lists are strictly sorted, disjoint and complete. |
| WorkerPool.EachIndexOnce | backend/internal/accountbulkhttp/handler.go:243-271 | In every interleaving each index is received once, each slot written at most once and under its own id, no index handled by two workers, and no more than min(workers, jobs) workers exist. |
| WorkerPool.FinishedIsComplete | backend/internal/accountbulkhttp/handler.go:256-271 | When the pool is done every slot holds the result of its own id. |
| WorkerPool.PoolTerminates | backend/internal/accountbulkhttp/handler.go:243-271 | No schedule is longer than three steps a job, one a worker and two more; until the pool is done some step besides a cancellation is possible. |
| WorkerPool.SameAsSequential | backend/internal/accountbulkhttp/handler.go:226-271 | Without a cancellation the array is what the sequential loop computes, whatever the interleaving; with one a slot differs only if it is marked cancelled or its refresh was running at the moment of the cancellation. |
| WorkerPool.CancelledItems | backend/internal/accountbulkhttp/handler.go:257-261 | Item by item, what a cancelled batch ends with: as in the sequential loop if written before the cancellation, whatever its refresh answered if that was running, and cancelled otherwise. |
| WorkerPool.FewInFlight | backend/internal/accountbulkhttp/handler.go:243-263 | At any moment, and so at the cancellation, no more refreshes are running than there are workers. |
| WorkerPool.CutShort | backend/internal/accountbulkhttp/handler.go:356-362 | A run with one worker and two accounts in which the batch ends during the first refresh: the first item has the error of the ended context, the second is cancelled. |
| WorkerPool.CancelStopsRefreshes | backend/internal/accountbulkhttp/handler.go:257-261 | Once the batch is cancelled no further refresh is started. |
| WorkerPool.RunSequentially | backend/internal/accountbulkhttp/handler.go:231-237 | The sequential loop gives every item its outcome in its place until the context has ended, and marks all items from there on as cancelled. |
| QuotaFacts.Validate | backend/internal/accountquota/types.go:59-128 | Accepts exactly the snapshots whose header and facts are valid and whose facts have different dimensions; a fact is valid if its state allows its error class and its values and every value is in its range. |
| QuotaFacts.ValidKeysDiffer | backend/internal/accountquota/types.go:77-87 | No two facts of a valid snapshot go to the same row. |
| QuotaFacts.DimensionsAre | backend/internal/accountquota/types.go:82-86 | Two facts have one dimension exactly when their trimmed metric and model keys are the same, as long as the metrics have no NUL. |
| QuotaFacts.Store.ReplaceSnapshot | backend/internal/accountquota/postgres.go:57-123 | After a valid snapshot every fact has, under its trimmed keys, a row with its own state, values, trimmed unit and error class and the snapshot's vendor, time and source, unless a newer row is there; every other row is what it was, but those a complete snapshot of their source supersedes. An invalid snapshot changes nothing. |
| QuotaFacts.Store.RecordFailure | backend/internal/accountquota/postgres.go:20-46 | Under the same guard the probe row has the error state, the trimmed class, the vendor, time and source of the snapshot and the measured values it had; nothing else changes. A failure is recorded exactly if header and class are valid. |
| QuotaFacts.ReplaceAt | backend/internal/accountquota/postgres.go:70-121 | What a snapshot does to one key: the newer of the stored and the brought row, gone if a complete snapshot of its source is newer. |
| QuotaFacts.FactOrderIsIrrelevant | backend/internal/accountquota/postgres.go:70-108 | The order of the facts inside a valid snapshot does not matter. |
| QuotaConvergence.NewestWins | backend/internal/accountquota/postgres.go:70-108 | After any partial snapshots each key holds the newest row brought for it, and only keys that were brought are there. |
| QuotaConvergence.PartialsConverge | backend/internal/accountquota/postgres.go:70-108 | Valid partial snapshots without ties give one table, in whatever order, however often repeated, and with their facts in whatever order. |
| QuotaConvergence.PartialsCommute | backend/internal/accountquota/postgres.go:98-98 | Two partial snapshots commute on every table if and only if they do not bring different rows for one key at one instant. |
| QuotaConvergence.LatePartialsDoNotCommute | backend/internal/accountquota/postgres.go:109-121 | A complete and a partial snapshot of one source commute if and only if they do not tie and the partial one is not older or brings nothing new. |
| QuotaConvergence.LateComesBack | backend/internal/accountquota/postgres.go:109-121 | Any row that only an older partial snapshot brings is there after the wrong order and gone after the right one. |
| QuotaConvergence.OrderMatters | backend/internal/accountquota/postgres.go:98-121 | Two valid snapshots of one source, written out, whose order decides whether a row is there. |
| QuotaConvergence.NeverGoesBack | backend/internal/accountquota/postgres.go:98-98 | Over any run of snapshots and failures a key that stays present never moves back in time. |
| QuotaConvergence.RowsAreCarriedForward | backend/internal/accountquota/postgres.go:57-123 | For a source that observes in order and whose keys nobody else writes, its rows are always its last complete snapshot extended and overridden by the later partial snapshots and failure records. |
| QuotaConvergence.FailureIsCleared | backend/internal/accountquota/postgres.go:20-46 | A recorded failure is gone after the next complete snapshot that does not carry it. |
| QuotaConvergence.RowIsStanding | backend/internal/accountquota/postgres.go:20-121 | Whatever sources write a key and in whatever order, its row is, but for kept values, that of an operation that nothing after it displaced: neither a write of the same or a later time nor a newer complete snapshot of its source. |
| QuotaConvergence.StandingIsStored | backend/internal/accountquota/postgres.go:20-121 | If the writes of a key come in the order of their times, a write that nothing displaced is what is stored. |
| QuotaConvergence.SharedProbeRow | backend/internal/accountquota/postgres.go:20-46 | The probe row that all sources of an account share is that of the failure recorded last, if and only if no newer complete snapshot of that very source came after it; failures being recorded in order. |
| QuotaConvergence.OneClearsBoth | backend/internal/accountquota/postgres.go:24-41 | The failure of one source is lost when another source fails after it and then recovers, although alone it would still be there. |
| ModelCatalogue.CleanStrings | backend/internal/accountmodeldiscovery/service.go:247-263 | The loop over the values gives their canonical list. |
| ModelCatalogue.CleanIsClean | backend/internal/accountmodeldiscovery/store.go:128-144 | The canonical list is strictly sorted and has exactly the trimmed values that are not blank. |
| ModelCatalogue.CleanIsUnique | backend/internal/accountmodeldiscovery/store.go:128-144 | There is only one such list. |
| ModelCatalogue.CleanTwice | backend/internal/accountmodeldiscovery/service.go:247-263 | Cleaning a canonical list changes nothing. |
| ModelCatalogue.NormalizeModels | backend/internal/accountmodeldiscovery/service.go:224-245 | The result is strictly sorted by id and has for every id that is not blank the first model that carries it, tidied. |
| ModelCatalogue.TidyIs | backend/internal/accountmodeldiscovery/service.go:226-234 | What is kept of a model: its trimmed name or, if that is blank, its id, its canonical capabilities, and its family and window as they came. |
| ModelCatalogue.CatalogueIsUnique | backend/internal/accountmodeldiscovery/service.go:239-243 | There is only one such list, so the order in which the map is walked does not matter. |
| ModelCatalogue.CatalogueTwice | backend/internal/accountmodeldiscovery/service.go:224-245 | Normalising a catalogue changes nothing. |
| ModelCatalogue.CatalogueIDs | backend/internal/accountmodeldiscovery/types.go:108-114 | The ids of a catalogue are the canonical list of the ids upstream sent. |
| ModelCatalogue.Discover | backend/internal/accountmodeldiscovery/service.go:67-148 | The page loop ends with the verdict of its upstream after at most sixteen requests; a failed request is told by its status: 401 and 403 as a rejected credential, 429 as a limit, two hundreds that cannot be read as an invalid response, anything else as the upstream's; too much or too long is told as too large, and nothing named as empty. |
| ModelCatalogue.OneVerdict | backend/internal/accountmodeldiscovery/service.go:67-94 | An upstream has one verdict, success or kind of error, reached after the same pages. |
| ModelCatalogue.WholeCatalogueOrNone | backend/internal/accountmodeldiscovery/service.go:67-94 | Discovery succeeds if and only if a chain of pages within the limits ends and names a model, and then carries every id of all its pages. |
| ModelSync.CommittedWithTheDiscoveredVersion | backend/internal/accountmodeldiscovery/store.go:31-117 | A committed list is what the committing call discovered, and the credential had the discovered version at every moment from its resolution through the commit, whatever rotations were tried. |
| ModelSync.UsableSinceTheStart | backend/internal/accountmodeldiscovery/store.go:48-64 | At the commit the credential is usable as of the start of the transaction: active or refreshing with grace, of the discovered version and not deleted. It is usable at that moment, too, if and only if it is active, has no deadline or has one that is still to come. |
| ModelSync.RotationRefuses | backend/internal/accountmodeldiscovery/store.go:48-64 | A rotation to a newer version between the discovery and the pin of a sync has it refused, whatever else happens, and leaves list and audit alone. |
| ModelSync.SomebodyGoesOn | backend/internal/accountmodeldiscovery/store.go:31-117 | A sync that has not ended can go on, or waits for the account, and then the sync that holds it can go on. |
| ModelSync.GraceMayEndBeforeTheCommit | backend/internal/accountmodeldiscovery/store.go:57-58 | A run in which the grace ends between the check and the commit. |
| ModelSync.SecondSyncIsUnchanged | backend/internal/accountmodeldiscovery/store.go:66-71 | A sync with the catalogue of an earlier one reports no change and leaves the list alone, if nobody edited the list between. |
| ModelSync.CommitSettles | backend/internal/accountmodeldiscovery/store.go:66-83 | After a commit the normalised stored list is the discovered ids. |
| ModelSync.CommitIsAudited | backend/internal/accountmodeldiscovery/store.go:65-104 | A commit writes one audit row, with the credential, the ids, the number of ids before and whether the normalised list changed; an unchanged list is not rewritten. |
| ModelSync.OnlyCommitsAudit | backend/internal/accountmodeldiscovery/store.go:37-117 | No other step writes an audit row. |
| ModelSync.Database.Sync | backend/internal/accountmodeldiscovery/store.go:17-126 | The code run alone is one schedule of the machine, with the reply its failures determine; it writes one audit row exactly when it commits. |
| ModelSync.EqualStrings | backend/internal/accountmodeldiscovery/store.go:146-156 | Decides equality of two lists. |
| BundleEnvelope.HexRoundTrip | backend/internal/accountbundle/crypto.go:73-78 | Decoding undoes the hexadecimal encoding. |
| BundleEnvelope.SealedOpens | backend/internal/accountbundle/crypto.go:32-125 | Whatever is sealed passes validation, the size bound leaving room for the tag, and opens with the same password to the content that was sealed. |
| BundleEnvelope.OtherPassword | backend/internal/accountbundle/crypto.go:104-107 | With another password opening fails as a wrong password if and only if no plaintext encrypts to this ciphertext under the other key. |
| BundleEnvelope.OpenedWasSealed | backend/internal/accountbundle/crypto.go:81-125 | Content is handed out only if it lies encrypted under this password in this ciphertext. |
| BundleEnvelope.TamperedCiphertext | backend/internal/accountbundle/crypto.go:88-107 | A ciphertext with another digest is an integrity error; with the digest adapted it is a wrong password unless it is an encryption under the same key. |
| BundleEnvelope.RejectedAs | backend/internal/accountbundle/crypto.go:81-147 | What opening rejects and as what: any other header, size or digest text as an integrity error, a password of another length as invalid input, what the key does not open as a wrong password; and what opening with success presupposes. |
| BundleEnvelope.SealsOrWhy | backend/internal/accountbundle/crypto.go:32-79 | Sealing succeeds exactly for a password of 12 to 1024 bytes, content within eight MiB and a random source that answers, and otherwise fails as invalid input or for the random source. |
| BundleEnvelope.HexText | backend/internal/accountbundle/crypto.go:143-146 | A text decodes exactly if it has an even number of hexadecimal digits, in either case. |
| BundleExport.NormalizeAccountIDs | backend/internal/accountbundle/service.go:70-82 | Succeeds exactly for one to five hundred positive ids without repetition, and gives them in strictly increasing order. |
| BundleExport.PickCredential | backend/internal/accountbundle/service.go:212-231 | The credential chosen is the one that may be carried over, if there is one and no other; none and several are told apart. |
| BundleExport.ReadSnapshot | backend/internal/accountbundle/service.go:161-241 | An account is free of conflicts exactly when it exists, has one credential to carry over and its proxy is found. |
| BundleExport.ReadSnapshots | backend/internal/accountbundle/service.go:161-180 | One snapshot for each requested id, in the order of the ids. |
| BundleExport.BuildExportPlan | backend/internal/accountbundle/export.go:29-61 | Each account has its item, ready exactly without a conflict and else with its code; ready and conflicting items add up to all accounts, and nothing conflicts exactly when all accounts are ready. |
| BundleExport.CollectContent | backend/internal/accountbundle/export.go:104-119 | The content has each account in its place and each proxy name once, with the proxy of the first account that has it. |
| BundleExport.ExecuteExport | backend/internal/accountbundle/export.go:64-133 | A success seals exactly the requested accounts, all ready and under the planned hash, for a named operator of the tenant; an operator of another scope, and only such, is forbidden; each error has one of the causes listed for it. |
| BundleExport.ExportsOrWhy | backend/internal/accountbundle/export.go:135-175 | An account is exported exactly if its credential loads and the secret of its proxy can be read, with its own settings, source, name and proxy; a changed version and a failure are told apart. |
| BundleImport.PrepareImport | backend/internal/accountbundle/import.go:32-88 | The first check that fails decides the error; otherwise every account has its item, repeated and blank refs are conflicts, the four counters are those of their statuses and add up to the accounts, and the maps hold the last account of each ref and the only proxy. |
| BundleImport.ExportImports | backend/internal/accountbundle/import.go:43-75 | With names that do not collide, an exported bundle opens and is prepared without an error, no account is turned down for its ref, and each arrives with its settings, its source, the credential loaded for it and its own proxy with the decoded secret. |
| BundleImport.MissingConfirmations | backend/internal/accountbundle/import.go:409-422 | Nothing is missing exactly when every required confirmation is among the trimmed ones given; what is missing is required and not given. |
| BundleImport.ExecuteImport | backend/internal/accountbundle/import.go:188-310 | Errors come in the order of the checks; otherwise each entry has its result: completed exactly if a call was made for it in which nobody conflicted or failed, failed if the call failed or somebody failed in it, else a conflict, with the code that says why. `completed` is the number of the calls so answered. |
| BundleImport.ExecutesExactlyThePermitted | backend/internal/accountbundle/import.go:209-232 | The intake service is called for exactly the entries not named before whose account is ready, under the hash the caller saw and fully confirmed, each once and in order, with the account that stands once in the bundle under that ref. |
| BundleImport.AtMostOnce | backend/internal/accountbundle/import.go:209-215 | No account ref is executed twice. |
| BundleImport.DuplicatesAreNeverExecuted | backend/internal/accountbundle/import.go:63-75 | An entry for a ref that occurs more than once in the bundle is never executed. |
| BundleImport.NothingIsSkipped | backend/internal/accountbundle/import.go:232-243 | No executed item is counted as skipped: Completed, Conflict and Failed alone add up to the entries. |
| BundleImport.ReadyIsExecutable | backend/internal/accountbundle/import.go:90-186 | An account is ready if and only if executing it would reach the intake service, that plans exactly one credential for it, and either its name is free or the account to update fits; an update asks for the confirmation of the replaced settings. |
| BundleImport.PlannedAs | backend/internal/accountbundle/import.go:90-186 | Every way the plan of one account can end: what hinders it, how the intake service's plan for one credential shows, and which confirmations are asked for. |
| BundleImport.CandidateIs | backend/internal/accountbundle/import.go:97-131 | When an account can be handed over, and with which destination and proxy: those of its own source and reference. |
| BundleImport.ReplacesOnlyConfirmed | backend/internal/accountbundle/import.go:278-296 | A call that replaces the settings of an existing account was confirmed by its entry, and the confirmation is not passed on. |
| BundleImport.ExecutesWhatWasPlanned | backend/internal/accountbundle/import.go:216-231 | The hash an entry is executed under is the hash of the plan made for the very candidate that is executed. |
| BundleImport.ReadyMeansOnly | backend/internal/accountbundle/import.go:200-203 | A ready item stands for the only account with its ref, and that is the account in the map. |
| BucketRegistry.Registry.BucketFor | backend/cmd/gateway/rate_limit.go:88-106 | The object returned and the map afterwards are those of the step function: the stored bucket, or a fresh one in the map, emptied first when full. |
| BucketRegistry.SizeAndResets | backend/cmd/gateway/rate_limit.go:95-104 | After m misses there are exactly ((m-1) mod max)+1 buckets and there have been (m-1)/max resets. |
| BucketRegistry.FullBucketsPerKey | backend/cmd/gateway/rate_limit.go:98-105 | A key was given at most (m-1)/max+1 full buckets. |
| BucketRegistry.SharedBetweenResets | backend/cmd/gateway/rate_limit.go:91-106 | Two requests with one key have the same bucket if and only if the registry was not reset between them. |
| BucketRegistry.MadeIsTheMisses | backend/cmd/gateway/rate_limit.go:103-104 | The buckets made are the requests that found none. |
| BucketRegistry.BuildTiers | backend/cmd/gateway/rate_limit.go:214-252 | Every path leads to the registry of the last class in force that lists it; each class in force has a registry of its own, in the media table those with a positive rate. |
| KeyDocuments.CollectRecords | backend/cmd/huakai-verify/main.go:291-307 | The loop gives the records of the document in depth-first order. |
| KeyDocuments.RevokedFingerprints | backend/cmd/huakai-verify/main.go:309-317 | Exactly the fingerprints, not blank, that the document itself lists as revoked. |
| KeyDocuments.SelectRecord | backend/cmd/huakai-verify/main.go:265-289 | The record selected for a fingerprint, with the fallbacks to the current key and to a single record. |
| KeyDocuments.Selects | backend/cmd/huakai-verify/main.go:265-289 | Without a wanted fingerprint the one named as current is selected, else the only record if it has a name; a wanted one that is missing gives the only record. |
| KeyDocuments.FieldsOf | backend/cmd/huakai-verify/main.go:517-542 | Fingerprint, material and status are the first of their fields that say anything. |
| KeyDocuments.MaterialIsFirstUsable | backend/cmd/huakai-verify/main.go:503-515 | The material found in the tree is that of the first flattened record with the wanted fingerprint or with none. |
| KeyDocuments.TraversalsAgree | backend/cmd/huakai-verify/main.go:477-515 | If all keys have fingerprints, material for a wanted one is found if and only if it is among the records, and it is that of the record selected. |
| KeyDocuments.SelectedIsFirstUsable | backend/cmd/huakai-verify/main.go:265-289 | The record whose revocation is reported is the one whose material is used if and only if that one has a fingerprint or is the only one. |
| KeyDocuments.ReportIsOfTheNamed | backend/cmd/huakai-verify/main.go:265-317 | A revocation is reported exactly when the first record with the wanted fingerprint is revoked or that fingerprint listed; without such a record, when there is one record only and that is marked. |
| KeyDocuments.AcceptedIs | backend/cmd/huakai-verify/main.go:62-87 | The accepted key is that of the first record without a fingerprint or with the wanted one; it decodes, its computed fingerprint is the wanted one and it proves the entry, and no revocation is reported. |
| KeyDocuments.AcceptedThoughRevoked | backend/cmd/huakai-verify/main.go:68-87 | Let a reader find a key revoked when any list, also of a nested document, has its fingerprint or its material, when a record of it says so in whatever spelling, or when a record of it is marked. Such a key, decoded, with the right fingerprint and proof, is accepted if and only if the gateway does not call it revoked and its revocation escapes the report: its first record under the wanted fingerprint is clean while another is marked or the revocation is in a form the report overlooks, or no record has that fingerprint and, if there is one record only, that one does not say it is revoked. |
| KeyDocuments.WellKeptIsSafe | backend/cmd/huakai-verify/main.go:451-486 | If all records of the key carry its fingerprint and agree on the status, and its revocation, if any, is spelt "revoked" or in the top list with its fingerprint, an accepted key is not one a reader finds revoked. |
| KeyDocuments.UnnamedKeyIsAccepted | backend/cmd/huakai-verify/main.go:503-515 | Whatever valid key: a document that has it without a fingerprint and lists its fingerprint as revoked is accepted. |
| KeyDocuments.ListedTwiceIsAccepted | backend/cmd/huakai-verify/main.go:465-486 | Whatever valid key: a document that lists it first without a fingerprint as revoked, and again under its fingerprint as active, is accepted. |
| KeyDocuments.MisspeltIsAccepted | backend/cmd/huakai-verify/main.go:291-303 | Whatever valid key: a document whose record of it has the status "Revoked" is accepted. |
| KeyDocuments.UnprintedIsAccepted | backend/cmd/huakai-verify/main.go:309-317 | Whatever valid key: a document that lists it as revoked by its material and without a fingerprint is accepted. |
| KeyDocuments.NestedIsAccepted | backend/cmd/huakai-verify/main.go:265-270 | Whatever valid key: a document that lists it as revoked in a nested document only is accepted. |
| KeyDocuments.DetachedKeyIs | backend/cmd/huakai-verify/main.go:142-158 | The key of a detached signature is one of the document, listed under its own computed fingerprint, the one asked for if any, and the signature is its own. |
| KeyDocuments.DetachedThoughRevoked | backend/cmd/huakai-verify/main.go:123-193 | With a detached signature key and report come from one record, so a key a reader finds revoked is accepted if and only if that record and the top list are clean and another record of the key is marked or the revocation is in a form the report overlooks. |
| ToolSurface.IsRestricted | backend/deploy/hermes-runner/official_tool_surface.py:77-119 | Accepts exactly the listings whose lines, blanks aside, are the built-in header, rows each with the word "disabled", the header of the servers and one row whose first word is "huakai". |
| ToolSurface.AcceptsExactly | backend/deploy/hermes-runner/official_tool_surface.py:113-119 | Once no line was out of place, the final conditions hold exactly for the listings of the grammar. |
| ToolSurface.OutOfPlace | backend/deploy/hermes-runner/official_tool_surface.py:93-111 | A line rejected where it stands cannot be completed to a listing of the grammar. |
| ToolSurface.FirstWordIsAWord | backend/deploy/hermes-runner/official_tool_surface.py:108-110 | The name taken from a line is the first of its words. |
| ToolSurface.WordsAre | backend/deploy/hermes-runner/official_tool_surface.py:117-117 | No text has no words, a text without white space is its own word, and white space divides the words of what is before it from those of what is after it. |
| Text.TrimTrims | backend/internal/accountquota/types.go:91-95 | A trimmed text has no white space at its ends and is left alone by trimming. |
| Text.TrimIsMiddle | backend/internal/accountquota/types.go:91-95 | Trimming removes the white space around a text and nothing else. |
| Text.LowerCase | backend/internal/mixedchannelrisk/risk.go:82-84 | Each ASCII capital becomes its small letter, and nothing else changes. |

## Left out

- ChannelEntry.MixingNeedsConfirmation: supposes that no account gets another provider, vendor or credential type during the run; the source takes no channel lock for such a change, so the statement is about entries only.
- ChannelEntry: a target channel deleted between its check and the commit of a move; the source takes no lock on the channel row, and the members are judged all the same.
- ChannelEntry.NoDeadlock: creations run inside a transaction of the caller, and the account intake takes a tenant-wide advisory lock and, for one kind of account, shared row locks before `InsertTx`; the theorem is about the locks of `InsertTx` and of the move alone, without those and without the wait of an insert for another one with the same account name.
- RoutingPolicyProtocol.WaitersCanBeReleased: a leader whose database call panics; the source then never closes the call.
- RoutingPolicySource.Serve: one request at a time; the leader a waiter is released by runs within the same call, and schedules of several requests are those of RoutingPolicyProtocol.
- QuotaConvergence.RowsAreCarriedForward: supposes observations of the source in order and keys of its own; keys that several sources write, as the probe row, are the subject of RowIsStanding and SharedProbeRow; late complete snapshots are not claimed to commute.
- QuotaConvergence.SharedProbeRow: supposes failures in the order of their times and no snapshot with a fact named as the probe; without the order only RowIsStanding holds.
- WorkerPool.SameAsSequential: what a refresh answers that is still running when the batch is cancelled; it may be anything.
- QuotaFacts: measured values are real numbers, so that NaN and infinities, which the validation rejects, do not occur.
- ModelSync.CommittedWithTheDiscoveredVersion: one account; the discovery inbox filled in the same transaction, and insertions of the audit row as a step of their own.
- ModelSync.Database.Sync: what the vault and the upstream answer are parameters; the account row missing is one of the database failures.
- ModelCatalogue.Discover: resolving the account and choosing the request plan before the loop, parsing of response bodies, the response size limit and the time limit, which are answers of the upstream here.
- KeyIssuance: digests are symbolic values that reveal nothing and never collide; a collision of two actors in the hashed lock key would only make them wait for each other.
- KeyIssuer.Issuer.Issue: permission rules and the check of tenant and user are one verdict parameter.
- BulkStore: the recovery and refresh actions and the batch audit row; an item that fails with a database error.
- BulkStore.Store.MoveChannel: the report attached to a refusal, which is here whether the risk is high; what it contains is MixedRisk.Evaluate.
- MixedRisk.Evaluate: the messages of the differences, and lower case beyond ASCII.
- BundleEnvelope: zeroing of buffers in place, base64 and JSON texts; contents are equal when their JSON is.
- BundleImport.PrepareImport: the intake service, the existing accounts and the credential payload check are parameters; messages are left out.
- BundleImport.MissingConfirmations: the order of the missing confirmations, which only the message shows.
- BundleImport.ExecuteImport: the audit event after a batch and the warning when it cannot be written.
- BucketRegistry.Registry.BucketFor: the refilling of a token bucket, which is not part of this model; calls are atomic because the source holds the mutex throughout.
- KeyDocuments: bodies that are not a key document (a plain map of fingerprints, bare key material).
- KeyDocuments.AcceptedThoughRevoked: signature, chain and requested entry are one parameter, as are the decoding of keys and the fingerprint.
- ToolSurface.IsRestricted: decoding of the output and its division into lines.
- Wiring, routes, configuration, HTTP decoding and encoding, and the text of messages: straight-line code.
- Bootstrap and revocation of admin tokens and the proxy resolver: the same lock, check and write shape as key issuance, and simpler.
