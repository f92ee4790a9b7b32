# Verified model of the cluster manager's core

A Dafny 4.11 model of the stateful and parsing core of the Aerospike cluster manager, with proofs about it. `dafny verify dfyconfig.toml` checks the whole project. One module stands for one component:

| module | component |
|---|---|
| ClientPool, PoolReuse, PoolConservation, SweepConservation | the pool of native clients, one cache slot per (session, connection) |
| Schema, PgMigration, SqliteMigration | the crash-resumable schema migrations of both metadata stores |
| Passwords, PgPasswords, Profiles, ConnectionUpdates | encrypted password columns, connection profiles, concurrent updates |
| JwksCache | the OIDC signing-key cache: TTL, stale grace, two back-offs |
| PatchLoop | the optimistic-concurrency patch of a custom resource |
| InfoGate | the asinfo command gate |
| Broker, Tickets | server-sent events: bounded queues and single-use tickets |
| GuideBlocks, GuideInline | the Markdown renderer of operational guides (parsing, not React elements) |
| InfoText, InfoAggregate, SetAggregate | parsing and aggregating info responses of many nodes |
| Hydration | the single-flight hydration of the cluster registry |
| PrimaryKey | from request text to a typed key, and the read that tries the other type |
| Prelude, PyText, PyInt, JsText, Splitting | Option and Result, Python and JavaScript string and integer operations |

## How it is modelled

Components that change state are classes whose fields are the source's fields. Where a component awaits, a method is the stretch of code between two awaits, its contract gives the whole new state as a step of a state machine (`View() == Do(old(View()), action)`), and the main results are about every sequence of steps, so about every interleaving. Components that await nothing are methods with the source's loops, proved against a specification function. What the outside world does (other writers, failures, lost replies) is an input or a nondeterministic choice. History that no field holds (installed key sets, refresh times, writes a server accepted) is carried beside the fields and read by nothing but the contracts.

Assumptions, all of them about what lies outside the modelled code:

- clocks never go backwards; minted tokens, subscriber ids and lock objects are fresh;
- the cipher is any pair with `decrypt(encrypt(x)) == x`, and may fail;
- `close()` of a native client raises only what the code swallows, and a section under the global lock of the pool spans no await;
- an event loop runs one stretch at a time; which task runs next is arbitrary;
- the JWKS TTL is not negative, integer keys in the store are signed 64-bit numbers, and Unicode's digit table is any table that is right on ASCII;
- a 409 from the API server means the patch was not applied, and every write moves the version;
- in SQLite each ALTER is durable at its commit, and an open transaction is lost when the process dies.

## Where the code and its description differ

- JWKS refresh: the comments promise a back-off after every failed refresh while stale keys are served. It is armed only by the authentication error; a body that is not JSON escapes it (`BackoffIffAuthError`, `EscapeDefeatsBackoff`, and from an empty cache `BackoffDefeatedFromStart`), and such a call fails instead of using the stale keys (`RaisesIff`).
- Session and shutdown sweeps of the client pool drop slot locks they do not hold. Exclusion survives exactly when no call is in flight on those slots (`SweepSafeIffQuiet`); conservation of clients and the gauge survive exactly when no stale client is taken away from under the call replacing it (`ConservedIffSwapsSafe`, `GaugedIffSlotsFound`). Judged at the sweep: they survive every quiet continuation exactly when each call in flight on a dropped slot is already past the cache (`SweepConservesIff`); `SweepBreaksFromStart` is a run from an empty pool that loses both.
- The patch loop promises a versioned write. If the fetched object carries no version, the body's own one is sent if it has any, and the write is unconditional otherwise; `GuardedIff` says when it is sure to land on what was fetched. A call can raise although its patch was applied, exactly when the last apply was admitted and its reply lost (`PatchedOnceOrNot`, `LostIff`, `RaisedButWritten`).
- The PostgreSQL password migration selects without locking, so it can overwrite an update made meanwhile (`NothingLostIff`, `OvertakenUpdateIsLost`). It can count a row twice (`CountedTwice`); the migrations together count exactly the rows they converted if and only if every rewrite finds its row still plaintext (`CountedExactlyIff`).
- The two migrations agree on notes only where no description has to be merged into an existing note column (`BackendsAgreeOnNotes`).
- The Markdown parser never ends on a heading line cut by a line terminator other than LF or CRLF (`LoneCarriageReturnSticks`); `RenderBlocks` says exactly when.
- A hydration promise is meant to cover the retry that primed it; an older call still in flight can resolve it (`StaleFailureReleasesRetry`, `PendingUntilSettled`).
- The replica division is described as giving the unique record count. With at most min(rf, answering nodes) copies of each record it never over-counts, and it is exact if and only if every record has that many (`ReplicasCountedOnceIff`).

## Model

| member | source | states |
|---|---|---|
| ClientPool.PoolSafety | api/src/aerospike_cluster_manager_api/client_manager.py:135-285 | in every interleaving of calls, and of sweeps that find no call in flight on a slot they drop: each native client ever built is in exactly one place (held by one task, cached under one key, closed), no two calls are inside one slot, and the gauge is the cached clients plus what suspended tasks still owe it; with every task done the gauge is the cache size |
| ClientPool.StepKeepsInv | api/src/aerospike_cluster_manager_api/client_manager.py:128-285 | every stretch between two awaits, of any task, keeps the lock, swap, gauge and conservation invariants |
| ClientPool.RunKeepsInv | api/src/aerospike_cluster_manager_api/client_manager.py:128-285 | the invariants hold after any run |
| ClientPool.OneHolder | api/src/aerospike_cluster_manager_api/client_manager.py:138-139 | the lock of a slot admits one call at a time |
| ClientPool.ReturnsCached | api/src/aerospike_cluster_manager_api/client_manager.py:139-141 | a client handed to a caller is the one cached in the caller's own slot and is not closed |
| PoolReuse.ReturnsAtOnceIff | api/src/aerospike_cluster_manager_api/client_manager.py:139-142 | let into its slot, a call returns the cached client at once if and only if one is cached and connected, and then nothing else in the pool changes; otherwise only the slot lock moves |
| PoolReuse.BuildsOnlyWhereMissing | api/src/aerospike_cluster_manager_api/client_manager.py:139-168 | in any run a call builds a client only if it was let into its slot while that was empty or its client disconnected |
| PoolReuse.OneClientEachBuild | api/src/aerospike_cluster_manager_api/client_manager.py:143-168 | in any run as many clients are built as profiles were found usable |
| PoolReuse.SharedByAll | api/src/aerospike_cluster_manager_api/client_manager.py:135-285 | whatever else goes on in the pool, until a slot is evicted, swept or found disconnected, every call let into it returns the one cached client |
| PoolReuse.CallOutcomes | api/src/aerospike_cluster_manager_api/client_manager.py:143-199 | a built client is cached and returned if and only if it connected, after the cached one was closed where there is one; one that did not connect is closed and never cached; without a usable profile nothing is built |
| PoolReuse.EvictionOutcomes | api/src/aerospike_cluster_manager_api/client_manager.py:218-238 | an eviction takes and closes the client of its own slot and no other, and keeps every lock |
| PoolReuse.SessionTakesIff | api/src/aerospike_cluster_manager_api/client_manager.py:252-256 | closing a session takes the clients and locks of its own cached slots, all of them, and leaves those of every other session and of the REST path |
| PoolReuse.ShutdownTakesAll | api/src/aerospike_cluster_manager_api/client_manager.py:276-285 | shutting down takes every cached client, to be closed, and every lock |
| ClientPool.SweepSafeIffQuiet | api/src/aerospike_cluster_manager_api/client_manager.py:252-256 | dropping slot locks keeps slots exclusive in every continuation if and only if no call is in flight on a dropped slot |
| PoolConservation.ConservedIffSwapsSafe | api/src/aerospike_cluster_manager_api/client_manager.py:128-285 | in any run, whatever its sweeps find in flight: native clients are conserved throughout if and only if every replaced client is, when it is closed, still the one cached in its slot (or closed already, with the slot empty) |
| PoolConservation.GaugedIffSlotsFound | api/src/aerospike_cluster_manager_api/client_manager.py:128-285 | in any run: the gauge is right throughout if and only if every replacement finds its slot occupied |
| PoolConservation.SwapConservesIff | api/src/aerospike_cluster_manager_api/client_manager.py:184-197 | the same for the one step that can break conservation |
| PoolConservation.SwapGaugedIff | api/src/aerospike_cluster_manager_api/client_manager.py:184-197 | and for the gauge |
| PoolConservation.UnsweptPlaced | api/src/aerospike_cluster_manager_api/client_manager.py:128-285 | every other step of any task keeps conservation, with no lock assumed |
| PoolConservation.SweepUnderSwapBreaks | api/src/aerospike_cluster_manager_api/client_manager.py:252-272 | a session sweep that takes a slot while a call closes its stale client breaks both |
| SweepConservation.SweepConservesIff | api/src/aerospike_cluster_manager_api/client_manager.py:252-280 | from any reachable state, a session or shutdown sweep keeps clients conserved, and the gauge right, in every otherwise quiet continuation if and only if no call in flight on a dropped slot can still touch the cache: waiting, loading the profile, connecting or replacing; calls that only clean up, invalidate or close are harmless |
| SweepConservation.StepKept | api/src/aerospike_cluster_manager_api/client_manager.py:128-285 | with touching calls alone required to hold registered locks, every step whose sweep is harmless keeps conservation, the gauge and that requirement |
| SweepConservation.AdriftBreaks | api/src/aerospike_cluster_manager_api/client_manager.py:135-240 | from each of the touching points, once the slot and its lock are gone, a continuation without a sweep ends with clients lost and the gauge wrong |
| SweepConservation.SweepBreaksFromStart | api/src/aerospike_cluster_manager_api/client_manager.py:135-272 | for every session and connection such a run from the empty pool |
| ClientPool.StrandedBreaks | api/src/aerospike_cluster_manager_api/client_manager.py:274-280 | after a sweep under a call in flight, a continuation puts two calls inside one slot |
| ClientPool.SessionStrands | api/src/aerospike_cluster_manager_api/client_manager.py:252-256 | what `close_session` leaves of a slot with a call in flight |
| ClientPool.AllStrands | api/src/aerospike_cluster_manager_api/client_manager.py:276-280 | what `close_all` leaves of a slot with a call in flight |
| ClientPool.ClientManager.constructor | api/src/aerospike_cluster_manager_api/client_manager.py:95-100 | the manager starts with empty dictionaries |
| ClientPool.ClientManager.GetConnLock | api/src/aerospike_cluster_manager_api/client_manager.py:128-133 | one lock per slot, created on first use and then kept |
| ClientPool.ClientManager.BeginGet | api/src/aerospike_cluster_manager_api/client_manager.py:135-138 | start of `get_client`, up to the slot lock |
| ClientPool.ClientManager.BeginEvict | api/src/aerospike_cluster_manager_api/client_manager.py:218-220 | start of `close_client`, up to the slot lock |
| ClientPool.ClientManager.EnterGetSection | api/src/aerospike_cluster_manager_api/client_manager.py:139-143 | a connected cached client is returned at once, otherwise the call goes on holding the lock |
| ClientPool.ClientManager.BuildClient | api/src/aerospike_cluster_manager_api/client_manager.py:144-168 | a missing or blocked profile ends the call and frees the lock; otherwise one client is constructed |
| ClientPool.ClientManager.FinishConnect | api/src/aerospike_cluster_manager_api/client_manager.py:177-199 | connect failed: clean up; a stale client cached: replace it; else cache, count and return |
| ClientPool.ClientManager.FinishCleanup | api/src/aerospike_cluster_manager_api/client_manager.py:179-182 | the half-open client is closed before the error leaves |
| ClientPool.ClientManager.FinishSwap | api/src/aerospike_cluster_manager_api/client_manager.py:184-199 | the stale client is closed and uncounted, the new one cached, counted and returned |
| ClientPool.ClientManager.EnterEvictSection | api/src/aerospike_cluster_manager_api/client_manager.py:220-225 | the slot is emptied under its lock |
| ClientPool.ClientManager.FinishInvalidate | api/src/aerospike_cluster_manager_api/client_manager.py:225-226 | nothing was cached: done; else close the victim |
| ClientPool.ClientManager.FinishEvict | api/src/aerospike_cluster_manager_api/client_manager.py:237-238 | the victim is closed and uncounted, then the lock freed |
| ClientPool.ClientManager.CachedKeys | api/src/aerospike_cluster_manager_api/client_manager.py:253-277 | the keys a sweep takes: exactly those cached for its session, or all, each once |
| ClientPool.ClientManager.CloseSession | api/src/aerospike_cluster_manager_api/client_manager.py:252-256 | the session's clients and slot locks leave the dictionaries in one step |
| ClientPool.ClientManager.SessionInvalidateDone | api/src/aerospike_cluster_manager_api/client_manager.py:257-260 | per victim: the info cache is invalidated first |
| ClientPool.ClientManager.SessionCloseDone | api/src/aerospike_cluster_manager_api/client_manager.py:267-272 | per victim: closed, then uncounted |
| ClientPool.ClientManager.CloseAll | api/src/aerospike_cluster_manager_api/client_manager.py:274-275 | the info cache is cleared before anything is taken |
| ClientPool.ClientManager.CloseAllTake | api/src/aerospike_cluster_manager_api/client_manager.py:276-280 | all clients and all slot locks leave the dictionaries in one step |
| ClientPool.ClientManager.CloseAllDone | api/src/aerospike_cluster_manager_api/client_manager.py:281-285 | the gauge is settled once, after the last close |
| PgMigration.MigrationSafety | api/src/aerospike_cluster_manager_api/db/_postgres.py:154-231 | any number of replicas, started, crashed and timed out at any statement: no statement is ever refused, a replica raises only if one of its own statements timed out, and once one has finished the tables are the target (note or else description, workspace or else the default) |
| PgMigration.RaisedTimedOut | api/src/aerospike_cluster_manager_api/db/_postgres.py:154-231 | a replica that raises had a statement of its own time out |
| PgMigration.FailsIff | api/src/aerospike_cluster_manager_api/db/_postgres.py:154-231 | in any run a replica is failing or has raised if and only if a statement of its own timed out and it has not crashed |
| PgMigration.FailureFreesLock | api/src/aerospike_cluster_manager_api/db/_postgres.py:154-163 | a failure at the lock or while unlocking raises at once and leaves the lock free |
| PgMigration.AnythingCanFail | api/src/aerospike_cluster_manager_api/db/_postgres.py:154-231 | every replica that has not ended can crash or time out at every point, and only the lock is ever waited for |
| PgMigration.AcceptedIff | api/src/aerospike_cluster_manager_api/db/_postgres.py:167-229 | the engine refuses a statement if and only if it mentions a column that is not there or adds one that is |
| PgMigration.RunsThrough | api/src/aerospike_cluster_manager_api/db/_postgres.py:161-229 | the statements of an undisturbed run, in order, for each of the four layouts, each accepted where it stands |
| PgMigration.TargetHolds | api/src/aerospike_cluster_manager_api/db/_postgres.py:167-229 | what the target holds of each profile: its note, else its description; its workspace, else the default one; and every column but `description` |
| PgMigration.FreshReplicaCompletes | api/src/aerospike_cluster_manager_api/db/_postgres.py:154-231 | from whatever a crashed fleet leaves, one fresh replica completes the migration |
| PgMigration.HolderFinishes | api/src/aerospike_cluster_manager_api/db/_postgres.py:161-231 | the lock holder, if it has not failed and is left alone, finishes and frees the lock |
| PgMigration.StatementKeepsTarget | api/src/aerospike_cluster_manager_api/db/_postgres.py:167-229 | no accepted statement changes where the migration is heading; DROP only after the merge |
| PgMigration.TargetIsFixed | api/src/aerospike_cluster_manager_api/db/_postgres.py:154-231 | the migration is idempotent, and a further run's statements change nothing |
| PgMigration.PhaseAdvances | api/src/aerospike_cluster_manager_api/db/_postgres.py:161-229 | what the lock holder relies on before each statement, and that the statement is then accepted |
| PgMigration.StepKeepsInv | api/src/aerospike_cluster_manager_api/db/_postgres.py:154-231 | start, crash, timeout and statement steps keep the migration invariant |
| PgMigration.NoteColumnKeeps | api/src/aerospike_cluster_manager_api/db/_postgres.py:167-190 | whichever branch is taken, `description` is gone, `note` is there and nothing a complete run would keep is lost |
| PgMigration.Postgres.ApplyMigrations | api/src/aerospike_cluster_manager_api/db/_postgres.py:161-229 | one complete run under the lock reaches exactly the target |
| SqliteMigration.ResumesFromAnyCrash | api/src/aerospike_cluster_manager_api/db/_sqlite.py:192-262 | from every legacy layout, any partial runs followed by a full one end where one undisturbed run ends, and a further run changes nothing |
| SqliteMigration.StageKeepsTarget | api/src/aerospike_cluster_manager_api/db/_sqlite.py:199-262 | a run cut short anywhere does not change where the next complete run ends |
| SqliteMigration.CompleteRunReachesTarget | api/src/aerospike_cluster_manager_api/db/_sqlite.py:199-262 | what a complete run leaves |
| SqliteMigration.StageColumns | api/src/aerospike_cluster_manager_api/db/_sqlite.py:199-262 | which columns are durable at each point, in the order they are added; rows and workspaces change only at the last |
| SqliteMigration.TargetHolds | api/src/aerospike_cluster_manager_api/db/_sqlite.py:205-262 | what a complete run leaves of each profile and which columns |
| SqliteMigration.BackendsAgreeOnNotes | api/src/aerospike_cluster_manager_api/db/_sqlite.py:205-212 | SQLite and PostgreSQL leave the same notes if and only if no description would have to be merged into an existing note column |
| SqliteMigration.Sqlite.ApplyMigrations | api/src/aerospike_cluster_manager_api/db/_sqlite.py:192-262 | dying before or after any statement leaves the durable stage of that point and loses the open transaction; the run completes if and only if the process does not die, and then leaves the target |
| Passwords.RoundTrip | api/src/aerospike_cluster_manager_api/secrets_crypto.py:151-198 | what is encrypted on write reads back, and carries the marker unless empty |
| Passwords.LegacyReadsBackIff | api/src/aerospike_cluster_manager_api/secrets_crypto.py:178-183 | legacy text reads back as itself if and only if it lacks the marker or decrypts to itself |
| Passwords.RewriteKeepsSeen | api/src/aerospike_cluster_manager_api/db/_sqlite.py:328-339 | rewriting one plaintext row changes no reader's view and leaves one plaintext row less |
| Passwords.PasswordStore.MigratePasswordsToEncrypted | api/src/aerospike_cluster_manager_api/db/_sqlite.py:321-346 | it succeeds if and only if no plaintext row fails to encrypt and the commit goes through; success leaves every password absent, empty or marked and returns how many were plaintext; failure leaves the table as it was; at every intermediate state every row decrypts as before |
| PgPasswords.NothingLostIff | api/src/aerospike_cluster_manager_api/db/_postgres.py:282-296 | beside any number of migrations of the PostgreSQL backend, which select without locking, no update of a row is lost at any point of a run if and only if every rewrite finds the row still reading as it was selected |
| PgPasswords.SafeUnlessOvertaken | api/src/aerospike_cluster_manager_api/db/_postgres.py:282-296 | a run in which no update comes between a select and its write loses none, however the migrations interleave |
| PgPasswords.SelectedIff | api/src/aerospike_cluster_manager_api/db/_postgres.py:283-295 | told from the actions alone: a migration can write if and only if it selected plaintext and has not written since, and it is overtaken if and only if an update came after its select |
| PgPasswords.RewriteKeepsReadIff | api/src/aerospike_cluster_manager_api/db/_postgres.py:290-295 | one rewrite keeps what readers see if and only if the row still reads as selected |
| PgPasswords.OvertakenUpdateIsLost | api/src/aerospike_cluster_manager_api/db/_postgres.py:283-295 | an update between the select and the write is overwritten by the old password |
| PgPasswords.CountedExactlyIff | api/src/aerospike_cluster_manager_api/db/_postgres.py:284-296 | over any run, the migrations together report at least as many rewrites as turned plaintext into ciphertext, and exactly as many if and only if every rewrite finds the row still plaintext |
| PgPasswords.CountedTwice | api/src/aerospike_cluster_manager_api/db/_postgres.py:283-296 | two migrations that both select before either writes report one row twice, and it keeps its password |
| Profiles.NormalizeIsNormal | api/src/aerospike_cluster_manager_api/models/connection.py:10-29 | normalised labels: distinct trimmed non-blank keys, `env` present, lower-case and not blank |
| Profiles.NormalizeKeepsLabels | api/src/aerospike_cluster_manager_api/models/connection.py:21-29 | no label is lost or made up: each other key keeps its last value, and `env` is the lower-cased last one or the default |
| Profiles.NormalIsFixed | api/src/aerospike_cluster_manager_api/models/connection.py:10-29 | normal labels are left as they are |
| Profiles.NormalizeIdempotent | api/src/aerospike_cluster_manager_api/models/connection.py:10-29 | normalising twice is normalising once |
| Profiles.ConstructIsConstructed | api/src/aerospike_cluster_manager_api/models/connection.py:68-86 | what the profile model makes of accepted fields satisfies the model, field by field |
| Profiles.RowRoundTrip | api/src/aerospike_cluster_manager_api/db/_sqlite.py:365-375 | a profile stored and read back is the same profile |
| Profiles.ReadIsConstructed | api/src/aerospike_cluster_manager_api/db/_base.py:183-217 | whatever is read from a row satisfies the profile model, with the row's id and creation time |
| Profiles.UpdateIff | api/src/aerospike_cluster_manager_api/db/_base.py:291-317 | an update goes through if and only if every field it names is acceptable; each named field then has its value, labels normalised and an empty workspace defaulted, and all else stays but the update time |
| Profiles.StoredIsMarked | api/src/aerospike_cluster_manager_api/db/_sqlite.py:365-375 | a stored password is absent, empty or marked ciphertext; every other column is stored as it is |
| Profiles.NoLostUpdate | api/src/aerospike_cluster_manager_api/db/_base.py:291-317 | after any sequence of merges each field holds what the last update naming it set, and id and createdAt are unchanged |
| ConnectionUpdates.UpdatesSerialise | api/src/aerospike_cluster_manager_api/db/_sqlite.py:441-494 | every interleaving of concurrent updates leaves the row got by applying the committed calls' updates in lock order; a reader on the shared connection sees that row or, only while the lock holder has written, that row with exactly the lock holder's update applied |
| ConnectionUpdates.CommitsAreCalls | api/src/aerospike_cluster_manager_api/db/_sqlite.py:441-494 | the committed list is exactly the finished calls, each once, in the order they got the lock; tasks are the calls made, in order; a finished call returned the fold up to and including its own update |
| ConnectionUpdates.TasksAreCalls | api/src/aerospike_cluster_manager_api/db/_sqlite.py:441-494 | a call keeps its update through every step |
| ConnectionUpdates.CommittedFieldsSurvive | api/src/aerospike_cluster_manager_api/db/_sqlite.py:441-494 | in every interleaving a committed field not named by a later commit survives, and id and createdAt never change |
| ConnectionUpdates.LeftAloneCommitsIff | api/src/aerospike_cluster_manager_api/db/_sqlite.py:450-494 | a call that gets the free lock and is left alone commits, and stores the row it found with its update applied, if every field it names is acceptable; otherwise it fails, the row stays and the lock is free |
| ConnectionUpdates.SelectIff | api/src/aerospike_cluster_manager_api/db/_sqlite.py:453-460 | the step that decides it |
| ConnectionUpdates.AnyCallCanFail | api/src/aerospike_cluster_manager_api/db/_sqlite.py:451-494 | a call inside the transaction can fail at each of its awaits, which takes back its write and frees the lock |
| ConnectionUpdates.StepKeepsSerial | api/src/aerospike_cluster_manager_api/db/_sqlite.py:441-494 | each await-to-await step keeps the serialisation invariant |
| ConnectionUpdates.MergedStores | api/src/aerospike_cluster_manager_api/db/_sqlite.py:459-466 | a merged profile can be stored and reads back as itself |
| ConnectionUpdates.SqliteConnections.UpdateConnection | api/src/aerospike_cluster_manager_api/db/_sqlite.py:441-494 | one call: no row; the merged profile stored in that row alone, if and only if the stored row reads, every named field is acceptable and neither the encryption nor the commit fails; otherwise an error with the table as it was |
| JwksCache.KidMissRate | api/src/aerospike_cluster_manager_api/middleware/oidc_auth.py:379-385 | over any run, unknown-kid refreshes in a window of length L number at most L/30 + 1 |
| JwksCache.StaleAttemptRate | api/src/aerospike_cluster_manager_api/middleware/oidc_auth.py:361-369 | over any run, whatever else fails in it, TTL refreshes made while stale keys are servable that fail with the authentication error number at most L/30 + 1 in a window of length L |
| JwksCache.StaleAttemptHeldOff | api/src/aerospike_cluster_manager_api/middleware/oidc_auth.py:361-386 | over any run, a stale refresh keeps the next one of any kind away: 30 s after an authentication error, one TTL after an install |
| JwksCache.AllAttemptsRate | api/src/aerospike_cluster_manager_api/middleware/oidc_auth.py:361-386 | the successful ones counted too, where nothing but the authentication error ever failed: one per min(TTL, 30 s) |
| JwksCache.BackoffIffAuthError | api/src/aerospike_cluster_manager_api/middleware/oidc_auth.py:364-369 | a failed refresh arms the back-off if and only if it failed with the authentication error |
| JwksCache.EscapeDefeatsBackoff | api/src/aerospike_cluster_manager_api/middleware/oidc_auth.py:423-423 | a run with two stale refreshes at one instant, the first failing on a body that is not JSON |
| JwksCache.BackoffDefeatedFromStart | api/src/aerospike_cluster_manager_api/middleware/oidc_auth.py:338-423 | for every TTL such a run from the empty cache |
| JwksCache.EveryKeyIsFresh | api/src/aerospike_cluster_manager_api/middleware/oidc_auth.py:338-398 | over any run, a returned key is in the index installed last, and its call sampled a time at most TTL + 3600 s after that install |
| JwksCache.KeyIsFresh | api/src/aerospike_cluster_manager_api/middleware/oidc_auth.py:338-398 | the same for one step from any state that satisfies the invariant |
| JwksCache.RaisesIff | api/src/aerospike_cluster_manager_api/middleware/oidc_auth.py:364-385 | a refresh ends in an exception if and only if nothing was installed and the cache is empty, out of grace, asked for an unknown kid, or the error was not the authentication error |
| JwksCache.AnsweredIff | api/src/aerospike_cluster_manager_api/middleware/oidc_auth.py:338-386 | in any run a call that is answered gets the key of the kid it asked for in the index it ends on, the new one after an install, if that kid is there, and no key if and only if it is not |
| JwksCache.AnswerStep | api/src/aerospike_cluster_manager_api/middleware/oidc_auth.py:338-386 | one step of that |
| JwksCache.RefreshesIff | api/src/aerospike_cluster_manager_api/middleware/oidc_auth.py:338-398 | in any run, from the history alone: a call is answered without the lock if and only if its kid is in the last index within the TTL; under the lock it refreshes if and only if the TTL has passed and nothing stale is servable, the grace hour is over or the last failed attempt is 30 s old, or the TTL has not passed, its kid is unknown and the last unknown-kid refresh is 30 s old |
| JwksCache.OutageServesCachedKey | api/src/aerospike_cluster_manager_api/middleware/oidc_auth.py:350-386 | while the issuer is down a cached key is served until the grace window ends |
| JwksCache.SpacedCount | api/src/aerospike_cluster_manager_api/middleware/oidc_auth.py:84-101 | times spaced by a gap: how many fit in a window |
| JwksCache.StepKeepsInv | api/src/aerospike_cluster_manager_api/middleware/oidc_auth.py:338-433 | every step of any task keeps the cache invariant |
| JwksCache.OIDCAuthMiddleware.constructor | api/src/aerospike_cluster_manager_api/middleware/oidc_auth.py:160-171 | the cache starts empty and expired |
| JwksCache.OIDCAuthMiddleware.KeyForKid | api/src/aerospike_cluster_manager_api/middleware/oidc_auth.py:338-341 | the check before the lock |
| JwksCache.OIDCAuthMiddleware.EnterLocked | api/src/aerospike_cluster_manager_api/middleware/oidc_auth.py:343-385 | the checks under the lock, up to the refresh |
| JwksCache.OIDCAuthMiddleware.FinishRefresh | api/src/aerospike_cluster_manager_api/middleware/oidc_auth.py:364-386 | install, fall back to stale keys, or raise |
| PatchLoop.PatchWithResourceVersion | api/src/aerospike_cluster_manager_api/k8s_client.py:181-209 | the loop goes through exactly the specified trials and ends with the last one's result; the trailing raise is unreachable and the body untouched |
| PatchLoop.PatchedOnceOrNot | api/src/aerospike_cluster_manager_api/k8s_client.py:181-209 | whatever the world does: at most three attempts, only conflicts of the apply tried again, at most one write of ours; the object is returned if and only if the last apply was delivered; a conflict means nothing was written; an error hides our write if and only if the last apply was admitted and its reply lost; a write follows a fetch of an object whose workspace label is the expected one, and guarded it lands on that very object |
| PatchLoop.ForeignIsRefused | api/src/aerospike_cluster_manager_api/k8s_client.py:448-471 | an attempt that fetches an object of another workspace, or of none, ends with a conflict that is not tried again and writes nothing |
| PatchLoop.CheckedByLabel | api/src/aerospike_cluster_manager_api/k8s_client.py:446-458 | on the labels themselves: an object without the workspace label passes for no workspace, and no object passes for two |
| PatchLoop.MergedEach | api/src/aerospike_cluster_manager_api/k8s_client.py:188-195 | what a merge patch leaves: a named key set or gone, every other as it was |
| PatchLoop.LostIff | api/src/aerospike_cluster_manager_api/k8s_client.py:183-195 | when a reply is lost, in terms of what the world did: fetched, verified, version admitted, reply dropped |
| PatchLoop.RaisedButWritten | api/src/aerospike_cluster_manager_api/k8s_client.py:193-197 | a call that raises although its patch is in the store |
| PatchLoop.TrialFacts | api/src/aerospike_cluster_manager_api/k8s_client.py:183-200 | one trial: what its single write may be, and what its result says of it |
| PatchLoop.Attempt | api/src/aerospike_cluster_manager_api/k8s_client.py:183-200 | fetch, verify, build and apply make exactly the specified trial |
| PatchLoop.BuildPayload | api/src/aerospike_cluster_manager_api/k8s_client.py:189-192 | a deep copy of the body conditioned on the fetched version, if there is one |
| PatchLoop.LabelUnchanged | api/src/aerospike_cluster_manager_api/k8s_client.py:446-464 | passes if and only if nothing is expected or the label `acm.aerospike.com/workspace` is there with the expected value |
| PatchLoop.GuardedIff | api/src/aerospike_cluster_manager_api/k8s_client.py:189-194 | after a fetch that passes the check the write lands on the fetched object, whatever others write meanwhile, if and only if the fetch reported the version or the body carries one that is not ahead of the server's |
| InfoGate.AcceptsExactlyTheGrammar | api/src/aerospike_cluster_manager_api/info_verbs.py:325-410 | a command is accepted if and only if its stripped text is a frame of the three-shape grammar with at most one trailing `;`; the stripped text is returned and accepted again |
| InfoGate.SegmentReason | api/src/aerospike_cluster_manager_api/info_verbs.py:384-390 | the first bad segment of a path decides the reason |
| InfoGate.EmptyRefused | api/src/aerospike_cluster_manager_api/info_verbs.py:360-362 | an empty command is refused for its empty verb by every check |
| InfoGate.PathArgumentsIff | api/src/aerospike_cluster_manager_api/info_verbs.py:308-390 | a path of identifiers is accepted after `namespace` or `bins` with one segment, after `sets` or `sindex` with one or two, and after no other verb |
| InfoGate.ColonArgumentsIff | api/src/aerospike_cluster_manager_api/info_verbs.py:392-410 | a colon frame takes one argument of any shape, or several that all hold `=` |
| InfoGate.SegmentAlphabet | api/src/aerospike_cluster_manager_api/info_verbs.py:322-322 | the characters of a path segment |
| InfoGate.GatePassesOneWhitelistedCommand | api/src/aerospike_cluster_manager_api/info_verbs.py:432-480 | both gates pass exactly the frames whose verb is listed; in what they return an independent splitter finds that one verb and nothing else |
| InfoGate.GatesIff | api/src/aerospike_cluster_manager_api/info_verbs.py:432-480 | the read gate passes exactly the single commands with a verb of the read list, the write gate those with a verb of either; no write verb passes the read gate, what the read gate passes the write gate passes as the same command, and no destructive verb passes either |
| InfoGate.BareVerbsPass | api/tests/test_info_verbs.py:80-127 | which verbs pass each gate on their own, as the repository pins them |
| InfoGate.RefusedBecause | api/src/aerospike_cluster_manager_api/info_verbs.py:448-480 | a refused command is told why it is not one command, or which verb its own gate refuses |
| InfoGate.FrameIsOneCommand | api/src/aerospike_cluster_manager_api/info_verbs.py:325-357 | a splitter that knows nothing of the gate finds one command in every frame of the grammar |
| InfoGate.VerbOfFrame | api/src/aerospike_cluster_manager_api/info_verbs.py:283-289 | the successive splits find the verb of the grammar |
| InfoGate.AcceptedIsFrame | api/src/aerospike_cluster_manager_api/info_verbs.py:360-410 | every accepted text is the printing of a well-formed frame |
| InfoGate.RenderAccepted | api/src/aerospike_cluster_manager_api/info_verbs.py:360-410 | every printed well-formed frame is accepted |
| InfoGate.ExtractVerb | api/src/aerospike_cluster_manager_api/info_verbs.py:283-289 | the loop of splits yields the text before the first terminator of any kind |
| InfoGate.AssertSingleCommand | api/src/aerospike_cluster_manager_api/info_verbs.py:360-410 | the scans with early exits decide exactly as the specification, reason included |
| Broker.SubscriberHistory | api/src/aerospike_cluster_manager_api/events/broker.py:62-104 | for every subscriber in every run, against the events due to it told from the operations alone (published while its accepted subscription was open, of a kind its filter names, or any kind where it has no filter or an empty one): its queue is exactly the last of them, within the limit; received then pending is an in-order part of them; received, pending and dropped add up to them; with no limit nothing is lost |
| Broker.MatchedIsDue | api/src/aerospike_cluster_manager_api/events/broker.py:72-104 | the events delivered to a subscriber are exactly those due to it |
| Broker.TableIsFiled | api/src/aerospike_cluster_manager_api/events/broker.py:62-78 | the subscriber table holds who subscribed, was accepted and has not left, with the filter asked for |
| Broker.ConnectionLimit | api/src/aerospike_cluster_manager_api/events/broker.py:62-78 | in every run the limit is never exceeded, a fresh subscriber gets a connection if and only if it is not reached, and one that leaves frees its connection for the next |
| Broker.RunAccounts | api/src/aerospike_cluster_manager_api/events/broker.py:62-104 | the account of one subscriber holds after every operation of a run |
| Broker.DeliveryAccounts | api/src/aerospike_cluster_manager_api/events/broker.py:97-104 | delivery, with or without dropping the oldest event, keeps the account |
| Broker.ConsumptionAccounts | api/src/aerospike_cluster_manager_api/events/broker.py:66-70 | taking an event keeps the account |
| Broker.EventBroker.constructor | api/src/aerospike_cluster_manager_api/events/broker.py:29-34 | no subscribers at first |
| Broker.EventBroker.AddSubscriber | api/src/aerospike_cluster_manager_api/events/broker.py:62-70 | refused if and only if the connection limit is reached; else a fresh empty queue |
| Broker.EventBroker.RemoveSubscriber | api/src/aerospike_cluster_manager_api/events/broker.py:72-78 | the subscription goes, its queue stays with the consumer |
| Broker.EventBroker.PublishEvent | api/src/aerospike_cluster_manager_api/events/broker.py:85-104 | the delivery loop gives the event to every matching subscriber exactly once, in any order of subscribers |
| Broker.EventBroker.Get | api/src/aerospike_cluster_manager_api/events/broker.py:66-70 | the consumer takes the oldest pending event |
| Tickets.RedeemIff | api/src/aerospike_cluster_manager_api/events/tickets.py:91-103 | a redeem returns claims if and only if an earlier issue of that ticket stored them, has not expired, and no redeem of it or clear came between |
| Tickets.SingleUse | api/src/aerospike_cluster_manager_api/events/tickets.py:91-103 | in any run a ticket is redeemed successfully at most once |
| Tickets.IssueFailsIffFull | api/src/aerospike_cluster_manager_api/events/tickets.py:80-89 | an issue fails if and only if the cap's worth of unexpired tickets is outstanding; the table never exceeds the cap |
| Tickets.PurgingIsInvisible | api/src/aerospike_cluster_manager_api/events/tickets.py:109-112 | purging early loses nothing: unexpired tickets are those of a table that is never purged |
| Tickets.IssueBehind | api/src/aerospike_cluster_manager_api/events/tickets.py:80-103 | the one issue a success comes from |
| Tickets.SSETicketStore.constructor | api/src/aerospike_cluster_manager_api/events/tickets.py:56-63 | the table starts empty |
| Tickets.SSETicketStore.IssueTicket | api/src/aerospike_cluster_manager_api/events/tickets.py:80-89 | purge, check the cap, store with the expiry |
| Tickets.SSETicketStore.RedeemTicket | api/src/aerospike_cluster_manager_api/events/tickets.py:98-103 | the entry goes in any case; its claims are returned if it has not expired |
| Tickets.SSETicketStore.ClearAll | api/src/aerospike_cluster_manager_api/events/tickets.py:105-107 | everything pending is dropped |
| Tickets.SSETicketStore.PurgeExpired | api/src/aerospike_cluster_manager_api/events/tickets.py:109-112 | exactly the expired entries are deleted |
| GuideBlocks.RenderBlocks | ui/src/components/GuideMarkdown.tsx:130-308 | the nested loops end with the parse of the document if and only if the line scanner never meets a stuck line; otherwise they stop progressing at the first such line, with everything before it parsed |
| GuideBlocks.BlockStartTakenIff | ui/src/components/GuideMarkdown.tsx:101-112 | every line `isBlockStart` accepts is taken by a branch before the paragraph loop, except exactly the stuck ones |
| GuideBlocks.BranchOrder | ui/src/components/GuideMarkdown.tsx:135-305 | a line is taken by the first branch whose pattern fits, in the order of the source |
| GuideBlocks.ParagraphGoesOnIff | ui/src/components/GuideMarkdown.tsx:101-112 | a paragraph goes on over exactly the lines no branch takes, tables apart, and that do not begin as a heading |
| GuideBlocks.OthersGoOnIff | ui/src/components/GuideMarkdown.tsx:145-279 | quotes and lists go on over lines of their own kind, tables over lines with a pipe, code over all but a fence |
| GuideBlocks.CrlfBreaks | ui/src/components/GuideMarkdown.tsx:131-131 | each CRLF becomes an LF |
| GuideBlocks.NoCrlfStays | ui/src/components/GuideMarkdown.tsx:131-131 | and text without one stays as it is |
| GuideBlocks.BlankFenceQuoteIff | ui/src/components/GuideMarkdown.tsx:135-192 | the patterns of blank lines, fences and quotes |
| GuideBlocks.RuleIff | ui/src/components/GuideMarkdown.tsx:161-161 | a rule is three or more of one of `-`, `*`, `_` |
| GuideBlocks.HeadingIff | ui/src/components/GuideMarkdown.tsx:106-106 | a heading starts with one to six `#` and white space |
| GuideBlocks.BulletIff | ui/src/components/GuideMarkdown.tsx:255-255 | the pattern of bullet lines |
| GuideBlocks.NumberIff | ui/src/components/GuideMarkdown.tsx:274-274 | the pattern of numbered lines |
| GuideBlocks.TableStartIff | ui/src/components/GuideMarkdown.tsx:205-209 | a table starts at a line with a pipe before a line with a pipe and a dash whose cells all are dash cells |
| GuideBlocks.ParseUnique | ui/src/components/GuideMarkdown.tsx:130-308 | a document has at most one parse |
| GuideBlocks.ParseNeverSticks | ui/src/components/GuideMarkdown.tsx:130-308 | a parse exists only where the scanner never sticks |
| GuideBlocks.EachLineOnce | ui/src/components/GuideMarkdown.tsx:130-308 | every line that is not blank is in exactly one block of a parse |
| GuideBlocks.PlainNeverSticks | ui/src/components/GuideMarkdown.tsx:131-131 | with LF and CRLF as the only line terminators no line is stuck, so rendering ends |
| GuideBlocks.LoneCarriageReturnSticks | ui/src/components/GuideMarkdown.tsx:173-184 | a heading holding a lone carriage return is stuck |
| GuideBlocks.BlockModes | ui/src/components/GuideMarkdown.tsx:142-305 | block by block the nested loops agree with the scanner that reads one line at a time |
| GuideBlocks.BlockDetermined | ui/src/components/GuideMarkdown.tsx:142-305 | a block is determined by the line it starts at |
| GuideBlocks.TakeCode | ui/src/components/GuideMarkdown.tsx:142-159 | a fence runs to its closing line, or to the end |
| GuideBlocks.TakeQuote | ui/src/components/GuideMarkdown.tsx:187-202 | a quote takes the maximal run of quoted lines |
| GuideBlocks.TakeTable | ui/src/components/GuideMarkdown.tsx:204-253 | header, separator and the maximal run of rows |
| GuideBlocks.TakeBullets | ui/src/components/GuideMarkdown.tsx:255-272 | the maximal run of bullet lines |
| GuideBlocks.TakeNumbers | ui/src/components/GuideMarkdown.tsx:274-290 | the maximal run of numbered lines |
| GuideBlocks.TakeParagraph | ui/src/components/GuideMarkdown.tsx:293-305 | the maximal run of lines that start no block; nothing is consumed exactly on a stuck line |
| GuideBlocks.BulletKeepsText | ui/src/components/GuideMarkdown.tsx:255-260 | a bullet's text is its line without indent, marker and gap |
| GuideBlocks.NumberKeepsText | ui/src/components/GuideMarkdown.tsx:274-279 | the same for a numbered line |
| GuideBlocks.QuoteKeepsText | ui/src/components/GuideMarkdown.tsx:187-192 | a quoted line is its text behind `>` and at most one white-space character |
| GuideBlocks.HeadingKeepsText | ui/src/components/GuideMarkdown.tsx:173-182 | a heading's level is the length of its marker and its text the rest without the gap |
| GuideBlocks.DashCellIff | ui/src/components/GuideMarkdown.tsx:121-127 | a separator cell is a run of dashes with a colon allowed at either end, and nothing else |
| GuideBlocks.PrintedSeparator | ui/src/components/GuideMarkdown.tsx:121-127 | a printed row of separator cells is a separator line |
| GuideBlocks.CellsOfPrintedRow | ui/src/components/GuideMarkdown.tsx:114-119 | splitting a printed row gives back its trimmed pipe-free cells |
| GuideInline.RenderInline | ui/src/components/GuideMarkdown.tsx:36-90 | the loop ends, and emits the nodes of the specified pieces |
| GuideInline.InlineConserves | ui/src/components/GuideMarkdown.tsx:36-90 | the pieces spell the text, none is empty, each node shows its piece, and an anchor comes only from a link whose target passes the source's own test |
| GuideInline.SafeHrefIff | ui/src/components/GuideMarkdown.tsx:25-33 | the targets that become anchors: http and https in any case, a rooted path that is not protocol-relative, a page anchor; and no other scheme |
| GuideInline.TokenThenRest | ui/src/components/GuideMarkdown.tsx:40-88 | plain text, one token, anything: exactly the token becomes a node and the rest renders as if alone |
| GuideInline.PlainAlone | ui/src/components/GuideMarkdown.tsx:41-45 | text without an opening character is one text node |
| GuideInline.TokenKind | ui/src/components/GuideMarkdown.tsx:49-85 | a token's first characters decide which alternative matched, so the last branch always finds a link |
| GuideInline.TokenLocal | ui/src/components/GuideMarkdown.tsx:22-23 | a token matches the same way cut off from what follows |
| GuideInline.TokenExtends | ui/src/components/GuideMarkdown.tsx:22-23 | and whatever follows it |
| GuideInline.MatchIsLeftmost | ui/src/components/GuideMarkdown.tsx:41-46 | the match taken is the leftmost one |
| InfoText.ParseKvPairs | api/src/aerospike_cluster_manager_api/info_parser.py:8-17 | the last part naming a key gives its value, the first one its place |
| InfoText.OnceByFirst | api/src/aerospike_cluster_manager_api/info_parser.py:10-16 | a key listed before another was assigned before the other ever was |
| InfoText.ParseRecords | api/src/aerospike_cluster_manager_api/info_parser.py:27-46 | blank records and records without a pair are dropped, the others kept in order |
| InfoText.SafeIntReads | api/src/aerospike_cluster_manager_api/info_parser.py:49-56 | a printed integer is read as itself; what is missing or no integer counts as zero |
| InfoText.KvRoundTrip | api/src/aerospike_cluster_manager_api/info_parser.py:8-17 | parsing printed clean pairs gives the pairs back |
| InfoText.RecordsRoundTrip | api/src/aerospike_cluster_manager_api/info_parser.py:27-46 | parsing printed clean records gives them back, in order |
| InfoAggregate.AggregateNodeKv | api/src/aerospike_cluster_manager_api/info_parser.py:71-115 | the loops leave, for every key, the specified aggregate of the answers; the passed keys come first, then the summed ones, then the minima, each in the order first reported; the call raises if and only if one of its numbers is too long for `str` |
| InfoAggregate.OrderListsReported | api/src/aerospike_cluster_manager_api/info_parser.py:91-115 | the three orders list exactly the reported keys treated so, each once |
| InfoAggregate.UnprintableIff | api/src/aerospike_cluster_manager_api/info_parser.py:105-113 | only a total can be too long to print, never a minimum |
| InfoAggregate.OrderDoesNotMatter | api/src/aerospike_cluster_manager_api/info_parser.py:95-113 | any permutation of the nodes gives the same keys, sums and minima, and raises in the same cases |
| InfoAggregate.KeysAreUnion | api/src/aerospike_cluster_manager_api/info_parser.py:95-113 | the keys are all keys any answering node reported |
| InfoAggregate.MinIsLeast | api/src/aerospike_cluster_manager_api/info_parser.py:106-108 | a minimum key has the least reported value |
| InfoAggregate.PassIsFirst | api/src/aerospike_cluster_manager_api/info_parser.py:100-103 | a passthrough key has the value of the first node reporting it |
| InfoAggregate.FailedNodesIgnored | api/src/aerospike_cluster_manager_api/info_parser.py:95-97 | a failed node anywhere changes nothing; a zero error code is not a failure |
| InfoAggregate.AddAnswer | api/src/aerospike_cluster_manager_api/info_parser.py:98-108 | one answer's pairs move the three accumulators, and the order of their keys, by exactly that answer |
| SetAggregate.AggregateSetRecords | api/src/aerospike_cluster_manager_api/info_parser.py:118-176 | the list holds the specified entry of every set, in the order the sets are first seen |
| SetAggregate.FirstSeenHasEntry | api/src/aerospike_cluster_manager_api/info_parser.py:139-149 | the listed names are exactly those with an entry, each once |
| SetAggregate.ReportedIff | api/src/aerospike_cluster_manager_api/info_parser.py:134-176 | what is reported for a set: objects and tombstones of its records in all, divided by min(rf, answering nodes) rounding down where that is positive; memory and record count undivided |
| SetAggregate.EntrySums | api/src/aerospike_cluster_manager_api/info_parser.py:139-158 | the totals behind it; a record belongs to the set its `set`, else its `set_name`, names |
| SetAggregate.EntryStops | api/src/aerospike_cluster_manager_api/info_parser.py:154-157 | the greatest stop-writes count reported under either spelling, zero at least |
| SetAggregate.ReplicasCountedOnceIff | api/src/aerospike_cluster_manager_api/info_parser.py:160-169 | with at most min(rf, answering nodes) copies of each record the report never over-counts, and is exact if and only if every record has that many copies |
| SetAggregate.DoubleCount | api/src/aerospike_cluster_manager_api/info_parser.py:160-164 | copies counted node by node and record by record |
| SetAggregate.SetsOrderDoesNotMatter | api/src/aerospike_cluster_manager_api/info_parser.py:134-158 | any permutation of the nodes gives the same entries |
| SetAggregate.FailedNodesDoNotCount | api/src/aerospike_cluster_manager_api/info_parser.py:134-137 | a failed node changes no entry, the replication divisor included |
| SetAggregate.TallyRecord | api/src/aerospike_cluster_manager_api/info_parser.py:139-158 | one record creates or updates its set's entry |
| Hydration.NoWaiterStranded | ui/src/stores/cluster-selector-store.ts:79-163 | in every run of overlapping hydrations the only unresolved promise is the cached one, and its priming call is in flight; with none in flight every promise is resolved |
| Hydration.PendingUntilSettled | ui/src/stores/cluster-selector-store.ts:90-98 | a pending promise stays so exactly until the next call settles, whichever it is |
| Hydration.AskWaitsIff | ui/src/stores/cluster-selector-store.ts:79-163 | in any run a caller of `getHydrationPromise` is made to wait if and only if a hydration began, not on top of a success, and no call has settled since |
| Hydration.OnePromise | ui/src/stores/cluster-selector-store.ts:79-98 | once there is a promise every run without a failure keeps it |
| Hydration.InFlightIff | ui/src/stores/cluster-selector-store.ts:110-148 | in flight are the calls begun and not settled; each settles once at most |
| Hydration.StoreIff | ui/src/stores/cluster-selector-store.ts:49-59 | in any run the store holds the registry brought last, and shows the error reported last unless a registry was brought since |
| Hydration.ResolvedIffSettled | ui/src/stores/cluster-selector-store.ts:90-98 | one step of that |
| Hydration.StaleFailureReleasesRetry | ui/src/stores/cluster-selector-store.ts:137-148 | a run in which an older call's failure resolves a retry's promise while the retry is in flight |
| Hydration.ActiveClusterIff | ui/src/stores/cluster-selector-store.ts:179-188 | the active cluster: the choice if listed, else the default if listed, else the first, if any |
| Hydration.ChoiceIsActive | ui/src/stores/cluster-selector-store.ts:60-60 | choosing a listed cluster makes it the active one at once |
| Hydration.ChoiceSurvivesHydration | ui/src/stores/cluster-selector-store.ts:49-58 | an arriving registry keeps the user's choice if it lists it |
| Hydration.StepKeepsInv | ui/src/stores/cluster-selector-store.ts:82-163 | every step keeps the promise invariant |
| Hydration.ClusterSelector.EnsurePendingPromise | ui/src/stores/cluster-selector-store.ts:82-88 | single flight: one pending promise at a time |
| Hydration.ClusterSelector.SettleHydration | ui/src/stores/cluster-selector-store.ts:90-98 | resolve the held one, else cache a resolved one |
| Hydration.ClusterSelector.SetRegistry | ui/src/stores/cluster-selector-store.ts:49-58 | the registry, the kept choice and no error |
| Hydration.ClusterSelector.BeginHydrate | ui/src/stores/cluster-selector-store.ts:110-118 | prime, then fetch |
| Hydration.ClusterSelector.FinishHydrate | ui/src/stores/cluster-selector-store.ts:134-136 | store, then settle |
| Hydration.ClusterSelector.FailHydrate | ui/src/stores/cluster-selector-store.ts:137-148 | settle first, then forget the promise |
| Hydration.ClusterSelector.SetCurrentClusterId | ui/src/stores/cluster-selector-store.ts:60-60 | the choice is stored as given |
| Hydration.ClusterSelector.GetHydrationPromise | ui/src/stores/cluster-selector-store.ts:161-163 | the cached promise, else a resolved one |
| PrimaryKey.AutoRead | api/src/aerospike_cluster_manager_api/pk.py:96-148 | over any store: the record returned has a key spelled exactly as requested, the integer one if there is one, and not-found means there is neither |
| PrimaryKey.AutoReadRacing | api/src/aerospike_cluster_manager_api/pk.py:136-148 | what is returned was there, under a key spelled as requested, when it was read, though the store may change between the two reads |
| PrimaryKey.ExplicitNeverFallsBack | api/src/aerospike_cluster_manager_api/pk.py:83-94 | an explicit type reads its own key only, once: the text as given, the integer it spells, the bytes it spells; text that spells none is refused |
| PrimaryKey.AutoIsIntegerIff | api/src/aerospike_cluster_manager_api/pk.py:96-104 | `auto` picks the integer key if and only if the text is a canonical decimal within Python's digit limit |
| PrimaryKey.AutoInjective | api/src/aerospike_cluster_manager_api/pk.py:96-104 | two requests never resolve to one key |
| PrimaryKey.AutoOfShown | api/src/aerospike_cluster_manager_api/pk.py:96-104 | every 64-bit integer key is found by its own text |
| PrimaryKey.HexRoundTrip | api/src/aerospike_cluster_manager_api/pk.py:90-94 | parsing printed hex gives the bytes back |
| PrimaryKey.HexSpells | api/src/aerospike_cluster_manager_api/pk.py:90-94 | what is accepted as hex spells the bytes returned, two digits each in either case, with white space only around bytes |
| PrimaryKey.HexAccepts | api/src/aerospike_cluster_manager_api/pk.py:90-94 | and everything that spells bytes so is accepted |
| PrimaryKey.HexValueIff | api/src/aerospike_cluster_manager_api/pk.py:90-94 | the sixteen digits in either case |
| PyText.SpacesListed | api/src/aerospike_cluster_manager_api/info_parser.py:13-16 | the 29 characters that `strip` removes and `isspace` holds of |
| JsText.SpacesListed | ui/src/components/GuideMarkdown.tsx:104-110 | the 25 characters that `trim` removes and `\s` matches |
| PyInt.RoundTripIff | api/src/aerospike_cluster_manager_api/pk.py:98-101 | `str(int(pk)) == pk` holds exactly for canonical decimals of at most 4300 digits |
| PyInt.ParseOfShow | api/src/aerospike_cluster_manager_api/info_parser.py:49-56 | `int(str(n))` is `n` within that limit |
| PyInt.ParsedPrintable | api/src/aerospike_cluster_manager_api/pk.py:98-101 | whatever `int` accepts `str` prints without raising |
| PyInt.SignedParses | api/src/aerospike_cluster_manager_api/info_parser.py:53-56 | `int` reads decimals of at most 4300 digits, with either sign or none |
| PyInt.GroupedParses | api/src/aerospike_cluster_manager_api/info_parser.py:53-56 | one underscore between digits is skipped, any other refused |
| PyInt.PaddedParses | api/src/aerospike_cluster_manager_api/info_parser.py:53-56 | white space around is skipped |

## Left out

- PatchLoop.PatchWithResourceVersion: the back-off sleeps between attempts are not modelled.
- ClientPool.PoolSafety: task cancellation inside a call, and which connection the shared info cache is invalidated for, are not modelled.
- InfoText.ParseRecords: the order of the keys within one record, which nothing modelled here reads.
- ConnectionUpdates.UpdatesSerialise: one row and one process; PostgreSQL's row lock is the same protocol without readers of uncommitted data.
- Profiles: the JSON text of hosts and labels, other column coercions, label values that are not strings and lower-casing beyond ASCII; workspaces merge the same way.
- PrimaryKey.AutoRead: what the client library does with an integer outside 64 bits, and its errors other than not-found.
- GuideBlocks.RenderBlocks: the React elements and their keys; the empty-document placeholder.
- GuideInline.RenderInline: element keys and attributes other than the link target.
- GuideInline.InlineConserves: where a browser takes an accepted target, which rests on the URL standard and not on this repository.
- Hydration: the reset hook that exists for unit tests, and persisting the choice.
- Passwords: key loading and the ephemeral key, the order of rows in the table.
- PgPasswords.NothingLostIff: one row; deadlocks between the row locks of several updates are not modelled.
- Broker: telemetry counters; an event is its kind and its data.
- Tickets: the returned lifetime in seconds, which is the constant TTL.
- InfoGate: the wording of error messages.
- The retrying status patch of a cluster, which carries no version, so the patch-loop result does not extend to it.
- Routers, models and configuration, telemetry, OpenAPI export, and every other UI component: one-branch decisions, wiring or rendering.
- JWT signature and claim checks, the expression builder and the target policy: their meaning rests on libraries that are not part of this model.
