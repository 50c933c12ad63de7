# Verified model of the Pegma authorization packages

This project models the parts of the Pegma authorization packages whose correctness rests on an argument rather than
on a single function body, and proves those arguments with Dafny 4.11. `dafny verify dfyconfig.toml` checks all of it.

**The audited role store and the last-administrator guard.** `RoleRecords`, `RoleStore`, `RoleReads`, `RoleRebuild`,
`RoleSeeding` and `Administration` give every operation of the role store and of the administration service a program
counter and one step per storage operation. `RoleWorld` interleaves any number of such calls over one store whose
`insertIfAbsent` is atomic, whose every write has a fresh version, and whose transactions are all-or-nothing on one
partition; a refused transaction may report any reason. A run begins with any store whose records agree, the empty one
or one older than its role-holder index, whose rows may then be missing until a rebuild writes them. `RoleStoreSafety`
proves the invariants of one step; `RoleTheorems` states what holds over whole runs, `RoleListings` what a listing is
answered, and `RoleAnswers` what every answer of a grant, a revoke, a seeding, a rebuild and of `revokeRole` says
about the records; `RoleProgress` proves that no call is ever stuck, and `RoleUndisturbed` that a call run alone comes
to exactly the answer the records call for; `TwinGrants` says how two calls with one grant, or two seedings with one
manifest, are answered, and `TwinRuns` exhibits the two runs in which the second seeding is answered `conflict`;
`LastAdministrator` and `SingleService` prove the guard's two safety arguments; `RoleStoreAdapter` and
`AdministrationService` are the store's operations and the service's as methods that update a store in place, with
their exact answers.

**One-use access grants.** `GrantWindow` is the clock arithmetic of a grant's validity window, `Profile` the names and
claims of the grant profile and the text that is signed, `Issuer` the issuer as a class, `Issuance` any number of
issuers sharing a reservation store, `Replay` any number of verifiers sharing a replay store, `GrantLifecycle` both in
one system, and `Jwks` the shared key cache with its interleaved refreshes. Instants and clock readings are real
numbers of milliseconds.

**Strict JSON, canonical printing and key encodings.** `Json` is the grammar of RFC 8259 (sections 2 to 7) as syntax
trees with a yield and a meaning. `JsonParser` is the strict parser as a function on the remaining text and proves
that what it accepts is JSON; `JsonCompleteness` proves the converse; `StrictJsonParser` is the parser as the program
runs it, one position moved forward by loops. `CanonicalJson` is the canonical printer. `StorageKeys` and `Codecs` are
the encodings of storage keys and records. `Access` is the permission resolver, and `Idempotency` the binding of
administrative commands to idempotency keys, which `IdempotentStore` runs together with the role store. `TextOrder` is
JavaScript's string order and the sorted duplicate-free form of a collection; `Prelude` holds the shared vocabulary,
with a string as a sequence of UTF-16 code units.

Findings about the code, each with its lemma:

- The second time check after consumption is needed: two calls can both insert one replay key while every clock agrees
  (`Replay.BothCanInsert`).
- Acceptance is single exactly for verifier clocks at most six seconds behind the store's, one second more than the
  profile's five (`Replay.SingleAcceptanceExactly`), and the retention admits exactly the same six
  (`Replay.RetentionAdmitsOpenWindows`).
- The issuer's five-second reserve is exact (`GrantWindow.ReserveIsExact`), and its two clock reads cannot be swapped
  (`GrantWindow.ReadOrderMatters`).
- The comment at packages/admin/src/index.ts:253-254 says that a concurrent duplicate seeding converges on `unchanged`
  and never ends in a conflict. The code does not keep that promise, on two inputs, each shown as a run from an empty
  store: the first seeding's transaction falls between the second one's reads and its transaction, and the backend
  words the refusal other than `exists` (`TwinRuns.ConflictByWording`); or the first seeding's assignment is granted,
  revoked, and its tuple taken by another id between the second one's history read and its guard read, all refusals
  being worded `exists` (`TwinRuns.ConflictByAnotherHolder`). Those are the only two: a grant whose twin is stored
  when it is answered gets `active_tuple`, and a seeding thereby `conflict`, if and only if its guard read finds
  another holder or its transaction is refused for a reason other than `exists`; otherwise it reports the stored
  assignment (`TwinGrants.TwinGrantConverges`, `TwinGrants.DuplicateSeedings`). At most one of the duplicates is ever
  answered `granted`.

## Model

| member | source | states |
|---|---|---|
| `RoleStoreSafety.GrantStepSafe` | packages/storage/src/role-store.ts:840-997 | Every storage step of a grant keeps the agreement of assignments, tuple guards, audit positions, pointers and holder rows, only evolves the store, and keeps what the call has read true enough to go on. |
| `RoleStoreSafety.RevokeStepSafe` | packages/storage/src/role-store.ts:999-1123 | The same for every storage step of a revoke. |
| `RoleStoreSafety.GrantCommitClaimsFreeTuple` | packages/storage/src/role-store.ts:921-957 | A grant transaction that is not refused claims a tuple no other active assignment holds. |
| `RoleStoreSafety.RevokeCommitFreesTuple` | packages/storage/src/role-store.ts:1041-1094 | A revoke transaction retires the guard of exactly the assignment it revokes, so it strands no other active assignment. |
| `RoleWorld.RunSafe` | packages/storage/src/role-store.ts:840-1123 | The store's records and indexes agree in every state of every interleaving of grants, revokes, reads, rebuilds, seedings and administration calls, from any store in which they agree. |
| `RoleWorld.NeverCorrupted` | packages/storage/src/role-store.ts:239-376 | No call of any run reaches one of the corrupt-record errors. |
| `RoleProgress.EveryCallCanEnd` | packages/storage/src/role-store.ts:840-1123 | No call is ever stuck: from every state of every run the calls under way can go on, none beginning, so that any given call ends; a call waiting in its instance's chain needs only those before it. |
| `RoleProgress.StartedCallCanEnd` | packages/admin/src/index.ts:398-487 | A call that has started can be run alone to its end, from every state in which the store agrees and the call's own facts hold. |
| `RoleUndisturbed.UndisturbedAnswers` | packages/storage/src/role-store.ts:840-1123 | Any call run alone from its start (grant, revoke, listing, by-role read, rebuild, seeding, and `revokeRole` among principals with nonempty ids) is answered exactly as the records it found call for, and leaves what that answer says. |
| `RoleTheorems.OneActiveAssignment` | packages/storage/src/role-store.ts:881-957 | In every reachable state a principal, scope and role have at most one active assignment, and the tuple guard names exactly it, or is absent or empty exactly when there is none. |
| `RoleTheorems.OnePartitionPerId` | packages/storage/src/role-store.ts:852-866 | An assignment id never lives in two partitions. |
| `RoleTheorems.EveryAssignmentIsIndexed` | packages/storage/src/role-store.ts:852-879 | Every stored assignment has its pointer, and its role-holder row too if it was granted during the run or the index was complete when the run began. |
| `RoleTheorems.AuditTrail` | packages/storage/src/role-store.ts:921-957 | Audit position 1 exists exactly for stored assignments and position 2 exactly for revoked ones, with their event ids; there are no other positions. |
| `RoleTheorems.HistoryIsPermanent` | packages/storage/src/role-store.ts:1052-1094 | Over a run grant evidence never changes and a revoked record never changes again. |
| `RoleTheorems.RevocationFollowsGrant` | packages/storage/src/role-store.ts:1037-1094 | A stored revocation carries its event id and is not dated before the grant. |
| `RoleTheorems.ActiveTupleWasHeld` | packages/storage/src/role-store.ts:881-979 | A grant answers `active_tuple` only if an active assignment held that tuple at some instant of the call, on all paths to that answer and whatever reason the backend reports. |
| `RoleAnswers.GrantAnswersTruly` | packages/storage/src/role-store.ts:840-997 | In every run, each answer of a grant is given exactly when the step it stood at and the store at that instant call for it: `assignment_id`, `event_id`, `active_tuple`, `unchanged` and `granted` in both directions, the conflict named for another grant that landed first included. |
| `RoleAnswers.RevokeAnswersTruly` | packages/storage/src/role-store.ts:999-1123 | The same for a revoke: `not_found`, `unchanged`, `lifecycle`, `concurrency`, `event_id` and `revoked`, in both directions, each wording of a refused transaction included; a transaction is refused exactly when its record or its guard has moved. |
| `TwinGrants.TwinGrantConverges` | packages/storage/src/role-store.ts:881-979 | In every run, a grant answered while its assignment is stored under the same event id is answered `active_tuple` if and only if its guard read found another holder or its transaction was refused for a reason other than `exists`; otherwise it reports the stored assignment. |
| `TwinGrants.TwinGrantAnswers` | packages/storage/src/role-store.ts:881-979 | The same for a grant whose assignment is stored at any later instant of the run, with the one further case of a record reported as existing and not found. |
| `TwinGrants.DuplicateSeedings` | packages/admin/src/index.ts:241-290 | Of seedings with one manifest, whatever they interleave with, at most one is answered `granted`; another is answered `conflict` exactly when its grant was blocked in one of those ways, and otherwise `already` or asked to retry its history read. |
| `TwinGrants.DuplicateSeedingConflicts` | packages/admin/src/index.ts:253-254 | Where the seeded assignment is stored by then, being blocked means another holder at the guard read, the seeded assignment having been revoked, or a refusal worded other than `exists`. |
| `TwinRuns.ConflictByWording` | packages/admin/src/index.ts:253-254 | A run from the empty store in which two seedings of one manifest interleave and the second ends in a conflict although the assignment both asked for is stored and active. |
| `TwinRuns.ConflictByAnotherHolder` | packages/admin/src/index.ts:253-254 | A run from the empty store with every refusal worded `exists` in which the second seeding still ends in a conflict. |
| `TwinGrants.SeedingNeverRestores` | packages/admin/src/index.ts:232-264 | In every run, a seeding begun where the role was ever assigned to the principal, revoked or not, never begins to grant. |
| `RoleSeeding.SeedStepSafe` | packages/admin/src/index.ts:256-290 | Every step of a seeding keeps the store's agreement and what the seeding relies on, and it never meets a corrupt record. |
| `RoleAnswers.SeedingAnswersTruly` | packages/admin/src/index.ts:256-290 | In every run, a seeding answered `granted` or `already` leaves a role that was in fact assigned. |
| `RoleTheorems.GrantedOnce` | packages/storage/src/role-store.ts:921-997 | Over a whole run at most one call is answered `granted` for an id, counting grants, seedings and compensations. |
| `RoleTheorems.GrantReplayWritesNothing` | packages/storage/src/role-store.ts:907-919 | Once its assignment is stored, no step of any grant of that id changes a record; the one thing it may write is that assignment's missing role-holder row. |
| `RoleTheorems.RevokeReplayWritesNothing` | packages/storage/src/role-store.ts:1017-1034 | Once its assignment is revoked, no step of any revoke of that id changes a record. |
| `RoleTheorems.ListingIsSnapshot` | packages/storage/src/role-store.ts:425-454 | A principal listing that returns reports assignments that all stood together at the instant its list read ended, though rows are confirmed one by one while others write, and misses none stored before it began. |
| `RoleListings.RetryMeansMoved` | packages/storage/src/role-store.ts:425-454 | A listing, a seeding's history included, asks for a retry only if a row that stood at one instant of the call stood no more at a later one. |
| `RoleListings.QuietListingIsExact` | packages/storage/src/role-store.ts:633-658 | While nobody writes, a listing never asks for a retry and returns the partition's rows, all of them and no others. |
| `RoleReads.ConfirmedAtEnd` | packages/storage/src/role-store.ts:436-449 | A listed row found equal by a later point read was equal at every instant between. |
| `RoleTheorems.ByRoleReadIsExact` | packages/storage/src/role-store.ts:661-740 | A by-role read under concurrency reports only assignments active at some instant of the call, and every one active and indexed throughout. |
| `RoleTheorems.QuietByRoleReadIsScan` | packages/storage/src/role-store.ts:661-740 | While nothing else writes, the by-role read reports exactly the active assignments that have a role-holder row; with a complete index that is a scan of all partitions. |
| `RoleTheorems.RebuildCompletes` | packages/storage/src/role-store.ts:742-776 | From the instant a rebuild ends every assignment of the application has its role-holder row, whatever was granted and revoked during the rebuild and after it. |
| `RoleTheorems.ByRoleReadAfterRebuild` | packages/storage/src/role-store.ts:661-776 | A by-role read begun after a rebuild misses no assignment active throughout, and equals the scan of all partitions while nothing else writes. |
| `RoleTheorems.RebuildOfCompleteRecordsNothing` | packages/storage/src/role-store.ts:742-776 | A rebuild begun over a complete index records nothing, whatever is granted and revoked meanwhile. |
| `RoleAnswers.RebuildCountsItsRows` | packages/storage/src/role-store.ts:742-776 | However it is interleaved, a rebuild reports exactly as many rows as it has itself written. |
| `RoleRebuild.RebuildStepSafe` | packages/storage/src/role-store.ts:481-503 | Every step of a rebuild, its confirmation of the listed pointers included, keeps the store's agreement, loses track of no missing row, and finds nothing moved or corrupt. |
| `RoleStoreAdapter.BoundStore.GrantRoleAssignmentWithAudit` | packages/storage/src/role-store.ts:840-997 | Run undisturbed, a grant gives the answer the records call for, and adds exactly its assignment, guard and audit position, or changes no record; an id that is not elsewhere is left with its pointer and role-holder row, and nothing else is indexed. |
| `RoleStoreAdapter.BoundStore.RevokeRoleAssignmentWithAudit` | packages/storage/src/role-store.ts:999-1123 | The same for a revoke. |
| `RoleStoreAdapter.BoundStore.RebuildRoleHolderIndex` | packages/storage/src/role-store.ts:742-776 | Run undisturbed, a rebuild confirms the pointers, writes exactly the missing holder rows, counts them, leaves none missing and the store in agreement; over a complete index it records nothing. |
| `RoleStoreAdapter.BoundStore.ListRoleAssignments` | packages/storage/src/role-store.ts:633-658 | Run undisturbed, the loops over the partition's rows return exactly the assignments stored there, active or revoked. |
| `RoleStoreAdapter.BoundStore.ListActiveRoleAssignmentsByRole` | packages/storage/src/role-store.ts:661-740 | Run undisturbed, the loop over the role-holder rows returns exactly the active assignments that have a row. |
| `RoleStoreAdapter.BoundStore.EnsureSeededAssignment` | packages/admin/src/index.ts:256-290 | Run undisturbed, seeding changes nothing where the role was ever assigned, active or revoked; elsewhere it grants, or reports a conflict exactly for an id that is another assignment's. |
| `RoleSeeding.SeededForEver` | packages/admin/src/index.ts:241-254 | A role once assigned counts as assigned for good, so a revoked one is never seeded again. |
| `RoleRebuild.CompleteWhenNoneMissing` | packages/storage/src/role-store.ts:742-776 | Every assignment has its holder row exactly when the set of rows a rebuild would write is empty. |
| `Administration.ScanAnswersTruly` | packages/admin/src/index.ts:348-386 | The search for another holder says yes only when it has just read an active one outside the excluded principal. |
| `Administration.ScanKeepsHolder` | packages/admin/src/index.ts:348-386 | It does not miss an indexed holder that stays active throughout. |
| `Administration.AdminStepSafe` | packages/admin/src/index.ts:398-487 | Every step of `revokeRole` keeps the store's agreement and the facts the call relies on. |
| `RoleAnswers.AdminAnswersTruly` | packages/admin/src/index.ts:398-487 | In every run, `revoked` (and the failure to compensate) means that the record is revoked by the command's actor for its reason; `already_revoked` that it is revoked; `system_managed` that it was granted by a system actor other than the guard, the bootstrap ceremony and the policy's one-time actors. |
| `RoleAnswers.AdminReadDecides` | packages/admin/src/index.ts:398-418 | In every run, what `revokeRole` does on reading the record is decided by the record and the policy alone, in all five ways: absent, revoked, locked, an administrator's, or any other. |
| `RoleAnswers.GuardRefusesTruly` | packages/admin/src/index.ts:348-418 | In every run, `revokeRole` answers `last_administrator` only if no other principal's administrator of the scope, in the holder index, stayed one throughout the call. |
| `Administration.NeverLocked` | packages/admin/src/index.ts:201-213 | An assignment granted by a person, or by the guard's compensation, is never system-managed. |
| `LastAdministrator.RemovalIsGuarded` | packages/admin/src/index.ts:398-487 | The step that removes a scope's last administrator is the commit of a service revoke, which thereby is restoring one. |
| `LastAdministrator.AdministratorLossIsBeingRestored` | packages/admin/src/index.ts:398-487 | With any number of service instances, from any store in agreement and any state of its holder index: once a scope has had an administrator, whenever it has none the call that committed the last removal is still running and has neither verified a holder nor failed its compensation. |
| `LastAdministrator.AdministratorRemains` | packages/admin/src/index.ts:398-487 | When no revoke is running, such a scope has an administrator. |
| `SingleService.OneRevokeAtATime` | packages/admin/src/index.ts:388-396 | An instance's promise chain runs its revokes one at a time, whatever became of earlier ones. |
| `SingleService.NeverLosesLastAdministrator` | packages/admin/src/index.ts:348-446 | When one instance's calls alone revoke administrators and principal ids are nonempty, no step takes a scope from some administrators to none, whatever other instances do to other roles and whatever rows the holder index lacks. |
| `SingleService.NeverCompensates` | packages/admin/src/index.ts:438-487 | In that setting the instance never begins compensation, and none of its revokes reports one. |
| `AdministrationService.RoleAdministration.AnotherActiveHolderExists` | packages/admin/src/index.ts:348-386 | Undisturbed, the by-role read and the second read of each candidate find another holder exactly when the index shows one. |
| `AdministrationService.AnotherOfAll` | packages/admin/src/index.ts:348-386 | With a complete role-holder index that is exactly when there is one. |
| `AdministrationService.RoleAdministration.RevokeRole` | packages/admin/src/index.ts:398-487 | Undisturbed, `revokeRole` gives the answer the records call for and leaves no scope without the administrator it had; it answers `system_managed` exactly for an active record granted by a system actor that is neither the guard, nor the bootstrap ceremony, nor one-time; a refusal changes nothing, and anything else leaves the record ended by the command's actor, at the time given, for its reason. |
| `AdministrationService.AdministratorsRemain` | packages/admin/src/index.ts:411-431 | A revoke the guard lets through leaves an administrator in every scope that had one. |
| `JsonParser.TreeSound` | packages/tokens/src/internal.ts:255-371 | What the parser accepts at the head of a text is the yield of a well-formed tree without repeated names, followed by what it left. |
| `JsonCompleteness.TreeComplete` | packages/tokens/src/internal.ts:255-371 | Given any well-formed value's text and a legal continuation, the parser finds exactly that tree, or reports a duplicate field if some object repeats a name. |
| `JsonCompleteness.AcceptsExactlyJson` | packages/tokens/src/internal.ts:236-387 | The strict parser returns a value exactly for JSON texts (RFC 8259, sections 2 to 7) in which no object at any depth repeats a name after unescaping, and the value is the grammar's. |
| `JsonCompleteness.RepeatedNameIsReported` | packages/tokens/src/internal.ts:267-300 | A JSON text is refused for a duplicate field exactly when some object in it repeats a name. |
| `JsonCompleteness.OneValue` | packages/tokens/src/internal.ts:236-387 | A text has at most one value: the grammar with distinct names is unambiguous. |
| `StrictJsonParser.Parser.Parse` | packages/tokens/src/internal.ts:236-253 | The parser object, whose methods move one position forward, computes that function and terminates. |
| `StrictJsonParser.Parser.ObjectMembers` | packages/tokens/src/internal.ts:279-299 | The loop of `#object`, with its set of names, reads exactly the members the grammar gives. |
| `StrictJsonParser.Parser.ArrayItems` | packages/tokens/src/internal.ts:310-320 | The loop of `#array` reads exactly the elements the grammar gives. |
| `StrictJsonParser.Parser.String` | packages/tokens/src/internal.ts:323-356 | The scan accepts exactly the well-formed string literals, and its decoded slice is the string's meaning. |
| `StrictJsonParser.UnescapeMeaning` | packages/tokens/src/internal.ts:329-335 | Replacing the escapes of an accepted literal yields the meaning of its characters. |
| `CanonicalJson.TreeOfValue` | examples/reference-api/reference-integration.ts:171-200 | A canonical text is the yield of a well-formed tree, without repeated names, that means the printed value. |
| `CanonicalJson.CanonicalIsCompact` | examples/reference-api/reference-integration.ts:171-200 | A canonical text holds no whitespace outside strings, every object's names ascend unit by unit, and numbers and characters are written without fraction, exponent or needless escape. |
| `CanonicalJson.ParsingUndoesPrinting` | examples/reference-api/reference-integration.ts:171-200 | Strict parsing undoes canonical printing for every value whose numbers are safe integers other than negative zero. |
| `CanonicalJson.CanonicalTextsIdentifyValues` | examples/reference-api/reference-integration.ts:171-200 | Canonical texts are equal exactly when the values are equal, object members being unordered. |
| `CanonicalJson.KeyOrderIsImmaterial` | examples/reference-api/reference-integration.ts:189-198 | Any sorted listing of an object's names prints it as the canonical text. |
| `CanonicalJson.ParsingUndoesStringifying` | packages/tokens/src/issuer.ts:452-467 | Strict parsing also undoes printing an object's members in the order they were given. |
| `CanonicalJson.CharsOfText` | examples/reference-api/reference-integration.ts:173-173 | A quoted string, with short escapes, hexadecimal escapes of controls and lone surrogates, and surrogate pairs as they are, means the string it was made from. |
| `TextOrder.LessByPosition` | packages/core/src/index.ts:137-139 | A text comes before another exactly if it is a proper beginning of it, or has the smaller unit where the two first differ. |
| `TextOrder.SortedUnique` | packages/core/src/index.ts:137-139 | A sorted duplicate-free list is determined by its elements. |
| `TextOrder.UniqueSorted` | packages/core/src/index.ts:137-139 | Collecting distinct values and sorting them gives that list: the same values, and of any two the one that comes before stands before. |
| `Replay.ReplayConsumer.Consume` | packages/tokens/src/replay.ts:104-151 | A consumption succeeds exactly when its retention window is open and its key is not remembered, and then remembers the key through expiry plus five seconds. |
| `Replay.ReplayConsumer.VerifyAndConsume` | packages/tokens/src/verifier.ts:285-296 | Undisturbed, a grant is accepted exactly when both window checks and the consumption between them pass. |
| `Replay.CheckDecides` | packages/tokens/src/verifier.ts:241-254 | In every run, a window check passes, before and after the consumption, exactly from five seconds before the issue date until the expiry date. |
| `Replay.ClockDecides` | packages/tokens/src/replay.ts:104-119 | In every run, the replay clock is accepted exactly through the fifth second after the expiry date. |
| `Replay.InsertDecides` | packages/tokens/src/replay.ts:120-151 | In every run, a key is consumed exactly if the store does not remember it, and is then remembered through the fifth second after the expiry. |
| `Replay.AtMostOneAcceptance` | packages/tokens/src/verifier.ts:285-296 | Over all verifiers sharing a store, with outages and a store that forgets records whose retention has passed, each grant is accepted by at most one call, for clocks at most six seconds behind the store's. |
| `Replay.BothCanInsert` | packages/tokens/src/replay.ts:104-124 | Between reading the replay clock and inserting, a record can be dropped, so two calls can both insert one key while all clocks agree. |
| `Replay.LateCheckFails` | packages/tokens/src/verifier.ts:241-254 | A window check made after the retention has passed fails. |
| `Replay.SingleAcceptanceExactly` | packages/tokens/src/verifier.ts:241-296 | Acceptance is single in every run if and only if clocks are at most six seconds behind. |
| `Replay.RetentionAdmitsOpenWindows` | packages/tokens/src/replay.ts:105-119 | No grant in its window is refused as past its retention if and only if the replay clock is at most six seconds ahead. |
| `GrantWindow.AcceptedBeforeTheDeadline` | packages/tokens/src/issuer.ts:313-338 | Any acceptance by a verifier at most five seconds behind lies strictly before the source's monotonic deadline, through both floors, the cap, and a pause between the two clock reads. |
| `GrantWindow.ReserveIsExact` | packages/tokens/src/issuer.ts:325-330 | That holds of every issuance and acceptance if and only if the offset is at most five seconds. |
| `GrantWindow.AllowanceIsExact` | packages/tokens/src/verifier.ts:247-251 | The test of `iat` turns no issued grant away, for a verifier at most five seconds behind and for no slower one. |
| `GrantWindow.ReadOrderMatters` | packages/tokens/src/issuer.ts:314-316 | With the two clock reads the other way round a grant can be accepted after the deadline. |
| `GrantWindow.ReadGrantWindow` | packages/tokens/src/issuer.ts:313-338 | Plumbing: a window has valid numeric dates and a lifetime from one to thirty seconds; `GrantWindow.WindowIsExact` says which. |
| `GrantWindow.WindowIsExact` | packages/tokens/src/issuer.ts:313-338 | The window begins with the second the wall clock shows and lasts the greatest number of seconds, up to thirty, that leaves the source five more; it is given exactly when there is such a one. |
| `GrantWindow.WindowIsGiven` | packages/tokens/src/issuer.ts:325-337 | A window takes six whole seconds of source lifetime and a wall clock past its first second, and nothing else but room for the dates. |
| `Profile.PermissionShape` | packages/tokens/src/internal.ts:137-143 | The permission pattern matches exactly the texts of lower-case letters, digits and separators that begin with a letter and have a letter or digit behind every separator, a letter behind a dot. |
| `Profile.CodePointsCounted` | packages/tokens/src/internal.ts:123-131 | The length bound on identities counts every unit once and every surrogate pair once only. |
| `Profile.CanonicalPermissionsAreSorted` | packages/tokens/src/internal.ts:156-167 | Comparing neighbours is enough: the canonical lists are the nonempty sorted duplicate-free lists of permissions. |
| `Profile.CanonicalPermissionsResult` | packages/tokens/src/internal.ts:145-154 | The canonical form keeps exactly the given permissions and is canonical unless nothing was given. |
| `Profile.RandomIdentifierIsCanonical` | packages/tokens/src/issuer.ts:437-444 | Any 32 random bytes encode to an identifier the profile accepts. |
| `Profile.Base64UrlInjective` | packages/tokens/src/issuer.ts:437-444 | Distinct random bytes make distinct identifiers. |
| `Profile.ClaimsAreReadExactly` | packages/tokens/src/verifier.ts:141-169 | The claims check reads claims from a payload exactly when they are valid and the payload has the profile's fields with their values. |
| `Profile.ReadClaimsAreBounded` | packages/tokens/src/verifier.ts:141-169 | Claims are read exactly if their dates are positive safe integers one to thirty seconds apart, their names and identifier have the profile's shapes, and their permissions are listed each once and in order. |
| `Profile.PayloadIsReadBack` | packages/tokens/src/issuer.ts:452-467 | The text that is signed parses strictly, and to the same claims. |
| `Profile.PayloadsIdentifyClaims` | packages/tokens/src/issuer.ts:452-467 | Distinct claims are never signed as one text. |
| `Issuer.GuardedMonotonicClock.Sample` | packages/tokens/src/internal.ts:400-418 | A sample answers with its reading unless the clock has failed or fails now, on a reading that is no number, negative or earlier than the last. |
| `Issuer.SamplesAscend` | packages/tokens/src/internal.ts:389-418 | A clock still alive has answered every reading so far, in ascending order. |
| `Issuer.FailureIsFinal` | packages/tokens/src/internal.ts:400-403 | Plumbing: a failed clock stays failed. |
| `Issuer.PolicyPairsInjective` | packages/tokens/src/internal.ts:201-203 | Policy pairs may be compared by their text. |
| `Issuer.AccessGrantIssuer.ReadEnds` | packages/tokens/src/issuer.ts:341-369 | Plumbing: a source read is registered exactly when its lifetime and scope are well formed, with its deadline counted from the sample before the read. |
| `Issuer.AccessGrantIssuer.BindSourceAuthorization` | packages/tokens/src/issuer.ts:371-386 | Plumbing: a read is bound exactly when this issuer made it and its clock has not failed. |
| `Issuer.AccessGrantIssuer.Admit` | packages/tokens/src/issuer.ts:388-433 | Plumbing: the checks before the first clock read pass exactly for accepted sources and authorized requests. |
| `Issuer.AccessGrantIssuer.Issue` | packages/tokens/src/issuer.ts:388-485 | A grant is issued exactly when source and request are accepted, all three windows are open and the identifier is free; its claims are valid, dated by the exact window of the second readings, confined to what source and audience allow, not expired at the end, and named by the newly reserved identifier. |
| `Issuer.WindowAtIsExact` | packages/tokens/src/issuer.ts:313-338 | An issuer has a window exactly on a clock that lives, at a reading that is a number and not before the last, and it is the exact one of the source's remaining lifetime. |
| `Issuer.AuthorizedChoices` | packages/tokens/src/issuer.ts:388-433 | For an accepted source exactly the nonempty choices from its permissions and the audience's are authorized. |
| `Issuer.CanIssueExactly` | packages/tokens/src/issuer.ts:388-485 | What `issue` needs, in full: a sound source of this application under an accepted policy, a nonempty choice both sides allow, three ascending clock readings that each leave a window, 32 random bytes whose identifier is free, a text of at most 8192, and a second date still ahead at the end. |
| `Issuer.ReservationStore.Reserve` | packages/tokens/src/jti-reservation.ts:82-109 | Plumbing: a reservation succeeds exactly when the store answers and the identifier was free; nothing is ever released. |
| `Issuance.IssuedGrantsDiffer` | packages/tokens/src/jti-reservation.ts:82-109 | No two grants issued in any interleaving share issuer, application and identifier, even if the random source repeats. |
| `Issuance.ReserveDecides` | packages/tokens/src/jti-reservation.ts:82-109 | In every run, a reservation is refused exactly for an identifier already reserved under the issuer and application. |
| `Issuance.ReservedHasCause` | packages/tokens/src/jti-reservation.ts:82-109 | In every run, an identifier is reserved exactly when some call reserved it, its answer lost or not. |
| `Issuance.SignDecides` | packages/tokens/src/issuer.ts:313-338 | In every run, a grant is signed exactly if the readings give a window, and with that window's dates. |
| `Issuance.HandOutDecides` | packages/tokens/src/issuer.ts:452-485 | In every run, a signed grant is handed out exactly if its text is at most 8192 characters and it has not expired by then. |
| `Issuance.IssuedGrantsAreAcceptable` | packages/tokens/src/issuer.ts:388-485 | Every issued payload re-parses to the same claims, passes every claim check, and carries a nonempty sorted choice from both the source's and the audience's permissions. |
| `Issuance.OneGrantPerReplayKey` | packages/tokens/src/replay.ts:42-52 | So at most one issued grant has any given replay key. |
| `GrantLifecycle.EachGrantAcceptedAtMostOnce` | packages/tokens/src/verifier.ts:285-296 | In the joint system of issuers and verifiers, an accepting call was presented a grant that had been issued, and no other call ever accepts that grant, for clocks at most six seconds behind the replay store's. |
| `Jwks.JwksCache.Resolve` | packages/tokens/src/jwks.ts:306-354 | Plumbing: up to its first wait a call samples the clock, answers from fresh keys, honours the unknown-key cooldown, and joins or starts a refresh. |
| `Jwks.StartDecides` | packages/tokens/src/jwks.ts:306-354 | In every run, a call begun on a clock that does not live fails; a key held from a load begun less than the maximum age before is returned at once, without a load; an unknown key is refused during the cooldown; and in all other cases the call waits, for the load in flight or for one it begins. |
| `Jwks.SettleDecides` | packages/tokens/src/jwks.ts:395-411 | In every run, a load that settles replaces the keys by its document exactly if it has one and the clock is alive, and else leaves the cache as it is. |
| `Jwks.RefreshDecides` | packages/tokens/src/jwks.ts:379-393 | In every run, a waiting call is told whether its own load succeeded. |
| `Jwks.ResolveDecides` | packages/tokens/src/jwks.ts:318-341 | In every run, a call returns its key after a refresh exactly if the refresh succeeded, the clock is alive and the keys then held include it. |
| `Jwks.EveryResolveCanEnd` | packages/tokens/src/jwks.ts:306-393 | No call is ever stuck: from every reachable state it can be brought to its end. |
| `Jwks.OneLoadAtATime` | packages/tokens/src/jwks.ts:379-393 | However calls interleave, at most one load is in progress. |
| `Jwks.FlightIsOwned` | packages/tokens/src/jwks.ts:379-393 | A refresh in flight is always cleared by a call still waiting for it, though its load may have settled. |
| `Jwks.KeysAreOneDocument` | packages/tokens/src/jwks.ts:395-411 | The keys are exactly the document of the last load that succeeded: replaced whole, never merged. |
| `Jwks.LoadedAtAdvances` | packages/tokens/src/jwks.ts:395-411 | `loadedAt` never moves back. |
| `Jwks.ActiveMeansRecent` | packages/tokens/src/jwks.ts:295-304 | `assertActive` passes exactly on a living clock whose keys come from a load, the last that succeeded, begun less than the maximum age before. |
| `Jwks.MaxAgeIsLeast` | packages/tokens/src/jwks.ts:288-293 | In every run, the maximum age in force is the least of the first and of all those it was tightened to. |
| `Jwks.AnswersAreFetched` | packages/tokens/src/jwks.ts:306-341 | A key that was returned was in a document some load fetched, under the name asked for. |
| `Jwks.UnknownKeysAreSpaced` | packages/tokens/src/jwks.ts:343-354 | Between two refreshes begun for unknown keys five seconds pass, unless a call whose key has disappeared restarts the cooldown in between. |
| `Jwks.CooldownHasCause` | packages/tokens/src/jwks.ts:318-354 | In every run, a cooldown in force was set by a refresh for an unknown key, or by a key that disappeared, and ends five seconds after that call's reading. |
| `Jwks.NoKeyAfterClockFailure` | packages/tokens/src/jwks.ts:356-377 | After a clock failure no call ever returns a key again. |
| `StorageKeys.SegmentsAreReversible` | packages/storage/src/collections.ts:95-104 | Segment escaping is reversible. |
| `StorageKeys.SegmentsAreSafe` | packages/storage/src/collections.ts:95-104 | An encoded segment holds no separator, slash, backslash, hash, question mark or control character, and a segment without those and the percent sign is left as it is. |
| `StorageKeys.PartitionsInjective` | packages/storage/src/collections.ts:198-200 | A partition key determines its application, principal and scope, application versus organization included. |
| `StorageKeys.RecordKeysInjective` | packages/storage/src/collections.ts:198-218 | Two records share a storage key exactly when they are the same record; kinds never collide. |
| `StorageKeys.PointerKeysInjective` | packages/storage/src/collections.ts:529-542 | Pointer keys are injective. |
| `StorageKeys.HolderKeysInjective` | packages/storage/src/collections.ts:565-584 | Role-holder keys are injective. |
| `StorageKeys.IdentityLinkKeysInjective` | packages/storage/src/collections.ts:644-653 | Identity-link keys are injective. |
| `StorageKeys.EncodeStorageKeyPart` | packages/tokens/src/internal.ts:211-217 | The loop computes the fixed-width hexadecimal form. |
| `StorageKeys.KeyPartsInjective` | packages/tokens/src/internal.ts:211-217 | That form is injective, lone surrogates included. |
| `StorageKeys.ReplayKeysInjective` | packages/tokens/src/replay.ts:42-52 | Replay storage keys determine issuer, application, audience and identifier. |
| `StorageKeys.ReservationKeysInjective` | packages/tokens/src/jti-reservation.ts:22-31 | Reservation storage keys determine issuer, application and identifier. |
| `Codecs.DecodingInvertsEncoding` | packages/storage/src/collections.ts:286-489 | A stored record is read as `r` exactly when `r` is well formed and the record is what `r` is written as. |
| `Codecs.RoundTrip` | packages/storage/src/collections.ts:426-489 | What a record is written as is read back as it exactly when it is well formed. |
| `Codecs.RowDecodingInvertsEncoding` | packages/storage/src/collections.ts:508-526 | The same for pointer and role-holder rows, all of which are well formed. |
| `Access.ResolveAccess` | packages/core/src/index.ts:178-243 | Resolution fails exactly for blank names, and otherwise returns the sorted context and the sorted unknown names; the permissions are exactly those granted, the ones that come before standing before. |
| `Access.Collect` | packages/core/src/index.ts:199-230 | Each of its two loops adds exactly the permissions of the known names and keeps the unknown ones in order. |
| `Access.PermissionsAreExactlyGranted` | packages/core/src/index.ts:178-243 | The permissions are the union of defaults and of the permissions of known roles and entitlements, each once, in the order of their units. |
| `Access.OrderAndRepetitionAreImmaterial` | packages/core/src/index.ts:178-243 | Reordering or repeating anything in the lists changes neither context nor text. |
| `Access.UnknownNamesGrantNothing` | packages/core/src/index.ts:199-230 | Names the policy does not know never change the permissions. |
| `Access.SerializationIsFaithful` | packages/core/src/index.ts:276-294 | A context's text is strict JSON for it and tells every two contexts apart. |
| `Idempotency.FingerprintsIdentifyCommands` | examples/reference-api/reference-integration.ts:743-750 | Two commands have one fingerprint exactly when they are the same command. |
| `Idempotency.AdministrativeCommands.Bind` | examples/reference-api/reference-integration.ts:490-529 | Plumbing: a key is bound once; the same fingerprint finds the binding, another is refused. |
| `Idempotency.AdministrativeCommands.Enqueue` | examples/reference-api/reference-integration.ts:514-524 | Plumbing: an attempt goes behind the tail it finds and becomes the tail. |
| `Idempotency.OneCommandPerKey` | examples/reference-api/reference-integration.ts:490-529 | Retries let past a key all carry one command; any other command is turned away and never reaches the store. |
| `Idempotency.SubmitDecides` | examples/reference-api/reference-integration.ts:490-529 | In every run, a retry is turned away exactly if its key is bound to another command; else the key is bound to its own. |
| `Idempotency.EveryRetryCanEnd` | examples/reference-api/reference-integration.ts:510-527 | No retry is ever stuck behind a queue: from every reachable state it can be brought to its end. |
| `Idempotency.OneExecutionAtATime` | examples/reference-api/reference-integration.ts:510-527 | Retries of one key are executed one at a time, even when earlier attempts fail. |
| `Idempotency.ManifestsShareNoId` | examples/reference-api/reference-integration.ts:480-489 | Manifests of different keys share no generated id. |
| `Idempotency.ManifestIsPermanent` | examples/reference-api/reference-integration.ts:490-529 | A key's command never changes, nor does its manifest once it is prepared: all retries share one manifest over time. |
| `IdempotentStore.StoreCallsDoNotOverlap` | examples/reference-api/reference-integration.ts:510-527 | Two retries of a key are in the store at the same time only after one of them lost its answer. |
| `IdempotentStore.NothingElseIsAwaited` | examples/reference-api/reference-integration.ts:510-524 | An attempt whose turn has come can always send its store command. |
| `IdempotentStore.GrantedAtMostOnce` | examples/reference-api/reference-integration.ts:739-808 | In the joint system of retries and role store, whatever interleaves, fails or is lost, at most one retry of a key is ever answered `granted`. |

## Left out

- Role store: identity links, the retry wording of errors, and the sorted order of listed answers; a listing is a map here, and rows are confirmed and verified in any order, which covers the source's batches.
- Role store: `listRoleAssignmentAuditEvents`; it is a non-atomic read, and `RoleTheorems.AuditTrail` says what it finds while nothing writes.
- Administration: the host-provided `holderIndex`, `viewGrants`, `listHistory`, and `assignRole` beyond the grant it makes. Two seedings with different ids can race past the history read, as the source allows; `TwinGrants.SeedingNeverRestores` speaks of records stored when the history read begins.
- Administration: a service instance that crashes between its revoke and its re-verification; the source documents that window.
- Clocks of the role store: `now` is taken to give a non-negative safe integer.
- The storage backend, network fetch, HTTP server, signatures and `jose`: a backend is the abstract object described above, a key set is a fetched and validated document, and a signed grant is its claims.
- UTF-8, byte-order marks and base64url decoding of whole segments: texts are sequences of UTF-16 units, and the header of a grant is not modelled.
- JavaScript object mechanics (descriptors, prototypes, freezing, weak maps): values are immutable, and a handle unknown to an issuer stands for one that belongs to another.
- Numbers written with a fraction, an exponent or beyond the safe integers, and negative zero, are kept as their text; the claim checks of this model refuse them, where the source would accept an integer written with an exponent.
- Canonical printing of such numbers is not part of this model. (The source prints negative zero as zero, so those two values share a text.)
- Json.NumberMeaning: a number's value is an integer only when it is written as one.
- StrictJsonParser.Parser.NumberHere: the regular expression is the function that finds the longest number.
- Permission, policy and key-id patterns are predicates on units; the expressions' compilation is not modelled.
- The JWKS cache's sharing between verifiers, and its URL and redirect checks.
- Replay.AtMostOneAcceptance: says nothing of calls that all fail; a grant may be burned without being accepted.
- Issuance: the issuer's monotonic readings are arbitrary there; their order is the subject of `Issuer.SamplesAscend`.
- Idempotency: the manifest lives in one process, as in the source, and authorization of the acting principal comes before it.
- Identity adapters, Stripe translation, policy diagnostics and the conformance suite: input-shape checks that would add easy members.
