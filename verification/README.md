# A verified model of the device daemon

The daemon keeps credentials, sessions, approvals and provider processes in step while several clients talk to it
and while it may die at any moment. This project models the parts where that is hard and proves what they promise
over every run: which steps exclude each other, what is written at most once, what survives a crash, and what two
independent pieces of code agree on. `dafny verify dfyconfig.toml` checks all of it.

The pattern is the same throughout. State that the program keeps in tables or under a lock is a value; each
transaction or critical section is a total function of it; a run folds any sequence of such steps, so that
interleavings, stale reads, timeouts, crashes and restarts are just sequences. What each step comes to is stated once
more from the state alone: exactly when it succeeds, exactly what it leaves different and what a refusal says; and
whole commands are followed step by step to show that they go through. Beside these functions stand classes
whose methods work the way the program does, statement by statement, with loops and rollbacks, and are proved to do
exactly what the functions say.

| component | files |
|---|---|
| credential and session store | `StoreModel`, `StoreInvariants`, `StoreRuns`, `StoreTheorems`, `SessionTheorems`, `StoreOutcomes`, `StoreCommands`, `StoreObject`, `SessionDomain` |
| approval dispatch | `Approval`, `ApprovalRuns` |
| Codex runtime manager, turns, JSON-RPC client | `RuntimeManager`, `RuntimeRuns`, `Turns`, `Rpc` |
| materialization and its recovery | `Materialization` |
| controller lease, output ring | `Lease`, `LeaseRuns`, `Ring`, `RingRuns` |
| codecs and the vault | `Json`, `Vault`, `VaultStore`, `Aead` |

What the model takes as given:

- One connection serialises transactions (internal/storage/store.go:72), so each `withTx` body is one step. Where the
  code reads outside a transaction and acts on it later, be it a status, an approval, a lease row or the clock, the
  read and the rest are two steps with any others in between.
- Generated identifiers do not repeat. Keys, foreign keys and checks are those of migrations/device. The one key left
  out of the deletion check, from materializations to credentials, can never stand against it (`UsedNeverPlaceholder`).
- Times are integers. Deadlines that the database compares as text are left to chance (a `live` flag), because
  RFC 3339 text with a varying number of fractional digits does not sort in time order (section 5.1 of RFC 3339);
  deadlines compared in Go are compared.
- A digest is a number compared for equality. Only the vault's additional data needs to be free of collisions, and
  there its bytes are compared.
- The cipher is ideal: a ciphertext opens exactly under its key, nonce and additional data (sections 7.1 and 7.2 of
  NIST SP 800-38D).

Nine places where the code does not do what one would expect, each with the exact condition:

- Expiring enrollments at restart fails as a whole whenever an enrollment was waiting for its confirmation with an
  unsealed placeholder: its confirmation tuple names the placeholder too, and the foreign key forbids the deletion
  (`ExpiryCommitsIff`, `ExpiryFails`; internal/storage/enrollment.go:356, migrations/device/0007).
- A turn start that times out leaves the session open to the next input. That input leads to no routing error if and only
  if every turn whose start timed out has completed by then; otherwise a run without further timeouts fails the runtime with a
  routing error (`HarmlessIff`, `BrokenAfterTimeOut`; internal/providers/codex/runtime.go:545-555). That is about
  routing alone: the answer to a call that has timed out fails the client whatever became of its turn, so the runtime
  is safe if and only if, besides, every such call had its answer at the very moment it gave up (`SurvivesIff`;
  internal/providers/codex/protocol.go:296-306). A start that the provider rejects in time does no harm.
- An approval that is on record as ambiguous with nothing written may still be written: exactly when the client's
  writer has its frame in its hands at that time, and never for a written one (`QuietIff`, `LateWriteHappens`;
  internal/providers/codex/protocol.go:313-364).
- A command is accepted under a superseded lease revision if and only if it had read the row before
  (`SupersededIff`, `AcceptedAfterRelease`; internal/runtime/manager.go:422-428). Only the service's mutex keeps the
  commands of two holders apart then (`NoOverlap`, `OverlapWithoutMutex`).
- After a lease release, what is accepted later is no earlier than an instant exactly when neither the release is nor
  the last heartbeat that a command under way has read: a clock that steps back lets two holders overlap
  (`ReleaseFencesIff`, `ReleaseOverlap`).
- A release of a materialization that dies after its row was written and before the first file is removed leaves a
  matching directory behind for good, and so does one whose removal fails there (`ReleaseLeaksIff`, `LeakHappens`; internal/vault/materialization.go:234-251).
- A materialization that dies after its row was written and before its directory is renamed loses the credential's
  revision for good, because the quarantined row still holds the unique key (`RevisionLostIff`, `LostForGood`;
  migrations/device/0004_codex_foundation.sql:86).
- The length prefix wraps at 2^32 bytes (`RoundTripIff`, `LongFieldsCollide`).
- The three duplicate-key checks do not accept the same objects: only the vault's leaves numbers unconverted. On an
  object they agree if and only if it repeats a key or all its numbers are within the range of float64 (`AgreeIff`,
  `ChecksDiffer`; internal/vault/vault.go:388).

## Model

| member | source | states |
|---|---|---|
| StoreTheorems.WithdrawnIsIdle | internal/storage/vault_records.go:345-376 | in every reachable store, a session on a revoked or reserved credential has ended |
| StoreTheorems.WithdrawnForGood | internal/storage/vault_records.go:382-452 | once a credential is revoked or reserved, every later run keeps it so, leaves its ended sessions untouched and gives it no new session by either insert path, by sealing or by a transition |
| StoreTheorems.AddsNoSession | internal/storage/repository.go:1645-1709 | no single event of any kind adds a session on a withdrawn credential |
| StoreTheorems.SealAdvances | internal/storage/vault_records.go:233-315 | a committed seal advances the revision by exactly one and stores an item that agrees with the credential |
| StoreTheorems.OneSealPerRevision | internal/storage/vault_records.go:242-282 | of two seals prepared for the same revision the second can never commit, after any run in between |
| StoreTheorems.ItemsAgree | internal/storage/vault_records.go:258-282 | in every reachable store each vault item has its credential's revision, secret digest, account and device, and a revoked credential has no item |
| StoreTheorems.ItemStays | internal/storage/vault_records.go:258-282 | over any run an item stays exactly as sealed until its credential is sealed again or revoked |
| StoreTheorems.EnrollmentMoves | internal/storage/vault_records.go:283-312 | every event moves an enrollment along one edge of its diagram or not at all, and it succeeds only in the step that seals its credential and binds its profile, after its own client attested it |
| StoreTheorems.EnrollmentHistory | internal/storage/enrollment.go:172-313 | over any run an enrollment follows its diagram, its ends are absorbing, and completion digest, confirmation tuple and attestation are written once |
| StoreTheorems.OnlyOwnerActs | internal/storage/enrollment.go:172-413 | an enrollment is changed only by its own client, by the expiry at restart, or by the expiry of due enrollments that any client's begin performs, and the latter only ends an open one as expired; completion, confirmation, attestation and success each come from the one command that carries the matching digest |
| StoreTheorems.BeginExpiresOthers | internal/app/session_service.go:560-576 | a concrete run after which that expiry ends the enrollment of a client that asked for nothing and deletes its placeholder |
| StoreTheorems.UsedNeverPlaceholder | internal/vault/materialization.go:75-83 | a credential that a materialization may name is never an unsealed placeholder again, in any later run |
| StoreTheorems.ExpiryCommitsIff | internal/storage/enrollment.go:315-381 | expiry at restart commits if and only if no pending placeholder has a second name, which an enrollment awaiting confirmation always gives it |
| StoreTheorems.ExpiryFails | internal/storage/enrollment.go:345-359 | a concrete run from an empty store after which expiry fails |
| StoreOutcomes.ReservesIff | internal/storage/vault_records.go:345-376 | a reservation commits exactly for a known Codex credential that is revoked or on which no session is starting, running or stopping, and each refusal has its own code |
| StoreOutcomes.ReserveCloses | internal/storage/vault_records.go:345-376 | it closes the credential to sessions, keeps the time of a reservation that was there, and changes nothing else |
| StoreOutcomes.FinalizesIff | internal/storage/vault_records.go:382-452 | a revocation commits exactly for a known Codex credential that is revoked, or reserved and not in use |
| StoreOutcomes.FinalizeRevokes | internal/storage/vault_records.go:382-452 | it leaves the credential revoked without secret, item, reservation or public profile, bumps the revision of each profile it unbinds, and changes nothing else |
| StoreOutcomes.SealsIff | internal/storage/vault_records.go:233-315 | a seal commits exactly if the item is for the credential as it is, one revision on, and the enrollment it completes, if any, waits for just this seal |
| StoreOutcomes.SealStores | internal/storage/vault_records.go:233-282 | it leaves the credential healthy at the next revision with the item's secret and the item stored, and touches no other credential or item |
| StoreOutcomes.SealCompletes | internal/storage/vault_records.go:283-312 | with an owner it completes just that enrollment and binds just its profile; without one it leaves both tables alone |
| StoreOutcomes.SealRefused | internal/storage/vault_records.go:233-312 | the code of a refused seal tells what is wrong: the item, the credential, its revision, the enrollment or the profile |
| StoreCommands.LogoutCompletes | internal/storage/vault_records.go:345-452 | once a reservation is committed, the revocation commits whenever it comes and whatever happened in between |
| StoreCommands.EnrollmentCompletes | internal/storage/enrollment.go:49-276 | an enrollment begun, claimed, awaited, confirmed and sealed in a run succeeds, with the credential healthy at revision 2, the item stored and the profile bound |
| StoreOutcomes.BeginsIff | internal/storage/enrollment.go:49-85 | an enrollment is opened exactly if it is blank, for a known profile, the only open one of it, and for a new placeholder of a known account or the profile's own credential |
| StoreOutcomes.BeginAdds | internal/storage/enrollment.go:49-85 | it adds just the enrollment and its placeholder |
| StoreOutcomes.StepsIff | internal/storage/enrollment.go:172-276 | claim, await and confirm each commit exactly from one state, by the enrollment's client, in time and with what was recorded before |
| StoreOutcomes.StepsWrite | internal/storage/enrollment.go:172-276 | each writes just what it records into just that row |
| StoreOutcomes.FinishesIff | internal/storage/enrollment.go:278-313 | an enrollment is ended by its client exactly while it is open, or again in the same way |
| StoreOutcomes.FinishLetsGo | internal/storage/enrollment.go:278-313 | it lets go of an unsealed credential, and the placeholder row goes exactly if no foreign key but its own names it |
| StoreOutcomes.FinishAgain | internal/storage/enrollment.go:278-313 | ending it again changes nothing |
| StoreOutcomes.ExpiryLeaves | internal/storage/enrollment.go:315-381 | after the expiry at restart no enrollment is open, each open one has lapsed, and exactly the unsealed placeholders of open ones are gone |
| StoreOutcomes.ExpiryRefused | internal/storage/enrollment.go:315-359 | it is refused for want of a time, or with a conflict |
| SessionTheorems.PreviewOnce | internal/storage/session_preview.go:316-334 | over a whole run no preview starts two sessions and no session comes from two previews |
| SessionTheorems.ConsumeCurrent | internal/storage/session_preview.go:267-334 | a fresh consumption adds one starting session with the preview's tuple while account, profile, credential, usage and workspace, with its update time, are exactly as previewed, and changes nothing else |
| SessionTheorems.PreviewReplay | internal/storage/session_preview.go:257-266 | after any run that has not deleted the preview, repeating it with the digest it was consumed with returns the same session and changes nothing, and any other digest conflicts |
| SessionTheorems.DroppedForGood | internal/storage/session_preview.go:343-349 | once a preview is deleted after its retention, no later run brings it back and every request for it is refused |
| SessionTheorems.ReplayedIffStored | internal/storage/session_preview.go:240-266 | so after any run a consumed preview is replayed if it is still stored, and otherwise refused for want of a confirmation |
| SessionTheorems.AdmittedOnLinkedRows | internal/storage/repository.go:1645-1709 | an inserted session is the only change, is starting, and its account, profile, credential and workspace fit together and are usable |
| SessionTheorems.ConsumedOnLinkedRows | internal/storage/session_preview.go:308-311 | so does the session of a consumed preview |
| StoreOutcomes.LinksIff | internal/storage/repository.go:1645-1709 | the rows a session names admit it exactly if account, profile, credential and workspace fit together, are usable and not reserved |
| StoreOutcomes.LinkRefused | internal/storage/repository.go:1645-1709 | a refusal names a true reason: a missing row, a closed one, or rows that do not fit |
| StoreOutcomes.ResumesIff | internal/storage/repository.go:1738-1793 | a source admits a resumed session exactly if it is over, could be resumed, ended no later than the new one starts, and passes on its tuple and thread; each refusal has its own code |
| StoreOutcomes.CreatesIff | internal/storage/repository.go:699-732 | a session is admitted exactly if its record is in order, its rows and its source admit it and its identifier is new |
| StoreOutcomes.CreateStores | internal/storage/repository.go:699-732 | what is stored is the record that was asked for, resume link and thread included, and nothing else changes |
| StoreOutcomes.CreateRefused | internal/storage/repository.go:699-732 | what is wrong with the record is reported before what is wrong with its rows, and that before its source |
| StoreOutcomes.EdgesAre | internal/domain/session.go:34-54 | a session advances from starting to running to stopping to exited and may fail or be killed until it ends; the statuses without an edge are the ended ones |
| StoreOutcomes.TransitionsIff | internal/storage/repository.go:779-816 | a status is written exactly if the row that was read may move along an edge at that time with that exit code and failure, and the stored row still has its status |
| StoreOutcomes.TransitionWrites | internal/storage/repository.go:790-812 | it moves just that row, which takes the time, exit code and failure of its end |
| StoreOutcomes.TransitionRefused | internal/storage/repository.go:779-816 | a refusal of the domain is passed on, and a row that moved meanwhile is a conflict |
| StoreOutcomes.ThreadOnce | internal/storage/repository.go:821-840 | the provider's thread is written exactly once, for a Codex session that is starting |
| StoreCommands.SessionLives | internal/storage/repository.go:779-816 | a session read and moved in a run from starting to running, stopping and exited ends with the time and exit code of the last move, three moves on record, and nothing else changed |
| StoreOutcomes.PreviewsIff | internal/storage/session_preview.go:94-167 | a preview is stored exactly if what it shows of account, profile, credential, workspace and usage is so, and its credential is sealed and not reserved |
| StoreOutcomes.PreviewRefused | internal/storage/session_preview.go:94-167 | the code of a refusal tells a malformed preview, a reserved credential and a repeated identifier from a changed binding |
| StoreOutcomes.ConsumesIff | internal/storage/session_preview.go:218-334 | a fresh preview is spent exactly on a request in order of its own client, in time, that repeats what it showed, while that is still so and the usage it showed is the newest |
| StoreOutcomes.ConsumeStores | internal/storage/session_preview.go:308-334 | what is stored is the record without thread and resume link, and the mark on the preview; nothing else changes |
| StoreOutcomes.ConsumeRefused | internal/storage/session_preview.go:218-306 | the codes tell an unconfirmed, a foreign and a late request apart |
| StoreOutcomes.ConsumeStale | internal/storage/session_preview.go:267-334 | a preview that is stale in any row is a changed binding, a reserved credential is denied, a taken identifier conflicts |
| StoreOutcomes.UsageIff | internal/storage/accounts.go:579-634 | a usage snapshot is then the newest of its account and of no other |
| StoreOutcomes.UsageSupersedes | internal/storage/session_preview.go:267-306 | and makes every preview of the account that showed another one stale |
| StoreCommands.PreviewStarts | internal/storage/session_preview.go:94-341 | a stored preview can be spent at once by its client on what it showed, and the start is on record |
| SessionTheorems.TransitionLinearises | internal/storage/repository.go:779-816 | a write prepared from a stale read commits exactly when an indivisible transition would, with the same result |
| SessionTheorems.NoAba | internal/domain/session.go:34-50 | a session with the same status at two points of a run did not move in between and is the same row |
| SessionTheorems.AtMostThreeMoves | internal/domain/session.go:107-136 | no session moves more than three times, and end time, exit code and failure are present exactly as its status demands |
| SessionTheorems.EndedForGood | internal/domain/session.go:107-117 | an ended session never changes and never disappears |
| SessionTheorems.ResumeForest | internal/storage/repository.go:1738-1793 | along any path of resume links no session repeats, each ancestor ended before its descendants started, and all share one tuple |
| SessionTheorems.ResumeAgrees | internal/domain/session.go:139-170 | the store's check of a resumed session accepts exactly what the domain's Resume allows for that source |
| SessionTheorems.Lineage | internal/storage/repository.go:1738-1793 | every session has a finite path of resume links up to a session that was not resumed |
| SessionTheorems.OneRoot | internal/storage/repository.go:1738-1793 | every path of resume links is a prefix of that lineage, so the links form a forest |
| StoreRuns.StepKeeps | internal/storage/store.go:412-425 | every event from any good world, deletion of accounts and expiry of due enrollments included, keeps all invariants of the store, evolves rows only as their kind may, and admits sessions only on open credentials |
| StoreRuns.RunKeeps | internal/storage/store.go:412-425 | so does every run, transitively |
| StoreInvariants.SealKeeps | internal/storage/vault_records.go:233-315 | a seal keeps every invariant and every evolution rule, with or without an enrollment |
| StoreInvariants.FinalizeKeeps | internal/storage/vault_records.go:382-452 | so does a revocation and its replay |
| StoreInvariants.ConsumeKeeps | internal/storage/session_preview.go:218-341 | so does consuming a preview |
| StoreInvariants.ExpireAllKeeps | internal/storage/enrollment.go:315-381 | so does expiring all enrollments, including the deletion of their placeholders |
| StoreInvariants.DropAccountKeeps | internal/storage/accounts.go:494-577 | so does deleting an account with its profiles and usage |
| StoreOutcomes.DropsAccountIff | internal/storage/accounts.go:494-577 | an account is deleted exactly if it is disabled, public, at the expected revision, and no session, credential, item, preview, confirmation or profile in use refers to it |
| StoreOutcomes.DropAccountTakes | internal/storage/accounts.go:494-577 | it takes exactly its profiles and its usage with it |
| StoreOutcomes.DropAccountRefused | internal/storage/accounts.go:494-577 | each refusal has its own code |
| StoreOutcomes.CredentialsIff | internal/storage/repository.go:560-592 | a credential is made outside an enrollment exactly with a new identifier, for a fake provider without account or for an enabled Codex account |
| StoreOutcomes.ProfileEdit | internal/storage/repository.go:502-541 | a profile edit leaves the binding and the kind of the profile as they were, and a new profile is unbound |
| StoreOutcomes.DropsProfileIff | internal/storage/repository.go:543-558 | a profile is deleted exactly if it exists and no session, preview or enrollment refers to it |
| StoreInvariants.TransitionKeeps | internal/storage/repository.go:790-812 | so does a status write from any earlier state of the row, and it strictly raises the rank |
| SessionDomain.NewSession | internal/domain/session.go:57-104 | a record is accepted exactly if it is starting at a set time, has an account where the provider needs one and the capability where it resumes; it keeps all but end metadata, and each refusal has its own code |
| SessionDomain.Transition | internal/domain/session.go:107-136 | an edge is taken exactly if the table has it, not before the start, with a failure where it fails and no end metadata where it does not end; it strictly raises the rank and writes time, exit code and failure of an end |
| SessionDomain.Resume | internal/domain/session.go:139-170 | a session is resumed exactly if it is over by then and may be; the new one is starting, inherits tuple and thread, and has nothing ended about it; each refusal has its own code |
| StoreObject.Store.Seal | internal/storage/vault_records.go:233-315 | the statements, with the late enrollment check and the rollback, do exactly the seal transaction |
| StoreObject.Store.Reserve | internal/storage/vault_records.go:345-376 | does exactly the reservation transaction, leaves the credential closed where it succeeds, and keeps every invariant of the store |
| StoreObject.Store.Finalize | internal/storage/vault_records.go:382-452 | does exactly the revocation transaction; items and credentials still agree, and the credential is left revoked, without item, reservation or public profile |
| StoreObject.Store.CreateSession | internal/storage/repository.go:699-732 | does exactly the session insert, errors included, and keeps every invariant of the store |
| StoreObject.Store.WriteTransition | internal/storage/repository.go:790-812 | does exactly the compare-and-swap of a status; from any earlier state of the row the end metadata stays right and rows only climb |
| StoreObject.Store.ConsumePreview | internal/storage/session_preview.go:218-341 | does exactly the consumption, replay and every refusal included, and still no two previews are spent on one session |
| StoreObject.Store.BeginEnrollment | internal/storage/enrollment.go:49-85 | does exactly the begin transaction, undoing the placeholder when the enrollment is refused, and keeps every invariant of the store |
| StoreObject.Store.FinishEnrollment | internal/storage/enrollment.go:278-313 | does exactly the finish transaction, where a failing deletion is ignored, and keeps every invariant of the store |
| StoreObject.Store.ExpireDueEnrollments | internal/storage/enrollment.go:386-419 | the loop does one finish transaction per due enrollment, in the order found, and stops at the first failure |
| StoreObject.ExpireEachEnds | internal/storage/enrollment.go:386-419 | on open enrollments it never fails, exactly the due ones lapse and no other enrollment is touched |
| StoreObject.ExpireEachKeeps | internal/storage/enrollment.go:386-419 | wherever it stops, every invariant of the store holds |
| StoreObject.Store.ExpireEnrollments | internal/storage/enrollment.go:315-381 | the loop over rows, in any order and with rollback at the first blocked one, does exactly the order-free transaction |
| StoreObject.ExpiryBlocked | internal/storage/enrollment.go:345-359 | rows the loop has already cleared can never have unblocked a later one |
| ApprovalRuns.AtMostOneWrite | internal/providers/codex/runtime.go:870-952 | in every run with crashes, restarts and late writes an approval causes at most one provider write, one still in a writer's hands counted in: none while idle, exactly one once written; and a written row is approved, denied or cancelled exactly as that write said |
| ApprovalRuns.DispatchCompletes | internal/providers/codex/runtime.go:870-952 | a dispatch that nothing interrupts writes once, frees the mutex, and leaves the row written with the decision and the status that says it |
| ApprovalRuns.SendsAre | internal/providers/codex/protocol.go:313-364 | a frame is written now, left with the writer, or neither, and only a delivery is taken as sent |
| ApprovalRuns.AskOpens | internal/storage/repository.go:1087-1116 | an approval that is asked for is pending and idle, whatever the record says, and no other row changes |
| ApprovalRuns.RestartClears | internal/storage/repository.go:1357-1373 | after a crash and a restart nobody is under way, no frame is left, the mutex is free, no approval waits for an answer or has one in flight, and final rows are as they were |
| Approval.LooksIff | internal/providers/codex/runtime.go:880-913 | a request goes on exactly to an idle row of its own and is a replay exactly of the answer that was written; each refusal has its own code |
| Approval.ClaimsIff | internal/storage/repository.go:1217-1270 | a claim takes a pending idle row, or finds itself on record, and then the row carries the whole answer |
| Approval.CompletesIff | internal/storage/repository.go:1274-1304 | a completion is recorded exactly for the answer in flight, or found on record, and the status says the decision |
| Approval.FailsIff | internal/storage/repository.go:1308-1337 | a failure is recorded exactly for the answer in flight, or found on record |
| Approval.RestartEnds | internal/storage/repository.go:1357-1373 | a restart ends exactly the pending rows that are idle or in flight, and keeps what was decided |
| ApprovalRuns.FinalForGood | internal/storage/repository.go:1357-1373 | a written or ambiguous approval never changes again, and the writes made and still to come for it never grow |
| ApprovalRuns.QuietIff | internal/providers/codex/protocol.go:313-364 | nothing is written for a final approval again, in any run, if and only if no writer has a frame of it, and for a written one none ever has |
| ApprovalRuns.LateWriteHappens | internal/providers/codex/protocol.go:313-364 | a concrete run in which the failure is recorded, nothing has been written, and the frame is written afterwards |
| ApprovalRuns.StepKeeps | internal/app/session_service.go:309-346 | every step of any worker, with the reads and the guarded updates of completion and failure apart, every step of a writer that outlives its caller, every crash and every restart keeps the agreement of rows, writes, queued frames and workers under the mutex |
| ApprovalRuns.TwiceWithoutMutex | internal/storage/repository.go:1247-1252 | without the mutex two copies of one request write twice, because the second claim is answered with success |
| Approval.Dispatcher.Respond | internal/providers/codex/runtime.go:870-952 | one whole dispatch writes or queues at most one frame, only from idle; an answerable request succeeds exactly if it is delivered and is ambiguous otherwise; a fresh success leaves the decision and the status that says it; no other approval is touched, and rows, writes and queue stay in agreement |
| Approval.Dispatcher.Claim | internal/storage/repository.go:1217-1270 | does exactly the claim, identical replay included, and keeps rows and writes in agreement |
| Approval.Dispatcher.Complete | internal/storage/repository.go:1274-1304 | the read and the guarded update, uninterrupted, do exactly the completion, leave the status that says the decision, and keep rows and writes in agreement |
| Approval.Dispatcher.Fail | internal/storage/repository.go:1308-1337 | the read and the guarded update, uninterrupted, do exactly the failure record and keep rows and writes in agreement |
| RuntimeRuns.DisjointUnion | internal/providers/codex/runtime.go:314-424 | whenever the lock is free, the global binding table is exactly the disjoint union of the registered runtimes' tables |
| RuntimeRuns.RegisteredIsLive | internal/providers/codex/runtime.go:628-661 | a registered runtime has at least one binding and is not being finalized |
| RuntimeRuns.FinalizedOnce | internal/providers/codex/runtime.go:672-690 | every runtime ever registered is finalized at most once, across start failure, last release, failure and close, and is registered exactly until then |
| RuntimeRuns.BindNeverOverwrites | internal/providers/codex/runtime.go:251-290 | a start that reaches its critical section never finds its session bound, thanks to the gate and the status it reads |
| RuntimeManager.BindKeeps | internal/providers/codex/runtime.go:314-424 | registering a binding, or failing to, keeps the ownership invariant; a failed first thread leaves no empty runtime |
| RuntimeManager.ReleaseAnyKeeps | internal/providers/codex/runtime.go:628-670 | releasing keeps the invariant and unbinds exactly that session, whichever owner the search finds |
| RuntimeManager.FailKeeps | internal/providers/codex/runtime.go:845-868 | failing a runtime keeps the invariant; every other runtime, a successor of the same credential included, stays registered with all its sessions bound |
| RuntimeManager.FailTakes | internal/providers/codex/runtime.go:845-859 | a live runtime that fails is marked and unregistered, has an empty table, is taken on by one finalizer, and exactly its sessions are unbound |
| RuntimeManager.FailAgain | internal/providers/codex/runtime.go:845-848 | one that is being finalized is left alone |
| RuntimeRuns.FailedForGood | internal/providers/codex/runtime.go:845-868 | once a runtime has failed, no later run has it registered, serving a session or finalized twice |
| RuntimeRuns.GoneForGood | internal/providers/codex/runtime.go:672-690 | so it is of every runtime that is being finalized, however it came to that |
| RuntimeManager.ReleaseTakes | internal/providers/codex/runtime.go:628-650 | a release unbinds the session from its owner, which goes exactly with its last session; every other runtime is untouched |
| RuntimeManager.CloseTakes | internal/providers/codex/runtime.go:1034-1060 | closing leaves nothing registered or bound, and every runtime ever made is gone |
| RuntimeManager.FinalizeMoves | internal/providers/codex/runtime.go:672-690 | finalizing moves the runtime from taken on to done, once |
| RuntimeManager.RefusesIff | internal/providers/codex/runtime.go:314-335 | a start is refused exactly by a closed manager, or by a runtime at another revision, each with its code |
| RuntimeManager.BindsThere | internal/providers/codex/runtime.go:314-424 | with a runtime there, a session is bound exactly if that is at its revision and the thread opens, beside the sessions it has |
| RuntimeManager.BindsNew | internal/providers/codex/runtime.go:314-424 | without one, exactly if the manager is open, a process comes up and the thread opens |
| RuntimeManager.UnopenedStays | internal/providers/codex/runtime.go:391-413 | a thread that does not open leaves a runtime that was there as it is |
| RuntimeManager.UnopenedGoes | internal/providers/codex/runtime.go:391-413 | and one that was made for it is gone |
| RuntimeRuns.StartCompletes | internal/providers/codex/runtime.go:251-432 | a start that nothing refuses goes through: the session runs and its credential's runtime has it |
| RuntimeRuns.GoesLiveIff | internal/providers/codex/runtime.go:425-432 | a bound session goes live exactly if the database takes it and it is still starting, and is undone otherwise |
| RuntimeRuns.RefusedFails | internal/providers/codex/runtime.go:289-293 | a refused start leaves the session failed where it was still starting |
| RuntimeRuns.DirectStarts | internal/providers/codex/runtime.go:230-241 | a direct start is of a new session, starting and ready to be bound |
| RuntimeRuns.AdvancesIff | internal/domain/session.go:34-50 | otherwise a status only ever climbs |
| RuntimeManager.CloseKeeps | internal/providers/codex/runtime.go:1034-1060 | closing keeps the invariant |
| RuntimeManager.Manager.RuntimeForBinding | internal/providers/codex/runtime.go:663-670 | the search returns an owner of the binding, or none exists |
| RuntimeManager.Manager.ReleaseBinding | internal/providers/codex/runtime.go:628-650 | does exactly the release from the owner it finds |
| RuntimeManager.Manager.Fail | internal/providers/codex/runtime.go:845-859 | the loop over the runtime's sessions does exactly the failure section; a runtime that was live is marked, emptied, counted for finalizing once, and none of its sessions stays bound |
| RuntimeManager.Manager.BindSession | internal/providers/codex/runtime.go:314-424 | does exactly the critical section of a start, undoing a runtime made for a thread that did not open |
| RuntimeManager.Manager.CloseAll | internal/providers/codex/runtime.go:1034-1050 | the loop over the runtimes does exactly the closing section |
| Turns.NoRoutingError | internal/providers/codex/runtime.go:522-574 | with serialised inputs, over any number of turns whose starts are answered, rejected or time out, in any interleaving with the notifications, there is no routing error and every turn but the newest is over, as long as no input is taken while a timed-out turn is uncompleted |
| Turns.FreeIffOver | internal/providers/codex/runtime.go:785-797 | in such runs an input is taken exactly when every turn is over or lost to a timeout unheard of since, and once every turn is over the binding has no active turn |
| Turns.RoutesIff | internal/providers/codex/runtime.go:785-797 | a notification is an error exactly if another turn is active; a start makes its turn active, an end frees the binding and is remembered |
| Turns.InputsAre | internal/providers/codex/runtime.go:526-572 | an input claims exactly a free binding; its answer makes the turn active unless it is over; a failure frees a binding that is still starting |
| Turns.StuckWithoutMutex | internal/providers/codex/runtime.go:561-571 | without serialised inputs two finished turns can leave the binding on the first one for good |
| Turns.HarmlessIff | internal/providers/codex/runtime.go:545-555 | after any such run, an input that is taken can be followed by no timely run with a routing error if and only if every turn whose start timed out has completed |
| Turns.SurvivesIff | internal/providers/codex/protocol.go:296-306 | and by no timely run that fails the runtime at all, late answers included, if and only if besides no call that timed out is unanswered or was answered late |
| Turns.LateAnswerSettles | internal/providers/codex/protocol.go:296-306 | a late answer fails the client, leaves the binding alone, and its call is not outstanding any more |
| Turns.BrokenAfterTimeOut | internal/providers/codex/runtime.go:545-555 | it happens: a start that times out while the provider goes on breaks the routing of the next turn |
| Turns.SessionBinding.Claim | internal/providers/codex/runtime.go:526-545 | is refused exactly while a turn is active, and leaves a binding that reflects the new turn |
| Turns.SessionBinding.Settle | internal/providers/codex/runtime.go:548-572 | whatever the call's outcome and whatever was notified meanwhile, the binding goes on reflecting the turn; a binding that was replaced meanwhile is left alone and reported |
| Turns.SessionBinding.RouteInbound | internal/providers/codex/runtime.go:785-797 | does exactly the routing of a notification; one that is due is never an error and the binding goes on reflecting the turn |
| Rpc.EveryCallAnsweredOnce | internal/providers/codex/protocol.go:218-311 | in every interleaving each waiter's channel carries at most one message, a response only the one to its own number, which no other call has, and the answer to a call is always in exactly one of five places |
| Rpc.ResponsesAreGenuine | internal/providers/codex/protocol.go:260-310 | in every run, a response on a call's channel or on its way there was read in that run, with that payload, under the number the call was issued |
| Rpc.ResponseArrives | internal/providers/codex/protocol.go:296-310 | a waiting call whose response is read and delivered has exactly that response on its channel, and no other channel changes |
| Rpc.FailureArrives | internal/providers/codex/protocol.go:374-390 | a call that waits when the client fails is told so, once |
| Rpc.IssueWaits | internal/providers/codex/protocol.go:218-231 | a new call gets the next number and waits in the table under it, and no other call is touched |
| Rpc.GivesUp | internal/providers/codex/protocol.go:245-257 | giving up takes exactly the call's own entry out of the table |
| Rpc.BadFrameFails | internal/providers/codex/protocol.go:261-280 | a frame that cannot be decoded fails the client and stops the reader |
| Rpc.SendsNeverBlock | internal/providers/codex/protocol.go:296-311 | whenever the reader or a failure is about to send, the one-slot channel is empty |
| Rpc.FailedForGood | internal/providers/codex/protocol.go:374-390 | once failed, the client stays failed, its table stays empty and it issues no call |
| Rpc.LateResponseFails | internal/providers/codex/protocol.go:296-306 | a response to a call that gave up, or to none, fails the client |
| Rpc.Client.IssueCall | internal/providers/codex/protocol.go:218-231 | does exactly the registration of a call and keeps the client's invariant |
| Rpc.Client.OnResponse | internal/providers/codex/protocol.go:296-306 | does exactly the removal of the waiter, holds the response with its payload for it or fails, and keeps the client's invariant |
| Rpc.Client.RemovePending | internal/providers/codex/protocol.go:368-372 | does exactly the withdrawal of a call and keeps the client's invariant |
| Rpc.Client.FailAll | internal/providers/codex/protocol.go:374-390 | closes once and the loop tells every waiter it took over exactly once |
| Materialization.RecoveredClean | internal/vault/materialization.go:163-232 | from any state, recovery leaves no pending row, no staging entry, and only directories that match a known row, which StaysIff and RowsIff spell out |
| Materialization.StaysIff | internal/vault/materialization.go:163-217 | exactly the folders of known leases stay that hold both files, with a manifest of version 1 in state active that names the lease, credential and revision of the row, has the digest of the row, and names the digest of the content; everything else is in quarantine as it was |
| Materialization.RowsIff | internal/vault/materialization.go:195-232 | a pending row becomes active exactly if its folder is intact and is quarantined otherwise; an active one is quarantined exactly if it has a folder that is not; other rows stay |
| Materialization.CleanIffFixed | internal/vault/materialization.go:163-232 | a state is clean if and only if recovery changes nothing in it |
| Materialization.RecoverIdempotent | internal/vault/materialization.go:163-232 | running recovery again changes nothing |
| Materialization.RecoverCrash | internal/vault/materialization.go:177-232 | a recovery that dies after any of its effects is completed by the next one to the same rows, directories and quarantine |
| Materialization.MaterializeAtomic | internal/vault/materialization.go:96-160 | after a crash at any effect and recovery, the lease is active with its whole directory, or quarantined without one, or was never there, and all else is as if only recovery had run |
| Materialization.MaterializedIntact | internal/vault/materialization.go:96-160 | a materialization that comes off leaves just an active row and an intact folder with the content that was asked for |
| Materialization.DecidesIff | internal/vault/materialization.go:99-120 | a request goes on exactly if its lease is new and no row has its credential at its revision, and is answered exactly by an active row of the same manifest |
| Materialization.AcceptableIff | internal/vault/materialization.go:75-77 | a request needs a revision of at least 1 and between 1 and 65536 bytes |
| Materialization.LeaseLives | internal/vault/materialization.go:63-251 | a lease materialized and released in a run leaves just its released row |
| Materialization.FailureAtomic | internal/vault/materialization.go:118-160 | a materialization that returns an error, cleaned up or not, is brought by the next recovery to the same all or nothing |
| Materialization.ReleaseLeaksIff | internal/vault/materialization.go:234-251 | a release that dies after any effect, files removed one by one, leaves the row released, and the directory through all later recoveries exactly if it matched its row and only the row was written |
| Materialization.LeakHappens | internal/vault/materialization.go:234-251 | it happens after any materialization: the first effect of its release, then recovery, and the directory is still there |
| Materialization.RevisionLostIff | internal/vault/materialization.go:96-160 | a materialization that dies after k effects makes every retry for its credential and revision fail, under its own lease or a new one, if and only if k is 1 to 4 |
| Materialization.LostForGood | internal/vault/materialization.go:96-251 | a quarantined or released row blocks its credential and revision over every later run of materializations, releases and recoveries, crashes included |
| Materialization.Materializer.Materialize | internal/vault/materialization.go:63-160 | at whichever of its seven effects an error strikes, and whether or not the staging area can be removed, it leaves what a prefix of its effects leaves, up to that area; without an error it succeeds exactly if the request is not refused, with all effects and a matching directory; it answers a repeated request and refuses a taken credential revision |
| Materialization.Materializer.Release | internal/vault/materialization.go:234-251 | has exactly its effects, the row and then the directory file by file, as far as they come off, reports an error exactly if one did not, and does nothing for a released row |
| Materialization.Materializer.Recover | internal/vault/materialization.go:163-232 | the two loops, in any order of entries, compute the declarative recovery by admissible effects |
| Materialization.Materializer.RecoverEntry | internal/vault/materialization.go:177-217 | settles one entry: it stays only if it matches, and its row is no longer pending |
| LeaseRuns.Fencing | internal/domain/lease.go:26-106 | over any run with any clock, in which releases and heartbeats come between a command's read and its clock, acquisitions follow one another, each has one holder, what was accepted under one that expired is strictly earlier than what was accepted under a later one, and a released one was released no later than that |
| LeaseRuns.SupersededIff | internal/runtime/manager.go:422-428 | over any run, a command can be accepted under a superseded revision if and only if it had read the row, good for its holder, before it was superseded |
| LeaseRuns.StaleForGood | internal/runtime/manager.go:388-420 | heartbeats and releases under a superseded revision are refused as stale for good, whoever presents it |
| LeaseRuns.AcceptedAfterRelease | internal/runtime/manager.go:422-428 | it happens: with a clock that runs forward a command is accepted under revision 1 after the release made it 2 |
| LeaseRuns.NoOverlap | internal/app/session_service.go:297-312 | with the mutex and a clock that runs forward, what was accepted under different acquisitions never overlaps in time, commands that were under way at a release included |
| LeaseRuns.WholeCommandsApart | internal/app/session_service.go:309-313 | the whole execution of a command, from acceptance until it returns, is over before anything is accepted under a later acquisition, so no two executions under different acquisitions overlap |
| LeaseRuns.CommandRuns | internal/runtime/manager.go:422-428 | a command that nothing interrupts is read, accepted between heartbeat and expiry and done, all on record |
| LeaseRuns.ReleaseFencesIff | internal/domain/lease.go:72-83 | after a release nothing accepted later is earlier than an instant if and only if neither the release is nor the last heartbeat that a command under way has read |
| LeaseRuns.ReleaseOverlap | internal/domain/lease.go:72-83 | a concrete run in which the successor acts before its predecessor's last command |
| LeaseRuns.OverlapWithoutMutex | internal/app/session_service.go:297-312 | without the mutex a clock that runs forward is not enough: a concrete run in which the first holder acts after the second took over |
| Lease.Lease.Refusal | internal/domain/lease.go:89-106 | an accepted holder presents the current revision between the last heartbeat and the expiry |
| Lease.RefusedIff | internal/domain/lease.go:89-106 | a holder may act exactly with its own revision from the last heartbeat until the lease expires or is released; each refusal has its own code |
| Lease.HeartbeatExtends | internal/domain/lease.go:57-70 | a heartbeat lets the lease run for the whole duration from then on, neither longer nor shorter, and changes nothing else |
| Lease.ReleaseEnds | internal/domain/lease.go:72-83 | after a release nobody may act under any revision, and the lease is at the next one |
| Lease.AcquiresIff | internal/domain/lease.go:26-55 | a lease is taken exactly if there is none, or its own session's is released or expired, and never back in time; each refusal has its own code |
| Lease.Manager.Save | internal/storage/repository.go:878-919 | swaps exactly if the stored revision is the expected one, or there is no row for the first |
| Lease.Manager.AcquireLease | internal/runtime/manager.go:364-386 | does exactly the domain's acquisition; under the lock the swap never fails |
| Lease.Manager.HeartbeatLease | internal/runtime/manager.go:388-403 | does exactly the domain's heartbeat |
| Lease.Manager.ReleaseLease | internal/runtime/manager.go:405-420 | does exactly the domain's release |
| RingRuns.RetainsLongestSuffix | internal/runtime/ring.go:52-77 | after any writes the ring holds exactly the longest suffix of the full chunk history that fits, always with the newest chunk, numbered consecutively over exactly the bytes written |
| RingRuns.ReaderGetsEverything | internal/runtime/ring.go:79-104 | a reader that polls from the last number it was told has the whole byte stream after each poll, unless a poll reported truncation |
| RingRuns.TruncatedIff | internal/runtime/ring.go:89-97 | a poll reports truncation exactly when a chunk the reader has not seen is gone |
| Ring.LongestUnique | internal/runtime/ring.go:71-75 | there is only one longest suffix that fits |
| Ring.RetainTwice | internal/runtime/ring.go:71-75 | evicting after every write retains what evicting once at the end would |
| Ring.SplitExact | internal/runtime/ring.go:58-70 | cutting a write loses no byte, numbers consecutively, bounds every chunk and fills every one but the last |
| Ring.AnswersAre | internal/runtime/ring.go:79-104 | a reader gets everything from its number on, or all there is for zero, or all there is with an error where its number is gone, and the number that comes next |
| Ring.NewRingBuffer | internal/runtime/ring.go:40-45 | refuses exactly the bounds that make no sense |
| Ring.RingBuffer.Append | internal/runtime/ring.go:52-77 | the two loops leave the longest suffix and an exact byte count |
| Ring.RingBuffer.ReplayChunks | internal/runtime/ring.go:79-104 | the loop answers exactly the chunks from the requested number, and a truncated answer comes with its error |
| Json.WalksValue | internal/device/protocol.go:190-232 | on the tokens of any JSON value the walk consumes exactly them if no object at any depth repeats a key and, where the decoder converts numbers, every number is within float64, and fails otherwise |
| Json.AcceptsOnlyValues | internal/device/protocol.go:178-232 | on any tokens whatever, a check accepts exactly the tokens of one value without repeated keys whose numbers its decoder can take; nothing cut short, mismatched or followed by more |
| Json.Accepts | internal/vault/vault.go:386-400 | the device and frame checks accept a value exactly if no key repeats and every number fits, the vault's exactly if no key repeats and it is an object |
| Json.AgreeIff | internal/device/protocol.go:178-188 | on an object the checks agree if and only if it repeats a key or all its numbers fit; on anything else if and only if all refuse it |
| Json.ChecksDiffer | internal/vault/vault.go:388 | an object with one number beyond float64, which the vault takes and the others refuse |
| Json.LenientValue | internal/vault/vault.go:386-400 | on any token stream, what a decoder that converts numbers gets through, one that leaves them alone gets through with the same rest |
| Json.CheckTree | internal/providers/codex/jsonl.go:101-114 | the three checks, run on the tokens of any value, give exactly these answers |
| Json.Decoder.ConsumeValue | internal/device/protocol.go:190-232 | accepts and consumes exactly what the reference walk does under its decoder's treatment of numbers, on any token stream |
| Json.Decoder.ValidateFrameValue | internal/providers/codex/jsonl.go:116-162 | the same |
| Json.Decoder.ValidateVaultValue | internal/vault/vault.go:428-454 | the same |
| Json.Decoder.ValidateObject | internal/vault/vault.go:402-426 | the same for the members of an object |
| Json.ValidateDevice | internal/device/protocol.go:178-188 | accepts exactly one value, all of whose numbers the decoder can convert, with nothing after it |
| Json.ValidateFrame | internal/providers/codex/jsonl.go:101-114 | accepts exactly one value, all of whose numbers the decoder can convert, with nothing after it |
| Json.ValidateVault | internal/vault/vault.go:386-400 | accepts exactly one value with nothing after it, an object, whatever its numbers |
| Vault.RoundTripIff | internal/vault/vault.go:377-384 | the field encoding can be read back if and only if every field is shorter than 2^32 bytes |
| Vault.EncodeInjective | internal/vault/vault.go:377-384 | within that bound no two lists of fields have the same encoding |
| Vault.LongFieldsCollide | internal/vault/vault.go:380-381 | beyond it two different lists do |
| Vault.EncodeFields | internal/vault/vault.go:377-384 | the loop writes exactly the encoding, which decodes to the fields |
| Vault.AadInjective | internal/vault/vault.go:372-375 | the additional data separates every device, provider, credential, account and revision |
| Vault.AadReads | internal/vault/vault.go:372-375 | the additional data reads back as the version, device, provider, credential, account and revision, in that order |
| Vault.BigEnd | internal/vault/vault.go:380-381 | the length prefix has its most significant byte first |
| Vault.SealsIff | internal/vault/vault.go:271-300 | a secret is sealed exactly for Codex, at a revision of at least 1, if it is a JSON object of 2 to 65536 bytes |
| Vault.ReadsOnlyGenuine | internal/vault/vault.go:329-370 | whatever is read is what both layers and both digests vouch for, and anything else is reported as corrupt |
| Vault.SealThenRead | internal/vault/vault.go:271-327 | reading a sealed item returns the sealed plaintext and the next revision |
| Vault.OpensIff | internal/vault/vault.go:329-370 | a row that carries the ciphertexts of a sealed item opens if and only if it is the row they were sealed for, under the same vault key |
| Vault.MovedNeverOpens | internal/vault/vault.go:329-370 | an envelope moved to another owner or revision never opens, under any key |
| VaultStore.CommittedSealIsReadable | internal/vault/vault.go:271-370 | if a seal commits in the store, reading the credential from the new store returns the plaintext and the next revision |
| VaultStore.SealedStaysReadable | internal/vault/vault.go:329-370 | and it does so after any run, until the credential is sealed again or revoked |

## Left out

- UpdateCredentialStatus and UpdateCredentialRevisionCAS (internal/storage/repository.go:654-697): they bypass the vault and revocation tables and have no caller among the daemon's commands; the invariants hold of stores on which they are not used.
- Store.RespondApproval (internal/storage/repository.go:1341-1352): it records a response without owning the provider write.
- Replay of FinishAuthEnrollment after the credential column became NULL: the code reads the NULL into a plain string and fails, so no idempotence is claimed; the model answers not found.
- SessionDomain.Transition: the code changes the record in place; here it returns the changed value, which leaves out aliasing of the caller's record.
- ClaimAuthEnrollment, AwaitAuthEnrollmentConfirmation and ConfirmAuthEnrollmentAttestation are modelled by the update each ends with, which may come without the reads before it; their replies to replays add no state.
- StoreObject.Store.ExpireDueEnrollments: which enrollments are due is given by the caller, because the query compares text; the removal of their staging paths is not modelled.
- StoreObject.Store.Seal: the status it writes is healthy, the only one its caller passes (internal/vault/vault.go:318-322).
- SessionDomain.NewSession: an empty status, which the code takes for starting, has no counterpart; a record says starting.
- Json.ValidateFrame: the size bound and the UTF-8 test before it (internal/providers/codex/jsonl.go:102) are left out, because the model begins at the tokens.
- Turns.SessionBinding.Settle: a response that cannot be decoded, which fails the runtime, is not modelled.
- ApprovalRuns.AtMostOneWrite: the runtime's table of pending requests is one flag of the look step, so that a request that is no longer pending may be refused at any time.
- Materialization.Materializer.Recover: a database error in the quarantine update that the code ignores is not modelled, nor are name clashes inside the quarantine directory.
- Rpc.Client.IssueCall: call numbers are unbounded here; in the code they wrap after 2^64 calls.
- The wait-group balance and termination of RuntimeManager.Close, and that a running session always has a binding: neither holds of the code (internal/providers/codex/runtime.go:417-432, 650-657).
- Notifications for retired threads, approvals pending in a binding, lease and usage pumps of the runtime manager: they touch none of the state the ownership and turn theorems are about.
- The replay ledger of internal/app/session_service.go:309-346: only its mutex is modelled; the stored responses add no state to the approvals.
- Input sequence numbers and attachments of internal/runtime/manager.go, pagination in internal/storage/accounts.go, and client identities: straightforward on their own.
- internal/providers/codex/materialization.go: it depends on a source and a sink outside these files and is mostly checks on the file system.
- Account, workspace and usage commands are free edits of their rows, and usage snapshots are ordered by arrival.
- StoreOutcomes.ProfileEdit: the profile commands are one edit here; their own refusals (revision, alias, account, name) are left out.
- StoreOutcomes.UsageIff: the checks of account, provider and windows of a usage snapshot are left out.
- SQL, JSON and base64 libraries, key derivation, random generation, hashing, format checks of identifiers and digests, sockets, process spawning, path and permission checks.
