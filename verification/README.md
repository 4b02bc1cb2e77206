# A verified model of the credman agent vault

credman keeps the credentials of software agents in one encrypted application image. A human administrator approves
task approvals; agents act under them: they create, patch, share, revoke and delete records, read them, and use
secrets privately through a trusted callback. Every operation is staged on a copy, validated, sealed and published
through a durable intent; a crash leaves a gate that only an explicit recovery clears.

The project models that core and proves what it is for:

* **the ledger** - what the validator accepts, which operations keep it, and what history compaction does to it;
* **authority** - exactly who may approve, read, change and use what; where every approval, grant, revocation and change of a
  later state comes from; delegation of depth one, permanence of revocation and deletion, what a recovery or a restore leaves,
  expiry under a clock that only moves forward;
* **at-most-once effects** - retained request keys, and registration callbacks over every history of every copy of a vault;
* **storage** - publication and recovery as step sequences on a directory in which unsynchronised operations may be lost,
  the agreement of memory and disk, and the evidence recovery relies on;
* **containers** - the gate, the sealed image, the backup and the snapshot round trip, and nothing else is accepted.

`dafny verify dfyconfig.toml` checks the whole project.

## How it is organised

| files | content |
|---|---|
| `Types`, `Policy`, `Ledger`, `Compaction`, `Workflow`, `Settlement`, `Transition` | the data, the operations as functions of the application value, the ledger invariant, compaction stated declaratively, private use, recovery and restore, the successor relation |
| `CompactionLedger`, `CompactionPolicy`, `Preservation`, `Operations`, `Mutations`, `Commands` | which of these keep the ledger, exactly, and what no operation ever changes |
| `Authority`, `Delivery`, `Guarantees` | for every operation, which requests are accepted and what they leave, from approvals, records and grants alone; what an image that opens guarantees |
| `Effects`, `Retention` | what each accepted mutation means to every reader; what compaction leaves, entry by entry |
| `Runs`, `Provenance`, `Timekeeping`, `Registration` | theorems over every run, every sequence of clock samples, every history of several vaults |
| `Directory`, `Recovery`, `Publications`, `Evidence` | the directory under crashes, the decisions of recovery and what they rest on, the stages a crash can leave |
| `Application`, `Compactor`, `Validator`, `Snapshots`, `Store`, `Repair`, `Vault` | the imperative code: objects updated in place and loops over maps, each proved against the functions above |
| `Containers` | the byte formats |
| `Witnesses` | concrete inputs for the places where a promise holds only under a condition |

Identifiers are natural numbers with zero as nil; 64-bit counters and times are bounded and saturate or fail as in the code.
Fingerprints and image hashes are free constructors, so they are injective. A sealed image carries the application it
encrypts and opens only with its seed. In the directory, every name has the file a reader sees and the set of files a crash may
leave there; synchronisation makes the two the same.

## What does not hold as promised

Each of these is stated as an exact condition, with concrete inputs that meet the failing case.

* Compaction keeps the ledger exactly when no record has one delete receipt folded and another retained
  (`CompactionLedger.CompactValidExactly`, `Witnesses.CompactionCanBreakTheLedger`). States the vault itself produces never do
  (`CompactionLedger.CompactKeepsSound`, `Runs.RunKeepsSound`).
* An operation stages an application the validator refuses when its time is negative, when it moves the signup of a record with a
  sealed verified login, or when an administrator deletes or revokes through an approval of another service or origin
  (`Commands.EveryCommandSoundExactly`; `Witnesses.NegativeTimeIsRefused`, `Witnesses.SealedPatchIsRefused`,
  `Witnesses.ForeignDeleteIsRefused`). A sealed verified login is therefore for ever: in no run can such a credential be rotated while its
  record stands (`Runs.SealIsForever`).
* Recovery and restore fail, at every time, while a login or registration on a record with a sealed verified login is unfinished. Such a
  login is admitted, so one crash during its callback leaves a vault that cannot be recovered (`Settlement.SanitizeSucceedsExactly`,
  `Witnesses.InterruptedLoginSticks`, `Witnesses.SealedLoginIsAdmitted`).
* Recovery refuses a genuine successor exactly when the operation is an approval or a mutation that is accepted with an identifier or a
  request key its own pruning removes (`Transition.EvidenceAcceptedExactly`, `Witnesses.ReapprovalIsRefused`,
  `Witnesses.RepeatedKeyIsRefused`).
* Recovery does not synchronise the directory before it writes its plan. Run on the boot that saw a publication fail, by the same process or
  a new one, a crash of the machine between the plan's rename and the next synchronisation can leave a plan that is refused for good. The
  plan survives every crash exactly when the state's rename was already settled, as it is after a crash of the machine, or the interrupted
  publication was the vault's first, or it was a re-keying under another seed
  (`Recovery.PlanSurvivesExactly`, `Witnesses.UnsettledPlanIsLost`).

## Model

| member | source | states |
|---|---|---|
| `Validator.Validate` | src/agent/snapshot.rs:95-263 | the passes over tasks, records, grants, receipts, baselines, deliveries and audit accept exactly the applications that satisfy the declarative ledger invariant |
| `Validator.CheckTasks` | src/agent/snapshot.rs:100-105 | approving every task in a fresh application at the earliest time succeeds exactly when all are well formed and of one owner and workspace |
| `Validator.ScanReceipts` | src/agent/snapshot.rs:143-180 | accepts exactly well-formed receipts with distinct revisions and distinct shared grants, and tallies their revisions, patches, creations, deletions and shares |
| `Validator.ScanBaselines` | src/agent/snapshot.rs:181-194 | accepts exactly the baselines in order and collects the grants they account for |
| `Validator.BalancesExactly` | src/agent/snapshot.rs:195-220 | the comparison of counts accepts a record exactly when its revisions are contiguous above its baseline, its secret version is the baseline's plus its patches, and its deletion is accounted once |
| `Validator.CheckAccounts` | src/agent/snapshot.rs:195-220 | the same for every record |
| `Validator.GrantCountExactly` | src/agent/snapshot.rs:221-221 | comparing the number of shared and pruned grants with the number of grants accepts exactly when every grant is accounted |
| `Validator.CheckDeliveries` | src/agent/snapshot.rs:222-242 | accepts exactly well-formed deliveries with distinct keys and at most one dispatched registration per record |
| `Guarantees.ValidGuarantees` | src/agent/snapshot.rs:95-263 | every entity of an accepted application could have come about: approvals that were acceptable, records their makers could create as they are, grants no wider than their issuers and never to be passed on, receipts of distinct revisions, attempts the approvals permit with one registration per record, events not after the clock |
| `Compactor.FoldRecord` | src/agent/snapshot.rs:284-316 | folding receipt by receipt stops at the end of the unbroken stale run above the baseline, leaves the other receipts, and gives the baseline that counts what was folded |
| `Compactor.FoldReceipts` | src/agent/snapshot.rs:282-316 | over all records the retained receipts are exactly those above each record's horizon |
| `Compactor.PruneGrants` | src/agent/snapshot.rs:317-326 | the grants left are exactly those live or mentioned by a retained receipt, and every baseline lists exactly its listed grants that are left |
| `Compactor.DropDeliveries` | src/agent/snapshot.rs:327-343 | the deliveries left are exactly the unfinished or recent ones, and every registration and current verified login that is dropped is sealed in its record's baseline |
| `Compactor.DropTasks` | src/agent/snapshot.rs:352-368 | the tasks left are those referenced, or neither revoked nor expired, and the last to expire when all would go |
| `Compactor.TrimAudit` | src/agent/snapshot.rs:369-379 | the audit events left, in order, are those whose task, record and receipt are left |
| `Compactor.Compact` | src/agent/snapshot.rs:281-389 | compaction in place gives the declaratively stated compacted application |
| `Compaction.HorizonIsLongestStaleRun` | src/agent/snapshot.rs:288-297 | the horizon is the longest run of stale receipts above a baseline |
| `Compaction.FoldedExactlyStalePrefix` | src/agent/snapshot.rs:288-299 | in a ledger in order, a receipt is folded exactly when it and all receipts of its record below it are stale |
| `CompactionLedger.CompactValidExactly` | src/agent/snapshot.rs:281-389 | compaction of a valid application is valid exactly when no record has one delete receipt folded and another retained |
| `CompactionLedger.CompactKeepsSound` | src/agent/snapshot.rs:281-389 | with one delete receipt per record, which every operation keeps, compaction always preserves the ledger |
| `CompactionPolicy.CompactionIsTransparent` | src/agent/snapshot.rs:317-368 | at every time not before the vault clock, task, record, can and select answer the same before and after compaction |
| `CompactionPolicy.RegistrationGuardUnchanged` | src/agent/snapshot.rs:327-343 | compaction neither loses nor invents the registration guard of a surviving record |
| `Retention.EventsKeptExactly` | src/agent/snapshot.rs:369-379 | the audit is filtered in place: every event whose approval, record and receipt are left is kept, in order and as often as it occurs |
| `Retention.GrantsAndAttemptsLeft` | src/agent/snapshot.rs:317-343 | exactly the grants that are live or mentioned by a retained receipt, and the attempts that are unfinished or recent, are left, unchanged |
| `Retention.RecordsLeft` | src/agent/snapshot.rs:344-351 | exactly the records that are not deleted, or are named by what is left, are left, unchanged |
| `Retention.TasksLeft` | src/agent/snapshot.rs:352-368 | exactly the approvals that are named by what is left, or are neither revoked nor expired, are left, and the last of them when all would go |
| `Retention.SealsLeft` | src/agent/snapshot.rs:331-342 | a baseline remembers exactly the registrations and the current verified login that were dropped |
| `Retention.PrunedIsRecent` | src/agent/snapshot.rs:270-279 | no operation is staged on a finished attempt that is out of the retry window of the vault's clock |
| `Retention.PrunedReceiptsAreRecent` | src/agent/snapshot.rs:270-299 | and on no receipt that is stale together with all below it |
| `Retention.PrunedOrSmall` | src/agent/snapshot.rs:270-279 | compaction is skipped only below every watermark and between its periods |
| `Staging.Application.Clock` | src/agent/mod.rs:489-496 | the object's clock and answer are those of the clock function, freeze included |
| `Staging.Application.ApproveTask` | src/agent/mod.rs:498-522 | the object after approval, on every error path, is the one the approval function states; it is accepted exactly from an administrator of the owner and workspace of the task and of all retained ones, within bounds, for a new identifier |
| `Staging.Application.RevokeTask` | src/agent/mod.rs:524-530 | the same for revocation of an approval: accepted exactly from an administrator of its owner and workspace |
| `Staging.Application.Effect` | src/agent/mod.rs:680-740 | the in-place effect of each mutation on records and grants, with its receipt |
| `Staging.Application.RevokeGrants` | src/agent/mod.rs:731-731 | the loop revokes exactly the record's grants |
| `Staging.Application.Mutate` | src/agent/mod.rs:653-745 | clock, authorization, replay of a retained key and a new request leave exactly the stated application and answer; a new request is accepted exactly from somebody entitled to it, and anything refused or repeated leaves only the clock |
| `Staging.Application.Read` | src/agent/mod.rs:760-782 | metadata and secret reads: selection, clock and audit event; a secret is disclosed exactly to a holder of the permission to read secrets |
| `Staging.Application.Intend` | src/agent/storage/workflow.rs:13-43 | the staged intent, or the answer of the first attempt that carries the key; staged exactly for a new key of somebody who may use the secret |
| `Staging.Application.Cancel` | src/agent/storage/workflow.rs:56-64 | the cancelled attempt, undispatched, and the signup it resets |
| `Staging.Application.Finish` | src/agent/storage/workflow.rs:74-88 | the outcome, the signup each action and status implies, and the audit event |
| `Authority.ApprovedExactly` | src/agent/mod.rs:498-522 | an approval is accepted exactly from an administrator of the one owner and workspace of the vault, within bounds and with a new identifier; it adds the task, and refused it leaves only the clock |
| `Authority.RevokedExactly` | src/agent/mod.rs:524-530 | a revocation is accepted exactly from an administrator of the owner and workspace of a retained task |
| `Authority.SelectedExactly` | src/agent/mod.rs:747-758 | a selection succeeds exactly under a live approval of that principal that covers it, on a standing record it created or has a live grant for, and answers the values of the record |
| `Authority.ReadExactly` | src/agent/mod.rs:760-782 | plaintext is disclosed exactly under the permission to read secrets and metadata under its own, both audited as what they are; a refused read leaves only the clock |
| `Authority.MutatedExactly` | src/agent/mod.rs:574-745 | a new request is accepted exactly when the approval is live, the record stands at the expected revision and the caller is entitled to this kind of change; it leaves the change, its receipt and one audit event |
| `Authority.RepeatedExactly` | src/agent/mod.rs:659-669 | a repeated request changes nothing and is answered with its receipt exactly when it is the same request and the authority for it still holds |
| `Deliveries.IntendedExactly` | src/agent/storage/workflow.rs:13-43 | an intent is staged exactly for a new key of a caller who may use the secret at the destination, a registration only once and never on a restored record; it adds exactly the unfinished attempt |
| `Deliveries.RepeatedExactly` | src/agent/storage/workflow.rs:23-30 | a repeated delivery is answered exactly when the first attempt with the key was the same request, of the version that is still current, handed off and settled |
| `Deliveries.FinishedExactly` | src/agent/storage/workflow.rs:74-88 | for every action and status, the signup that follows, the status of the attempt and one audited use |
| `Deliveries.CancelledExactly` | src/agent/storage/workflow.rs:56-64 | the attempt is rejected and undispatched, and the registration it meant is pending |
| `Operations.ApproveKeepsSound` | src/agent/mod.rs:498-522 | an approval keeps the ledger invariant on every input |
| `Operations.RevokeTaskKeepsSound` | src/agent/mod.rs:524-530 | so does a revocation |
| `Mutations.MutateSoundExactly` | src/agent/mod.rs:653-745 | a mutation stages a sound application exactly when it changes nothing or is publishable: time not negative, acting approval in the record's scope, no sealed verified login moved |
| `Mutations.ReadSoundExactly` | src/agent/mod.rs:760-782 | a read stages a sound application exactly when it fails or its time is not negative |
| `Workflow.IntentSoundExactly` | src/agent/storage/workflow.rs:13-43 | an intent stages a sound application exactly when it does not register on a sealed verified login |
| `Workflow.CancelSoundExactly` | src/agent/storage/workflow.rs:56-64 | a cancelled handoff keeps the ledger exactly when it does not reset a sealed verified login |
| `Workflow.FinishSoundExactly` | src/agent/storage/workflow.rs:74-88 | an outcome keeps the ledger exactly when its time is not negative and it moves no sealed verified login |
| `Settlement.SanitizeSucceedsExactly` | src/agent/storage/recovery.rs:110-124 | sanitizing a sound application succeeds, with a sound result, exactly when its generation can advance, no event is later than the sample, and no sealed record has an unfinished login or registration |
| `Settlement.RestoreSucceedsExactly` | src/agent/storage/backup.rs:10-26 | restoring succeeds, with a sound result, exactly when the caller is an administrator of every task and record of the copy, its generation can advance and nothing is stuck |
| `Settlement.SanitizedIsDisarmed` | src/agent/storage/recovery.rs:110-124 | recovery leaves every approval and grant revoked and every unfinished attempt unknown, with the signup of its record when it was a login or a registration, and changes nothing else but the clock and the generation |
| `Settlement.RestoredIsDisarmed` | src/agent/storage/backup.rs:4-26 | the same of a restored copy, every record marked and the clock not set back; it is denied exactly to a caller who is no administrator of all of it |
| `Commands.EveryCommandSoundExactly` | src/agent/storage.rs:337-368 | every operation stages a sound application from a sound one exactly when it is admissible |
| `Commands.EveryCommandFollows` | src/agent/mod.rs:498-745 | no operation removes or rewrites what is there: identities are immutable, revisions grow, receipts are never edited, finished attempts never change |
| `Commands.EveryCommandAddsOnly` | src/agent/mod.rs:653-745 | an operation adds at most the approval, record, grant, receipt or attempt it names or draws |
| `Transition.EvidenceAcceptedExactly` | src/agent/storage/recovery.rs:32-108 | for every operation on every sound state, the published image is accepted as the successor of the durable one exactly when the operation is not accepted with an approval identifier or request key that its own pruning removes |
| `Transition.ReusesExactly` | src/agent/storage/recovery.rs:32-108 | what is published brings back an identifier or key that was pruned exactly when the operation is an approval or a mutation accepted with the one that its own pruning removes |
| `Transition.AcceptedNeverRevives` | src/agent/storage/recovery.rs:32-108 | whatever recovery accepts as a successor never brings back a revoked approval, a deleted record, a revoked grant, or the registration of a record already dispatched and settled |
| `Transition.RekeyAccepted` | src/agent/storage.rs:371-388 | a re-keyed image is always accepted |
| `Evidence.SuccessorExactly` | src/agent/storage/recovery.rs:32-108 | an image is accepted as a successor exactly when it is one generation on and no approval, record, grant, receipt or attempt was altered, went back, or was dropped while something still needs it |
| `Effects.AcceptedHasEffect` | src/agent/mod.rs:653-745 | an accepted new request has the effect of its mutation on records and grants, answers with its receipt, and was made by the principal of the acting approval |
| `Effects.SampleIsInvisible` | src/agent/mod.rs:489-496 | a clock sample changes nothing that anybody can read |
| `Effects.OthersAreUntouched` | src/agent/mod.rs:687-740 | no mutation changes what any reader can select from any other record |
| `Effects.CreatedIsReadable` | src/agent/mod.rs:689-698 | the creator reads back exactly the values written or generated, for as long as the approval lasts |
| `Effects.PatchedIsRead` | src/agent/mod.rs:699-710 | every reader of a patched record sees the new values, and the old ones where nothing was written |
| `Effects.RotationUnpins` | src/agent/mod.rs:558-571 | a rotated credential is out of reach of every grant pinned to an older version |
| `Effects.ReportIsInvisible` | src/agent/mod.rs:734-739 | a reported outcome is recorded and changes no selection |
| `Effects.DeletedIsGone` | src/agent/mod.rs:726-733 | a deleted record is empty, unreadable by anyone, and all its grants are revoked |
| `Effects.SharedIsUsable` | src/agent/mod.rs:711-719 | the recipient of a share may do what was shared, under an approval of its own, until the share or its issuer expires |
| `Effects.SharedIsPrivate` | src/agent/mod.rs:711-719 | a share changes nothing for anybody else |
| `Effects.RevokedOnlyShrinks` | src/agent/mod.rs:720-725 | after a revocation that grant permits nothing and nobody can read what they could not read before |
| `Runs.RunKeepsSound` | src/agent/storage.rs:337-388 | every state of every run of operations, restarts, recoveries and re-keyings satisfies the ledger invariant |
| `Runs.RunKeepsStamps` | src/agent/snapshot.rs:70-77 | along every run, receipts and attempts that carry their time stay so, and every new one does |
| `Runs.DeletionIsPermanent` | src/agent/mod.rs:551-556 | a deleted record is never selectable again, in any run |
| `Runs.GrantRevocationIsPermanent` | src/agent/mod.rs:558-571 | a revoked grant never permits anything again |
| `Runs.TaskRevocationIsPermanent` | src/agent/mod.rs:524-540 | a revoked approval authorizes nobody, in every run in which no approval of its identifier is accepted after it was pruned; requests that are refused do not matter |
| `Runs.ReapprovalFindsNoReference` | src/agent/snapshot.rs:352-367 | when it is, no record, grant, delivery or receipt still refers to it |
| `Runs.AuthorityAfterRecovery` | src/agent/storage/recovery.rs:110-124 | after a recovery, every later selection on a record that was there is made under an approval accepted since from an administrator, through a grant an administrator issued from an approval accepted since |
| `Runs.AuthorityAfterRestore` | src/agent/storage/backup.rs:10-26 | the same after a restore |
| `Runs.SealIsForever` | src/agent/snapshot.rs:188-188 | in every run, a sealed verified login stays sealed and verified and its secret version never changes while the record stands |
| `Runs.DelegationAttenuates` | src/agent/mod.rs:558-633 | whoever may act without being the creating approval is backed by a live grant that cannot be shared further, whose live issuer holds the permission, fields and destination, within its share bounds when no administrator issued it |
| `Runs.RequestTakesEffectOnce` | src/agent/mod.rs:659-669 | in every run, while the vault clock stays in the retry window of a receipt, its key changes nothing but the clock and answers with the same receipt or an error |
| `Runs.AttemptTakesEffectOnce` | src/agent/storage/workflow.rs:23-30 | the same for the key of a delivery: neither a mutation nor a second delivery is staged |
| `Runs.KeysStayDisjoint` | src/agent/snapshot.rs:231-231 | mutation keys and delivery keys stay disjoint in every run |
| `Runs.FailureIsEffectFree` | src/agent/storage.rs:361-368 | what a failed operation stages, and the owner commits, differs from the pruned state only in the clock |
| `Provenance.ApprovalsComeFromAdministrators` | src/agent/mod.rs:498-522 | in every run, an approval that is in a later state and was not in an earlier one was accepted in between from an administrator of its owner and workspace |
| `Provenance.RevocationsComeFromAdministrators` | src/agent/mod.rs:524-530 | an approval revoked since was revoked by such an administrator or by a recovery |
| `Provenance.ContentChangesByRequest` | src/agent/mod.rs:653-745 | where the values, the deletion or the secret version of a record differ between two states, a request from somebody entitled to it then deleted the record or wrote to it |
| `Provenance.GrantsComeFromShares` | src/agent/mod.rs:711-719 | a grant made since rests on an accepted share of exactly its terms, from somebody who could share that much then |
| `Timekeeping.FrozenExactly` | src/agent/mod.rs:478-496 | after any samples the clock is frozen exactly when one lay further behind the high-water mark than the tolerance, and otherwise stands at the high-water mark |
| `Timekeeping.AcceptedIsHighWater` | src/agent/mod.rs:478-496 | an accepted sample is answered with the high-water mark |
| `Timekeeping.TimeOnlyMovesForward` | src/agent/mod.rs:478-496 | effective times never decrease, and after one refused sample every later one is refused |
| `Timekeeping.ExpiryIsFinal` | src/agent/mod.rs:532-571 | an approval, session or grant expired at one accepted sample is refused at every later one |
| `Registration.GuardKept` | src/agent/mod.rs:466-469 | the registration guard of a surviving record is lost by no step except cancelling a registration of that record |
| `Registration.HistoryKeepsWorld` | src/agent/storage/workflow.rs:22-72 | over every history of vaults, copies, crashes and recoveries, with a clock sample before every handoff and every refusal of one: entered registrations stay guarded or restored, and a record can be registered in at most one copy |
| `Registration.RegisteredAtMostOnce` | src/agent/storage/workflow.rs:22-72 | the registration callback of a record is entered at most once in the whole history |
| `Registration.OnlyAnAbortClearsTheGuard` | src/agent/storage/workflow.rs:54-68 | the guard is lost only by a refused handoff, whose sample may have moved or frozen the clock, and then that callback was never entered |
| `Directory.CrashOfPublication` | src/agent/storage.rs:255-293 | what a crash at any stage of a publication can leave |
| `Directory.CrashOfRepair` | src/agent/storage/recovery.rs:254-265 | what a crash at any stage of a recovery can leave |
| `Recovery.InterruptedIsRecovered` | src/agent/storage/recovery.rs:153-255 | recovery of an interrupted publication works on the old or the new image and succeeds exactly when that image can be sanitized |
| `Recovery.UnfinishedIsRecovered` | src/agent/storage/recovery.rs:246-255 | without a gate, recovery answers a frozen clock or an unfinished attempt, and nothing else |
| `Recovery.ResumesWithThePlan` | src/agent/storage/recovery.rs:233-245 | once a plan is durable every later run installs exactly the planned image, whatever clock it is given |
| `Recovery.RecoveredOpens` | src/agent/storage/recovery.rs:262-271 | a completed recovery opens with the planned application, and another recovery has nothing to do |
| `Recovery.OpenAdmitsOnlyDurable` | src/agent/storage.rs:208-212 | after a crash anywhere in a publication, a restart without a gate sees the image before it or a candidate already renamed and synchronised |
| `Recovery.OpenAdmitsOnlyThePlan` | src/agent/storage/recovery.rs:253-265 | after a crash anywhere in a recovery, a restart without a gate sees the planned image, or the directory is as recovery found it |
| `Recovery.UnconfirmedIsNeverAdmitted` | src/agent/storage.rs:321-331 | a candidate whose publication was not confirmed is never admitted |
| `Recovery.TornIsRefused` | src/agent/storage/recovery.rs:5-17 | a torn intent is refused by restart and recovery |
| `Recovery.EveryCrashLeavesLegal` | src/agent/storage/recovery.rs:214-271 | any number of publications and recoveries, refused ones included, each cut short anywhere by a crash of the machine, leave a directory that is steady, torn at the intent, a genuine interrupted publication or a resumable recovery |
| `Recovery.PlanSurvivesExactly` | src/agent/storage/recovery.rs:195-204 | the plan written on an unsynchronised directory survives every crash exactly when the state's rename was already settled, or the interrupted publication was the vault's first or a re-keying under another seed |
| `Evidence.DeniedExactly` | src/agent/storage/recovery.rs:126-245 | whatever the files, recovery is denied exactly to a caller who is no administrator, or not of every approval and record of the candidate it would adopt, the image it would work on and both images of a standing plan |
| `Evidence.DecisionRestsOnEvidence` | src/agent/storage/recovery.rs:132-255 | whatever the files, what recovery decides to install is a visible, adopted or planned image disarmed under the same key, and an intent is followed only when it proves a harmless first image, a successor that loses nothing, or an image bound to one under another seed |
| `Publications.OperationIsGenuine` | src/agent/storage.rs:337-368 | the publication of an operation is a pair recovery accepts exactly when the operation is not accepted with something its own pruning removes |
| `Publications.RekeyIsGenuine` | src/agent/storage.rs:371-388 | so is every re-keying, under any seed |
| `Publications.CreateIsGenuine` | src/agent/storage.rs:297-300 | a new vault may be published where there was nothing |
| `Publications.RestoreIsGenuine` | src/agent/storage/recovery.rs:138-151 | so may a restored copy |
| `Publications.InterruptedPublicationRecovers` | src/agent/storage/recovery.rs:153-255 | a crash at any stage of a genuine publication with a complete intent: recovery succeeds exactly when the visible image is curable, and leaves it sanitized |
| `Stores.Device.Sync` | src/agent/storage.rs:256-266 | a successful synchronisation leaves nothing waiting, a failed one promises nothing |
| `Stores.Device.RenameState` | src/agent/storage.rs:144-151 | a rename, its failures before or after it took effect, and the create-only form |
| `Stores.Store.Announce` | src/agent/storage.rs:256-270 | the intent is durable with whatever was still waiting in the directory, or nothing but the intent has been touched |
| `Stores.Store.Install` | src/agent/storage.rs:275-282 | the candidate is durable, or the intent still stands |
| `Stores.Store.Clear` | src/agent/storage.rs:289-292 | the directory is steady with the candidate, or its intent still stands |
| `Stores.Store.PublishWith` | src/agent/storage.rs:235-293 | every directory state on the way is a stage of the publication, or a partly written intent beside what still waited for a synchronisation; each answer says exactly how far it got, and an unblocked store has a steady directory |
| `Repairs.Settle` | src/agent/storage/recovery.rs:110-119 | the loops revoke all authority and settle every unfinished attempt as unknown |
| `Repairs.Sanitize` | src/agent/storage/recovery.rs:110-124 | settling, then the validator, gives the stated result |
| `Repairs.PrepareRestored` | src/agent/storage/backup.rs:10-26 | scope, settling with every record marked as a copy, clock, validator; denied exactly to a caller who is no administrator of every task and record of the copy |
| `Repairs.CheckPending` | src/agent/storage/recovery.rs:153-176 | the intent supports the visible image |
| `Repairs.CheckAdoption` | src/agent/storage/recovery.rs:179-187 | whether the re-keyed image may replace a state that does not open, with the error otherwise |
| `Repairs.Adopt` | src/agent/storage/recovery.rs:188-193 | the state becomes the re-keyed image; the gates are untouched at every step |
| `Recovery.AdoptingIsAnnounced` | src/agent/storage/recovery.rs:188-193 | adoption stays inside the stages of the interrupted re-keying, so a crash there is recovered like one during the publication |
| `Repairs.ResumePlan` | src/agent/storage/recovery.rs:233-245 | a standing plan is accepted exactly when it is what recovery makes of its base |
| `Repairs.Rewrite` | src/agent/storage/recovery.rs:253-265 | plan, state, intent and plan again: whatever fails, every state on the way is a stage of this repair |
| `Repairs.RecoverAt` | src/agent/storage/recovery.rs:214-271 | recovery succeeds only with the decided image steadily installed; out of scope it is denied with the directory as it was (or with only the adoption done, when the standing plan is what is foreign); another refusal gives the decided reason with at most the adoption done; any other error is a failed operation on the directory; and from a directory in which nothing waits for a synchronisation every state on the way is a stage of this recovery |
| `Repairs.EveryStateIsAnEpisode` | src/agent/storage/recovery.rs:214-271 | a crash of the machine at any of these states is one of the episodes after which the directory is legal |
| `Vaults.DurableVault.Commit` | src/agent/storage.rs:337-359 | the candidate is durable, or only the clock moved and is remembered, or nothing changed, or the owner is frozen with a candidate that is not durable; it is refused only because the owner is frozen, the candidate is invalid, too large or has no next generation, or the storage failed |
| `Vaults.Prepare` | src/agent/storage.rs:361-366 | the copy the owner commits is the staged operation on the pruned application, with the operation's own answer |
| `Vaults.DurableVault.Apply` | src/agent/storage.rs:361-368 | the operation is staged on the pruned copy and the copy is committed whether or not it failed; it is left uncommitted only for one of these reasons |
| `Vaults.DurableVault.Rekey` | src/agent/storage.rs:371-388 | the image is sealed under the new seed and bound to the one it replaces; denied, with nothing changed, exactly to a caller who is no administrator of every task and record |
| `Vaults.DurableVault.UseSecret` | src/agent/storage/workflow.rs:5-92 | memory and disk agree afterwards; the callback is entered at most once, with the values of the record, a durable unfinished attempt and authority checked again; then the very status it returned is durable and answered, with the signup it implies and one audited use (unknown and an error when it failed), or every restart is refused; without a callback the attempt is absent, retracted, or every restart is refused; memory and whatever a crash leaves are reached by moves of one vault that enter just as many callbacks |
| `Vaults.DurableVault.HandOver` | src/agent/storage/workflow.rs:45-73 | the callback is entered exactly when the second sample is accepted and the authority still holds at it; it ends in the moves of a refused handoff, of a call and its outcome, or of a crash |
| `Vaults.DurableVault.Withdraw` | src/agent/storage/workflow.rs:55-67 | a refused handoff is committed, the attempt settled as never dispatched and a registration pending again, or every restart is refused; either way it ends in moves that enter no callback |
| `Vaults.DurableVault.Conclude` | src/agent/storage/workflow.rs:71-91 | the status the callback returned, or unknown when it failed, is durable with its signup and audit event, and the answer is that status or the error; or the owner freezes and every restart is refused; either way it ends in moves that enter one callback |
| `Vaults.RequestEnds` | src/agent/storage.rs:337-368 | however the commit of any other operation ends, memory and whatever a crash leaves are reached by moves of the vault that enter no callback |
| `Vaults.CommitKeepsOwned` | src/agent/storage.rs:337-359 | an owner that can still be used agrees with its durable image after every commit, except for a clock ahead by less than a minute |
| `Vaults.AppliedIsStep` | src/agent/storage.rs:361-368 | what a commit makes of an operation is a step of a run |
| `Vaults.ApplyEnds` | src/agent/storage.rs:337-368 | the same of a commit at any phase of a private use: lazily remembered, published, refused, or stalled with an unconfirmed candidate |
| `Vaults.PublicationIsGenuine` | src/agent/storage.rs:337-359 | what an owner publishes is a pair recovery accepts, unless the operation is accepted with something its own pruning removes |
| `Vaults.OpenVault` | src/agent/storage.rs:321-331 | a restart admits exactly an ungated image that opens and has no unfinished attempt, and on a settled directory the owner agrees with it |
| `Vaults.CreateFromApp` | src/agent/storage.rs:302-319 | the first publication of a vault, stage by stage, wherever no state and no gate is visible |
| `Containers.GateReadsExactly` | src/agent/storage/recovery.rs:5-17 | a gate reads as a pair exactly when it is that pair's bytes and both fit |
| `Containers.TornGateIsRefused` | src/agent/storage/recovery.rs:5-17 | a gate cut at any byte is refused |
| `Containers.WriteGate` | src/agent/storage.rs:256-266 | the file written piece by piece reads back as the pair, never as another, and cut at any byte is refused |
| `Containers.UnsealInvertsSeal` | src/agent/storage.rs:166-205 | unsealing inverts sealing in both versions and every sealed image fits the limit |
| `Containers.BackupOpens` | src/agent/storage/backup.rs:55-105 | opening a backup inverts writing it, refuses the other kind of secret, and every backup fits |
| `Containers.OpenedIsEnvelope` | src/agent/storage.rs:181-205 | only bytes that are exactly an envelope open |
| `Snapshots.Encode` | src/agent/snapshot.rs:34-50 | exactly the valid applications are encoded, as lists of their entries without repeats |
| `Snapshots.Decode` | src/agent/snapshot.rs:52-86 | a snapshot without repeats decodes to the application it represents, stamped, exactly when that is valid; anything else is refused |
| `Snapshots.Reload` | src/agent/snapshot.rs:34-86 | encoding and decoding a valid application gives it back exactly when every entry carries a time or there is none to give |
| `Snapshots.EveryStateReloads` | src/agent/snapshot.rs:66-82 | every state of every run of a new vault, or of one opened with a clock, is read back unchanged |
| `Witnesses.CompactionCanBreakTheLedger` | src/agent/snapshot.rs:281-389 | a valid application whose compaction is invalid |
| `Witnesses.InterruptedLoginSticks` | src/agent/storage/recovery.rs:110-124 | for every admitted login on a sealed verified login: interrupted, the vault is sound and no time recovers it |
| `Witnesses.SealedLoginIsAdmitted` | src/agent/storage/workflow.rs:13-43 | such a login is admitted |
| `Witnesses.ReapprovalIsRefused` | src/agent/storage/recovery.rs:32-50 | a genuine publication that recovery refuses: it approves again what it prunes |
| `Witnesses.RepeatedKeyIsRefused` | src/agent/storage/recovery.rs:74-77 | another: it uses again a request key it prunes |
| `Witnesses.SealedPatchIsRefused` | src/agent/mod.rs:699-710 | an accepted patch of a sealed verified login whose candidate the validator refuses |
| `Witnesses.NegativeTimeIsRefused` | src/agent/snapshot.rs:252-256 | an accepted operation at a negative time whose candidate the validator refuses |
| `Witnesses.ForeignDeleteIsRefused` | src/agent/mod.rs:608-610 | an accepted administrator's delete through an approval of another service whose candidate the validator refuses |
| `Witnesses.UnsettledPlanIsLost` | src/agent/storage/recovery.rs:195-204 | a directory on which recovery decides, and a crash after its plan's rename leaves it refused for good |

## Left out

- Repairs.RecoverAt: says of the states on the way only for a directory in which nothing waited for a synchronisation, as after a crash of the machine; of the others `Recovery.PlanSurvivesExactly` says exactly when the plan survives.
- Recovery.EveryCrashLeavesLegal: episodes start from directories in which nothing waits for a synchronisation; for a recovery that starts from others the statement is false (`Witnesses.UnsettledPlanIsLost`), with the exact condition in `Recovery.PlanSurvivesExactly`.
- Vaults.OpenVault: says that the owner agrees with the disk for images with at most one delete receipt per record, which `Runs.RunKeepsSound` proves of every image the vault publishes.
- Compactor.FoldRecord: looks up the receipt of the next revision instead of sorting the record's receipts first; with distinct revisions the walk is the same.
- Compactor.FoldReceipts: like `Compactor.Compact`, for applications whose receipts, accounts and baselines are in order.
- Compactor.Compact: states the result for applications whose receipts, accounts and baselines are in order, as every application an owner holds is; what the walk does to a ledger out of order is not modelled.
- Validator.ScanBaselines: pruned grants are a set, so the sorted order and the absence of duplicates in the stored list are not modelled.
- Vaults.DurableVault.UseSecret: the callback is a result chosen from outside (a status, an error or an interruption); the callback's own effects, panics and unwinding are not modelled.
- Vaults.DurableVault.Commit: the size of an encoded application is a parameter; an application too large is refused before anything is written.
- Staging.Application.Mutate: the new identifier, the sampled secret and whether the serialized request exceeds its limit are parameters; secret sampling itself is not modelled.
- Staging.Application.Read: a metadata answer carries the values only; the revision and the signup state that accompany them are fields of the record.
- Repairs.Sanitize: requires that deliveries name existing records, which holds of every application that was decoded.
- Containers.UnsealInvertsSeal: the cipher and the key derivation are any functions with the laws decrypt(encrypt(x)) = x and a sixteen-byte tag; Argon2id, AES-GCM, SHA-256 and BIP39 are not modelled.
- Snapshots.Decode: works on structured lists; JSON text, strict parsing and unknown fields are not modelled.
- Text lengths count characters, not UTF-8 bytes.
- Human import and administrator reads on behalf of an approval, consumer preflight, audit listings and the administration views: they only combine operations that are modelled.
- Temporary files, file locks, permissions, descriptors, symbolic links and paths.
- The broker, bridge, command line, HTTPS child process and MCP protocol.
- Zeroization of memory.
