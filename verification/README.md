# OrchKit: a verified model of the ledger and its crash-tolerant protocols

OrchKit is a local workflow ledger.  Workers claim tasks, change one workspace each, hand in
results, are verified, reviewed, approved and published.  Its value lies in what every run keeps:
one writer per workspace, no action repeated after a crash, no completion without evidence.  This
project models the protocols that are meant to guarantee this and proves that they do, or says
exactly when they do not.

`dafny verify dfyconfig.toml` checks everything.

## How the model reads

- A ledger transaction, a filesystem effect and a Git effect are each one atomic step.  Before every
  step a process may crash.  Objects the program updates in place are classes whose methods perform
  these steps; nondeterministic values (`*`) stand for crashes, failing calls, scheduling and the
  sizes in which bytes arrive.
- Where other processes run between two steps, the method that stands for the gap promises only
  the invariant and what nobody takes back (`Safe` and `Grows`, `Inv` and `Keeps`), so callers are
  proved against every such interference.  The same methods, run without faults or interference,
  carry the exact result.
- History is kept beside the state where a promise is about the past: the journal writes of one
  publisher, the exits the store confirmed, renames, applied checkpoints, bytes sent.
- Hashes are injective: a record's hash is the record, a commit's hash is the commit.  A Git commit
  is a value with its parents and its tree.
- `old`-state contracts give the whole new state; the theorems are lemmas about the invariants and
  the `AnyHistory` methods, which run any number of arbitrary steps.

| module | content |
|---|---|
| `Git`, `Publication` | the seven-phase publication journal over HEAD, index, commits and remote ref, and its reconciliation |
| `PatchRecords`, `PatchExecution` | bounded file replacement: intent, dispatch, staging, publication, rename, result, and the reconciler |
| `LedgerState`, `Ledger`, `Queue`, `DependencyGraph` | tasks, runs, approvals and publications; all transactions; the queue's readers; the dependency validator |
| `ProcessStore`, `ProcessAdmission`, `ClosureGate` | the process event log and its validator, admission limits, and the gate that no run leaves with open work |
| `ProcessOperations`, `OutputEnvelope`, `Base64` | one owner's children, the reply cache with reserved places, output delivery |
| `LifecycleStore`, `Lifecycle` | grants, claims and checkpoints over several transactions and concurrent routes |
| `Framing`, `Transport` | the blocking reader, and the interleaved transport that must agree with it |
| `Delivery` | the ledger and the publishers of one run together: DONE means delivered |
| `ReviewPolicy`, `Readmission`, `RelativePath`, `Xattrs`, `Sorting` | review decisions, the readmission contract, path normalisation, the attribute digest's preimage, sorted lists |

## What turned out to need a condition

- `verify` reads the run in one transaction and commits its verdict in a later one without looking
  again.  `StaleVerdictExactly` says when that commit is harmless, and `StaleVerdictDoublesTheWriter`
  gives the trace after which two runs hold one writer.
- The capability handler of `claim` also writes without reading.  `LateCapabilityFailureExactly` says
  when that is harmless, and `LateCapabilityFailureBlocksARunningTask` gives the trace after which a
  task is BLOCKED while its run is RUNNING.  Both writes take part in every history wherever they are
  harmless.  `_finalize_publication` writes without reading too, but is proved safe from any earlier
  reading.
- The journal status of a publication is not monotone, and two publishers can overwrite COMPLETE;
  the safety invariant relates the journal to Git and survives both.
- `reconcile_publication` on an ABANDONED journal answers BLOCKED although `publish` is admitted.
- `publish` pushes from any ancestor of the base that the remote holds, reconcile only from an
  unset ref, the base or the commit itself (`OlderRemoteIsRefused`, `OlderRemoteExists`).
- A reconcile of a patch that crashes between removing the staging file and recording its result
  leaves a state that stays UNKNOWN (`CrashedReconcileStaysUnknown`); so does a crash inside an
  append, which leaves debris.
- A reply about an exited process may carry no output when the limit is the reserved minimum or one
  byte more; two bytes more always suffice (`ProgressExactly`).
- Normalising a path twice is the same as once exactly when the text without its leading `./` does
  not begin with a slash (`NormalizeIdempotent`).
- The review part of the readmission contract alone forgets retries; the rule beside it does not
  (`ContractAloneForgetsRetries`, `ReadmissionKeepsEveryReview`).

## Model

| member | source | states |
|---|---|---|
| Git.CommitMatchesIsExact | orch/core.py:3471-3496 | A commit passes the snapshot check exactly when it is a single child of the base whose tree is the base tree with the manifest applied, every manifest entry being a real change |
| Git.MatchingTreeIsExact | orch/core.py:3450-3469 | The same exactness for the staged index: path list, contents and executable bits determine the whole tree |
| Git.StagingMatches | orch/core.py:3592-3596 | Staging exactly the manifest paths of a work tree that still matches the snapshot passes the staging check and leaves the scope census as it was |
| Git.ExecuteBitsAreExact | orch/core.py:3431-3436 | A recorded mode counts as executable exactly when the owner, the group or others may execute |
| Publication.Publisher.Update | orch/core.py:3360-3383 | A journal write keeps earlier commit, remote commit and staged paths when it gives none, and fails without a row; beside other processes only safety and growth are promised |
| Publication.Publisher.PrepareCommit | orch/core.py:3498-3510 | A prepared commit is returned only when it is proven against the manifest; nothing but the object store changes |
| Publication.Publisher.Guard | orch/core.py:3264-3311 | The workspace guard passes only on an observation that shows exactly the snapshot, on the expected base |
| Publication.Publisher.SwapBranch | orch/core.py:3512-3526 | The branch moves only from the expected base to the prepared commit, on the configured branch; otherwise nothing changes |
| Publication.Publisher.Finalize | orch/core.py:3528-3541 | One transaction completes journal, run and task, without reading the run again, only for a delivered commit of a run that was released; the ledger stays in order |
| Publication.Publisher.AdmitRun | orch/core.py:3544-3562 | The ledger admits exactly a verified, current and where necessary approved run without a live journal; a COMPLETE journal is answered from the record, and every refusal names what stands in the way |
| Publication.Publisher.CheckRepository | orch/core.py:3570-3584 | Branch, base and an empty staging area, both directions |
| Publication.Publisher.Deliver | orch/core.py:3614-3639 | From a swapped branch: published exactly when the kind is local, or the push is accepted and read back equal |
| Publication.Publisher.Publish | orch/core.py:3543-3643 | Every run of publish, with crashes, failures and other processes, keeps Safe; undisturbed it goes ahead exactly when a verified run is on its base with nothing staged, advances the branch once, and its answer is what the journal holds; it never starts unless every recorded and protected file is as it was verified, and an answer that a commit is published means that this process wrote intent, staged index, prepared commit, branch swap, push, read-back and end to the journal, each once and in this order |
| Publication.Publisher.AdoptHead | orch/core.py:3673-3680 | An unproven journalled commit stops reconcile; a HEAD off the base that holds the snapshot is journalled as the commit when none is known; anything else changes nothing |
| Publication.Publisher.ReconcileWithoutCommit | orch/core.py:3681-3708 | On the base with no commit: a bare intent is abandoned as safe to retry without touching Git, staged work is resumed and completes wherever the remote was open before the call, anything else is refused |
| Publication.Publisher.ReconcileFromBase | orch/core.py:3709-3739 | A known commit with HEAD on the base: the branch is swapped under guard, then delivered; without resume nothing changes |
| Publication.Publisher.ReconcileCommit | orch/core.py:3740-3783 | A known commit: completion exactly when the kind is local or the remote is unset, on the base, or already on the commit; a HEAD on neither the base nor the commit is refused |
| Publication.Publisher.Reconcile | orch/core.py:3645-3783 | The exact verdict of an undisturbed reconcile for every state a lone publication can leave, and for the states somebody else left: a snapshot committed by hand is adopted and delivered under the same condition on the remote, an unproven commit, a moved HEAD and a changed workspace are refused without touching anything; safety and at most one more branch swap in every other environment; no Git effect without resume or with SAFE_TO_RETRY; what it writes to the journal is exactly what the interrupted publication had not yet written |
| Publication.CompleteIsDelivered | orch/core.py:3528-3541 | In every safe state COMPLETE means: single child of the expected base with exactly the manifest tree, observed or swapped to by HEAD, read back from the remote for kind git, and the branch advanced at most once |
| Publication.JustVerified | orch/core.py:3543-3587 | A freshly verified run on its base is a starting point of these guarantees |
| Publication.GuardMeans | orch/core.py:3264-3311 | Path by path: the guard passes exactly when the work tree is as verified, HEAD is the base, every recorded path is allowed and unprotected, and outside the protected files HEAD, index and work tree differ in exactly the recorded paths |
| Publication.RowIsOpen | orch/core.py:3543-3562 | In every safe state the ledger counts the run as being published exactly while there is a journal that was not abandoned |
| Publication.AnyHistory | orch/core.py:3543-3783 | Any number of publish and reconcile attempts, each stopped anywhere, stays in the recoverable states |
| Publication.RecoverFromAnyHistory | orch/core.py:3645-3783 | After any such history one resumed reconcile completes the publication or leaves a state in which publish is admitted; the branch was advanced at most once |
| Publication.ChildOfBaseReaches | orch/core.py:3621-3626 | A child of the base can be pushed wherever the base could |
| Publication.OlderRemoteIsRefused | orch/core.py:3756-3783 | A remote on an older ancestor of the base: publish would push, reconcile refuses and leaves it |
| Publication.OlderRemoteExists | orch/core.py:3756-3783 | Such a state exists: the third of three commits waits for its push |
| Publication.CommittedByHandExists | orch/core.py:3676-3680 | A state to be adopted exists: the staged snapshot was committed by hand |
| Publication.CurrentMeansAsVerified | orch/core.py:3232-3258 | A current snapshot: recorded files with their content and permission bits, deleted files gone, protected files with their content |
| Delivery.TransactionIsAllowed | orch/core.py:3528-3541 | A ledger transaction that neither completes the run nor touches its publication row is a step its publishers reckon with at every gap between theirs |
| Delivery.Transaction | orch/core.py:1998-4210 | Every ledger transaction of anybody but the run's own publishers is such a step: no claim, verdict, approval, completion, plan, readmission or foreign publication completes the run |
| Delivery.AnyHistory | orch/core.py:1998-4210 | Ledger transactions, publications and reconciliations that may stop anywhere, and outside changes of the repository, in any order and number: the ledger stays in order and the run's publication safe |
| Delivery.DoneMeansDelivered | orch/core.py:3528-3541 | A task that publishes is DONE through one run only, which passed checks, review and owner, and whose snapshot is out: a single child of the base with exactly the manifest's tree, seen as HEAD and read back from the remote where one is asked for |
| Delivery.AnyUnfinishedRun | orch/core.py:2205-2219 | Every run that is not finished and was never published is a starting point |
| PatchExecution.NothingRecorded | orch/bridge_file_patch.py:127-135 | The state before the first call satisfies the invariant |
| PatchRecords.ResultIsEvidence | orch/bridge_patch_execution.py:190-203 | APPLIED is evidence that the target is the published inode with the replacement and the original's metadata, NOT_APPLIED that it is the original in every respect |
| PatchRecords.PublicationIsEvidence | orch/bridge_patch_execution.py:177-189 | A publication is evidence of a new inode with the replacement under the original's metadata, for this intent and dispatch |
| PatchExecution.Patcher.AppendRecord | orch/bridge_patch_execution.py:747-852 | An append writes the record or nothing, is answered Existing for the identical record and Clash for another or after a result, and never overwrites: a valid chain stays valid and only grows; without faults each of the four answers is given exactly in its case |
| PatchExecution.Patcher.StageTemp | orch/bridge_file_patch.py:176-190 | A staged file is a new inode with the whole replacement and the original metadata; the write loop finishes for every splitting into pieces |
| PatchExecution.Patcher.PublishAndRename | orch/bridge_file_patch.py:190-215 | One rename at most, only after an acknowledged publication record; never onto a target that is not the original; success means the published inode is at the target and the staging name is gone |
| PatchExecution.Patcher.CleanUp | orch/bridge_file_patch.py:222-242 | Before publication only the own staging inode is removed and NOT_APPLIED recorded; a changed target or a foreign staging file is left and the answer is Unknown |
| PatchExecution.Patcher.PrepareIntent | orch/bridge_operation_journal.py:442-558 | An intent is created once, repeated only identically, and never replaced |
| PatchExecution.Patcher.ApplyPatch | orch/bridge_file_patch.py:127-174 | A dispatched operation is never applied again; APPLIED and NOT_APPLIED answers carry a matching result record and the true number of renames; an applied target has the replacement and keeps the original's attributes and extended attributes; the first undisturbed call succeeds, and a repeated, conflicting or stale one without faults is answered exactly |
| PatchExecution.Patcher.Reconcile | orch/bridge_file_patch.py:245-299 | It never writes the target, removes at most the own staging file, and without faults answers exactly the verdict read off the crash state: after a publication APPLIED exactly when inode, attributes, content and extended attributes of the target are those published, whatever its time stamps, and UNKNOWN when any of them differs |
| PatchExecution.DecisionIsTrue | orch/bridge_file_patch.py:259-297 | Every verdict tells the truth about the rename, at most one disposition fits, and for one observed inode no chain admits both results |
| PatchExecution.UndecidedExactly | orch/bridge_file_patch.py:265-297 | With an untouched target, reconcile is undecided exactly when the staging file and the publication record disagree |
| PatchExecution.CrashedReconcileStaysUnknown | orch/bridge_file_patch.py:285-297 | A crash of reconcile between removing the staging file and recording the result leaves a state no later reconcile decides |
| PatchExecution.AnyHistory | orch/bridge_file_patch.py:127-299 | Over every sequence of apply, reconcile, crashes, failures and outside edits: at most one rename, no second dispatch, results final and true |
| LedgerState.EmptyIsInOrder | orch/core.py:27-29 | The empty ledger satisfies the invariant |
| LedgerState.OnlyOpenWorkIsReserved | orch/core.py:27-29 | A run holding a writer reservation belongs to a task that is in progress, waiting for review, ready to publish or waiting for its owner; READY tasks have none |
| LedgerState.DoneIsEvidenced | orch/core.py:3313-3337 | A DONE task has exactly one completed run, with passed checks, a snapshot, a decided review and where required the owner's approval of exactly that snapshot |
| LedgerState.WriteKeepsReservationsExactly | orch/core.py:2568-2585 | A write of a run and its task keeps the reservations exclusive and fitting exactly under a condition on the other holders |
| LedgerState.AdvancingKeepsInv | orch/core.py:2493-2566 | Moving on a run that holds its reservation keeps the whole invariant and takes nothing back |
| LedgerState.LateWriteExactly | orch/core.py:3069-3094 | A write decided on an earlier reading is harmless exactly when the run still holds its reservation and is not ahead of it, or ended the same way on a task nobody took up |
| LedgerState.ClaimingKeepsInv | orch/core.py:2205-2219 | Inserting a run for a ready task with a free writer and attempts left keeps exclusivity, evidence, attempt numbering and queue order |
| LedgerState.NewRunHasNoEvidence | orch/core.py:2205-2219 | A new run has its own lease and the next attempt number, no snapshot, no passed checks and no review; its task is in progress and nothing else changes |
| LedgerState.LoadingKeepsInv | orch/core.py:1186-1220 | Adding planned tasks behind the queue keeps the invariant and an acyclic, closed dependency graph |
| LedgerState.MarkingKeepsInv | orch/core.py:4054-4093 | Blocking, reopening or cancelling a task without a reservation keeps the invariant |
| LedgerState.FinalizingKeepsInv | orch/core.py:3528-3541 | Completing a verified, owned run keeps the invariant; completing it again changes nothing |
| Ledger.Ledger.Claim | orch/core.py:1998-2219 | The exact effect of a claim: it blocks the exhausted tasks ahead, then reserves the task the queue owes, blocks it, or rolls back; the answer is the one next_work gives |
| Ledger.Ledger.ClaimRepair | orch/core.py:1866-2060 | A repair reserves exactly a repairable run's task, and changes nothing otherwise |
| Ledger.Ledger.CheckRepair | orch/core.py:1866-1890 | The ledger's tests of a repair claim, one by one, decide exactly the guard |
| Ledger.Ledger.ClaimGranted | orch/bridge_worker_lifecycle.py:474-536 | The lifecycle path to a new run obeys the same reservation rules |
| Ledger.Ledger.CheckGrant | orch/bridge_worker_lifecycle.py:484-497 | So do the tests of a granted attempt |
| Ledger.Ledger.CapabilityFailed | orch/core.py:2236-2273 | The handler of a capability file that cannot be written, as the program runs it: its whole new state, and that it keeps the ledger right exactly when nobody took the run past the point where it may still be aborted |
| Ledger.Ledger.Submit | orch/core.py:2493-2542 | Submitted exactly for the running run of that lease with a valid receipt and resolved work; the whole new state |
| Ledger.Ledger.Quiesce | orch/core.py:2544-2566 | To VERIFYING exactly from RESULT_SUBMITTED with resolved work |
| Ledger.Ledger.BlockVerification | orch/core.py:2568-2585 | Blocks exactly a run that is still VERIFYING |
| Ledger.Ledger.CommitVerdict | orch/core.py:3069-3094 | verify's commit as the program makes it, without a second look: what it says about snapshot, checks, review and task, and that it keeps the ledger right exactly when it is harmless |
| Ledger.Ledger.ImportReview | orch/core.py:3188-3231 | A verdict counts exactly for a run under review and its own snapshot |
| Ledger.Ledger.Approve | orch/core.py:3339-3358 | Approval of exactly the verified snapshot, only where the task asks for it |
| Ledger.Ledger.Complete | orch/core.py:3313-3337 | Waits for the owner, refers to publication, or finishes; never finishes without approval or past publication |
| Ledger.Ledger.FinalizePublication | orch/core.py:3528-3541 | A publisher acting on any earlier reading may still finish its run, once |
| Ledger.Ledger.LoadPlan | orch/core.py:1131-1230 | Accepted exactly for distinct ids, an acyclic plan and known dependencies; then exactly the new tasks are queued behind everything in plan order |
| Ledger.Ledger.Readmit | orch/core.py:1458-1645 | Replaces a task exactly under the readmission guard; the attempts of both never exceed the first task's limit; a recorded readmission is answered from its record and changes nothing |
| Ledger.Ledger.CheckReadmission | orch/core.py:1458-1545 | The ledger's tests of a readmission, one by one, decide exactly the guard |
| Ledger.ReadmittedInPlace | orch/core.py:1590-1645 | The new task is queued behind everything, the one it replaces is cancelled, nothing else changes |
| Ledger.Ledger.Abort | orch/core.py:4141-4210 | Aborts exactly an active, resolved run, a checkpointed running one only when confirmed inactive; its writer is free again, and its task is ready again exactly when a retry was asked for |
| Ledger.NotOfferedUntilReopened | orch/core.py:4177-4185 | Aborted without retry, a task is offered by neither next_work nor claim until somebody reopens it |
| Ledger.OfferedForRetry | orch/core.py:4177-4185 | Aborted for a retry with attempts left, it is eligible again as soon as its project is not paused and its dependencies are done |
| Ledger.Ledger.CancelTask | orch/core.py:4054-4093 | Cancels exactly tasks without reserved work; a DONE task stays DONE |
| Ledger.Ledger.RecordCheckpoint | orch/core.py:2428-2491 | A checkpoint is recorded exactly for the running run of that lease |
| Ledger.StaleVerdictExactly | orch/core.py:2975-3094 | verify's unguarded commit is safe exactly when the run is still verifying or reviewing, repeats its own verdict, or failed the same way on an untouched task |
| Ledger.StaleVerdictDoublesTheWriter | orch/core.py:2976-3094 | The trace that breaks exclusivity: observe VERIFYING, abort for retry, claim again, commit the old verdict; then two runs hold one writer |
| Ledger.LateCapabilityFailureExactly | orch/core.py:2236-2273 | The capability handler's unread write is harmless exactly when the run still holds its reservation unverified, or was aborted and its task not taken up |
| Ledger.LateCapabilityFailureBlocksARunningTask | orch/core.py:2236-2273 | The trace that breaks it: abort for retry, claim again, then the handler writes; a task is BLOCKED while its second run is RUNNING |
| Ledger.AnyHistory | orch/core.py:1998-4210 | Every interleaving of all transactions, publishers acting on arbitrarily old readings and the two unread writes wherever they are harmless, keeps the invariant and takes nothing back that was done, recorded readmissions included |
| Queue.ActiveWriterLocks | orch/core.py:1657-1665 | The keyed map holds a reserved run for exactly the writers that have one |
| Queue.LockMapLosesNoRow | orch/core.py:1657-1665 | Under the invariant the keyed map drops no row |
| Queue.NextWork | orch/core.py:4212-4264 | The eligible task with the lowest queue number, or the reason why there is none |
| Queue.WeighRow | orch/core.py:4230-4248 | One row of the scan: taken, exhausted, locked, held back or skipped, each exactly by its condition |
| Ledger.Ledger.Weigh | orch/core.py:2057-2085 | The same for a claim, although exhausted tasks before the row have been blocked meanwhile |
| Queue.AnswerIsUnique | orch/core.py:2007-2098 | Two readers that answer correctly give the same answer, so claim and next_work agree on every ledger |
| Queue.QueueState | orch/core.py:3804-3829 | The exact label: ACTIVE for a task whose run holds the writer, the task's own status when it is not ready, otherwise the first thing in its way, and READY exactly when it is eligible, although the tests run in another order |
| Queue.AllItems | orch/core.py:3804-3882 | The loop lists every task of the project once, in queue order, each with its exact label |
| Queue.QueueView | orch/core.py:3785-3897 | Refused outside limits 1 to 500; otherwise the first tasks of the whole view up to the limit, marked as truncated exactly when some are missing |
| Queue.NextIsFirstReady | orch/core.py:3804-3829 | The first task a view shows as READY is the next task; the next task is missing from a view only when that is truncated |
| DependencyGraph.ValidateDependencyGraph | orch/core.py:795-810 | The colouring search terminates and refuses exactly the graphs with a cycle |
| DependencyGraph.Validator.Visit | orch/core.py:798-808 | One visit either finishes everything reachable, with a rank that falls along every edge, or hangs on a real cycle |
| DependencyGraph.RankedHasNoCycle | orch/core.py:795-810 | A graph with a falling rank has no cycle |
| DependencyGraph.MergingStaysSound | orch/core.py:1170-1220 | Adding an acyclic plan that depends only on itself and on stored tasks keeps the whole graph closed and acyclic |
| DependencyGraph.SomeTaskIsUnblocked | orch/core.py:1650-1655 | Among any open tasks of a sound graph one waits for no open task |
| ProcessStore.Chains | orch/bridge_process_store.py:148-200 | The replay validator accepts exactly the valid chains and returns exactly the dispatches and the one exit of each ended one |
| ProcessStore.AcceptedRow | orch/bridge_process_store.py:148-205 | Every row of an accepted chain, found by column or payload, is filed under the run and task of the one binding on which caller and ledger agree; a dispatch has a new operation and handle, an exit repeats its dispatch, a link repeats the rows it points to |
| ProcessStore.CheckRow | orch/bridge_process_store.py:170-199 | One row against the tables: accepted exactly when it follows from the rows before it |
| ProcessStore.CheckLinks | orch/bridge_process_store.py:169-180 | A closure row is accepted exactly when every link names an ended dispatch and its own exit, none twice |
| ProcessStore.Census | orch/bridge_process_store.py:33-38 | In any valid prefix every exit ends its own dispatch, dispatches stay within 64 and rows are dispatches, exits and closures |
| ProcessAdmission.StoredChainsAreValid | orch/bridge_process_store.py:148-200 | Every log the store can produce is accepted, with at most 64 dispatches and 131 rows a run, so the row limit is never the reason of a refusal |
| ProcessAdmission.UnresolvedProcesses | orch/bridge_process_store.py:208-222 | The sum over the runs is the number of processes whose exit has not been observed |
| ProcessAdmission.AppendingKeepsWell | orch/bridge_process_store.py:264-281 | A row that follows from the log keeps the log well kept |
| ClosureGate.NothingDispatched | orch/bridge_process_store.py:336-365 | A ledger without process rows and patches satisfies the gate |
| ClosureGate.Home.DispatchProcess | orch/bridge_process.py:288-389 | A start at its owner: refused exactly without the run's capability or when the dispatch transaction does not admit it; afterwards the limits still hold, and an unconfirmed commit is never taken for a refusal |
| ClosureGate.Home.CheckCapacity | orch/bridge_process_store.py:343-362 | The counts taken from the validated chains decide exactly the admission: a running, exclusive run with this binding, a fresh operation and handle, and room within all three limits |
| ClosureGate.Home.OwnsTheWriter | orch/bridge_process_store.py:350-355 | The run is the last attempt at its task and the only one that holds its writer |
| ClosureGate.Home.ObserveExit | orch/bridge_process_store.py:368-389 | Recorded exactly once, for the owner's exact open dispatch, with the facts observed, and it removes exactly that dispatch from the open ones |
| ClosureGate.Home.RequireResolved | orch/bridge_process_store.py:233-261 | Passes exactly when every patch of the run is terminal and every dispatch has its exit; the closure row links every dispatch with its own exit and nothing else |
| ClosureGate.Home.BeginPatch | orch/bridge_patch_execution.py:236-277 | A patch call runs under the runtime lock, for an armed running run |
| ClosureGate.Home.AppendPatchRecord | orch/bridge_patch_execution.py:747-852 | Under the lock an append only extends the operation's chain |
| ClosureGate.Home.Submit | orch/core.py:2521-2540 | Submit through the gate: exactly with the lock free, evidence renewed and everything closed; the closure row it leaves links all of the run's dispatches |
| ClosureGate.Home.Quiesce | orch/core.py:2557-2565 | Quiesce through the gate; the closure row it leaves links all of the run's dispatches |
| ClosureGate.Home.Abort | orch/core.py:4167-4200 | Abort through the gate; the closure row it leaves links all of the run's dispatches |
| ClosureGate.LeftRunningIsClosed | orch/bridge_patch_execution.py:901-945 | Whatever has left RUNNING has every patch terminal and every process exited |
| ClosureGate.NoLaterWorkIsTransitive | orch/bridge_process_store.py:344-365 | No later step adds a dispatch or a patch record to a run that has left RUNNING |
| ClosureGate.AnyHistory | orch/core.py:2493-4210 | Every interleaving of ledger transactions, patch calls with crashes, dispatches, exits and closures keeps the gate |
| ProcessOperations.Owner.Operate | orch/bridge_process.py:288-337 | The exact answer in every case but the child's own: no lock, no authority, a known call, no room; a call with room or a reserved place is served, an identical call gets the identical reply, and the bound on replies and reservations holds |
| ProcessOperations.Owner.OperateStart | orch/bridge_process.py:310-315 | A start goes ahead exactly with room for its reply and both later ones; otherwise it is refused and nothing changes |
| ProcessOperations.Owner.Start | orch/bridge_process.py:339-389 | The exact outcome of each way a start can end: only a spawned child stays, unsupervised or with its reply, and lost authority after the dispatch stops every child |
| ProcessOperations.StartedIsExact | orch/bridge_process.py:339-389 | A child appears exactly when one was spawned for a sized request, with both places, and without a supervisor its exit is unknown from the start |
| ProcessOperations.StoppingIsExact | orch/bridge_process.py:541-544 | Cleaning up asks exactly the live children nobody asked to stop |
| ProcessOperations.Owner.Observe | orch/bridge_process.py:391-414 | The reply shows the child as it is, and an exit only when its row is confirmed: a failed attempt is answered UNKNOWN, a confirmed one shows the exit code; with reserved places only, exactly the replies they are kept for |
| ProcessOperations.Owner.Envelope | orch/bridge_process.py:416-436 | The largest reply that fits, for every child whose exit is not unknown, with exactly its exit, reason and output |
| ProcessOperations.Owner.ReadOutput | orch/bridge_process.py:490-500 | Retained output stays the beginning of the stream, of length min(total, limit) |
| ProcessOperations.Owner.RecordExit | orch/bridge_process.py:438-454 | One attempt for a settled child; the exit counts as recorded exactly when the store confirmed its row, and an ambiguous answer is never tried again |
| ProcessOperations.Owner.Background | orch/bridge_process.py:456-539 | Whatever the supervisor does only lets a child grow and touches no reservation |
| ProcessOperations.Owner.CleanUp | orch/bridge_process.py:541-544 | Every live child is asked to stop |
| ProcessOperations.PlacesWaitForTheirReply | orch/bridge_process.py:272-277 | The two reserved places of a child stay until such a reply has been delivered |
| ProcessOperations.AnyHistory | orch/bridge_process.py:268-539 | Over any calls and background activity: at most 64 replies and reservations, no reply changed, output only grows, and no exit is shown without a confirmed row |
| ProcessOperations.LostExitIsNeverReported | orch/bridge_process.py:438-454 | When the store fails the one attempt, this call and every later one under a new id answers without an exit, after any history |
| ProcessOperations.FirstTerminateIsServed | orch/bridge_process.py:316-334 | After any history the first terminate of a child is served unless its exit is unknown; it is not the first only if the id was used or a terminate was delivered |
| ProcessOperations.FirstExitReportIsServed | orch/bridge_process.py:316-334 | So is the first poll that can report a recorded exit |
| ProcessOperations.Follow | orch/bridge_process.py:416-436 | A client that polls next_cursor from 0, whatever happens between its polls, holds a chain of served replies whose pieces joined are the beginning of the output, all of it once a reply says so; with two bytes above the reserved minimum every reply moves on while output is left |
| ProcessOperations.ReplyMovesOn | orch/bridge_process.py:416-436 | A served reply with two bytes above the reserved minimum carries output when any is left |
| OutputEnvelope.Largest | orch/bridge_process.py:426-436 | The binary search returns the largest fitting piece |
| OutputEnvelope.SizeGrows | orch/bridge_process.py:188-198 | The encoded size is monotone in the number of bytes |
| OutputEnvelope.BodySize | orch/bridge_process.py:188-198 | The exact size of a reply relative to the reserved minimum |
| OutputEnvelope.DigitsReadBack | orch/bridge_process.py:188-198 | The digits of a number read back as the number, without a leading zero |
| OutputEnvelope.EmptyReplyAlwaysFits | orch/bridge_process.py:200-203 | Passing the reservation makes the later refusal of an empty reply unreachable |
| OutputEnvelope.RunningMakesProgress | orch/bridge_process.py:200-203 | A reply about a running process always carries output when there is any |
| OutputEnvelope.ProgressExactly | orch/bridge_process.py:200-203 | Every reply makes progress if and only if the limit is two bytes above the reserved minimum |
| Base64.RoundTrip | orch/bridge_process.py:194 | Decoding the encoded output gives the output, per section 4 of RFC 4648 |
| Base64.Length | orch/bridge_process.py:194 | The encoded length is four characters for every started group of three bytes |
| LifecycleStore.NoGrants | orch/bridge_worker_lifecycle.py:311-317 | A ledger without grants is a starting point |
| LifecycleStore.AtMostOneRunPerGrant | orch/bridge_worker_lifecycle.py:474-536 | A grant inserts at most one run |
| LifecycleStore.AnswersNeverContradict | orch/bridge_worker_lifecycle.py:440-563 | Definite answers for the reserved claim never contradict each other |
| LifecycleStore.CheckpointsAreBounded | orch/bridge_worker_lifecycle.py:655-700 | At most 32 checkpoints are anchored and each is applied at most once |
| LifecycleStore.GrowsIsTransitive | orch/bridge_worker_lifecycle.py:338-348 | Status and phases only move on, over any sequence of transactions |
| LifecycleStore.TouchingOne | orch/bridge_worker_lifecycle.py:97-159 | A transaction that is right about its own grant keeps every other grant and record right |
| LifecycleStore.LedgerMoves | orch/bridge_worker_lifecycle.py:405-424 | Ledger transactions keep every grant right |
| Lifecycle.ClaimedIsNative | orch/bridge_worker_lifecycle.py:565-582 | A run the grant's claim just inserted passes the native validation |
| Lifecycle.DecidedIsNative | orch/bridge_worker_lifecycle.py:565-582 | So does the run of every granted claim that the ledger does not refuse |
| Lifecycle.Store.ValidateNative | orch/bridge_worker_lifecycle.py:565-582 | The native validation, test by test |
| Lifecycle.Store.CreateGrant | orch/bridge_worker_lifecycle.py:319-336 | A grant is issued exactly for the next attempt of a ready task within the capacity |
| Lifecycle.Store.RevokeGrant | orch/bridge_worker_lifecycle.py:338-348 | Only an issued grant is revoked |
| Lifecycle.Store.Reserve | orch/bridge_worker_lifecycle.py:451-473 | The first transaction reserves an issued grant, once |
| Lifecycle.Store.Decide | orch/bridge_worker_lifecycle.py:474-536 | The second transaction consumes the grant, only for its own reservation, and inserts the one run exactly when the ledger would grant this attempt and the caller's comparisons hold |
| Lifecycle.RefusalIsExact | orch/bridge_worker_lifecycle.py:484-497 | Each refusal names the first reason there is: not the granted ready task, paused, blocked by a dependency, the attempts or the writer, or not admitted |
| Lifecycle.Store.MarkReady | orch/bridge_worker_lifecycle.py:538-553 | The third transaction finishes exactly the pending claim, whose run is still the one native writer |
| Lifecycle.Store.Anchor | orch/bridge_worker_lifecycle.py:641-674 | A checkpoint is anchored once, within the capacity, for a run that is still the one native writer |
| Lifecycle.Store.Apply | orch/bridge_worker_lifecycle.py:675-700 | It is applied and marked in one commit, exactly from its own prepared record and while the run is still the one native writer |
| Lifecycle.Route.Status | orch/bridge_worker_lifecycle.py:399-431 | A route serves exactly while it is open, its grant not revoked, and bound if its claim is finished |
| Lifecycle.Route.Admit | orch/bridge_worker_lifecycle.py:374-397 | A route opened on a finished claim takes up its run exactly when its session is good; one opened before serves while nothing is claimed |
| Lifecycle.Route.Claim | orch/bridge_worker_lifecycle.py:440-563 | Definite answers are recorded and true; a calm claim of an issued grant succeeds exactly when the ledger would grant the attempt, a repeated one gets its record, and neither is dispatched again; a checkpoint's operation id conflicts, another operation finds the grant consumed, and a route that does not serve answers Unknown and changes nothing |
| Lifecycle.RecordIsLinked | orch/bridge_worker_lifecycle.py:604-619 | A claim's record is named by its grant; a checkpoint's is listed there and belongs to the run of the finished claim, so the tests of disposition on a stored record always pass |
| Lifecycle.Route.Disposition | orch/bridge_worker_lifecycle.py:595-623 | Reads what is recorded and dispatches nothing; a route that serves answers every known operation exactly by its record |
| Lifecycle.Route.Checkpoint | orch/bridge_worker_lifecycle.py:625-704 | Success means applied under this operation; a known operation changes nothing and is answered by its record, or as a conflict when kind or content differ; a full grant refuses; an undisturbed new one succeeds |
| Framing.FrameRoundTrip | orch/bridge_local_protocol.py:99-115 | A frame is read back exactly and nothing after it is touched |
| Framing.JoinedRoundTrip | orch/bridge_local_protocol.py:99-115 | So is every sequence of frames |
| Framing.ReceiveExact | orch/bridge_local_protocol.py:79-96 | Exactly the wanted bytes for every splitting, a clean end only before the first |
| Framing.ReceiveFrame | orch/bridge_local_protocol.py:99-105 | The blocking reader takes exactly the first frame |
| Framing.ReceiveAll | orch/bridge_local_protocol.py:99-105 | Called again and again it yields the payloads of the stream |
| Transport.ReadsLikeTheBlockingReader | orch/bridge_local_concurrent_service.py:224-250 | Whatever the pieces were, the requests read are the first the blocking reader yields and the next frame is untouched |
| Transport.NothingIsMissed | orch/bridge_local_concurrent_service.py:224-250 | At the end of the stream they are all of them |
| Transport.SendsWholeFramesInOrder | orch/bridge_local_concurrent_service.py:252-286 | The bytes sent are a prefix of the framed responses, one for every request |
| Transport.Transport.Read | orch/bridge_local_concurrent_service.py:224-250 | The exact next state for a piece of any size |
| Transport.Transport.Write | orch/bridge_local_concurrent_service.py:252-286 | The exact next state and the exact send; a success frame is not continued after authority is lost |
| Transport.Transport.Dispatch | orch/bridge_local_concurrent_service.py:160-222 | The exact answer to a whole request: authority is asked for before the response is built and again once it fits the request's budget; a larger one closes the peer |
| Transport.Transport.Answer | orch/bridge_local_concurrent_service.py:194-222 | The same for a request on the peer's own route |
| Transport.AnswersFit | orch/bridge_local_concurrent_service.py:125-216 | Whatever answer a request gets, it is no larger than a frame, a response and the budget its request named |
| Transport.Transport.Hello | orch/bridge_local_concurrent_service.py:164-193 | A route is reserved exactly when its token names a live and free one |
| Transport.Transport.Queue | orch/bridge_local_concurrent_service.py:125-141 | A response that fits the frame and the budget is queued, one that does not closes the peer |
| Transport.Transport.AuthorityDenied | orch/bridge_local_concurrent_service.py:151-158 | The route is retired for good and its peer gets the refusal as its last frame |
| Transport.Transport.ClosePeer | orch/bridge_local_concurrent_service.py:82-104 | The peer is gone and its route free, no other peer or route changes |
| Transport.Transport.Accept | orch/bridge_local_concurrent_service.py:288-321 | A fourth connection never becomes a peer |
| Transport.AnyHistory | orch/bridge_local_concurrent_service.py:82-321 | Over any events: at most three peers, links mutual, no success byte on a retired route, every peer faithful to the blocking reader |
| ReviewPolicy.NormalizedIsStable | orch/review_policy.py:23-56 | Normalising accepts and keeps what it produced, whatever the old flag says; an enabled policy has a reviewer |
| ReviewPolicy.SectionIsTakenOver | orch/review_policy.py:23-56 | A written section is accepted exactly with known mode, reviewer and placement and a reviewer when enabled; what is written is taken over, what is absent gets its default, and the old flag is of no account |
| ReviewPolicy.NoSectionFollowsTheFlag | orch/review_policy.py:23-27 | Without a section the old flag decides between a mandatory review and none |
| ReviewPolicy.DecideReview | orch/review_policy.py:64-98 | Required exactly when the mode or a signal asks for it; the signals are exactly the triggered tags in alphabetical order, at most twenty sensitive paths, size and retry |
| ReviewPolicy.TriggeredIsUnique | orch/review_policy.py:71 | A policy has one list of triggered tags |
| ReviewPolicy.ContractAddsReviewsOnly | orch/core.py:1322-1334 | A policy that passes the contract reviews every change the old one reviewed |
| ReviewPolicy.ContractAloneForgetsRetries | orch/core.py:1383-1386 | The contract alone could lose a retry's review |
| ReviewPolicy.ReadmissionKeepsEveryReview | orch/core.py:1383-1386 | With the rule for risk-based tasks every review the old task could need is needed by the new one, for all changes and attempts |
| Readmission.AllowedPathsNarrow | orch/core.py:1365-1369 | The test of the new allowlist, and that acceptance implies inclusion |
| Readmission.NarrowNeverWidens | orch/core.py:1365-1369 | Every path the new allowlist allows was allowed by the old one |
| Readmission.ReadmissionContract | orch/core.py:1360-1437 | Refusal exactly by the listed conditions, check programs included; acceptance never widens paths, attempts, reviews, approval, Git permission or publication, and keeps every protected file with its content, the reviewer, the destination and the check programs |
| Readmission.CompareChecks | orch/core.py:1417-1437 | Accepted exactly when the new task runs the same check programs in the same order, each moved from the old workspace to the new one |
| Readmission.CompareCheck | orch/core.py:1421-1437 | One check program: every fixed field, the authority files, the executable and its place |
| Readmission.MovedBack | orch/core.py:1431-1437 | Moving a program inside the workspace there and back changes nothing |
| RelativePath.NormalizeRelativePath | orch/core.py:197-206 | The stripping loop computes the normal form |
| RelativePath.NormalizeIdempotent | orch/core.py:197-206 | A normal form is its own normal form exactly when the text without leading "./" does not begin with a slash; otherwise the second call refuses it |
| RelativePath.NormalizeKeepsComponents | orch/core.py:197-206 | The normal form has the components of the name, so it names the same file |
| RelativePath.AllowsByComponents | orch/core.py:209-224 | A file entry allows that very file, a directory entry exactly the directory and everything below it, component by component |
| RelativePath.SecondNormalizationCanRefuse | orch/core.py:200-206 | ".//a" is accepted once as "/a", which is refused the second time |
| Xattrs.Preimage | orch/bridge_patch_metadata.py:58-67 | The loop feeds the hash the tag and the length-prefixed pairs in order of their names |
| Xattrs.PreimageIsInjective | orch/bridge_patch_metadata.py:58-67 | Two bounded maps have the same preimage exactly when they are equal |
| Xattrs.AcceptedFits | orch/bridge_patch_metadata.py:70-75 | Whatever the reader accepts fits the length fields |
| Xattrs.BoundedNames | orch/bridge_patch_metadata.py:70-75 | The names pass exactly when there are at most 32, all different, none empty or with a NUL, of 4096 bytes together |
| Sorting.SortedIsUnique | orch/bridge_patch_metadata.py:61 | A strictly sorted list is determined by its members |

## Left out

- Claim: rows arrive in queue order; the tie-break by task id is not modelled, because queue numbers are unique by the invariant.
- LoadPlan: field checks and plan revisions are one parameter, because they decide branch by branch and touch no other state.
- Readmit: workspace, evidence and Git comparisons are one parameter, for a new readmission and for a recorded one.
- Submit: the receipt's field and path checks are one parameter.
- Complete: whether the workspace still is the snapshot is a parameter; Publication models that comparison.
- Update: selecting and updating the journal row are one step.
- AppendRecord: creation of the record directory and of the temporary file is one step, as is the creation of an intent.
- Reconcile: of a patch, the comparison of intent, scope and directory anchors is one parameter; outside edits move a stamp or bring a new inode, and nobody else moves the staging file.
- DispatchProcess: the session check is that the run's capability file was written, and a failed write is taken to leave no readable file; profile and size validators of a request are not modelled; the sequence number of a row is its position.
- Operate: a process is assumed to write at most 2^63 - 1 bytes in all; request validation and the check against the run's binding are not modelled.
- Claim, Checkpoint and Disposition of a route: session, capability and specification comparisons are parameters, and a failing connection is an Unknown answer; operation ids stand for their hashes.
- Read, Write, Dispatch: deadlines, JSON validation and session status are inputs; selectors, signals, credentials and the idle timeout are not modelled.
- DecideReview: the glob match of one pattern is an arbitrary function.
- ReadmissionContract: a check program's authority files and executable are compared as recorded; reading them is not modelled.
- Preimage: SHA-256 over it is taken to be injective; the attribute system calls are not modelled.
- SQLite authorisers, schema migration, connection retries, permission repair and read-only views.
- The event table's rows other than process rows, and stored plans: they are written but decide nothing modelled here.
- Real Git commands, filters, transports and URL inspection; the push result is nondeterministic.
- Descriptor walking, ACLs and fsync ordering: files are inodes with contents, rename and link are atomic.
- JSON parsing and printing, except for the size of an output reply.
- Field-by-field validators of tasks, protocol requests and stored evidence.
- The CLI, doctor, overview rendering, prompts, project registry, review export, file listing and broker cleanup: they would only add easy members.
