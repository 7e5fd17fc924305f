# Panel Assistant: a verified model of its durable protocols

Panel Assistant installs a signed Android application on wall panels from inside Home
Assistant. Its hard part is not the installing but the promises it keeps while processes
restart, users cancel, saves fail half-way and panel commands end without an answer. This
project models those parts of the integration in Dafny and proves the promises for every run.

All source paths below are under `custom_components/panel_assistant/`.

## How it is built

The receipt authority (`install_jobs.py`)

- `receipts.dfy`: phases, result codes, the receipt invariants and the three ways a receipt changes.
- `receipt_answers.dfy`: each of those answers written out in full: which transitions, claims and cancels are granted.
- `timestamps.dfy`: the stored timestamp form, and why comparing strings compares times.
- `retention.dfy`: pruning, as the loop over sorted receipts and as a rule about each receipt.
- `job_document.dfy`: the stored document, read and written by loops, and its round trip.
- `job_manager.dfy`: class `InstallJobManager` over class `StoreFile`. Each request is proved equal
  to a function of store, memory, clock and the fate of each read and save.
- `job_answers.dfy`: what each request does to the store when nothing goes wrong, and what each thing that can
  go wrong changes about it, in the receipt's own fields.
- `job_runs.dfy`: whole histories with any number of managers, and what they keep.

The install executor (`install_executor.py`, with the definite and unclear outcomes of `install_adb.py`)

- `install_protocol.dfy`: one job as a state machine whose steps are the awaits of the worker.
  Its state is the durable receipt, this process's claim, the worker and its in-memory evidence,
  the resume scan, the barred flag, the local files, the panel's slot, and counts of issued mutations.
- `install_safety.dfy`: the invariant and the proof that every event keeps it.
- `install_results.dfy`: at-most-once effects, no residue, custody gone, recovery after an unclear
  outcome, cancellation as a fence.
- `install_progress.dfy`: the worker ends.
- `install_smooth.dfy`: with nothing going wrong it succeeds, from a fresh approval and from every phase that is safe to resume.
- `install_endings.dfy`: with one thing going wrong, or a cancel, it ends with just that phase and result code.
- `install_refinement.dfy`: each call of the real manager is a few events of the protocol, seen from one job.
- `install_joint.dfy`: composed over whole runs, the executor over the real manager and store does nothing
  the protocol does not do, and its promises hold of what the store says.
- `install_executor.dfy`: class `InstallExecutor`, a method for each helper of the worker and its loop.

Browser release custody (`browser_release_cache.py`, `browser_delivery.py`)

- `release_cache.dfy`: class `BrowserReleaseCache`, a method for each stretch between two awaits.
- `release_runs.dfy`, `release_safety.dfy`, `release_results.dfy`: all interleavings, their invariant,
  and the promises read off it.
- `release_liveness.dfy`: what is granted, that a sweep passes over nothing it should remove, and that a full
  cache makes room.

Artifact custody (`install_artifacts.py`)

- `worker_arbitration.dfy`: the lock-protected "run or abort, never both" of a queued step, and why a step
  submitted again while it is found aborted runs exactly once.
- `artifact_custody.dfy`: class `CustodyDirectory`. How each system call goes, how short each write is, what
  befalls each submitted step and when the caller is cancelled is arbitrary. A ghost trail, which every method
  only extends and which ends in the present state, holds every directory state there has been, so `Valid()` is
  a statement about every instant and about a crash at any instant.

The finalizer lease (`config_flow.py`, `install_executor.py`)

- `finalizer.dfy`: class `FinalizerFlow` and the tasks, release tasks and done callbacks around it, which
  move by the same functions the class is specified with.
- `finalizer_safety.dfy`, `finalizer_results.dfy`: the invariant of every flow and the lease, and what follows.
- `finalizer_liveness.dfy`: who is let in finalizes and gives the lease back, and a removed flow's lease is released.
- `finalizer_breaks.dfy`: the runs in which the lease does break, and why the excluded event breaks it.

Smaller parts

- `frames.dfy`: the framed shell answers: parser against grammar, and the round trip with the printer.
- `segments.dfy`: the one-pass readers of `provisioning.py` against a declarative grammar.
- `credentials.dfy`: the single ADB identity.
- `wrappers.dfy`: `Option` and `Result`.

`dafny verify dfyconfig.toml` checks everything.

## How classes and functions fit together

Code that changes an object in place is a class here, with the object's own fields. Each method states
its whole new state by a function of the old one (`LoadResult`, `SaveResult`, `ConcludeResult` and
`Perform` in `JobManager`; the `...Turn` functions in `InstallProtocol`; `Leased`, `Retired`, `Stored`
and their like in `ReleaseCache`; `Ensured`, `Removal`, `ReleaseEnded` in `Finalizer`; `After1` in
`WorkerArbitration`; `Get` and `Persisted` in `Credentials`). The theorems about whole runs are about
those functions. An await is the boundary of a step: anything may happen between two steps.

Where each of these functions comes from:

| function | source |
|---|---|
| `Receipts.NextPhases`, `FailureCodesOf`, `Cancellable`, `RestartAmbiguous` and the other phase tables | install_jobs.py:144-350 |
| `Receipts.ReceiptOk` | install_jobs.py:687-766 |
| `Receipts.RequestCancel`, `ClaimReceipt`, `Transition` | install_jobs.py:1340-1359, 1361-1428, 1430-1586 |
| `JobManager.LoadResult`, `SaveResult`, `ReloadResult`, `Verify` | install_jobs.py:1026-1056, 1058-1128, 1170-1195, 1588-1640 |
| `InstallProtocol.NextPc` and `AtTop` (the branches of the loop) | install_executor.py:303-561 |
| `InstallProtocol.ClaimTurn`, `MoveTurn`, `RereadTurn` | install_executor.py:579-596, 861-894 |
| `InstallProtocol.AuthorizeTurn`, `BarrierTurn` | install_executor.py:617-655 |
| `InstallProtocol.PushTurn`, `InstallTurn`, `LaunchTurn`, `EraseTurn` | install_adb.py:1341-1565; install_executor.py:449-544, 702-787 |
| `InstallProtocol.FetchTurn`, `FetchEndTurn`, `ClearStaleTurn`, `CleanThenFailTurn`, `CleanTurn`, `CancelCleanTurn`, `RecCleanTurn` | install_executor.py:347-407, 657-700, 832-851, 909-926 |
| `InstallProtocol.ScanTurn` | install_executor.py:222-259 |
| `ReleaseRuns.Runs`, `Next` | browser_release_cache.py:101-216; browser_delivery.py:93-115 |
| `Finalizer.TaskRuns`, `Enter`, `Remove`, `Fire`, `ReleaseRuns` | config_flow.py:988-1330 |
| `Segments.Advance`, `PackageToken`, `DataToken` | provisioning.py:125-264 |
| `Frames.ScanAll`, `DecodeLines`, `PrintedLines` | install_adb.py:556-610, 784-798 |

## What is assumed

- A job identifier is a fresh 128-bit draw; it is taken never to repeat over a history (`born` in `JobRuns`).
- The plan digest is the tuple it hashes, so it is free of collisions. Every other hash is an arbitrary function.
- A disk write is atomic and only managers write the store. A write may land although it raised.
- Times are seconds; `Timestamps` proves that the strings the code compares have the same order.
- Reading, saving, the network, the panel, time and scheduling are parameters or events, each free to
  end in every way the code allows for.

## Where the code differs from what one might expect

- Two flows can finalize one receipt at once. A release may be begun under a working owner in two ways. A task
  of the same flow that still waits for an earlier, successful release is cancelled before it wakes, and its
  handler releases whatever lease the flow has by then (config_flow.py:1028-1031). Or the failure of an earlier
  lease's release is reported after the flow took the lease anew and was removed, and the one retry goes to the new
  lease (config_flow.py:1301-1321). `Undermines` is the guard of these two branches with a working owner.
  `OneFinalizerAtATime` and `HeldIsRemembered` hold in every run without such an event, `UnderminingBreaks` shows that
  the event breaks them wherever the flow has the lease or may still take it, and `SettlerBreaks` and `RetryBreaks`
  reach it.
- A removed flow may begin three releases, not two. If the owner is waiting for its own release when the first
  attempt and the single retry have failed, and it is cancelled then, its handler begins one more
  (config_flow.py:1028-1031). `ThirdReleaseIff` says that three are begun if and only if this happened with two
  begun, `ThirdBeginsIff` says it step by step, and `ThirdReleaseHappens` reaches it. A cancelled task that no longer
  owns anything may begin further ones; `RemovedReleasesBounded` counts them.
- A receipt can be pruned by the very save that finishes it, when 32 newer terminal receipts exist. The
  save then succeeds and the caller meets a missing key (`MissingKey`), and in the protocol the worker
  stops with its receipt gone.
- A clock less than seven days after the first instant of year 1 makes the cutoff overflow (`ClockOverflow`).
- When the caller is cancelled while a download is being prepared, and the preparation has run, the partial
  file of the job is abandoned even if an earlier call made it. A preparation aborted in the executor's queue abandons
  nothing, for the abort is itself raised as a cancellation past the clean-up (install_artifacts.py:760-774, 879-888).
  `PrepareStep` states both; other jobs' files are untouched.

## Model

| member | source | states |
|---|---|---|
| Receipts.CancelKeepsLaw | custom_components/panel_assistant/install_jobs.py:1340-1359 | An accepted cancel request keeps the receipt law (all receipt invariants; revision = rank + generation + cancel bit while live or consumed; revision at most 44), changes no frozen fact and no phase. |
| Receipts.ClaimKeepsLaw | custom_components/panel_assistant/install_jobs.py:1361-1428 | A claim keeps the law and the frozen facts, is never granted on a terminal or healthy receipt; a fresh claim of a receipt that stays live raises the generation by exactly one in the same phase; a terminalizing claim needs cleanup confirmed at the current revision and ends in RECOVERY_REQUIRED. |
| Receipts.TransitionKeepsLaw | custom_components/panel_assistant/install_jobs.py:1430-1586 | An accepted transition keeps the law and the frozen facts and reaches the phase asked for, which is one rank higher unless it is an ending. |
| Receipts.TerminalIsFinal | custom_components/panel_assistant/install_jobs.py:1340-1480 | No cancel, claim or transition is accepted on a terminal receipt, whatever its arguments. |
| Receipts.RevisionDetermined | custom_components/panel_assistant/install_jobs.py:687-766 | Two lawful views of one live job with the same phase, generation and cancel flag have the same revision. |
| ReceiptAnswers.MoveAcceptedIff | custom_components/panel_assistant/install_jobs.py:289-350 | For every lawful receipt a transition is accepted if and only if it is one of a written-out list of edges (one phase on with just its facts, CANCELLED on request with its code, FAILED with the codes of that phase, RECOVERY_REQUIRED after a push was begun, CONSUMED after health) under the claim unless the job is healthy; every other one is the transition error. |
| ReceiptAnswers.MovedIs | custom_components/panel_assistant/install_jobs.py:1492-1585 | What an accepted transition writes, field by field. |
| ReceiptAnswers.ClaimAnswers | custom_components/panel_assistant/install_jobs.py:1369-1427 | Every answer of a claim: refused when over or healthy, stale confirmation, held already, clean-up first, quarantined, or the next generation in the same phase. |
| ReceiptAnswers.ClaimedIsOk | custom_components/panel_assistant/install_jobs.py:1361-1428 | What an answered claim leaves is a lawful receipt. |
| ReceiptAnswers.CancelAnswers | custom_components/panel_assistant/install_jobs.py:1340-1359 | Cancelling is possible exactly up to the push, and asking twice is asking once. |
| Timestamps.StringOrderIsTimeOrder | custom_components/panel_assistant/install_jobs.py:436-444 | For all calendar-valid readings, lexicographic order of the rendered strings is order of instants, and equality of strings is equality of instants; leap years included. |
| Timestamps.ReadAfterRender | custom_components/panel_assistant/install_jobs.py:436-444 | Reading a rendered timestamp gives back the reading. |
| Timestamps.RenderAfterRead | custom_components/panel_assistant/install_jobs.py:436-444 | A string the reader accepts is exactly the rendering of a valid reading: the accepted form is unique. |
| Retention.SortTerminals | custom_components/panel_assistant/install_jobs.py:1200-1208 | The terminal receipts, each once, newest first by (updated_at, job_id). |
| Retention.YoungestIds | custom_components/panel_assistant/install_jobs.py:1199-1209 | The retained ids are exactly the terminal receipts with fewer than 32 newer ones and no older than the retention cutoff. |
| Retention.Prune | custom_components/panel_assistant/install_jobs.py:1197-1211 | The in-place pruning leaves exactly the receipts the rule retains, unchanged; a clock too early for the cutoff is the arithmetic error it is. |
| Retention.PlaceIsNewerCount | custom_components/panel_assistant/install_jobs.py:1200-1208 | The place of a receipt in the newest-first order is the number of newer terminal receipts, so a count-based rule and the slice of the sorted list agree. |
| Retention.DropsOnlyWithCause | custom_components/panel_assistant/install_jobs.py:1197-1211 | A receipt is dropped if and only if it is terminal and older than seven days (written out in seconds) or preceded by 32 newer terminal ones; in particular no active receipt is ever dropped. |
| Retention.KeepsNewestPrefix | custom_components/panel_assistant/install_jobs.py:1197-1211 | If a terminal receipt is kept, every newer terminal one is kept. |
| Retention.KeepsBounded | custom_components/panel_assistant/install_jobs.py:1197-1211 | At most 32 terminal receipts remain, none past the cutoff. |
| Retention.PruneOnceIsEnough | custom_components/panel_assistant/install_jobs.py:1197-1211 | Pruning again at the same instant changes nothing. |
| JobDocument.ParseDocument | custom_components/panel_assistant/install_jobs.py:779-814 | The one-pass loop accepts exactly the documents of the right format whose records are valid, pairwise different in id, pairwise apart in target while active, and within both limits; it returns the map by id. |
| JobDocument.SerializeDocument | custom_components/panel_assistant/install_jobs.py:816-828 | The written records are exactly the receipts of the map, in strict (created_at, job_id) order. |
| JobDocument.WrittenFormUnique | custom_components/panel_assistant/install_jobs.py:816-828 | Two ordered listings with the same members are equal: a map has one written form. |
| JobDocument.WrittenOldestFirst | custom_components/panel_assistant/install_jobs.py:816-828 | The written order is oldest first, by id among receipts of the same second. |
| JobDocument.ListIsWhole | custom_components/panel_assistant/install_jobs.py:816-828 | The written list rebuilds the map, without repeated ids. |
| JobDocument.DocumentRoundTrip | custom_components/panel_assistant/install_jobs.py:779-828 | Every sound store, written in order, is readable and reads back as the same map. |
| JobDocument.ReadableIsStore | custom_components/panel_assistant/install_jobs.py:779-814 | Every document that parses is a sound store: invariants, limits and target separation hold of the map. |
| JobManager.FindActive | custom_components/panel_assistant/install_jobs.py:1239-1255 | The create scan finds the one active receipt with equal target, artifact, plan and credential if there is one, and reports a conflict exactly when an active target overlaps otherwise. |
| JobManager.OnlyOneJoins | custom_components/panel_assistant/install_jobs.py:1239-1255 | In a store whose active targets are apart, a receipt that can be joined is the only one that collides with the request, so the order of the scan does not matter. |
| JobManager.PrunedStaysApart | custom_components/panel_assistant/install_jobs.py:1236-1238 | Pruning a sound store leaves its ids and the separation of active targets intact. |
| JobManager.PlanCreate | custom_components/panel_assistant/install_jobs.py:1236-1277 | What create-or-join decides on the loaded map: join, refuse, or write the pruned map with a fresh APPROVED receipt at the given id. |
| JobManager.PlanCancel | custom_components/panel_assistant/install_jobs.py:1345-1358 | What a cancel request decides on the loaded map, including the idempotent answer. |
| JobManager.PlanClaim | custom_components/panel_assistant/install_jobs.py:1369-1427 | What a claim decides on the loaded map: refusal in the order of the checks, the held claim, or the new map to write. |
| JobManager.PlanMove | custom_components/panel_assistant/install_jobs.py:1459-1585 | What a transition decides on the loaded map: refusal or the pruned map with the advanced receipt. |
| JobManager.InstallJobManager.InvalidateCache | custom_components/panel_assistant/install_jobs.py:1009-1011 | Cache and claims are both gone. |
| JobManager.InstallJobManager.ReconcileClaims | custom_components/panel_assistant/install_jobs.py:1013-1024 | Exactly the claims that still name a live, not yet healthy receipt at the claimed generation survive. |
| JobManager.InstallJobManager.ClaimedDiffers | custom_components/panel_assistant/install_jobs.py:1043-1047 | True exactly when some claimed job reads differently from what the cache remembers. |
| JobManager.InstallJobManager.LoadFresh | custom_components/panel_assistant/install_jobs.py:1026-1056 | A read gives the stored map and reconciled claims, or an error that leaves nothing remembered. |
| JobManager.InstallJobManager.WentBack | custom_components/panel_assistant/install_jobs.py:1061-1066 | True exactly when some receipt would be written with an earlier updated_at than the cache holds. |
| JobManager.InstallJobManager.Save | custom_components/panel_assistant/install_jobs.py:1058-1128 | A drained save: refused maps change nothing on disk, a write may land whether or not it raises, only an exact read-back makes the cache the new map, and every other ending forgets cache and claims. |
| JobManager.InstallJobManager.Conclude | custom_components/panel_assistant/install_jobs.py:1411-1428 | A refused, answered or written plan, with the claim recorded only after a verified save of a receipt that stays live. |
| JobManager.InstallJobManager.RequestCancel | custom_components/panel_assistant/install_jobs.py:1340-1359 | Store, memory and answer after the request are those of the pure authority, for every read and save fate. |
| JobManager.InstallJobManager.ClaimJob | custom_components/panel_assistant/install_jobs.py:1361-1428 | The same for a claim. |
| JobManager.InstallJobManager.TransitionJob | custom_components/panel_assistant/install_jobs.py:1430-1586 | Store, memory and answer after a transition are those of the pure authority, for every read and save fate; which transitions it grants and what is then stored is `JobAnswers.MoveAnswered`, `MoveRefused` and `HealthyIsConsumed`. |
| JobManager.InstallJobManager.CreateOrJoin | custom_components/panel_assistant/install_jobs.py:1213-1278 | The same for create-or-join; what it joins, refuses or creates is `JobAnswers.CreateJoins`, `CreateConflicts`, `CreateOverflows` and `CreateCreates`. |
| JobManager.InstallJobManager.LoadDurable | custom_components/panel_assistant/install_jobs.py:1170-1195 | A durable reload replaces the cache by what is on disk and reconciles claims, or forgets everything. |
| JobManager.InstallJobManager.VerifyStanding | custom_components/panel_assistant/install_jobs.py:1601-1612 | The durable half of a barrier: it passes only if the reread receipt equals the remembered one, stands in the phase with the cancel flag asked for, and this manager holds its generation. |
| JobManager.InstallJobManager.VerifyBarrier | custom_components/panel_assistant/install_jobs.py:1588-1639 | Both readings of a barrier together, for either polarity of the cancel flag. |
| JobManager.InstallJobManager.VerifyMutationBarrier | custom_components/panel_assistant/install_jobs.py:1588-1612 | The mutation barrier: as above with no cancel request allowed, in a mutation phase. |
| JobManager.InstallJobManager.VerifyCleanupBarrier | custom_components/panel_assistant/install_jobs.py:1614-1640 | The cleanup barrier: a durable cancel request is required in STAGING and forbidden in the other mutation phases. |
| JobRuns.PerformEffect | custom_components/panel_assistant/install_jobs.py:1213-1586 | One request by one manager, however reads and saves go, leaves the store sound; each receipt of the new store is old, the lawful successor of the requested one, or newly approved; any new claim is exactly the generation just written. |
| JobRuns.InvAlways | custom_components/panel_assistant/install_jobs.py:981-1640 | In every run of any number of managers over one store, the store is sound, every claim is at most the stored generation, and no two managers claim the same generation of a job. |
| JobRuns.StoreAlwaysSound | custom_components/panel_assistant/install_jobs.py:687-855 | In every run every stored receipt meets its invariants, attempts stay within 32, revisions within 44, and live or consumed receipts satisfy revision = rank + generation + cancel bit. |
| JobRuns.HistoryPersists | custom_components/panel_assistant/install_jobs.py:1213-1586 | Between any two moments of any run a receipt keeps its frozen facts, its generation, revision and updated_at do not fall, and a terminal one does not change. |
| JobRuns.DroppedStaysDropped | custom_components/panel_assistant/install_jobs.py:1197-1278 | An identifier once drawn and not in the store never comes back. |
| JobRuns.AtMostOneClaimMatches | custom_components/panel_assistant/install_jobs.py:1361-1428 | At every moment of every run at most one manager holds a claim at the stored generation of a job. |
| JobRuns.FencedCannotMove | custom_components/panel_assistant/install_jobs.py:1484-1491 | Without a claim at the stored generation every transition out of a phase other than HEALTHY_UNCLAIMED is refused. |
| JobRuns.FencedCannotVerify | custom_components/panel_assistant/install_jobs.py:1588-1640 | Without a claim at the stored generation every barrier check fails. |
| JobRuns.SupersededForever | custom_components/panel_assistant/install_jobs.py:1013-1056 | In every continuation of every run in which it does not claim again, a superseded manager stays superseded: each of its claim-requiring transitions and barrier checks fails. |
| JobRuns.PerformCoherent | custom_components/panel_assistant/install_jobs.py:1058-1168 | One request keeps the manager coherent with the store: nothing remembered, or the cache equal to disk and every claim live at its generation. |
| JobRuns.SoleManagerCoherent | custom_components/panel_assistant/install_jobs.py:1009-1195 | With no other writer, that coherence holds after every run of successful, failed and cancelled reads and saves. |
| JobAnswers.MoveAnswered | custom_components/panel_assistant/install_jobs.py:1430-1586 | With a good read and save, over any sound store: a listed transition of a stored receipt is written as told, is the answer and is in the store unless 32 newer finished receipts push it out; other active jobs and all claims stay, and the claim ends with the work. |
| JobAnswers.MoveRefused | custom_components/panel_assistant/install_jobs.py:1430-1491 | Every other transition of a stored receipt is the transition error and changes neither store nor claims. |
| JobAnswers.HealthyIsConsumed | custom_components/panel_assistant/install_jobs.py:1484-1491 | A healthy job is consumed without a claim: CONSUMED, ENTRY_CREATED and the entry id are stored and answered. |
| JobAnswers.ClaimAnswered | custom_components/panel_assistant/install_jobs.py:1369-1428 | A claim of work to be done raises the generation, is stored and answered, and is held. |
| JobAnswers.QuarantineAnswered | custom_components/panel_assistant/install_jobs.py:1369-1428 | A job that was interrupted in a mutation phase, or has spent its attempts, first asks for clean-up and, that confirmed, is stored and answered as RECOVERY_REQUIRED, and not claimed. |
| JobAnswers.CancelAnswered | custom_components/panel_assistant/install_jobs.py:1340-1359 | A cancel request before the install is stored and answered, all else staying as it was. |
| JobAnswers.BarrierPassesIff | custom_components/panel_assistant/install_jobs.py:1588-1640 | With both readings good a barrier passes if and only if the stored receipt has that revision, the mutation phase and the cancel flag asked for, and this manager claims its generation. |
| JobAnswers.CreatedOrJoinedFits | custom_components/panel_assistant/install_jobs.py:1213-1278 | Over any disk, read and save: whoever is answered a job is answered one with exactly the target, artifact, plan and credential asked for, and not a finished one. |
| JobAnswers.CreateJoins | custom_components/panel_assistant/install_jobs.py:1239-1253 | An active job with exactly those four facts is the answer, and nothing is written. |
| JobAnswers.CreateConflicts | custom_components/panel_assistant/install_jobs.py:1239-1254 | Otherwise another active job with the same address, pin or serial is a conflict, and nothing is written. |
| JobAnswers.CreateOverflows | custom_components/panel_assistant/install_jobs.py:1255-1258 | Otherwise four active jobs are the capacity error, and nothing is written. |
| JobAnswers.CreateCreates | custom_components/panel_assistant/install_jobs.py:1259-1278 | Otherwise the job is created: APPROVED, revision 0, unclaimed, made now, with the facts asked for, stored and answered, other active jobs untouched. |
| JobAnswers.BadReadAnswers | custom_components/panel_assistant/install_jobs.py:1026-1056 | A reading that fails or is cancelled, or an unreadable store, is an error for every request, changes no disk and forgets cache and claims. |
| JobAnswers.StaleAnswers | custom_components/panel_assistant/install_jobs.py:1340-1480 | A request for a missing job, or at another revision, is answered so and changes nothing. |
| JobAnswers.BadSaveAnswers | custom_components/panel_assistant/install_jobs.py:1058-1128 | Where a good save would write, any bad one is an error and forgets cache and claims; the disk is as after the good save if the write landed, and as before if not. |
| InstallSafety.StepKeeps | custom_components/panel_assistant/install_executor.py:195-935 | The protocol invariant survives every event: a worker await, the resume scan, a cancel request, a lost worker, a lost process, dropped claims, finalization, pruning, and other jobs on the panel. |
| InstallSafety.RunKeeps | custom_components/panel_assistant/install_executor.py:195-935 | The invariant holds after every sequence of events from an approved job. |
| InstallSafety.TopKeeps | custom_components/panel_assistant/install_executor.py:303-561 | Whatever branch the loop head takes, the worker is left with the evidence that branch relies on (its own download, its own push, a clean slot). |
| InstallSafety.MovingKeeps | custom_components/panel_assistant/install_executor.py:861-894 | A transition await, with a save that lands, is lost after landing or before it, or meets a newer revision, keeps the invariant. |
| InstallSafety.ClaimingKeeps | custom_components/panel_assistant/install_executor.py:579-596 | Claiming, including the cleanup of local files before a terminalizing claim, keeps the invariant. |
| InstallSafety.ScanKeeps | custom_components/panel_assistant/install_executor.py:222-259 | The resume scan beside a running worker, an idle one or none keeps the invariant. |
| InstallSafety.EraseKeeps | custom_components/panel_assistant/install_executor.py:702-787 | Erasing the slot after a refusal, an install or a cancel keeps the invariant for definite and unclear outcomes. |
| InstallSafety.PushKeeps | custom_components/panel_assistant/install_executor.py:449-486 | The push with each of its definite and unclear outcomes keeps the invariant. |
| InstallResults.AtMostOnce | custom_components/panel_assistant/install_executor.py:449-544 | In every run, with any crashes, restarts, cancels, failed saves and repeated starts: launches <= installs <= pushes <= 1. |
| InstallResults.SuccessIsExactlyOnce | custom_components/panel_assistant/install_executor.py:526-560 | A receipt that says HEALTHY_UNCLAIMED or CONSUMED means push, install and launch were each issued exactly once. |
| InstallResults.NoResidue | custom_components/panel_assistant/install_executor.py:702-787 | Whenever a receipt is FAILED, CANCELLED, HEALTHY_UNCLAIMED or CONSUMED, the panel slot holds nothing this job pushed. |
| InstallResults.CustodyGoneWhenTerminal | custom_components/panel_assistant/install_executor.py:526-537 | At every point of every run, if the receipt is terminal or gone, both local files of the job are gone. |
| InstallResults.UnclearEndsInRecovery | custom_components/panel_assistant/install_executor.py:909-935 | Once a mutation has ended with an outcome nobody durably knows, the receipt is in a mutation phase or RECOVERY_REQUIRED in every continuation. |
| InstallResults.CancelFences | custom_components/panel_assistant/install_executor.py:804-859 | Once a cancel request is durable, in every continuation no install and no launch is issued, and the job can end only as CANCELLED, FAILED or RECOVERY_REQUIRED. |
| InstallResults.MarksStayAlong | custom_components/panel_assistant/install_executor.py:804-935 | The two history marks the previous claims are stated with are never taken back. |
| InstallProgress.TurnSpends | custom_components/panel_assistant/install_executor.py:303-577 | Every await of the worker strictly lowers a natural-number budget, whatever happened beside it. |
| InstallProgress.StepSpends | custom_components/panel_assistant/install_executor.py:303-577 | No other event refills the budget unless it starts a new worker. |
| InstallProgress.TurnsAreBounded | custom_components/panel_assistant/install_executor.py:303-577 | In any run that starts no further worker, the number of worker awaits plus the budget left is at most the budget at the start. |
| InstallSmooth.SmoothRunSucceeds | custom_components/panel_assistant/install_executor.py:292-561 | If every await ends well, an approved job reaches HEALTHY_UNCLAIMED with one push, one install, one launch, an empty slot, no local files and nothing barred: the safety claims are not met by doing nothing. |
| InstallSmooth.ResumeSucceeds | custom_components/panel_assistant/install_executor.py:195-577 | The same from every phase in which nothing of unknown outcome can have been done to the panel, for a new worker that knows nothing, whatever one local file an earlier process left. |
| InstallSmooth.LostProcessIsMadeUpFor | custom_components/panel_assistant/install_executor.py:195-259 | So after any run whatsoever: a process lost in such a phase is made up for by the next one. |
| InstallSmooth.StalePartialSucceeds | custom_components/panel_assistant/install_executor.py:657-684 | A partial file left behind is removed once, the download starts anew, and the job succeeds. |
| InstallSmooth.MovesOn | custom_components/panel_assistant/install_executor.py:861-894 | Each step of that road is an accepted edge of the list above, after which the worker holds exactly the receipt so written. |
| InstallSmooth.WorkIsARun | custom_components/panel_assistant/install_executor.py:292-561 | The smooth run is a run of the protocol in the sense of the safety theorems. |
| InstallEndings.CancelIsCarriedOut | custom_components/panel_assistant/install_executor.py:804-859 | From the loop head, in every phase up to the push, a durable cancel ends, clean-up and saving working, as CANCELLED: with CANCELLED_AFTER_STAGING_CLEANUP from STAGING and CANCELLED_BY_USER from every other phase, the slot free of this job, no local file, and the job not barred. |
| InstallEndings.CancelAfterAnyRun | custom_components/panel_assistant/install_executor.py:804-859 | So whatever run came before. |
| InstallEndings.MoveMeetsCancel | custom_components/panel_assistant/install_executor.py:861-894 | A cancel that overtakes a transition makes it lose the compare-and-swap, is reread, and ends as above; so also after a push. |
| InstallEndings.AuthorizationMeetsCancel | custom_components/panel_assistant/install_executor.py:617-655 | One that arrives before the push is met when the credential has been checked, and ends as above. |
| InstallEndings.ClaimMeetsCancel | custom_components/panel_assistant/install_executor.py:298-302 | One that overtakes the claim is met at the second claim, and ends as above. |
| InstallEndings.AuthorizationFails | custom_components/panel_assistant/install_executor.py:319-329 | No usable credential: FAILED with AUTHORIZATION_FAILED. |
| InstallEndings.PreflightFails | custom_components/panel_assistant/install_executor.py:330-346 | A panel not as planned, or out of reach: FAILED with the code of the preflight. |
| InstallEndings.DownloadFails | custom_components/panel_assistant/install_executor.py:347-403 | An artifact refused or broken off: FAILED with that code, no local file left. |
| InstallEndings.RevalidationFails | custom_components/panel_assistant/install_executor.py:408-448 | The panel changed since: FAILED with that code, no local file left. |
| InstallEndings.PushDenied | custom_components/panel_assistant/install_executor.py:449-486 | No credential or pinned address before the push: FAILED with TRANSPORT_FAILED. |
| InstallEndings.PushFails | custom_components/panel_assistant/install_executor.py:449-486 | A push not issued: FAILED with its code; one of unknown outcome: RECOVERY_REQUIRED with AMBIGUOUS_MUTATION. |
| InstallEndings.WithoutEvidence | custom_components/panel_assistant/install_executor.py:449-541 | A worker in STAGING without its own artifact, or in INSTALLING or LAUNCHING without its own push, does not touch the panel: RECOVERY_REQUIRED with AMBIGUOUS_MUTATION. |
| InstallEndings.InstallUncertain | custom_components/panel_assistant/install_executor.py:487-525 | An install of unknown outcome: RECOVERY_REQUIRED with AMBIGUOUS_MUTATION; one not issued: with VERIFICATION_REQUIRED. |
| InstallEndings.InstallRefusedFails | custom_components/panel_assistant/install_executor.py:487-525 | A refused install: the staged file is erased, then FAILED with INSTALL_FAILED. |
| InstallEndings.LaunchFails | custom_components/panel_assistant/install_executor.py:732-787 | The staged file erased, a launch refused or not issued: FAILED with LAUNCH_FAILED; one of unknown outcome: RECOVERY_REQUIRED with AMBIGUOUS_MUTATION; a panel that changed: with VERIFICATION_REQUIRED. |
| InstallEndings.ActDenied | custom_components/panel_assistant/install_executor.py:487-787 | No credential or pinned address for any act after the push: a launch fails as LAUNCH_FAILED, an install and each erase are RECOVERY_REQUIRED with VERIFICATION_REQUIRED. |
| InstallEndings.EraseFails | custom_components/panel_assistant/install_executor.py:702-787 | A staged file that cannot surely be erased, for whichever of the three reasons: RECOVERY_REQUIRED with the code of the doubt. |
| InstallEndings.HealthFails | custom_components/panel_assistant/install_executor.py:545-559 | An unhealthy panel: RECOVERY_REQUIRED with VERIFICATION_REQUIRED. |
| InstallEndings.DoubtIsQuarantined | custom_components/panel_assistant/install_executor.py:579-596 | After a lost process in a mutation phase, or with no attempt left, a new worker removes the local files and hands the job over as RECOVERY_REQUIRED with VERIFICATION_REQUIRED. |
| InstallEndings.ScanQuarantinesDoubt | custom_components/panel_assistant/install_executor.py:222-259 | The resume scan does so in four awaits, starting no worker and issuing nothing to the panel. |
| InstallRefinement.SaveIsWrite | custom_components/panel_assistant/install_jobs.py:1058-1128 | A manager save seen from one job is one of the protocol writes, with the same receipt, claim and success. |
| InstallRefinement.MoveRefines | custom_components/panel_assistant/install_executor.py:861-894 | A transition through the real manager, over the whole store with any read and save fate, at each of the three kinds of move (going on, failing, to recovery), is a few protocol events that end in exactly the same world. |
| InstallRefinement.ClaimRefines | custom_components/panel_assistant/install_executor.py:579-596 | The same for a claim of the worker, first try or confirmed. |
| InstallRefinement.ScanRefines | custom_components/panel_assistant/install_executor.py:222-259 | The same for a claim of the resume scan. |
| InstallRefinement.CancelRefines | custom_components/panel_assistant/install_jobs.py:1340-1359 | The same for a cancel request from outside; the worker does not move. |
| InstallRefinement.FinalizeRefines | custom_components/panel_assistant/install_jobs.py:1430-1586 | The same for a flow's transition of a healthy receipt. |
| InstallRefinement.BarrierRefines | custom_components/panel_assistant/install_jobs.py:1588-1640 | A mutation or cleanup barrier through the real manager, however its two readings go, lets the worker act at the stored receipt or stops it just as the protocol does. |
| InstallJoint.DeedRefines | custom_components/panel_assistant/install_executor.py:195-935 | Each deed of the executor over the real manager and store (its calls, the scan, cancels, finalization, other jobs' requests, restarts, panel events) is a few protocol events ending in the same world. |
| InstallJoint.JointRefines | custom_components/panel_assistant/install_executor.py:195-935 | Composed over whole runs: the executor over the real manager and store does nothing the protocol does not do. |
| InstallJoint.SafeOverTheStore | custom_components/panel_assistant/install_executor.py:292-577 | So over the real store: launches <= installs <= pushes <= 1, success means exactly once each, a definite ending leaves no residue on the panel, and a finished or pruned job has no local file. |
| InstallJoint.CancelFencesOverTheStore | custom_components/panel_assistant/install_executor.py:804-859 | Once a cancel request is in the store, no continuation of deeds installs or launches, and the job ends only as CANCELLED, FAILED or RECOVERY_REQUIRED. |
| InstallExecution.InstallExecutor.constructor | custom_components/panel_assistant/install_executor.py:178-188 | A new process knows the receipt and the outside world only: no claim, no worker, nothing barred. |
| InstallExecution.InstallExecutor.EnsureJob | custom_components/panel_assistant/install_executor.py:195-213 | Starts a worker exactly when none runs, the job is not barred in this process and the receipt is live; a new worker has no evidence of its own. |
| InstallExecution.InstallExecutor.Stop | custom_components/panel_assistant/install_executor.py:562-577 | The worker is gone, its job barred, and a mutation in flight is marked unclear. |
| InstallExecution.InstallExecutor.Transit | custom_components/panel_assistant/install_executor.py:861-894 | The receipt changes only by a legal transition of the very revision asked for; a worker that goes on holds the stored receipt in the phase asked for, or rereads after a lost race. |
| InstallExecution.InstallExecutor.Claim | custom_components/panel_assistant/install_executor.py:579-596 | A terminal receipt is written only by the confirming claim, which the worker reaches only after its local files are gone. |
| InstallExecution.InstallExecutor.Reread | custom_components/panel_assistant/install_executor.py:861-894 | After a lost race the worker goes on only with the stored receipt of the same phase and generation that asks for cancellation; otherwise it stops for good. |
| InstallExecution.InstallExecutor.Head | custom_components/panel_assistant/install_executor.py:303-561 | The loop head changes nothing durable, leads to the push only with the worker's own artifact and no cancel, and to the other panel acts only with its own push. |
| InstallExecution.InstallExecutor.Authorized | custom_components/panel_assistant/install_executor.py:617-655 | Credential and target checks change nothing outside; the barrier is reached only at the stored receipt of the same revision. |
| InstallExecution.InstallExecutor.VerifyBarrier | custom_components/panel_assistant/install_executor.py:617-655 | The worker acts only at the stored receipt of its revision, with the claim at the stored generation and a durable cancel exactly for the cancel clean-up; otherwise it stops. |
| InstallExecution.InstallExecutor.StageApk | custom_components/panel_assistant/install_adb.py:1341-1414 | At most one push is issued, only into an empty slot; a slot newly filled is known to the worker or marked unclear; the job goes on only with its own file in the slot. |
| InstallExecution.InstallExecutor.InstallStaged | custom_components/panel_assistant/install_adb.py:1417-1461 | At most one install is issued; the job goes on, or is cleaned up as refused, only if one was; an unknown outcome leads to recovery. |
| InstallExecution.InstallExecutor.LaunchApp | custom_components/panel_assistant/install_adb.py:1464-1515 | At most one launch is issued; the job goes on only if one was; an unknown outcome leads to recovery. |
| InstallExecution.InstallExecutor.CleanupStaged | custom_components/panel_assistant/install_adb.py:1518-1565 | The slot is empty afterwards, or unchanged with the job on its way to recovery. |
| InstallExecution.InstallExecutor.BeginFetch | custom_components/panel_assistant/install_executor.py:657-667 | Files already there are left as they are; the worker gains evidence only of a ready file without partial. |
| InstallExecution.InstallExecutor.EndFetch | custom_components/panel_assistant/install_executor.py:347-377 | The worker gains evidence only of a ready file without partial. |
| InstallExecution.InstallExecutor.ClearStalePartial | custom_components/panel_assistant/install_executor.py:672-684 | The worker goes on only after its one removal left no local file; a second stale partial bars the job. |
| InstallExecution.InstallExecutor.CleanupThenFail | custom_components/panel_assistant/install_executor.py:686-700 | The job is failed only after its local files are gone. |
| InstallExecution.InstallExecutor.CleanupCancelled | custom_components/panel_assistant/install_executor.py:832-851 | The job is cancelled only after its local files are gone; that it then is, and with which code, is `InstallEndings.CancelIsCarriedOut`. |
| InstallExecution.InstallExecutor.TakeTurn | custom_components/panel_assistant/install_executor.py:292-577 | One await of any kind does to the whole state what the protocol function says. |
| InstallExecution.InstallExecutor.Round | custom_components/panel_assistant/install_executor.py:303-577 | One await keeps the invariant and strictly lowers the budget. |
| InstallExecution.InstallExecutor.Interrupt | custom_components/panel_assistant/install_jobs.py:1340-1359 | A cancel request between two awaits keeps the invariant and leaves the worker where it is. |
| InstallExecution.InstallExecutor.Run | custom_components/panel_assistant/install_executor.py:292-577 | The whole loop ends against an environment that may ask for cancellation between any two awaits, and the invariant holds at the end. |
| ReleaseCache.BrowserReleaseCache.constructor | custom_components/panel_assistant/browser_release_cache.py:86-93 | An empty, idle, open, unfailed, not yet reconciled cache. |
| ReleaseCache.BrowserReleaseCache.CheckAvailable | custom_components/panel_assistant/browser_release_cache.py:95-99 | A failed cache refuses before a closed one; otherwise nothing is refused. |
| ReleaseCache.BrowserReleaseCache.FindServed | custom_components/panel_assistant/browser_release_cache.py:123-130 | An entry of that user and tag, not retiring and not expired, is found if and only if there is one. |
| ReleaseCache.BrowserReleaseCache.BeginPrepare | custom_components/panel_assistant/browser_release_cache.py:118-133 | Refused, served from cache, busy, or begun with the busy flag set: exactly one, in that order. |
| ReleaseCache.BrowserReleaseCache.Store | custom_components/panel_assistant/browser_release_cache.py:163-179 | The new entry, unleased and expiring after the time to live, and the busy flag freed. |
| ReleaseCache.BrowserReleaseCache.Inspect | custom_components/panel_assistant/browser_release_cache.py:113-116 | An entry is retired for cleanup exactly when unleased and expired or the cache is closed; what that does for a cache is `ReleaseLiveness.NothingStaleSurvives` and `FullCacheMakesRoom`. |
| ReleaseCache.BrowserReleaseCache.FinishCleanup | custom_components/panel_assistant/browser_release_cache.py:101-111 | A cleaned entry is gone; a failed cleanup poisons the cache and keeps the retiring entry. |
| ReleaseCache.BrowserReleaseCache.EnterLease | custom_components/panel_assistant/browser_release_cache.py:186-195 | A lease is counted exactly when the cache is available and the entry is the user's, not retiring and not expired. |
| ReleaseCache.BrowserReleaseCache.LeaveLease | custom_components/panel_assistant/browser_release_cache.py:198-205 | The lease is returned and the leaver reaps exactly when nobody was busy. |
| ReleaseCache.BrowserReleaseCache.BeginClose | custom_components/panel_assistant/browser_release_cache.py:207-213 | Refused when busy, otherwise closed and busy. |
| ReleaseSafety.TaskKeeps | custom_components/panel_assistant/browser_release_cache.py:113-216 | The custody invariant survives every stretch of every request between two awaits. |
| ReleaseSafety.StepKeeps | custom_components/panel_assistant/browser_release_cache.py:113-216 | It survives every event: arrivals, any task running, files changing under a cleanup or download, time passing, and shutdown. |
| ReleaseSafety.ClosingKeeps | custom_components/panel_assistant/browser_delivery.py:107-115 | Shutdown after the drain finds a cache without leases or owner and keeps the invariant. |
| ReleaseSafety.RunKeeps | custom_components/panel_assistant/browser_release_cache.py:113-216 | The invariant holds at every point of every interleaving. |
| ReleaseResults.FilesBoundedAndOwned | custom_components/panel_assistant/browser_release_cache.py:118-179 | After reconciliation there are at most two files, there is at most one reservation, and unless a cleanup failed each file is an entry's or the reservation's. |
| ReleaseResults.LeasedFilesStay | custom_components/panel_assistant/browser_release_cache.py:181-205 | While a request holds a lease, its file exists and its entry is not retiring. |
| ReleaseResults.NewLeaseIsLive | custom_components/panel_assistant/browser_release_cache.py:186-195 | A lease count rises only for a request of the entry's own user while the entry is neither retiring nor expired. |
| ReleaseResults.OneLiveBundlePerChoice | custom_components/panel_assistant/browser_release_cache.py:123-132 | Each user and tag has at most one live entry at every point of every run. |
| ReleaseResults.StopIsClean | custom_components/panel_assistant/browser_delivery.py:107-115 | Shutdown never meets a busy cache, and once stopped without a failed cleanup no entry, request or reconciled file remains. |
| ReleaseResults.BusyHasOneOwner | custom_components/panel_assistant/browser_release_cache.py:131-133 | The busy flag is set exactly when some task owns it, and never two. |
| ReleaseLiveness.LeaseAnswers | custom_components/panel_assistant/browser_release_cache.py:181-195 | Every answer to a lease: failed before closed, granted exactly on the user's own unexpired bundle that is not being removed, not found otherwise. |
| ReleaseLiveness.PrepareAnswers | custom_components/panel_assistant/browser_release_cache.py:118-133 | Every answer to a preparation: failed, closed, served from an unexpired bundle of that user and choice, busy, or begun. |
| ReleaseLiveness.AdmissionIs | custom_components/panel_assistant/browser_delivery.py:93-105 | A request is admitted if and only if the service is open and fewer than two others run. |
| ReleaseLiveness.SweepIsThorough | custom_components/panel_assistant/browser_release_cache.py:113-116 | In every interleaving: whatever a sweep has decided about and is still there was, when the sweep came to it, leased or had time left in an open cache. |
| ReleaseLiveness.NothingStaleSurvives | custom_components/panel_assistant/browser_release_cache.py:113-116 | So at the end of a sweep over all entries, of every entry still there: no unleased entry that had expired when it was inspected remains. |
| ReleaseLiveness.SweepEnds | custom_components/panel_assistant/browser_release_cache.py:101-116 | Left alone, clean-ups working, a sweep ends and has removed just the unleased entries that were expired or in a closed cache. |
| ReleaseLiveness.PrepareComes | custom_components/panel_assistant/browser_release_cache.py:131-150 | Left alone, a preparation in an open, idle, unfailed cache, reconciled or not, keeps exactly the leased and unexpired entries, and goes on to its release if and only if fewer than two are kept; otherwise it gives the cache free. |
| ReleaseLiveness.FullCacheMakesRoom | custom_components/panel_assistant/browser_release_cache.py:113-150 | A cache full of expired, unleased bundles makes room: the preparation reaches its release. |
| ReleaseLiveness.ReleaseIsStored | custom_components/panel_assistant/browser_release_cache.py:151-179 | And from there to a stored bundle of fifteen minutes, the cache free again. |
| ReleaseLiveness.ShutdownEnds | custom_components/panel_assistant/browser_release_cache.py:207-216 | Left alone, clean-ups working, shutdown leaves no entry and is over. |
| ReleaseLiveness.FailedCleanupEnds | custom_components/panel_assistant/browser_release_cache.py:101-111 | A clean-up that fails ends its request, gives the cache free and keeps its entries, poisons it for every later lease, and ends a shutdown all the same. |
| ReleaseLiveness.LeaseIsHeld | custom_components/panel_assistant/browser_release_cache.py:181-205 | A granted lease is counted, given back, and swept after exactly when nobody else is busy. |
| WorkerArbitration.RunsAtMostOnce | custom_components/panel_assistant/install_artifacts.py:730-774 | Under every order of executor claims, completions and future callbacks a step runs at most once, an aborted one never, and completion is signalled exactly when it is finished or aborted. |
| WorkerArbitration.AbortIsFinal | custom_components/panel_assistant/install_artifacts.py:760-774 | After an abort no attempt ever runs the step. |
| WorkerArbitration.SettledMeans | custom_components/panel_assistant/install_artifacts.py:801-828 | A waiter that is woken reads aborted exactly if the step never ran, and finished exactly if it ran once. |
| WorkerArbitration.ExactlyOnce | custom_components/panel_assistant/install_artifacts.py:844-860 | A step submitted again for as long as it is found aborted runs exactly once over all submissions, under every order of claims, completions and cancellations of each. |
| WorkerArbitration.WorkerOutcome.TryClaim | custom_components/panel_assistant/install_artifacts.py:730-745 | A worker gets to run exactly when the step was still queued. |
| WorkerArbitration.WorkerOutcome.Report | custom_components/panel_assistant/install_artifacts.py:746-757 | The running worker finishes and signals. |
| WorkerArbitration.WorkerOutcome.NoteFuture | custom_components/panel_assistant/install_artifacts.py:760-774 | A cancelled future aborts a queued step and touches no other. |
| ArtifactCustody.CustodyDirectory.HashOpenFile | custom_components/panel_assistant/install_artifacts.py:294-330 | Success means the file has exactly the signed size and digest, and with system calls working such a file is a success; every other ending is an error. |
| ArtifactCustody.CustodyDirectory.PrepareDestination | custom_components/panel_assistant/install_artifacts.py:384-458 | A ready file that verifies is kept; a partial is made only when neither name was there, and is then fresh and empty; an error followed by a successful discard leaves the directory as it was; other names never change. With system calls working: granted anew exactly into an empty place, a verified ready file alone reused, everything else the error that names it. |
| ArtifactCustody.CustodyDirectory.Examine | custom_components/panel_assistant/install_artifacts.py:384-440 | What the preparation finds: nothing, a verified ready file without partial, or an error; a lone partial is always an error. |
| ArtifactCustody.CustodyDirectory.DiscardPartial | custom_components/panel_assistant/install_artifacts.py:333-361 | At most the partial is removed, and success means it is gone. |
| ArtifactCustody.CustodyDirectory.WriteAll | custom_components/panel_assistant/install_artifacts.py:461-472 | Whatever short writes occur, success appends exactly the body and failure a prefix of it. |
| ArtifactCustody.CustodyDirectory.PromotePartial | custom_components/panel_assistant/install_artifacts.py:484-544 | Success leaves the ready name and no partial; at every moment a ready name holds signed bytes; no other name changes. With system calls working a partial of the signed bytes is published. |
| ArtifactCustody.CustodyDirectory.Withdraw | custom_components/panel_assistant/install_artifacts.py:529-542 | A promoted file that no longer verifies is reported and at most removed. |
| ArtifactCustody.CustodyDirectory.RemoveOwnedFiles | custom_components/panel_assistant/install_artifacts.py:685-714 | Only the job's own names go, and success means they are gone. |
| ArtifactCustody.CustodyDirectory.AbandonPartial | custom_components/panel_assistant/install_artifacts.py:717-727 | Counts one abandonment, removes at most the partial, and success means it is gone. |
| ArtifactCustody.CustodyDirectory.CleanupExecutor | custom_components/panel_assistant/install_artifacts.py:844-860 | Over every course of every submission the abandonment runs exactly once; the call ends as cancelled exactly if a cancellation came at any submission up to the one that ran. |
| ArtifactCustody.CustodyDirectory.PrepareStep | custom_components/panel_assistant/install_artifacts.py:863-888 | Exactly one abandonment runs if the preparation ran and the caller was cancelled, and none otherwise; a preparation aborted in the queue ends as cancelled with nothing changed; a granted one has a fresh empty partial or an untouched ready file. |
| ArtifactCustody.CustodyDirectory.Stream | custom_components/panel_assistant/install_artifacts.py:1010-1052 | The partial holds exactly the bytes counted and hashed; the ready name does not appear meanwhile. With calls working and nothing cancelled: a stream that fits the signed size and 64 MiB is taken to its end and has the answer of that end; otherwise the first chunk too many is refused, as too large or of the wrong size. |
| ArtifactCustody.CustodyDirectory.Fetch | custom_components/panel_assistant/install_artifacts.py:977-1060 | The same through at most three redirects to trusted places, in both directions: which reply is landed on, and the error of each bad one. |
| ArtifactCustody.CustodyDirectory.Receive | custom_components/panel_assistant/install_artifacts.py:977-1065 | Size and digest are checked before promotion; success means ready and no partial. With calls working and nothing cancelled: success if and only if the stream landed on is complete and of the signed size and digest; each single defect has its error. |
| ArtifactCustody.CustodyDirectory.Download | custom_components/panel_assistant/install_artifacts.py:977-1083 | Success means the ready file matches the signed contract and no abandonment ran; a cancelled call whose preparation made the partial, and every failing call that was handed it, abandons exactly once, and no call does so twice; whatever made it, a partial is gone once the clean-up worked; an earlier ready file is unchanged; every state in between has only signed ready files. With calls working and nothing cancelled: into an empty place it succeeds if and only if the stream landed on is the signed bytes, which the ready name then holds, and a failed one leaves neither name; a verified ready file is reused and a lone partial is busy, the directory unchanged. |
| ArtifactCustody.SignedIsReceived | custom_components/panel_assistant/install_artifacts.py:977-1065 | At most three trusted redirects and then a complete stream of the signed bytes, of at most 64 MiB, is received. |
| ArtifactCustody.CustodyDirectory.Reconcile | custom_components/panel_assistant/install_artifacts.py:556-682 | Success keeps exactly the names of retained jobs; an unknown name refuses before anything is removed; only unretained owned names can go. With system calls working it succeeds if and only if no name is unknown. |
| Finalizer.FinalizerFlow.ClearFinalizerState | custom_components/panel_assistant/config_flow.py:1323-1330 | Lease coordinates, owner, deferral and retry mark are all forgotten. |
| Finalizer.FinalizerFlow.EnsureReleaseTask | custom_components/panel_assistant/config_flow.py:1271-1291 | The running release is joined; otherwise one begins exactly when coordinates and an executor are known, and without them the flow forgets. |
| Finalizer.FinalizerFlow.Reserve | custom_components/panel_assistant/config_flow.py:1019-1026 | The flow is reserved before the first await and its retry mark cleared. |
| Finalizer.FinalizerFlow.DropSlot | custom_components/panel_assistant/config_flow.py:1261-1269 | A finished release leaves the slot only if it is still the one there. |
| Finalizer.FinalizerFlow.ReleaseDone | custom_components/panel_assistant/config_flow.py:1301-1321 | Coordinates and owner stay; a release begins only as the one retry of a failed release of a removed flow, which is thereby spent. The run model is defined by the same function. |
| Finalizer.FinalizerFlow.FinalizationDone | custom_components/panel_assistant/config_flow.py:1248-1259 | Nothing happens beside a release in the slot or after the retry was spent; otherwise a release begins exactly if it was deferred and is still owed. The run model is defined by the same function. |
| Finalizer.FinalizerFlow.Remove | custom_components/panel_assistant/config_flow.py:1227-1246 | A running owner is watched once and no release begins beside it. The run model is defined by the same function. |
| FinalizerSafety.TaskKeeps | custom_components/panel_assistant/config_flow.py:988-1069 | Every stretch of a configure task, under any outcome and cancellation, that does not undermine a working owner keeps the invariant of the flow and its hold on the lease. |
| FinalizerSafety.EnteringKeeps | custom_components/panel_assistant/config_flow.py:988-1026 | Entering the finalization at any moment, waiting for an earlier release if need be, keeps it. |
| FinalizerSafety.RemovingKeeps | custom_components/panel_assistant/config_flow.py:1227-1246 | Removal at any moment keeps it. |
| FinalizerSafety.FiringKeeps | custom_components/panel_assistant/config_flow.py:1248-1321 | Every queued done callback that does not undermine a working owner keeps it. |
| FinalizerSafety.ReleasingKeeps | custom_components/panel_assistant/install_executor.py:275-279 | A release attempt, successful or not, keeps it. |
| FinalizerResults.StepKeeps | custom_components/panel_assistant/config_flow.py:988-1330 | The invariant of all flows and the one lease survives every event that does not undermine a working owner. |
| FinalizerResults.RunKeeps | custom_components/panel_assistant/config_flow.py:988-1330 | It holds after every orderly run: any order of entries, acquisitions, cancellations, removals, releases, callbacks and wake-ups in which no event undermines a working owner. |
| FinalizerResults.OneFinalizerAtATime | custom_components/panel_assistant/install_executor.py:261-279 | In every orderly run, two tasks that verify, reject or create under the lease are the same task of the same flow, and that flow holds the lease. |
| FinalizerResults.HeldIsRemembered | custom_components/panel_assistant/config_flow.py:1293-1330 | In every orderly run the flow that holds the lease still has its coordinates, an executor and an owner: it forgets only what it does not hold. |
| FinalizerBreaks.UnderminingBreaks | custom_components/panel_assistant/config_flow.py:1028-1031 | Conversely, from every orderly run: an event that undermines an owner whose flow has the lease or may still take it has a continuation with two finalizers at once or a lease its holder has forgotten; with two finalizers if the owner was already finalizing. |
| FinalizerBreaks.SettlerBreaks | custom_components/panel_assistant/config_flow.py:1028-1031 | A concrete run: a settling task, cancelled after its release succeeded and another task reserved the flow, releases that task's lease; two flows then finalize at once. |
| FinalizerBreaks.RetryBreaks | custom_components/panel_assistant/config_flow.py:1301-1321 | A concrete run: the report of an earlier lease's failed release begins the one retry of a removed flow under its present owner; two flows then finalize at once. |
| FinalizerResults.RemovedReleasesBounded | custom_components/panel_assistant/config_flow.py:1301-1321 | In every orderly run a removed flow begins at most two releases, one more if its owner was cancelled late, and one more for each begun by a task that no longer owned it; a flow not removed has begun none that count. |
| FinalizerResults.MarksCount | custom_components/panel_assistant/config_flow.py:1028-1031 | The two marks of that bound say exactly when: the owner, or a task that is not the owner, is cancelled while settling and that begins a release of the removed flow (for the owner, with the retry spent). |
| FinalizerResults.ThirdBeginsIff | custom_components/panel_assistant/config_flow.py:1028-1031 | One step, from any state of an orderly run without stray releases: the third release begins if and only if the owner is cancelled while settling, the slot is free, the retry is spent and two have been begun. |
| FinalizerResults.ThirdReleaseIff | custom_components/panel_assistant/config_flow.py:1028-1031 | Whole runs, orderly and without stray releases of the flow: never more than three, and three if and only if that event occurred. |
| FinalizerBreaks.ThirdReleaseHappens | custom_components/panel_assistant/config_flow.py:1028-1031 | A concrete orderly run in which a removed flow begins three releases. |
| FinalizerLiveness.AcquireAnswers | custom_components/panel_assistant/install_executor.py:261-273 | The lease is taken exactly if nobody else has it, and the task goes on to verify exactly if also the flow is neither removed nor configured. |
| FinalizerLiveness.VerificationAnswers | custom_components/panel_assistant/config_flow.py:1030-1069 | A verified task creates its entry exactly while the flow is neither removed nor configured. |
| FinalizerLiveness.RetryAnswers | custom_components/panel_assistant/config_flow.py:1301-1321 | A failed release is retried exactly if the flow is removed, coordinates are left, the retry is unspent and nothing else is in the slot; the retry is then spent. |
| FinalizerLiveness.DeferralAnswers | custom_components/panel_assistant/config_flow.py:1248-1259 | The end of a removed flow's owner begins the deferred release exactly if it is owed, none is in the slot and the retry is unspent. |
| FinalizerLiveness.RemovalAnswers | custom_components/panel_assistant/config_flow.py:1227-1246 | Removal begins a release exactly if no running owner has the lease, and otherwise defers it to that owner's end. |
| FinalizerLiveness.FinalizesAndReleases | custom_components/panel_assistant/config_flow.py:988-1069 | A flow that remembers nothing takes the free lease and verifies, creates its entry, and gives the lease back, forgetting its reservation. |
| FinalizerLiveness.RefusedLeavesTheLease | custom_components/panel_assistant/config_flow.py:988-1069 | A flow refused the lease gives up its own reservation and leaves the lease to whoever has it. |
| FinalizerLiveness.RemovalReleases | custom_components/panel_assistant/config_flow.py:1227-1246 | The lease of a removed flow whose owner is gone is released. |
| FinalizerLiveness.DeferredReleaseHappens | custom_components/panel_assistant/config_flow.py:1227-1259 | A flow removed while its owner works keeps the lease until the owner ends, and then it is released. |
| FinalizerLiveness.EntersAgain | custom_components/panel_assistant/config_flow.py:988-1026 | A lease that could not be given back is released first when the flow is entered again, and then taken anew. |
| Frames.ParseSections | custom_components/panel_assistant/install_adb.py:574-610 | The offset-and-list parser computes the recursive specification on every body. |
| Frames.ParseInner | custom_components/panel_assistant/install_adb.py:586-610 | All named sections in order up to the end of the frame, nothing more and nothing less. |
| Frames.ParseNamed | custom_components/panel_assistant/install_adb.py:588-608 | One named section: its marker, then its body. |
| Frames.ParseOne | custom_components/panel_assistant/install_adb.py:592-608 | The lines up to the first status marker; a reserved line before it is an error. |
| Frames.ParserMatchesGrammar | custom_components/panel_assistant/install_adb.py:574-610 | The parser accepts a list of lines with given sections if and only if a declarative grammar (concatenated sections, status spelled in one to three digits, no reserved line inside) derives it. |
| Frames.SectionsAsFrame | custom_components/panel_assistant/install_adb.py:784-798 | The appending printer writes the frame of the selected sections. |
| Frames.SplitJoined | custom_components/panel_assistant/install_adb.py:556-566 | Splitting joined clean lines gives the lines back. |
| Frames.DecodesJoined | custom_components/panel_assistant/install_adb.py:556-566 | A printed body within the size limit decodes to its lines. |
| Frames.PrintThenParse | custom_components/panel_assistant/install_adb.py:574-610 | For clean lines, statuses 0 to 999 and a frame within the limit, parsing a printed frame is the identity. |
| Frames.PrintThenParseIff | custom_components/panel_assistant/install_adb.py:574-610 | Exactly then: parsing a printed frame gives the sections back if and only if they are printable. |
| Frames.ParsedIsClean | custom_components/panel_assistant/install_adb.py:574-610 | Everything the parser returns is clean, with a status of at most 999. |
| Frames.ReprintFits | custom_components/panel_assistant/install_adb.py:784-798 | Reprinting any selection of parsed sections never exceeds the response limit. |
| Frames.ParseReprintParse | custom_components/panel_assistant/install_adb.py:725-728 | For every accepted body and every selection of its sections, printing and parsing again gives exactly those sections. |
| Segments.PackageLine | custom_components/panel_assistant/provisioning.py:149-190 | One line of the package pass advances the state as its token does. |
| Segments.DataLine | custom_components/panel_assistant/provisioning.py:216-250 | One line of the data pass advances the state as its token does. |
| Segments.PassPackage | custom_components/panel_assistant/provisioning.py:138-190 | The loop over the package lines is the run of the automaton on their tokens. |
| Segments.PassData | custom_components/panel_assistant/provisioning.py:205-250 | The loop over the data lines is the run of the automaton on their tokens. |
| Segments.PassIsGrammar | custom_components/panel_assistant/provisioning.py:138-202 | The run ends in its last state if and only if the lines are begin, target block, target status, liveness block, liveness status, end in that order, and the state then tells the statuses and items of any such reading. |
| Segments.VerdictsAt | custom_components/panel_assistant/provisioning.py:138-264 | Given such a reading, each verdict holds exactly under its condition on statuses and items. |
| Segments.PresenceIsGrammar | custom_components/panel_assistant/provisioning.py:191-202 | PRESENT and ABSENT are reached if and only if some reading of the lines shows them; everything else is UNKNOWN. |
| Segments.RetainedIsGrammar | custom_components/panel_assistant/provisioning.py:251-264 | The same for retained data and its absence. |
| Segments.PresentIsRead | custom_components/panel_assistant/provisioning.py:138-202 | The lines of a listed package, spelled out with any nonce and path, are read as PRESENT. |
| Segments.AbsentIsRead | custom_components/panel_assistant/provisioning.py:138-202 | Those of an unlisted package beside a listed one, with status 0 or 1, are read as ABSENT. |
| Segments.RetainedIsRead | custom_components/panel_assistant/provisioning.py:205-264 | Those of an uninstalled package still listed are read as retained data. |
| Segments.ParsePackagePresence | custom_components/panel_assistant/provisioning.py:138-202 | On every output, PRESENT and ABSENT are returned if and only if the grammar shows them. |
| Segments.ParseRetainedPackageData | custom_components/panel_assistant/provisioning.py:205-264 | On every output, RETAINED and its absence are returned if and only if the grammar shows them. |
| Credentials.AdbCredentialManager.GetCredential | custom_components/panel_assistant/adb_credentials.py:352-389 | The remembered identity, the stored one, a new one generated only into an empty store, or an error that leaves nothing remembered. |
| Credentials.AdbCredentialManager.LoadOrCreate | custom_components/panel_assistant/adb_credentials.py:362-389 | Without a remembered identity: read if a store is there, refuse on a quarantined one, create otherwise. |
| Credentials.AdbCredentialManager.PersistLocked | custom_components/panel_assistant/adb_credentials.py:391-447 | A new identity is returned only after it is read back from disk; the write may have landed even when an error is returned. |
| Credentials.AdbCredentialManager.GetDurableCredential | custom_components/panel_assistant/adb_credentials.py:493-521 | Always from disk, replacing what was remembered. |
| Credentials.StepKeeps | custom_components/panel_assistant/adb_credentials.py:352-521 | Every call and restart keeps remembered and returned identities equal to disk, and with any evidence of a store neither changes it nor generates. |
| Credentials.OneIdentity | custom_components/panel_assistant/adb_credentials.py:352-447 | In every run any two identities ever returned are equal, and equal to the one on disk. |
| Credentials.EvidenceBlocks | custom_components/panel_assistant/adb_credentials.py:368-389 | From the first evidence of a store on, nothing is ever generated or written again. |
| Credentials.IdentityIsForever | custom_components/panel_assistant/adb_credentials.py:352-521 | Once an identity has been returned, it stays on disk and is the only one ever returned. |
| Credentials.GoodAnswers | custom_components/panel_assistant/adb_credentials.py:352-521 | With everything working: the remembered identity, else the stored one, else, into a store without a trace of one, the identity just made, which is then stored; a quarantined or unreadable store is an error. |
| Credentials.CreationAnswers | custom_components/panel_assistant/adb_credentials.py:391-447 | A new identity is answered if and only if it was written, read back, and nothing raised or was cancelled; the store holds it exactly if the write landed. |
| Credentials.AskedAgain | custom_components/panel_assistant/adb_credentials.py:352-521 | A second call, in the same process or after a restart, answers what the first made, and nothing is made twice. |

## Left out

- The text of JSON, the field checks of single records, and the digest and key formats: records are values here, and round trips are at record level.
- The 128 KiB limit of the store file: a map too large for it is not refused; a save that fails for size is an ordinary failed save.
- POSIX details (inode identity, link counts, modes, links): each such check is a call that may fail.
- HTTP, TLS, DNS, ADB transport and timeouts: each call ends in any allowed definite or unclear way. Checking redirect hosts is one arbitrary boolean.
- Forms, menus, discovery, translations, entities, device cards and fleet registration.
- Building plans and feeds, update polling and panel backup.
- Waiting for and listing jobs (install_executor.py:215-220, install_jobs.py:1280-1338): plain reads. The health retry loop is one await with one outcome.
- The other parts of `install_adb.py`: commands and single-section readers over the section parser, each one branch.
- A bare `async_close` racing a lease exit does not promise to remove every file; shutdown is modelled through the drain of `BrowserDelivery`.
- Other jobs of the same executor: the install protocol follows one job. Others appear as files in the panel's slot that they stage and erase themselves, and as claims dropped when a shared save fails. Two jobs pushing identical bytes to one panel are not distinguished by content.
- InstallJoint.JointRefines: starts from a manager whose memory agrees with a store that holds a document, and that manager stays the only writer (`SoleManagerCoherent`); several managers over one store are the subject of `JobRuns`. Plain reads of a receipt are taken from the store the memory agrees with; a read that fails is another look at the store with the worker or scan stopped.
- InstallExecution.InstallExecutor.Run: one worker at a time with cancel requests between awaits; the resume scan, restarts and other outside events are covered by the runs of `InstallSafety` and `InstallJoint`, not by this loop.
- ReleaseSafety.StepKeeps: the reaper visits a snapshot of entries in any order, and a drained cleanup removes its file at some moment before it returns; the code's insertion order is one of these.
- ReleaseCache.BrowserReleaseCache.Inspect: requires the entry still to be there, which the code has because only the busy owner removes entries.
- ArtifactCustody.CustodyDirectory.Download: a preparation that creates the partial, then fails a later check and also fails to discard it, leaves it; the next call then reports it as busy, and reconciliation or cleanup removes it.
- FinalizerResults.RunKeeps: a flow is removed at most once, and task and release identities are never used twice. A wait may be over before the done callback of its release has run, which covers releases that end before their caller comes to wait; callbacks of one flow run in the order they were queued.
- FinalizerBreaks.UnderminingBreaks: for an owner that has yet to take a lease which another flow holds nothing is claimed, since that lease may never come free.
- FinalizerResults.ThirdReleaseIff: with stray releases the count is bounded, not characterised.
- Credentials.OneIdentity: calls are taken one after another, as the lock orders them; generating keys and the format of a stored credential are an arbitrary value.
