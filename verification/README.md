# Psst session and activation core

A Dafny 4.11 model of the parts of Psst that must not go wrong: the session supervisor with its
crash-safe leave protocol, the ledger of owned sends, the two admission gates, the leave journal on
disk, the activation engine that wakes a model host, the App Server's stdio protocol with its
acknowledgement fence, the bounded line pump and the client's retry loop.
`dafny verify dfyconfig.toml` covers the whole project.

## How it is built

The session supervisor is one transition system. `SessionState` holds the three durable cells
(credential, profile, journal), what the relay knows, the process that owns the profile lock, and the
handles that have given the lock up but can still be called; `SessionSteps` gives every atomic step
between two awaits, every durable write with its three ways of ending (done, failed before, failed with
the new value in place), every relay answer, and a crash at any point. `SessionInvariant` proves an
inductive invariant in two layers: one about memory and entitlement that every run keeps, and one about
the disk that every run keeps in which nobody *trespasses*, that is, goes on with an accepted leave on
a handle whose lock somebody else has taken.
`SessionTheorems`, `SessionRecovery` and `SessionAdmission` draw the results, about every run or every
interleaving; in `SessionAnswers` an observer notes every answer of the relay and every ending of a write,
and each start, leave and rotation is shown to end as its own notes demand. `SessionTrespass` says exactly
when a released handle can do harm, and `SessionProgress` that every drain can complete. `SessionPower` and
`SessionSurvival` add power losses, which may bring back what a failed or missing directory sync left
behind, and say exactly which writes let them do harm. `SessionLimits` builds the runs that show where the
guarantees end.

The ledger, tracker, activation machine, journal file, stdio reader and App Server client are classes
whose methods are proved against pure transitions (`LedgerModel`, `Activation`, `StdioDemux`,
`AckFence`), and the pure transitions carry the lemmas over all call sequences. The two admission
gates are modelled a second time at the grain of their atomic loads, stores and critical sections, with
any number of threads (`SendGate`, `ReportGate`); `GateSimulation` maps every such step to moves of the
session's gates, and `JournalCell` every store and removal of the journal file to a write of the session's
journal.

Where a result is about what went out and what came back, the record is kept by the environment and not by
the code under proof: the journal changes the directory by system calls alone and every state between two
of them is a crash point, the activation loop's log is pinned to a fixed script of answers, and the
observer of an App Server connection writes down each request with the answer it got.

Assumptions about the environment, all visible in `SessionSteps` and `SessionPower`:

- The relay answers a leave with the bound membership, `NotMember` or `SquadArchived`, and a first
  heartbeat with `NotMember` or `SquadArchived`, only when the membership is over. Every other answer
  may come at any time, and a leave that was put on the wire may be applied at any later time.
- A join gets a membership id that was never used before.
- A crash of a process leaves the disk as readers saw it. In `SessionSteps` so does everything else; in
  `SessionPower` a power loss ends every process and each of the three cells comes back as any of its
  survivors, independently: a rename or an unlink lasts from the next successful sync of its directory on,
  profile and journal share a directory, the credential has its own, and removing what is not there
  syncs nothing.
- The profile lock is a mutex held together by the supervisor, its heartbeat task and a resume
  transaction; a process that dies releases it.
- Memory is sequentially consistent. Adjacent writes to the shared state and the lifecycle are one step.
- Identifier validators, the origin canonicaliser, JSON encoding, clocks and random samples are
  parameters.

## Where the code does not do what one might expect

These are theorems about the code as it is.

- `leave` looks neither at the profile lock nor at the shutdown flag, and `shutdown` does not move the
  lifecycle, so a handle whose lock has passed to somebody else still runs it. On `Left` it cleans the disk
  (`SessionLimits.ReleasedLeftDeletes`: a live new membership loses its credential); on `Ready` it journals an
  intent for a profile that may be gone (`SessionLimits.ReleasedReadyLies`). With everybody else free to move,
  such a leave can do harm exactly when the released handle's lifecycle is `Ready` or `Left`
  (`SessionTrespass.TrespassHarms`). A caller avoids it by beginning no leave on a handle that has released its
  lock: such runs have no trespasser (`SessionTheorems.LockedLeavesArePeaceful`), and then `JournalIsTruthful`,
  `DeletesOnlyConfirmed` and `PublishedIsDurable` hold.
- The cleanup trusts a confirmed record that it can see. If the record's directory sync failed, it clears the
  credential, which lives in another directory, and a power loss can then bring the intent back without it
  (`SessionLimits.UnsyncedConfirmationStrands`). If the credential's own removal was not synced, the replayed
  cleanup finds nothing to remove, syncs nothing and finishes, and a power loss can bring the credential back
  alone (`SessionLimits.UnsyncedRemovalStrands`). Both disks are stuck. `SessionPower.ExposesExactly` and
  `SessionSurvival.EndangersExactly` name exactly the writes that allow it.
- The generation counter saturates. Below `u64::MAX` a send on the wire always carries the published
  credential (`WireCarriesPublished`); at `u64::MAX` it need not (`SessionLimits.SaturationBreaksCurrency`).
- A join does not look at the journal, and a join that fails or crashes between its two stores is not
  undone. `StuckExactly` names the disks no run can leave, `StrandsExactly` the endings of a join that reach
  them, `StaleJoinWedges` the join over a confirmed journal; runs with careful joins never get there
  (`CarefulNeverStuck`).
- A leave refused by the lifecycle has already cancelled report admission and does not restore it
  (`SessionAdmission.RefusedLeaveSilencesReports`).
- Removing the journal reports success without a directory sync when the entry is already gone. The
  removal is durable exactly when this call did it or nothing could come back (`JournalFile.Journal.Remove`,
  `RepeatedRemovalIsNotDurable`).
- The closed-form backoff equals the iterated one exactly up to attempt 32 or once the capped multiplier
  reaches the maximum (`Backoff.FormsAgree`); every admitted attempt is below that.
- A refused reservation has already evicted every finished entry (`EvictsShortestPrefix` with
  `RefusedOnlyByInFlight`).

## Model

| member | source | states |
|---|---|---|
| `SessionInvariant.StepKeepsCore` | crates/psst-application/src/session.rs:1089-1240 | every step of everybody, calls on released handles included, keeps what memory, relay and journal promise each other: who may confirm, who may be in flight, which credential a generation names |
| `SessionInvariant.StepKeeps` | crates/psst-application/src/session.rs:1089-1240 | every step after which no handle goes on with a leave whose lock somebody else took also keeps the disk in step with the owner of the profile |
| `SessionInvariant.CleanDiskKeeps` | crates/psst-application/src/session.rs:899-911 | each cleanup step, however its durable removal ends, leaves a disk the next step or a replay can continue from; the last one leaves nothing |
| `SessionInvariant.LeaveCore` | crates/psst-application/src/session.rs:1292-1397 | every step of leave, its rollback and its replay on a left session keeps the memory invariant, on whatever handle it runs |
| `SessionInvariant.LeaveDurableKeeps` | crates/psst-application/src/session.rs:1292-1397 | every step of the owner's leave keeps intent, confirmation, profile and credential in step |
| `SessionInvariant.RotationCore` | crates/psst-application/src/session.rs:1731-1866 | heartbeats, resume transactions, their abort and the orphaned transaction keep the memory invariant |
| `SessionInvariant.RotationDurableKeeps` | crates/psst-application/src/session.rs:302-332 | a rotation keeps the published credential on disk until it persists the new one, and publishes only what it persisted |
| `SessionInvariant.BootDurable` | crates/psst-application/src/session.rs:945-1069 | start, orphaned recovery and join keep the disk invariant under every fault |
| `SessionInvariant.ShutdownCore` | crates/psst-application/src/session.rs:1565-1611 | every step of shutdown keeps the memory invariant |
| `SessionInvariant.RefusedTouchesNothing` | crates/psst-application/src/session.rs:856-877 | on a released handle nothing but a leave that `begin_leave` lets through can touch disk or relay |
| `SessionTheorems.RunKeepsCore` | crates/psst-application/src/session.rs:1089-1240 | the memory invariant holds at the end of every run |
| `SessionTheorems.RunKeeps` | crates/psst-application/src/session.rs:1089-1240 | the whole invariant holds at the end of every run in which nobody trespasses |
| `SessionTheorems.JournalIsTruthful` | crates/psst-application/src/session.rs:1323-1375 | in every run a confirmed journal means the membership is over; an intent without its matching profile and a credential of that membership needs a trespasser in the run |
| `SessionTheorems.DeletesOnlyConfirmed` | crates/psst-application/src/session.rs:899-911 | in every run, outside the scrub of a failed join, credential or profile is removed only by the cleanup of a membership that is over; without a trespasser its leave is journalled as confirmed and the profile is its own, and a scrub removes exactly the credential its own join stored |
| `SessionTheorems.LockedLeavesArePeaceful` | crates/psst-application/src/session.rs:1292-1305 | a run in which no leave is begun on a handle that has released its lock has no trespasser |
| `SessionTheorems.PublishedIsDurable` | crates/psst-application/src/session.rs:302-332 | without a trespasser no credential is published before it is durable, and while the session is usable the disk holds exactly the published credential |
| `SessionTheorems.OnlyPublishChanges` | crates/psst-application/src/session.rs:1814-1829 | the published credential changes only by a rotation that holds the gate and has persisted it, and moves the generation on |
| `SessionTheorems.WireCarriesPublished` | crates/psst-application/src/session.rs:1440-1466 | a send on the wire is alone past the gate, names the current generation, carries the published credential below saturation, and no step changes that credential meanwhile |
| `SessionTheorems.GenerationNamesCredential` | crates/psst-application/src/session.rs:1682-1696 | below saturation one generation never names two credentials |
| `SessionTheorems.LeaveFence` | crates/psst-application/src/session.rs:1295-1331 | in every run, while a handle has its leave on the wire no owned send and no report of it is in flight and nobody can be admitted |
| `SessionTheorems.ReleaseFence` | crates/psst-application/src/session.rs:1565-1611 | in every run, from the release of the profile lock on the handle has no send and no report in flight, both gates are closed for good and the heartbeat was told to stop, and once somebody took the lock no rotation either |
| `SessionTheorems.OrphanExcludesLeave` | crates/psst-application/src/session.rs:311-331 | a resume transaction that outlived its aborted task never coexists with a leave past its beginning |
| `SessionProgress.DrainCanComplete` | crates/psst-application/src/session.rs:734-754 | from every reachable state, by the handle's own steps, every send and report in flight can be brought to its end |
| `SessionProgress.ShutdownSteps` | crates/psst-application/src/session.rs:1565-1611 | in every run asking for a shutdown closes both gates for good, a shutdown that runs out of time keeps the lock, and the release leaves the handle stopped, empty and outside any leave |
| `SessionProgress.LeaveMeetsEverything` | crates/psst-application/src/session.rs:1295-1380 | at every step of a leave every timeout, fault, ending of a write and answer of the relay may come, an agreeing answer exactly if the membership is over |
| `SessionProgress.RotationMeetsEverything` | crates/psst-application/src/session.rs:1757-1866 | the same for a heartbeat, its rotation and a transaction that outlived its task |
| `SessionProgress.StartMeetsEverything` | crates/psst-application/src/session.rs:1089-1178 | the same for start, and a crash may come at any time |
| `SessionProgress.JoinMeetsEverything` | crates/psst-application/src/session.rs:945-1069 | the same for orphaned recovery and join |
| `SessionTrespass.TrespassHarms` | crates/psst-application/src/session.rs:856-877 | from every state peaceful runs reach, with boots, crashes, the owner and everybody else free to move, a leave on a released handle can separate an intent from its profile, remove more than the remains of a confirmed leave, or take the owner's credential, exactly when the handle's lifecycle is ready or left |
| `SessionTrespass.TrespassAlone` | crates/psst-application/src/session.rs:856-877 | if only the relay moves beside it, exactly when moreover it is ready without its own profile bound or beside a usable owner, or left with more on disk than the remains of a confirmed leave |
| `SessionTrespass.HarmReached` | crates/psst-application/src/session.rs:1295-1375 | a handle on its way to harm gets there by its own steps and the relay's alone |
| `SessionRecovery.ReplayStep` | crates/psst-application/src/session.rs:1106-1118 | without a trespasser, any step but a join keeps a confirmed leave in a replayable state |
| `SessionRecovery.RecoveryConverges` | crates/psst-application/src/session.rs:945-973 | after any join-free run without a trespasser of faulted recoveries and crashes one unfaulted recovery call leaves credential, profile and journal all gone, and repeating it changes nothing |
| `SessionRecovery.IntentResolves` | crates/psst-application/src/session.rs:1119-1178 | over every sequence of restarts on an open intent without a trespasser, with every fault, crash and answer, a runtime comes up only with the journal gone, for the same membership and with the durable credential; and either profile and credential are there with the intent open or withdrawn, or the membership is over and its confirmed record or nothing is left |
| `SessionRecovery.StuckFailsClosed` | crates/psst-application/src/session.rs:955-1021 | beside a journal of another binding, and on the two other stuck disks, no run without a trespasser deletes anything and none gets a runtime |
| `SessionRecovery.StuckExactly` | crates/psst-application/src/session.rs:945-1118 | the idle disks no run without a trespasser can leave are exactly, without a confirmed leave, a credential without profile or a profile without its credential, and a journal beside a profile it does not name; whatever brought them about |
| `SessionRecovery.StrandsExactly` | crates/psst-application/src/session.rs:1015-1058 | a step that ends a join reaches such a disk exactly when it fails or crashes with the credential stored and no profile, or scrubs the credential from under a stored profile |
| `SessionRecovery.CarefulNeverStuck` | crates/psst-application/src/session.rs:1008-1069 | runs without a trespasser that join only over an empty journal and are not stranded so never reach such a disk |
| `SessionRecovery.StaleJoinWedges` | crates/psst-application/src/session.rs:1015-1057 | every unfaulted join over a confirmed journal reaches it |
| `SessionAdmission.RollbackRestores` | crates/psst-application/src/session.rs:879-896 | under every interleaving, a rollback that ends without a shutdown ends ready with both gates open, the heartbeat gate released and, without a trespasser, the disk untouched |
| `SessionAdmission.LeaveConcludes` | crates/psst-application/src/session.rs:1327-1397 | under every interleaving without a trespasser, a leave put on the wire ends completed with the membership over, or undone with the intent withdrawn and the session ready and admitting, or open with credential and profile untouched, or undone on disk and overtaken by a shutdown |
| `SessionAnswers.LeaveFollowsAnswers` | crates/psst-application/src/session.rs:1314-1397 | under every interleaving without a trespasser an accepted leave ends as its own answers and writes demand: refused by the relay and the intent dropped, it is given back with the intent gone; answered with something else, lost or timed out, it is open with the intent in place; agreed to, it is left once the confirmation is stored and open otherwise; never on the wire, it is given back |
| `SessionAnswers.StartFollowsAnswers` | crates/psst-application/src/session.rs:1119-1236 | without a trespasser a start brings up a fresh, admitting runtime exactly if its first heartbeat was accepted, or its resume was and the credential persisted, and an open intent was durably dropped; any other answer leaves the disk as it was, except that a member no longer known confirms an open intent and completes the leave |
| `SessionAnswers.WithdrawnOnlyIfAnswered` | crates/psst-application/src/session.rs:1123-1164 | without a trespasser an intent is withdrawn only by a start whose membership the relay accepted or by a leave the relay refused |
| `SessionAnswers.JoinStoresOnlyIfAnswered` | crates/psst-application/src/session.rs:1022-1054 | a join stores nothing before the relay gave it a membership |
| `SessionAnswers.RotationFollowsAnswers` | crates/psst-application/src/session.rs:1782-1866 | in every run a heartbeat sets the health its answer demands, and a resume answered as unknown ends with unknown outcome, one whose credential was not persisted with a failed rotation, any other failed one ready and degraded; nothing but a persisted resume publishes |
| `SessionAnswers.FailedRotationHalts` | crates/psst-application/src/session.rs:267-300 | after a rotation with unknown outcome, or one that was not persisted, the handle stays so and never again puts a send on the wire |
| `SessionAnswers.DispatchNeedsHealth` | crates/psst-application/src/session.rs:1440-1447 | a gated send goes on the wire exactly if the handle is healthy, ready or leaving, and at the generation the send was admitted with |
| `SessionAnswers.AbortedResumeGoesOn` | crates/psst-application/src/session.rs:311-331 | a resume transaction outlives the abort of the task that waits for it |
| `SessionAnswers.OrphanOnlyStores` | crates/psst-application/src/session.rs:311-331 | such a transaction stores the credential of a success and touches nothing else |
| `SessionAdmission.AdmittingAdmits` | crates/psst-application/src/session.rs:1428-1433 | a handle that admits takes every send under an authority it published and every report below the bound |
| `SessionAdmission.ShutdownStopsRollback` | crates/psst-application/src/session.rs:885-887 | with a shutdown requested a rollback reopens nothing and stays leaving |
| `SessionAdmission.DrainTimeoutRestores` | crates/psst-application/src/session.rs:1297-1304 | giving up the drain of reports reopens them exactly when the session is ready and no shutdown was requested |
| `SessionAdmission.RefusedLeaveSilencesReports` | crates/psst-application/src/session.rs:1296-1305 | a leave refused by the lifecycle leaves report admission closed in every run without another leave |
| `SessionLimits.SaturationBreaksCurrency` | crates/psst-application/src/session.rs:1444-1447 | there is a run to a saturated generation after which a send on the wire carries a credential that is no longer published |
| `SessionLimits.ReleasedLeftDeletes` | crates/psst-application/src/session.rs:868-873 | there is a run whose last step, a leave on a released handle that had left, removes the credential of a live runtime of another membership that is not over |
| `SessionLimits.ReleasedReadyLies` | crates/psst-application/src/session.rs:1315-1326 | there is a run in which a leave on a released handle that is still ready journals an intent with no profile and no credential beside it |
| `SessionPower.CoreSurvivesPower` | crates/psst-application/src/leave_journal.rs:380-393 | with power losses at any time, a confirmed journal, seen or to come back, means the membership is over, and the memory invariant holds |
| `SessionPower.CoveredLosesNothing` | crates/psst-application/src/leave_journal.rs:390-393 | a power loss finds what everybody saw, whatever it picks, exactly when no write is left whose directory was not synced since |
| `SessionPower.PowerLossExactly` | crates/psst-application/src/profile.rs:95-101 | a power loss keeps the invariant, whatever it picks, exactly when every intent that may come back finds every profile and credential that may come back its own |
| `SessionPower.ExposesExactly` | crates/psst-application/src/session.rs:899-911 | a step loses that exactly when it removes the credential while an intent can come back, or journals an intent without a sync while the profile's own store was not synced |
| `SessionPower.GuardedKeeps` | crates/psst-application/src/session.rs:1089-1240 | in every run without such a step and without a trespasser, power losses included, the whole invariant holds |
| `SessionPower.JournalSurvivesPower` | crates/psst-application/src/session.rs:1323-1375 | in every run with power losses a confirmed journal is truthful, and an intent without its profile and credential needs a trespasser or such a step |
| `SessionSurvival.EndangersExactly` | crates/psst-application/src/session.rs:899-911 | a step lets a power loss leave an intent without its profile or a disk no run can leave exactly when it removes the credential while an intent, or no journal beside the profile, can come back; journals an intent unsynced over an unsynced profile; removes the confirmed record while the credential or, unsynced, the profile can come back; or ends a join between its two stores |
| `SessionSurvival.CarefulSurvives` | crates/psst-application/src/session.rs:1008-1069 | runs without such a step, without a trespasser and with joins over an empty journal alone never reach such a disk, wherever else the power goes |
| `SessionSurvival.RecoveryOutlivesPower` | crates/psst-application/src/session.rs:945-973 | from a durable confirmed leave, after any join-free run of faulted recoveries, crashes and power losses without such a write, one unfaulted recovery call leaves credential, profile and journal all gone |
| `SessionLimits.UnsyncedConfirmationStrands` | crates/psst-application/src/session.rs:1106-1118 | there is a run, with a confirmation whose directory sync failed, a restart and a power loss, to an intent with its profile and no credential |
| `SessionLimits.UnsyncedRemovalStrands` | crates/psst-client/src/credential_store.rs:133-147 | there is a run, with a credential removal whose sync failed, a replayed cleanup and a power loss, to a credential with nothing beside it |
| `GateSimulation.SessionMoves` | crates/psst-application/src/session.rs:1295-1611 | every step of every call on a handle is one move of its two gates: admission while open, completion, stop, reopen unless closed, permanent close |
| `GateSimulation.SendGateSimulates` | crates/psst-application/src/session.rs:657-778 | every atomic step of the send gate is at most two such moves of the gate it stands for |
| `GateSimulation.SendDrainAgrees` | crates/psst-application/src/session.rs:734-754 | where leave or shutdown saw the ledger drained, the gate it stands for is empty and shut, and after a shutdown closed for good |
| `GateSimulation.ReportGateSimulates` | crates/psst-application/src/session.rs:409-461 | every atomic step of the report gate is at most two such moves, within its bound |
| `GateSimulation.ReportDrainAgrees` | crates/psst-application/src/session.rs:463-475 | where leave or shutdown saw the tracker drained, the gate it stands for is empty and shut, and after a shutdown closed for good |
| `LedgerModel.RestoreCapture` | crates/psst-application/src/session.rs:510-566 | a waiter is told exactly the owner's error unless a transport error is at its root, which becomes outcome-unknown |
| `LedgerModel.CaptureRestore` | crates/psst-application/src/session.rs:538-566 | a stored error survives restore and capture |
| `LedgerModel.OwnerStores` | crates/psst-application/src/session.rs:1448-1466 | a success is stored exactly for a response that repeats every field of the request, and whole; other responses are malformed ones, and an error is what waiters are told |
| `LedgerModel.RetentionRule` | crates/psst-application/src/session.rs:577-613 | an admitted request's failure is always retained, and an accepted response exactly when id, squad and sender fit in twice the dedupe key plus the echoed fields |
| `LedgerTheorems.EvictsShortestPrefix` | crates/psst-application/src/session.rs:687-698 | eviction removes the shortest prefix of the finished entries that makes room, or all of them, and keeps the invariant |
| `LedgerTheorems.RefusedOnlyByInFlight` | crates/psst-application/src/session.rs:699-703 | a new request is refused exactly when the entries in flight alone leave no room |
| `LedgerTheorems.RunValid` | crates/psst-application/src/session.rs:670-732 | after every sequence of reservations and completions the bytes are the sum over at most 64 entries and at most one MiB, the queue holds exactly the finished entries once, the counter counts the rest, and no terminal is ever rewritten |
| `LedgerTheorems.DispatchesNeverOverlap` | crates/psst-application/src/session.rs:670-673 | of two entries issued for one key in any run the earlier was finished first |
| `LedgerTheorems.RetainedIsShared` | crates/psst-application/src/session.rs:671-732 | a reservation of a retained key shares its entry and changes nothing, and no run takes an entry away before its terminal was written |
| `LedgerTheorems.ReserveMeans` | crates/psst-application/src/session.rs:670-713 | a fresh handle is that of the entry just inserted and unfinished, a shared one that of the entry there was, and a refusal leaves no entry of the key |
| `LedgerTheorems.FinishMeans` | crates/psst-application/src/session.rs:715-732 | the owner's result is what is stored, and the entry stays, last in the queue, exactly when the result fits in what the request was charged |
| `LedgerTheorems.FailuresAreRetained` | crates/psst-application/src/session.rs:577-593 | every failure fits in what any request was charged |
| `LedgerTheorems.WaitersHearTheOwner` | crates/psst-application/src/session.rs:715-732 | in every run the waiters of an entry are told a result exactly when its owner finished it with that result |
| `SendLedger.SendLedger.MakeRoom` | crates/psst-application/src/session.rs:687-698 | the eviction loop computes the ledger transition |
| `SendLedger.SendLedger.Reserve` | crates/psst-application/src/session.rs:657-713 | closed gates refuse and change nothing, open ones do exactly the reserve transition and return the handle of the entry inserted or shared; the invariant is kept |
| `SendLedger.SendLedger.Finish` | crates/psst-application/src/session.rs:715-732 | what waiters read is the owner's result; the entry stays, last in the queue, exactly when that fits; nothing else moves and the invariant is kept |
| `SendLedger.SendLedger.StopAdmission` | crates/psst-application/src/session.rs:734-742 | admission is closed and the drain is over at once exactly when nothing is in flight |
| `SendLedger.SendLedger.ReopenAdmission` | crates/psst-application/src/session.rs:760-773 | reopening admits again exactly when the ledger was not closed for good |
| `SendGate.ClosedReadsShut` | crates/psst-application/src/session.rs:760-778 | in every interleaving a permanently closed gate reads as not open unless a close or reopen is between two stores |
| `SendGate.NoLateAdmission` | crates/psst-application/src/session.rs:657-669 | after the permanent close no run admits anybody but the one thread that held the mutex past its check |
| `SendGate.ShutdownDrainHolds` | crates/psst-application/src/session.rs:734-754 | once a shutdown saw the ledger drained nothing is in flight in any later state |
| `SendGate.LeaveDrainHolds` | crates/psst-application/src/session.rs:734-754 | while leave stands on its drain nothing is in flight and nobody is past the accepting check |
| `SendGate.AdmittedExactly` | crates/psst-application/src/session.rs:657-713 | with nobody else moving a reservation is admitted and counted exactly when every check still ahead of it passes |
| `SendGate.ReopenExactly` | crates/psst-application/src/session.rs:760-773 | with nobody else moving a reopen opens both flags unless the gate is closed for good |
| `ReportGate.CountIsExact` | crates/psst-application/src/session.rs:409-439 | in every interleaving the counter is the number of reports in flight and at most eight |
| `ReportGate.ClosedIsCancelled` | crates/psst-application/src/session.rs:448-461 | after the permanent close a token is live only while its closer waits to cancel it |
| `ReportGate.ShutdownDrainHolds` | crates/psst-application/src/session.rs:463-475 | once a shutdown saw the tracker drained no report is in flight in any later state |
| `ReportGate.LeaveDrainHolds` | crates/psst-application/src/session.rs:463-475 | while leave stands on its drain no report is in flight and none can register |
| `ReportGate.RegisteredExactly` | crates/psst-application/src/session.rs:409-433 | with nobody else moving a registration succeeds and is counted exactly when the tracker is not closed, its token is live and fewer than eight are in flight |
| `ReportGate.ReopenExactly` | crates/psst-application/src/session.rs:453-461 | with nobody else moving a reopen makes the token live again unless the tracker is closed for good |
| `ReportTracker.ReportTracker.Register` | crates/psst-application/src/session.rs:409-433 | registration succeeds exactly on a live token below the bound, and says which refusal it is |
| `ReportTracker.ReportTracker.Reopen` | crates/psst-application/src/session.rs:453-461 | a reopen starts a new token unless closed for good and leaves earlier tokens as they are |
| `LeaveJournal.RecordNamesItsBinding` | crates/psst-application/src/leave_journal.rs:106-145 | a record validates alone exactly when it validates against the binding it names, and against no other |
| `LeaveJournal.ConfirmOnceForward` | crates/psst-application/src/leave_journal.rs:71-100 | an intent confirms once, and the result is storable exactly when the clock has not gone back |
| `LeaveJournal.KeySelectsRecord` | crates/psst-application/src/leave_journal.rs:180-202 | the orphan path accepts a record under its own canonical origin and profile and under no other |
| `LeaveJournal.ValidRecordIs` | crates/psst-application/src/leave_journal.rs:120-145 | what a valid record looks like, and that anything else is refused under every key |
| `JournalFile.Journal.WriteTemporary` | crates/psst-application/src/leave_journal.rs:354-379 | the temporary file is created, written and synced without any state on the way showing it to a reader or changing what a crash finds |
| `JournalFile.Journal.StoreUnix` | crates/psst-application/src/leave_journal.rs:354-393 | in every state between two system calls a crash finds what it could have found before or the whole new record; success means the new one, visible and durable; an error leaves the old or the new one visible |
| `JournalFile.Journal.Store` | crates/psst-application/src/leave_journal.rs:226-241 | the same for the encoding of the record; a record that does not validate or fit causes no system call |
| `JournalFile.Journal.PerformAll` | crates/psst-application/src/leave_journal.rs:222-271 | over every sequence of stores, removals and crashes, with a fault at any stage, every state passed shows a reader nothing or a whole valid record that was there before or was stored since |
| `JournalFile.SoundRecords` | crates/psst-application/src/leave_journal.rs:204-220 | what can be found loads without error, validates, and if confirmed was not confirmed before it was created |
| `JournalCell.StoreCell` | crates/psst-application/src/leave_journal.rs:226-241 | a store of the file, with a fault at any stage, ends in one of the three ways the session knows, and what readers see and what may come back move as the session's journal cell does |
| `JournalCell.RemoveCell` | crates/psst-application/src/leave_journal.rs:247-271 | the same for a removal, the one that finds nothing included |
| `JournalFile.Journal.Remove` | crates/psst-application/src/leave_journal.rs:247-271 | success means not visible; it is durable exactly when this call removed the entry or nothing could come back |
| `JournalFile.RepeatedRemovalIsNotDurable` | crates/psst-application/src/leave_journal.rs:254-259 | a removal whose sync failed, repeated, reports success and can still be undone by a crash |
| `Backoff.FormsAgree` | crates/psst-application/src/activation.rs:559-566 | the closed form equals the iterated form exactly up to attempt 32 or where the capped multiplier reaches the maximum |
| `Backoff.AdmittedDelays` | crates/psst-application/src/activation.rs:244-266 | for every admitted attempt the forms agree, the delay lies within the bounds and never shrinks |
| `Backoff.JitterRange` | crates/psst-application/src/activation.rs:580-588 | over all samples jitter takes exactly the milliseconds from half the delay to the delay, without overflow |
| `ClientRetry.Execute` | crates/psst-client/src/lib.rs:781-857 | the attempts are the shortest prefix ending in an answer that is not tried again, cut at the bound, which is one for a class that is never retried; the sleeps are the iterated backoff; the outcome is busy, exhausted or the last answer as the code decides |
| `Activation.DoAllKeeps` | crates/psst-application/src/activation.rs:145-311 | over every sequence of calls, accepted or rejected, pending mail is present and absent in the right phases and the attempt stays within policy |
| `Activation.TerminalPhases` | crates/psst-application/src/activation.rs:300-310 | stopped is final and blocked gives way only to it |
| `Activation.CallsLeadOn` | crates/psst-application/src/activation.rs:170-311 | in every reachable machine each call leads to the phase the life of a wake says, newer mail replaces the mail remembered, and attempts are counted by declined requests alone |
| `Activation.EverySnapshotValidates` | crates/psst-application/src/harness_status.rs:212-278 | the status of every reachable snapshot validates exactly when the profile name does and the process id is not zero, and shows its phase, attempts and pending mail |
| `ActivationObject.ActivationMachine.Observe` | crates/psst-application/src/activation.rs:170-196 | the method is the observe transition |
| `ActivationObject.ActivationMachine.WakeRetryable` | crates/psst-application/src/activation.rs:244-266 | the method is the retry transition and returns its delay |
| `ActivationDriver.DriveWake` | crates/psst-application/src/activation.rs:478-549 | every request it makes was due given the answers so far, and it returns with the turn completed and the machine quiet, or with the verdict those answers give |
| `ActivationDriver.Falter` | crates/psst-application/src/activation.rs:450-458 | a failed poll ends the loop blocked exactly at the policy's bound, else it pauses as long as the policy says and the next poll is due |
| `ActivationDriver.RunActivation` | crates/psst-application/src/activation.rs:424-476 | for every script of answers the log pairs each request with its answer, each request was due, and the loop ends exactly when and as the last answer says: blocked, cancelled, or waiting for an answer that does not come |
| `ActivationDriver.NoDuplicateTurn` | crates/psst-application/src/activation.rs:478-549 | when a turn is requested every earlier request was declined before it started or its turn completed; the request is for mail just polled or repeats the one just declined; a wake gets at most the policy's attempts |
| `ActivationDriver.FinalIsLast` | crates/psst-application/src/activation.rs:424-549 | nothing is asked after an ambiguous or permanent outcome, a cancellation or an unanswered request |
| `StdioDemux.RequestTakesFirst` | crates/psst-codex/src/app_server.rs:746-768 | a request stops at the first line that fails or carries its id, queues exactly the lines before it, and answers from that line alone: rejected on an error, its result, or a protocol failure with neither |
| `StdioDemux.ReadHandsOut` | crates/psst-codex/src/app_server.rs:800-805 | a read returns the oldest queued message, else the next of the wire, and returns exactly what it records as delivered |
| `StdioDemux.Conservation` | crates/psst-codex/src/app_server.rs:746-805 | for every wire and interleaving, delivered plus queued is the stream read without the answers, in order, and each answer is the first message with its id read after its request |
| `JsonLines.JsonLines.Request` | crates/psst-codex/src/app_server.rs:746-768 | the read loop computes the request transition |
| `JsonLines.JsonLines.Read` | crates/psst-codex/src/app_server.rs:800-805 | the queue is handed out before the wire |
| `AckFence.SettleMeans` | crates/psst-codex/src/app_server.rs:398-416 | the retrieved set gains exactly what a receive answered without error returned and loses exactly what an acknowledgement confirmed in full named |
| `AckFence.HeldAppend` | crates/psst-codex/src/app_server.rs:398-411 | what a turn holds after an exchange is what it was given and not relieved of |
| `AckFence.ParseExactly` | crates/psst-codex/src/app_server.rs:522-575 | exactly these calls pass: a receive of this thread and turn whose acknowledge list is present and empty, and an acknowledgement of one to a hundred valid, retrieved ids, which are the members of its list |
| `AckFence.TurnGoesOn` | crates/psst-codex/src/app_server.rs:389-418 | the turn goes on exactly after a forwarded call answered with an error or with the ids asked for, whose own answer could be written |
| `AckFence.AcknowledgementFence` | crates/psst-codex/src/app_server.rs:369-418 | in every connection each call forwarded names the turn being waited for, a receive asks for no acknowledgement, each id the server is asked to acknowledge by any call was returned by an earlier receive of the same turn that was answered without error and is in no acknowledgement confirmed since, and request ids strictly increase |
| `AckFence.FenceIsExact` | crates/psst-codex/src/app_server.rs:522-566 | while request ids last, a call of this thread and turn is forwarded exactly when it is a receive with an empty acknowledge list or an acknowledgement of valid ids that the turn holds |
| `AppServerClient.AppServerClient.StartTurn` | crates/psst-codex/src/app_server.rs:323-330 | a turn start forgets the mail of earlier turns and takes the next id, or sends nothing with no id left |
| `AppServerClient.AppServerClient.HandleToolCall` | crates/psst-codex/src/app_server.rs:369-418 | the method is the tool-call transition |
| `LinePump.PumpLines` | crates/psst-mcp/src/lib.rs:157-191 | for any chunking the output is the longest prefix of whole frames within the bound, and the result is good exactly when that is the whole input |
| `LinePump.PumpChunk` | crates/psst-mcp/src/lib.rs:176-189 | one chunk is conserved between output, open frame and unread rest |
| `LinePump.ChunkingDoesNotMatter` | crates/psst-mcp/src/lib.rs:157-191 | two ways of cutting the same bytes give the same output |

## Left out

- SessionTheorems.DeletesOnlyConfirmed: promises the profile's own confirmation in runs without a trespasser only, because with one it fails (`SessionLimits.ReleasedLeftDeletes`, `SessionTrespass.TrespassHarms`).
- SessionTheorems.JournalIsTruthful: promises the profile beside an intent in runs without a trespasser and without power losses only, because with a trespasser it fails (`SessionLimits.ReleasedReadyLies`); power losses are met by `SessionPower.JournalSurvivesPower`.
- SessionTheorems.PublishedIsDurable: covers runs without a trespasser only, because a trespasser clears the credential under a newer runtime (`SessionTrespass.TrespassHarms`).
- SessionTheorems.WireCarriesPublished: promises the published credential below a saturated generation only, because at saturation it fails (`SessionLimits.SaturationBreaksCurrency`).
- SessionRecovery.RecoveryConverges: covers join-free runs without a trespasser only, because a join over the journal wedges the profile (`SessionRecovery.StaleJoinWedges`) and a trespasser can write its own intent over the confirmed record.
- SessionRecovery.IntentResolves: covers runs without a trespasser only, because a trespasser can remove or replace the journal it is about.
- SessionRecovery.StuckExactly: speaks of runs without a trespasser, because a released handle that had left clears any disk.
- SessionAdmission.LeaveConcludes: covers runs without a trespasser only, because a trespasser writes the same disk.
- SessionTrespass.TrespassHarms: is about one trespasser at a time; what several do to each other is not looked at.
- SessionAdmission and `SessionRecovery.IntentResolves`: take no power losses into account; what the disk can come back as is the subject of `SessionPower` and `SessionSurvival`.
- HTTP, TLS, JSON encoding, URL parsing and the relay with its store: they enter as nondeterministic answers under the assumptions above.
- Windows storage, permission and symbolic-link checks, random temporary names and the lock sockets: operating-system plumbing.
- Real time: timeouts are choices of the environment, so nothing is said about how long a drain takes.
- Weak memory orders and the wake-up of waiters by `Notify`: only what a waiter finds when it looks is modelled.
- Panics of spawned tasks: the `Task` arm of the resume transaction is taken only before anything is stored.
- `read_cancel` and the read-only calls roster, inbox and transcript, and archive and acknowledge: they change none of the state modelled here.
- Two calls of `shutdown` at once, of which only one finds the heartbeat task: the model has one shutdown call at a time on a handle, and lets it go on without waiting for the task.
- The system calls of the credential and profile stores: `SessionPower` takes them by how they end, as `JournalCell` proves it for the journal, which is written the same way.
- `wait_completed`, `completion_result` and the launch of the App Server child: they read the stream whose conservation is proved and would add finite case claims.
- `wake_from_inbox`, the validators of names and origins, `status_view_at` and the status publisher's timer loop: single-branch claims.
- The CLI, the MCP dispatcher, the Claude channel, configuration, packaging and release scripts.
