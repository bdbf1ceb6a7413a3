/** State of one profile: what is on disk, what the relay knows, the process
    that holds the profile lock, and the handles that have given it up.

    Every field below is read or written by some step of
    crates/psst-application/src/session.rs.  A value is changed only by the step
    functions of `SessionSteps`; nothing here computes.  */
module SessionState {
  import opened Wrappers

  const U64_MAX: nat := 0xFFFF_FFFF_FFFF_FFFF

  datatype Binding = Binding(squad: string, member: nat)

  datatype Credential = Credential(member: nat, serial: nat)

  datatype Journal = NoJournal | Intent(binding: Binding) | Confirmed(binding: Binding)

  // The three durable cells of a profile.
  datatype Disk = Disk(credential: Option<Credential>, profile: Option<Binding>, journal: Journal)

  // How one durable store or removal ended.  `FailedAfter` is an error returned with the new
  // value already in place.
  datatype Io = Done | FailedBefore | FailedAfter

  // `ended` holds the memberships that are over; `leaveRequests` those for which a leave was put
  // on the wire, which the relay may apply at any later time.
  datatype Relay = Relay(nextMember: nat, nextSerial: nat, ended: set<nat>, leaveRequests: set<nat>)

  datatype Reply =
    | Success            // for leave: the bound membership; for resume: the bound squad and membership
    | Mismatched         // a 200 answer about something else
    | NotMember          // NotMember or SquadArchived
    | LeaseExpired
    | OtherApi
    | Unresolved         // OutcomeUnknown
    | OtherFailure       // timeout, transport and local client errors

  datatype CleanupStep = ClearCredential | ClearProfile | RemoveJournal

  datatype StartStep =
    | LoadJournal
    | FirstHeartbeat(credential: Credential, pending: bool)
    | StartResume(credential: Credential, pending: bool)
    | PersistResumed(renewed: Credential, pending: bool)
    | DropIntent(current: Credential, generation: nat)
    | ConfirmPending
    | StartCleanup(at: CleanupStep)

  datatype JoinStep =
    | JoinCall
    | StoreCredential(binding: Binding, credential: Credential)
    | StoreProfile(binding: Binding, credential: Credential)
    | ScrubCredential(binding: Binding, credential: Credential)

  datatype Lifecycle = Ready | Leaving | Left | Recovering | RotationFailed | OutcomeUnknown

  datatype Health = Healthy | Degraded | UnknownOutcome | FailedRotation | Stopped

  // One owned send: reserved with the authority snapshot it was admitted with.
  datatype Send =
    | Owned(generation: nat, credential: Credential)
    | Gated(generation: nat, credential: Credential)
    | OnWire(generation: nat, credential: Credential)

  datatype Rotator = Scheduler | Report(id: nat)

  datatype RotationStep =
    | Entered
    | HeartbeatCall
    | ResumeCall
    | PersistFresh(renewed: Credential)
    | PublishFresh(renewed: Credential)
    | PublishFailure(lifecycle: Lifecycle, health: Health)
    | BackToReady

  // The heartbeat gate and, for a heartbeat or report that holds it, how far it got.
  datatype Gate = Free | BySend(id: nat) | ByRotator(who: Rotator, at: RotationStep) | ByLeave

  // A resume transaction whose waiting scheduler was aborted; it still owns the profile lock.
  datatype Orphan = NoOrphan | OrphanCall | OrphanPersist(renewed: Credential)

  datatype LeaveStep =
    | NoLeave
    | DrainReports
    | EnterLeaving
    | StopSends
    | DrainSends
    | AwaitGate
    | StoreIntent
    | LeaveCall
    | DropRefused
    | ConfirmLeave
    | LeaveCleanup(at: CleanupStep)
    | PublishLeft
    | ReapScheduler
    | LeftCleanup(at: CleanupStep)
    | RollbackStart
    | RollbackSends
    | RollbackReports
    | RollbackReady

  datatype ShutdownStep =
    | NoShutdown
    | CloseSends
    | CloseReports
    | ShutDrainReports
    | ShutStopSends
    | ShutDrainSends
    | CancelScheduler
    | ShutReap
    | ShutAwaitOperation

  // The published authority.  `published` remembers every (generation, credential) pair that an
  // authority snapshot can carry.
  datatype Shared = Shared(credential: Credential, generation: nat, health: Health, published: set<(nat, Credential)>)

  // Owned sends in flight, the admission flag and the permanent one.
  datatype Sends = Sends(active: map<nat, Send>, open: bool, closed: bool)

  // Availability reports in flight, whether their token is live, and the permanent flag.
  datatype Reports = Reports(active: set<nat>, open: bool, closed: bool)

  // Lifecycle, the leave and shutdown calls in progress, and profile ownership.
  datatype Control = Control(
    lifecycle: Lifecycle, leave: LeaveStep, shutdown: ShutdownStep, shutdownRequested: bool, locked: bool)

  // The heartbeat task: whether it runs, whether it was told to stop, what an abort left behind.
  datatype Beat = Beat(running: bool, cancelled: bool, orphan: Orphan)

  datatype Runtime = Runtime(
    binding: Binding, shared: Shared, control: Control, gate: Gate, beat: Beat, sends: Sends, reports: Reports)

  // The holder of the profile lock.  `Live` with `!locked` is a handle whose shutdown completed and
  // whose lock nobody has taken yet.
  datatype Process =
    | Idle
    | Starting(binding: Binding, start: StartStep)
    | OrphanRead
    | OrphanCleanup(binding: Binding, at: CleanupStep)
    | Joining(join: JoinStep)
    | Live(runtime: Runtime)

  // `released` holds the handles whose lock somebody else has taken since.  They are still there to
  // be called, by this process or another, and they act on the same disk.
  datatype State = State(disk: Disk, relay: Relay, process: Process, released: seq<Runtime>)

  const INITIAL: State := State(Disk(None, None, NoJournal), Relay(0, 0, {}, {}), Idle, [])
}
