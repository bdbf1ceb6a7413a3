/** The atomic steps of the session supervisor.

    One action is one stretch of code between two awaits, one durable write, or one answer of the
    relay; its arguments are the choices the environment makes.  `Step` returns `None` where the
    action cannot happen.  */
module SessionSteps {
  import opened Wrappers
  import opened SessionState

  datatype World = World(disk: Disk, relay: Relay, rt: Runtime)

  datatype SendAction =
    | Reserve(id: nat, generation: nat, credential: Credential)
    | TakeGate(id: nat)
    | Recheck(id: nat)
    | FinishSend(id: nat)
    | ReleaseGate

  datatype ReportAction = Register(id: nat) | EnterGate(id: nat) | FinishReport(id: nat)

  datatype RotationAction =
    | SchedulerGate
    | SchedulerExit
    | AbortScheduler
    | GiveUp
    | CheckLifecycle
    | HeartbeatAnswer(reply: Reply)
    | ResumeAnswer(reply: Reply)
    | Persist(io: Io)
    | Publish
    | PublishError
    | Reready
    | OrphanAnswer(reply: Reply)
    | OrphanStore(io: Io)

  datatype LeaveAction =
    | BeginLeave
    | ReportsDrained
    | ReportsTimeout
    | Enter
    | SendsStopped
    | SendsDrained
    | SendsTimeout
    | GateTaken
    | IssueIntentFails
    | IntentStored(io: Io)
    | LeaveAnswer(reply: Reply)
    | RefusedDropped(io: Io)
    | IssueConfirmedFails
    | ConfirmedStored(io: Io)
    | Clean(io: Io)
    | LeftPublished
    | SchedulerReaped
    | Rollback

  datatype ShutdownAction = Request | Advance | TimedOut | CloseFlags

  datatype BootAction =
    | BeginStart(binding: Binding)
    | ReadJournal
    | FirstAnswer(reply: Reply)
    | StartResumed(reply: Reply)
    | StartPersisted(io: Io)
    | IntentDropped(io: Io)
    | ConfirmIssueFails
    | PendingConfirmed(io: Io)
    | CleanStart(io: Io)
    | BeginOrphan
    | OrphanJournal
    | CleanOrphan(io: Io)
    | BeginJoin
    | JoinAnswer(reply: Reply, squad: string)
    | CredentialStored(io: Io)
    | ProfileStored(io: Io)
    | Scrub(io: Io)

  // A step of some call on a handle, or of the handle's own tasks.
  datatype Call =
    | ASend(send: SendAction)
    | AReport(report: ReportAction)
    | ARotation(rotation: RotationAction)
    | ALeave(leave: LeaveAction)
    | AShutdown(shutdown: ShutdownAction)

  // `Crash` ends the lock holder; `Forget` ends a released handle, by a drop or a crash of its process.
  datatype Action =
    | ApplyLeave(member: nat)
    | EndMembership(member: nat)
    | Crash
    | DropHandle
    | Forget(index: nat)
    | Boot(boot: BootAction)
    | Do(call: Call)
    | DoReleased(index: nat, call: Call)

  function Written<T>(io: Io, before: T, after: T): T {
    if io == FailedBefore then before else after
  }

  function NextGeneration(generation: nat): nat {
    if generation >= U64_MAX then generation else generation + 1
  }

  // One durable step of `cleanup_confirmed_leave`.
  function CleanDisk(disk: Disk, at: CleanupStep, io: Io): Disk {
    match at
    case ClearCredential => disk.(credential := Written(io, disk.credential, None))
    case ClearProfile => disk.(profile := Written(io, disk.profile, None))
    case RemoveJournal => disk.(journal := Written(io, disk.journal, NoJournal))
  }

  function AfterClean(at: CleanupStep, io: Io): Option<CleanupStep> {
    if io != Done then None
    else match at
      case ClearCredential => Some(ClearProfile)
      case ClearProfile => Some(RemoveJournal)
      case RemoveJournal => None
  }

  // --- owned sends -------------------------------------------------------------------------

  function SetSend(rt: Runtime, id: nat, send: Send): Runtime {
    rt.(sends := rt.sends.(active := rt.sends.active[id := send]))
  }

  function DropSend(rt: Runtime, id: nat): Runtime {
    rt.(sends := rt.sends.(active := rt.sends.active - {id}))
  }

  // The check an owned send makes once it holds the heartbeat gate.
  predicate AuthorityIsCurrent(rt: Runtime, send: Send) {
    && rt.shared.generation == send.generation
    && rt.shared.health == Healthy
    && (rt.control.lifecycle == Ready || rt.control.lifecycle == Leaving)
  }

  function SendStep(rt: Runtime, a: SendAction): Option<Runtime> {
    var active := rt.sends.active;
    match a
    case Reserve(id, generation, credential) =>
      if id in active || rt.gate == BySend(id) || rt.sends.closed || !rt.sends.open
         || (generation, credential) !in rt.shared.published then None
      else Some(SetSend(rt, id, Owned(generation, credential)))
    case TakeGate(id) =>
      if id !in active || !active[id].Owned? || rt.gate != Free then None
      else Some(SetSend(rt, id, Gated(active[id].generation, active[id].credential)).(gate := BySend(id)))
    case Recheck(id) =>
      if id !in active || !active[id].Gated? then None
      else if AuthorityIsCurrent(rt, active[id])
      then Some(SetSend(rt, id, OnWire(active[id].generation, active[id].credential)))
      else Some(DropSend(rt, id))
    case FinishSend(id) =>
      if id !in active || !active[id].OnWire? then None else Some(DropSend(rt, id))
    case ReleaseGate =>
      if rt.gate.BySend? && rt.gate.id !in active then Some(rt.(gate := Free)) else None
  }

  // --- availability reports ----------------------------------------------------------------

  function ReportStep(rt: Runtime, a: ReportAction): Option<Runtime> {
    var active := rt.reports.active;
    match a
    case Register(id) =>
      if id in active || rt.reports.closed || !rt.reports.open || |active| >= 8 then None
      else Some(rt.(reports := rt.reports.(active := active + {id})))
    case EnterGate(id) =>
      if id !in active || rt.gate != Free then None
      else Some(rt.(gate := ByRotator(Report(id), Entered)))
    case FinishReport(id) =>
      if id !in active || (rt.gate.ByRotator? && rt.gate.who == Report(id)) then None
      else Some(rt.(reports := rt.reports.(active := active - {id})))
  }

  // --- heartbeats and credential rotation --------------------------------------------------

  function SchedulerStep(rt: Runtime, a: RotationAction): Option<Runtime> {
    var holds := rt.gate.ByRotator? && rt.gate.who == Scheduler;
    match a
    case SchedulerGate =>
      if !rt.beat.running || rt.gate != Free then None
      else Some(rt.(gate := ByRotator(Scheduler, Entered)))
    case SchedulerExit =>
      if !rt.beat.running || holds then None else Some(rt.(beat := rt.beat.(running := false)))
    case AbortScheduler =>
      if !rt.beat.running || !rt.beat.cancelled then None
      else
        var orphan :=
          if holds && rt.gate.at.ResumeCall? then OrphanCall
          else if holds && rt.gate.at.PersistFresh? then OrphanPersist(rt.gate.at.renewed)
          else rt.beat.orphan;
        Some(rt.(beat := Beat(false, true, orphan), gate := if holds then Free else rt.gate))
    case _ => None
  }

  function SetLifecycle(rt: Runtime, lifecycle: Lifecycle): Runtime {
    rt.(control := rt.control.(lifecycle := lifecycle))
  }

  function SetHealth(rt: Runtime, health: Health): Runtime {
    rt.(shared := rt.shared.(health := health))
  }

  function MoveRotation(rt: Runtime, at: RotationStep): Runtime
    requires rt.gate.ByRotator?
  {
    rt.(gate := ByRotator(rt.gate.who, at))
  }

  // Steps of the gate holder that touch memory only.
  function RotatorMemoryStep(rt: Runtime, a: RotationAction): Option<Runtime>
    requires rt.gate.ByRotator?
  {
    var at := rt.gate.at;
    match a
    case GiveUp =>
      if at.Entered? || at.HeartbeatCall? then Some(rt.(gate := Free)) else None
    case CheckLifecycle =>
      if !at.Entered? then None
      else if rt.control.lifecycle == Ready then Some(MoveRotation(rt, HeartbeatCall))
      else Some(rt.(gate := Free))
    case HeartbeatAnswer(reply) =>
      if !at.HeartbeatCall? then None
      else if rt.control.lifecycle != Ready then Some(rt.(gate := Free))
      else if reply == LeaseExpired then Some(SetLifecycle(MoveRotation(rt, ResumeCall), Recovering))
      else
        var health := if reply == Success then Healthy else if reply == Unresolved then UnknownOutcome else Degraded;
        Some(SetHealth(rt.(gate := Free), health))
    case Publish =>
      if !at.PublishFresh? then None
      else
        var generation := NextGeneration(rt.shared.generation);
        Some(MoveRotation(rt.(shared := Shared(at.renewed, generation, Healthy,
                                               rt.shared.published + {(generation, at.renewed)})), BackToReady))
    case PublishError =>
      if !at.PublishFailure? then None
      else if rt.control.lifecycle != Recovering then Some(rt.(gate := Free))
      else Some(SetLifecycle(SetHealth(rt.(gate := Free), at.health), at.lifecycle))
    case Reready =>
      if !at.BackToReady? then None
      else if rt.control.lifecycle != Recovering then Some(rt.(gate := Free))
      else Some(SetLifecycle(rt.(gate := Free), Ready))
    case _ => None
  }

  // The resume transaction: one relay answer, then one durable store.
  function ResumeStep(w: World, a: RotationAction): Option<World>
    requires w.rt.gate.ByRotator?
  {
    var at := w.rt.gate.at;
    match a
    case ResumeAnswer(reply) =>
      if !at.ResumeCall? then None
      else if reply == Success then
        Some(w.(relay := w.relay.(nextSerial := w.relay.nextSerial + 1),
                rt := MoveRotation(w.rt, PersistFresh(Credential(w.rt.binding.member, w.relay.nextSerial)))))
      else if reply == Unresolved then
        Some(w.(rt := MoveRotation(w.rt, PublishFailure(OutcomeUnknown, UnknownOutcome))))
      else Some(w.(rt := MoveRotation(w.rt, PublishFailure(Ready, Degraded))))
    case Persist(io) =>
      if !at.PersistFresh? then None
      else Some(w.(disk := w.disk.(credential := Written(io, w.disk.credential, Some(at.renewed))),
                   rt := MoveRotation(w.rt, if io == Done then PublishFresh(at.renewed)
                                            else PublishFailure(RotationFailed, FailedRotation))))
    case _ => None
  }

  function SetOrphan(rt: Runtime, orphan: Orphan): Runtime {
    rt.(beat := rt.beat.(orphan := orphan))
  }

  function OrphanedResumeStep(w: World, a: RotationAction): Option<World> {
    match a
    case OrphanAnswer(reply) =>
      if !w.rt.beat.orphan.OrphanCall? then None
      else if reply == Success then
        Some(w.(relay := w.relay.(nextSerial := w.relay.nextSerial + 1),
                rt := SetOrphan(w.rt, OrphanPersist(Credential(w.rt.binding.member, w.relay.nextSerial)))))
      else Some(w.(rt := SetOrphan(w.rt, NoOrphan)))
    case OrphanStore(io) =>
      if !w.rt.beat.orphan.OrphanPersist? then None
      else Some(w.(disk := w.disk.(credential := Written(io, w.disk.credential, Some(w.rt.beat.orphan.renewed))),
                   rt := SetOrphan(w.rt, NoOrphan)))
    case _ => None
  }

  function OnRuntime(w: World, rt: Option<Runtime>): Option<World> {
    if rt.None? then None else Some(w.(rt := rt.value))
  }

  function RotationStepOf(w: World, a: RotationAction): Option<World> {
    match a
    case SchedulerGate | SchedulerExit | AbortScheduler => OnRuntime(w, SchedulerStep(w.rt, a))
    case OrphanAnswer(_) | OrphanStore(_) => OrphanedResumeStep(w, a)
    case ResumeAnswer(_) | Persist(_) => if w.rt.gate.ByRotator? then ResumeStep(w, a) else None
    case _ => if w.rt.gate.ByRotator? then OnRuntime(w, RotatorMemoryStep(w.rt, a)) else None
  }

  // --- leave -------------------------------------------------------------------------------

  function SetLeave(rt: Runtime, leave: LeaveStep): Runtime {
    rt.(control := rt.control.(leave := leave))
  }

  function EndLeave(rt: Runtime): Runtime {
    SetLeave(rt, NoLeave).(gate := if rt.gate == ByLeave then Free else rt.gate)
  }

  function LoseLeave(rt: Runtime): Runtime {
    EndLeave(SetLifecycle(SetHealth(rt, UnknownOutcome), OutcomeUnknown))
  }

  function OpenReports(rt: Runtime): Runtime {
    if rt.reports.closed then rt else rt.(reports := rt.reports.(open := true))
  }

  // `begin_leave` under the lifecycle lock.
  function EnterLeave(rt: Runtime): Runtime {
    match rt.control.lifecycle
    case Ready => SetLeave(SetLifecycle(rt, Leaving), StopSends)
    case Left => SetLeave(rt, LeftCleanup(ClearCredential))
    case _ => EndLeave(rt)
  }

  function RollbackOf(rt: Runtime): Option<Runtime> {
    match rt.control.leave
    case RollbackStart =>
      Some(if rt.control.shutdownRequested then EndLeave(rt) else SetLeave(rt, RollbackSends))
    case RollbackSends =>
      Some(SetLeave(if rt.sends.closed then rt else rt.(sends := rt.sends.(open := true)), RollbackReports))
    case RollbackReports => Some(SetLeave(OpenReports(rt), RollbackReady))
    case RollbackReady =>
      Some(EndLeave(if rt.control.shutdownRequested then rt else SetLifecycle(rt, Ready)))
    case _ => None
  }

  // Steps up to the heartbeat gate, and rollback: they touch memory only.
  function LeaveMemoryStep(rt: Runtime, a: LeaveAction): Option<Runtime> {
    var leave := rt.control.leave;
    match a
    case BeginLeave =>
      if leave != NoLeave then None
      else Some(SetLeave(rt.(reports := rt.reports.(open := false)), DrainReports))
    case ReportsDrained =>
      if leave != DrainReports || rt.reports.active != {} then None else Some(SetLeave(rt, EnterLeaving))
    case ReportsTimeout =>
      if leave != DrainReports then None
      else if !rt.control.shutdownRequested && rt.control.lifecycle == Ready then Some(EndLeave(OpenReports(rt)))
      else Some(EndLeave(rt))
    case Enter => if leave != EnterLeaving then None else Some(EnterLeave(rt))
    case SendsStopped =>
      if leave != StopSends then None else Some(SetLeave(rt.(sends := rt.sends.(open := false)), DrainSends))
    case SendsDrained =>
      if leave != DrainSends || rt.sends.active != map[] then None else Some(SetLeave(rt, AwaitGate))
    case SendsTimeout => if leave != DrainSends then None else Some(SetLeave(rt, RollbackStart))
    case GateTaken =>
      if leave != AwaitGate || rt.gate != Free then None else Some(SetLeave(rt.(gate := ByLeave), StoreIntent))
    case IssueIntentFails => if leave != StoreIntent then None else Some(SetLeave(rt, RollbackStart))
    case IssueConfirmedFails => if leave != ConfirmLeave then None else Some(LoseLeave(rt))
    case LeftPublished =>
      if leave != PublishLeft then None
      else Some(SetLeave(SetLifecycle(SetHealth(rt, Stopped), Left), ReapScheduler))
    case SchedulerReaped =>
      // the task ends by its own step; a concurrent shutdown may be the one that waits for it
      if leave != ReapScheduler then None else Some(EndLeave(rt))
    case Rollback => RollbackOf(rt)
    case _ => None
  }

  function SetJournal(disk: Disk, io: Io, journal: Journal): Disk {
    disk.(journal := Written(io, disk.journal, journal))
  }

  // The relay answers a leave with the bound membership, NotMember or SquadArchived only when the
  // membership is over; every other answer may come at any time.
  function LeaveAnswered(w: World, reply: Reply): Option<World> {
    match reply
    case Success | NotMember =>
      if w.rt.binding.member in w.relay.ended then Some(w.(rt := SetLeave(w.rt, ConfirmLeave))) else None
    case LeaseExpired | OtherApi => Some(w.(rt := SetLeave(w.rt, DropRefused)))
    case Mismatched | Unresolved | OtherFailure => Some(w.(rt := LoseLeave(w.rt)))
  }

  function CleanLeave(w: World, io: Io): Option<World> {
    match w.rt.control.leave
    case LeaveCleanup(at) =>
      var next := AfterClean(at, io);
      Some(w.(disk := CleanDisk(w.disk, at, io),
              rt := SetLeave(w.rt, if next.Some? then LeaveCleanup(next.value) else PublishLeft)))
    case LeftCleanup(at) =>
      var next := AfterClean(at, io);
      Some(w.(disk := CleanDisk(w.disk, at, io),
              rt := if next.Some? then SetLeave(w.rt, LeftCleanup(next.value)) else EndLeave(w.rt)))
    case _ => None
  }

  function LeaveDurableStep(w: World, a: LeaveAction): Option<World> {
    var rt := w.rt;
    var leave := rt.control.leave;
    match a
    case IntentStored(io) =>
      if leave != StoreIntent then None
      else if io == Done then
        Some(World(SetJournal(w.disk, io, Intent(rt.binding)),
                   w.relay.(leaveRequests := w.relay.leaveRequests + {rt.binding.member}), SetLeave(rt, LeaveCall)))
      else Some(World(SetJournal(w.disk, io, Intent(rt.binding)), w.relay, SetLeave(rt, RollbackStart)))
    case LeaveAnswer(reply) => if leave != LeaveCall then None else LeaveAnswered(w, reply)
    case RefusedDropped(io) =>
      if leave != DropRefused then None
      else Some(w.(disk := SetJournal(w.disk, io, NoJournal),
                   rt := if io == Done then SetLeave(rt, RollbackStart) else LoseLeave(rt)))
    case ConfirmedStored(io) =>
      if leave != ConfirmLeave then None
      else Some(w.(disk := SetJournal(w.disk, io, Confirmed(rt.binding)),
                   rt := if io == Done
                         then SetLeave(rt.(beat := rt.beat.(cancelled := true)), LeaveCleanup(ClearCredential))
                         else LoseLeave(rt)))
    case Clean(io) => CleanLeave(w, io)
    case _ => None
  }

  function LeaveStepOf(w: World, a: LeaveAction): Option<World> {
    if a.IntentStored? || a.LeaveAnswer? || a.RefusedDropped? || a.ConfirmedStored? || a.Clean?
    then LeaveDurableStep(w, a)
    else OnRuntime(w, LeaveMemoryStep(w.rt, a))
  }

  // --- shutdown ----------------------------------------------------------------------------

  function SetShutdown(rt: Runtime, shutdown: ShutdownStep): Runtime {
    rt.(control := rt.control.(shutdown := shutdown))
  }

  function AdvanceShutdown(rt: Runtime): Option<Runtime> {
    match rt.control.shutdown
    case NoShutdown => None
    case CloseSends => Some(SetShutdown(rt.(sends := rt.sends.(open := false, closed := true)), CloseReports))
    case CloseReports => Some(SetShutdown(rt.(reports := rt.reports.(open := false, closed := true)), ShutDrainReports))
    case ShutDrainReports => if rt.reports.active == {} then Some(SetShutdown(rt, ShutStopSends)) else None
    case ShutStopSends => Some(SetShutdown(rt.(sends := rt.sends.(open := false)), ShutDrainSends))
    case ShutDrainSends => if rt.sends.active == map[] then Some(SetShutdown(rt, CancelScheduler)) else None
    case CancelScheduler => Some(SetShutdown(rt.(beat := rt.beat.(cancelled := true)), ShutReap))
    case ShutReap => Some(SetShutdown(rt, ShutAwaitOperation))
    case ShutAwaitOperation =>
      if rt.control.leave != NoLeave then None
      else
        var stopped := SetHealth(rt, Stopped);
        Some(stopped.(control := rt.control.(shutdown := NoShutdown, locked := false)))
  }

  function ShutdownStepOf(rt: Runtime, a: ShutdownAction): Option<Runtime> {
    match a
    case Request =>
      if rt.control.shutdown != NoShutdown then None
      else Some(rt.(control := rt.control.(shutdownRequested := true, shutdown := CloseSends)))
    case Advance => AdvanceShutdown(rt)
    case TimedOut => if rt.control.shutdown == NoShutdown then None else Some(SetShutdown(rt, NoShutdown))
    case CloseFlags =>
      if !rt.control.shutdownRequested then None
      else Some(rt.(sends := rt.sends.(open := false, closed := true),
                    reports := rt.reports.(open := false, closed := true), beat := rt.beat.(cancelled := true)))
  }

  // --- start, orphaned recovery and join ---------------------------------------------------

  predicate OwnershipFree(beat: Beat) {
    !beat.running && beat.orphan.NoOrphan?
  }

  // The profile lock is shared by the supervisor, the heartbeat task and a resume transaction.
  predicate LockFree(process: Process) {
    || process.Idle?
    || (process.Live? && !process.runtime.control.locked && OwnershipFree(process.runtime.beat))
  }

  function NewRuntime(binding: Binding, credential: Credential, generation: nat): Runtime {
    Runtime(binding, Shared(credential, generation, Healthy, {(generation, credential)}),
            Control(Ready, NoLeave, NoShutdown, false, true), Free, Beat(true, false, NoOrphan),
            Sends(map[], true, false), Reports({}, true, false))
  }

  // The first step after the profile lock was taken; a handle that had released it stays callable.
  function TakeLock(s: State, process: Process): State {
    s.(process := process, released := if s.process.Live? then s.released + [s.process.runtime] else s.released)
  }

  function JournalRead(s: State, binding: Binding): Process {
    match s.disk.journal
    case Confirmed(b) => if b == binding then Starting(binding, StartCleanup(ClearCredential)) else Idle
    case Intent(b) => if b == binding then LoadCredential(s, binding, true) else Idle
    case NoJournal => LoadCredential(s, binding, false)
  }

  function LoadCredential(s: State, binding: Binding, pending: bool): Process {
    match s.disk.credential
    case Some(c) => if c.member == binding.member then Starting(binding, FirstHeartbeat(c, pending)) else Idle
    case None => Idle
  }

  function FirstAnswered(s: State, binding: Binding, credential: Credential, pending: bool, reply: Reply): Option<State> {
    match reply
    case Success =>
      Some(s.(process := if pending then Starting(binding, DropIntent(credential, 0))
                         else Live(NewRuntime(binding, credential, 0))))
    case LeaseExpired => Some(s.(process := Starting(binding, StartResume(credential, pending))))
    case NotMember =>
      if binding.member !in s.relay.ended then None
      else Some(s.(process := if pending then Starting(binding, ConfirmPending) else Idle))
    case _ => Some(s.(process := Idle))
  }

  function StartStepOf(s: State, a: BootAction): Option<State>
    requires s.process.Starting?
  {
    var binding := s.process.binding;
    match (a, s.process.start)
    case (ReadJournal, LoadJournal) => Some(s.(process := JournalRead(s, binding)))
    case (FirstAnswer(reply), FirstHeartbeat(c, pending)) => FirstAnswered(s, binding, c, pending, reply)
    case (StartResumed(reply), StartResume(c, pending)) =>
      if reply == Success then
        var renewed := Credential(binding.member, s.relay.nextSerial);
        Some(s.(relay := s.relay.(nextSerial := s.relay.nextSerial + 1),
                process := Starting(binding, PersistResumed(renewed, pending))))
      else Some(s.(process := Idle))
    case (StartPersisted(io), PersistResumed(renewed, pending)) =>
      Some(s.(disk := s.disk.(credential := Written(io, s.disk.credential, Some(renewed))),
              process := if io != Done then Idle
                         else if pending then Starting(binding, DropIntent(renewed, 1))
                         else Live(NewRuntime(binding, renewed, 1))))
    case (IntentDropped(io), DropIntent(c, generation)) =>
      Some(s.(disk := s.disk.(journal := Written(io, s.disk.journal, NoJournal)),
              process := if io == Done then Live(NewRuntime(binding, c, generation)) else Idle))
    case (ConfirmIssueFails, ConfirmPending) => Some(s.(process := Idle))
    case (PendingConfirmed(io), ConfirmPending) =>
      Some(s.(disk := s.disk.(journal := Written(io, s.disk.journal, Confirmed(binding))),
              process := if io == Done then Starting(binding, StartCleanup(ClearCredential)) else Idle))
    case (CleanStart(io), StartCleanup(at)) =>
      var next := AfterClean(at, io);
      Some(s.(disk := CleanDisk(s.disk, at, io),
              process := if next.Some? then Starting(binding, StartCleanup(next.value)) else Idle))
    case _ => None
  }

  function OrphanStepOf(s: State, a: BootAction): Option<State> {
    match (a, s.process)
    case (OrphanJournal, OrphanRead) =>
      Some(s.(process :=
        if s.disk.profile.Some? || !s.disk.journal.Confirmed? then Idle
        else OrphanCleanup(s.disk.journal.binding, ClearCredential)))
    case (CleanOrphan(io), OrphanCleanup(binding, at)) =>
      var next := AfterClean(at, io);
      Some(s.(disk := CleanDisk(s.disk, at, io),
              process := if next.Some? then OrphanCleanup(binding, next.value) else Idle))
    case _ => None
  }

  function JoinStepOf(s: State, a: BootAction): Option<State>
    requires s.process.Joining?
  {
    match (a, s.process.join)
    case (JoinAnswer(reply, squad), JoinCall) =>
      var relay := s.relay.(nextMember := s.relay.nextMember + 1, nextSerial := s.relay.nextSerial + 1);
      if reply == Success then
        var member := s.relay.nextMember;
        Some(s.(relay := relay, process := Joining(StoreCredential(Binding(squad, member),
                                                                   Credential(member, s.relay.nextSerial)))))
      else Some(s.(relay := relay, process := Idle))
    case (CredentialStored(io), StoreCredential(binding, c)) =>
      Some(s.(disk := s.disk.(credential := Written(io, s.disk.credential, Some(c))),
              process := if io == Done then Joining(StoreProfile(binding, c)) else Idle))
    case (ProfileStored(io), StoreProfile(binding, c)) =>
      Some(s.(disk := s.disk.(profile := Written(io, s.disk.profile, Some(binding))),
              process := if io == Done then Starting(binding, LoadJournal) else Joining(ScrubCredential(binding, c))))
    case (Scrub(io), ScrubCredential(_, _)) =>
      Some(s.(disk := s.disk.(credential := Written(io, s.disk.credential, None)), process := Idle))
    case _ => None
  }

  function BootStep(s: State, a: BootAction): Option<State> {
    match a
    case BeginStart(binding) =>
      if !LockFree(s.process) then None
      else if s.disk.profile == Some(binding) then Some(TakeLock(s, Starting(binding, LoadJournal)))
      else Some(TakeLock(s, Idle))
    case BeginOrphan => if !LockFree(s.process) then None else Some(TakeLock(s, OrphanRead))
    case BeginJoin =>
      if !LockFree(s.process) then None
      else if s.disk.profile.Some? || s.disk.credential.Some? then Some(TakeLock(s, Idle))
      else Some(TakeLock(s, Joining(JoinCall)))
    case _ =>
      match s.process
      case Starting(_, _) => StartStepOf(s, a)
      case Joining(_) => JoinStepOf(s, a)
      case _ => OrphanStepOf(s, a)
  }

  // --- the whole system --------------------------------------------------------------------

  function CallStep(w: World, c: Call): Option<World> {
    match c
    case ASend(send) => OnRuntime(w, SendStep(w.rt, send))
    case AReport(report) => OnRuntime(w, ReportStep(w.rt, report))
    case ARotation(rotation) => RotationStepOf(w, rotation)
    case ALeave(leave) => LeaveStepOf(w, leave)
    case AShutdown(shutdown) => OnRuntime(w, ShutdownStepOf(w.rt, shutdown))
  }

  function HolderStep(s: State, c: Call): Option<State> {
    if !s.process.Live? then None
    else match CallStep(World(s.disk, s.relay, s.process.runtime), c)
      case None => None
      case Some(w) => Some(s.(disk := w.disk, relay := w.relay, process := Live(w.rt)))
  }

  function ReleasedStep(s: State, index: nat, c: Call): Option<State> {
    if index >= |s.released| then None
    else match CallStep(World(s.disk, s.relay, s.released[index]), c)
      case None => None
      case Some(w) => Some(s.(disk := w.disk, relay := w.relay, released := s.released[index := w.rt]))
  }

  // A dropped handle whose owned tasks all ended.
  predicate Reaped(rt: Runtime) {
    && rt.control.shutdownRequested && rt.control.leave == NoLeave
    && rt.sends.active == map[] && rt.reports.active == {} && OwnershipFree(rt.beat)
  }

  function Step(s: State, a: Action): Option<State> {
    match a
    case ApplyLeave(m) =>
      if m !in s.relay.leaveRequests then None
      else Some(s.(relay := s.relay.(ended := s.relay.ended + {m})))
    case EndMembership(m) =>
      if m >= s.relay.nextMember then None
      else Some(s.(relay := s.relay.(ended := s.relay.ended + {m})))
    case Crash => Some(s.(process := Idle))
    case DropHandle =>
      if s.process.Live? && Reaped(s.process.runtime) then Some(s.(process := Idle)) else None
    case Forget(index) =>
      if index >= |s.released| then None else Some(s.(released := s.released[..index] + s.released[index + 1..]))
    case Boot(boot) => BootStep(s, boot)
    case Do(call) => HolderStep(s, call)
    case DoReleased(index, call) => ReleasedStep(s, index, call)
  }

  function Run(s: State, actions: seq<Action>): Option<State>
    decreases |actions|
  {
    if actions == [] then Some(s)
    else
      var next := Step(s, actions[0]);
      if next.None? then None else Run(next.value, actions[1..])
  }
}
