/** The inductive invariant of the session supervisor and the proof that every step keeps it.

    It has two layers.  `Core` speaks about memory, the relay and whose cleanup it is, and holds in
    every run.  `Durable` ties the disk to whoever owns the profile, and holds in every run in which
    no handle goes on with a leave after somebody else has taken its lock (`Trespassing`).  */
module SessionInvariant {
  import opened Wrappers
  import opened SessionState
  import opened SessionSteps

  // --- durable cells -----------------------------------------------------------------------

  ghost predicate Bound(disk: Disk, binding: Binding) {
    && disk.profile == Some(binding)
    && disk.credential.Some?
    && disk.credential.value.member == binding.member
  }

  ghost predicate Gone(disk: Disk) {
    disk == Disk(None, None, NoJournal)
  }

  // What may be left of a confirmed leave of `binding`.
  ghost predicate Leftover(disk: Disk, binding: Binding) {
    || Gone(disk)
    || (disk.journal == Confirmed(binding) && (disk.profile.None? || disk.profile == Some(binding)))
  }

  ghost predicate Cleaning(disk: Disk, binding: Binding, at: CleanupStep) {
    && Leftover(disk, binding)
    && (at != ClearCredential ==> disk.credential.None?)
    && (at == RemoveJournal ==> disk.profile.None?)
  }

  // --- the relay and the disk --------------------------------------------------------------

  ghost predicate RelayInv(disk: Disk, relay: Relay) {
    && (disk.journal.Confirmed? ==> disk.journal.binding.member in relay.ended)
    && (disk.journal.Intent? ==> disk.journal.binding.member < relay.nextMember)
    && (disk.profile.Some? ==> disk.profile.value.member < relay.nextMember)
    && (forall m :: m in relay.ended || m in relay.leaveRequests ==> m < relay.nextMember)
  }

  ghost predicate IntentBound(disk: Disk) {
    disk.journal.Intent? ==> Bound(disk, disk.journal.binding)
  }

  // --- processes before a runtime exists ---------------------------------------------------

  ghost predicate StartCore(relay: Relay, binding: Binding, step: StartStep) {
    match step
    case LoadJournal => true
    case FirstHeartbeat(c, _) => c.member == binding.member
    case StartResume(c, _) => c.member == binding.member
    case PersistResumed(c, _) => c.member == binding.member
    case DropIntent(c, generation) => c.member == binding.member && generation <= 1
    case ConfirmPending => binding.member in relay.ended
    case StartCleanup(_) => binding.member in relay.ended
  }

  ghost predicate JoinCore(relay: Relay, step: JoinStep) {
    match step
    case JoinCall => true
    case StoreCredential(b, c) => c.member == b.member && b.member < relay.nextMember
    case StoreProfile(b, c) => c.member == b.member && b.member < relay.nextMember
    case ScrubCredential(b, c) => c.member == b.member && b.member < relay.nextMember
  }

  ghost predicate PendingIs(disk: Disk, binding: Binding, pending: bool) {
    disk.journal == if pending then Intent(binding) else NoJournal
  }

  ghost predicate StartDurable(disk: Disk, binding: Binding, step: StartStep) {
    match step
    case LoadJournal => disk.profile == Some(binding)
    case FirstHeartbeat(c, pending) =>
      Bound(disk, binding) && disk.credential == Some(c) && PendingIs(disk, binding, pending)
    case StartResume(c, pending) =>
      Bound(disk, binding) && disk.credential == Some(c) && PendingIs(disk, binding, pending)
    case PersistResumed(_, pending) => Bound(disk, binding) && PendingIs(disk, binding, pending)
    case DropIntent(c, _) => Bound(disk, binding) && disk.credential == Some(c) && disk.journal == Intent(binding)
    case ConfirmPending => Bound(disk, binding) && disk.journal == Intent(binding)
    case StartCleanup(at) => Cleaning(disk, binding, at)
  }

  ghost predicate JoinDurable(disk: Disk, step: JoinStep) {
    && !disk.journal.Intent?
    && match step
       case JoinCall => disk.profile.None? && disk.credential.None?
       case StoreCredential(b, c) => disk.profile.None? && disk.credential.None?
       case StoreProfile(b, c) => disk.profile.None? && disk.credential == Some(c)
       case ScrubCredential(b, c) => disk.credential == Some(c) && (disk.profile.Some? ==> disk.profile == Some(b))
  }

  // --- a runtime in memory -----------------------------------------------------------------

  // Steps of leave that run with the lifecycle at `Leaving`.
  ghost predicate LeavingStep(leave: LeaveStep) {
    !(leave.NoLeave? || leave.DrainReports? || leave.EnterLeaving? || leave.ReapScheduler? || leave.LeftCleanup?)
  }

  // Steps that `begin_leave` has let through.
  ghost predicate Acting(leave: LeaveStep) {
    !(leave.NoLeave? || leave.DrainReports? || leave.EnterLeaving?)
  }

  // Steps at which no report can be in flight.
  ghost predicate ReportFence(leave: LeaveStep) {
    !(leave.NoLeave? || leave.DrainReports? || leave.RollbackReady?)
  }

  // Steps that hold the heartbeat gate.
  ghost predicate GatedLeave(leave: LeaveStep) {
    || leave.StoreIntent? || leave.LeaveCall? || leave.DropRefused? || leave.ConfirmLeave?
    || leave.LeaveCleanup? || leave.PublishLeft? || leave.ReapScheduler?
  }

  // Steps at which no owned send can be in flight.
  ghost predicate SendFence(leave: LeaveStep) {
    leave.AwaitGate? || GatedLeave(leave)
  }

  ghost predicate RollbackStep(leave: LeaveStep) {
    leave.RollbackStart? || leave.RollbackSends? || leave.RollbackReports? || leave.RollbackReady?
  }

  // Steps after the confirmed record is durable.
  ghost predicate Confirming(control: Control) {
    control.leave.LeaveCleanup? || control.leave.PublishLeft? || control.lifecycle == Left
  }

  ghost predicate ControlInv(control: Control) {
    && (LeavingStep(control.leave) ==> control.lifecycle == Leaving)
    && (control.lifecycle == Leaving ==> LeavingStep(control.leave) || control.shutdownRequested)
    && (control.leave.ReapScheduler? || control.leave.LeftCleanup? ==> control.lifecycle == Left)
    && (!control.shutdown.NoShutdown? || !control.locked ==> control.shutdownRequested)
  }

  ghost predicate Rotating(at: RotationStep) {
    !at.Entered? && !at.HeartbeatCall?
  }

  ghost predicate RenewedIs(at: RotationStep, member: nat) {
    && (at.PersistFresh? ==> at.renewed.member == member)
    && (at.PublishFresh? ==> at.renewed.member == member)
  }

  // Rotation owns the lifecycle from the moment it is `Recovering`.
  ghost predicate GateInv(gate: Gate, lifecycle: Lifecycle, leave: LeaveStep, beat: Beat, reports: set<nat>, member: nat) {
    && (GatedLeave(leave) ==> gate == ByLeave)
    && (gate == ByLeave ==> GatedLeave(leave) || RollbackStep(leave))
    && (!beat.orphan.NoOrphan? ==> lifecycle == Recovering && !beat.running)
    && (beat.orphan.OrphanPersist? ==> beat.orphan.renewed.member == member)
    && (gate.ByRotator? ==>
          && (Rotating(gate.at) ==> lifecycle == Recovering && beat.orphan.NoOrphan?)
          && (gate.who.Scheduler? ==> beat.running)
          && (gate.who.Report? ==> gate.who.id in reports)
          && (gate.at.PublishFailure? ==> gate.at.lifecycle in {Ready, RotationFailed, OutcomeUnknown})
          && RenewedIs(gate.at, member))
  }

  // Shutdown steps after which the drain of sends, or of reports, was observed.
  ghost predicate SendsDrained(shutdown: ShutdownStep) {
    shutdown.CancelScheduler? || shutdown.ShutReap? || shutdown.ShutAwaitOperation?
  }

  ghost predicate ReportsDrained(shutdown: ShutdownStep) {
    shutdown.ShutStopSends? || shutdown.ShutDrainSends? || SendsDrained(shutdown)
  }

  ghost predicate SendsInv(sends: Sends, control: Control) {
    && (SendFence(control.leave) ==> sends.active == map[] && !sends.open)
    && (control.leave.DrainSends? ==> !sends.open)
    && (control.leave.RollbackReports? || control.leave.RollbackReady? ==> sends.open || sends.closed)
    && (sends.closed ==> !sends.open && control.shutdownRequested)
    && (!control.shutdown.NoShutdown? && !control.shutdown.CloseSends? ==> sends.closed)
    && (!control.locked || SendsDrained(control.shutdown) ==> sends.closed && sends.active == map[])
  }

  ghost predicate ReportsInv(reports: Reports, control: Control) {
    && (ReportFence(control.leave) ==> reports.active == {} && !reports.open)
    && (control.leave.DrainReports? ==> !reports.open)
    && |reports.active| <= 8
    && (control.leave.RollbackReady? ==> reports.open || reports.closed)
    && (reports.closed ==> !reports.open && control.shutdownRequested)
    && (control.shutdown.ShutDrainReports? ==> reports.closed)
    && (!control.locked || ReportsDrained(control.shutdown) ==> reports.closed && reports.active == {})
  }

  ghost predicate SharedInv(shared: Shared, member: nat) {
    && shared.generation <= U64_MAX
    && shared.credential.member == member
    && (shared.generation, shared.credential) in shared.published
    && (forall p :: p in shared.published ==> p.0 <= shared.generation)
    && (forall p, q :: p in shared.published && q in shared.published && p.0 == q.0 && p.0 < U64_MAX ==> p == q)
  }

  ghost predicate SendInv(id: nat, send: Send, shared: Shared, gate: Gate) {
    && (send.generation, send.credential) in shared.published
    && (!send.Owned? <==> gate == BySend(id))
    && (send.OnWire? ==> send.generation == shared.generation)
  }

  ghost predicate AuthorityInv(active: map<nat, Send>, shared: Shared, gate: Gate) {
    forall id :: id in active ==> SendInv(id, active[id], shared, gate)
  }

  // The heartbeat is told to stop before a cleanup, and before the lock is given up; a session that
  // has left says so.
  ghost predicate StopInv(health: Health, beat: Beat, control: Control) {
    && (control.leave.LeaveCleanup? || control.leave.PublishLeft? || control.leave.ReapScheduler? ==> beat.cancelled)
    && (!control.locked || control.shutdown.ShutReap? || control.shutdown.ShutAwaitOperation? ==> beat.cancelled)
    && (control.leave.ReapScheduler? ==> health == Stopped)
  }

  ghost predicate MemoryInv(rt: Runtime) {
    && StopInv(rt.shared.health, rt.beat, rt.control)
    && ControlInv(rt.control)
    && GateInv(rt.gate, rt.control.lifecycle, rt.control.leave, rt.beat, rt.reports.active, rt.binding.member)
    && SendsInv(rt.sends, rt.control)
    && ReportsInv(rt.reports, rt.control)
    && SharedInv(rt.shared, rt.binding.member)
    && AuthorityInv(rt.sends.active, rt.shared, rt.gate)
  }

  // A runtime confirms and cleans up only for a membership of its own that is over.
  ghost predicate Entitled(relay: Relay, rt: Runtime) {
    && rt.binding.member < relay.nextMember
    && (Confirming(rt.control) || rt.control.leave.ConfirmLeave? ==> rt.binding.member in relay.ended)
  }

  // A handle that gave up its lock: nothing of it runs but the calls still made on it.
  ghost predicate ReleasedInv(rt: Runtime) {
    MemoryInv(rt) && !rt.control.locked && OwnershipFree(rt.beat)
  }

  // --- what the disk holds while a runtime owns the profile ---------------------------------

  ghost predicate LeaveDurable(disk: Disk, b: Binding, control: Control) {
    if Confirming(control) then
      && Leftover(disk, b)
      && (control.leave.LeaveCleanup? ==> Cleaning(disk, b, control.leave.at))
      && (control.leave.LeftCleanup? ==> Cleaning(disk, b, control.leave.at))
    else
      && Bound(disk, b)
      && (disk.journal != NoJournal ==> disk.journal.binding == b)
      && (control.lifecycle != OutcomeUnknown ==> !disk.journal.Confirmed?)
      && (control.leave.LeaveCall? || control.leave.DropRefused? || control.leave.ConfirmLeave? ==>
            disk.journal == Intent(b))
  }

  ghost predicate RotationDurable(onDisk: Option<Credential>, published: Credential, at: RotationStep) {
    match at
    case Entered | HeartbeatCall => true
    case ResumeCall => onDisk == Some(published)
    case PersistFresh(_) => onDisk == Some(published)
    case PublishFresh(c) => onDisk == Some(c)
    case PublishFailure(lifecycle, _) => lifecycle == Ready ==> onDisk == Some(published)
    case BackToReady => onDisk == Some(published)
  }

  // A runtime that counts on the published credential being the durable one.
  ghost predicate Usable(control: Control) {
    !Confirming(control) && (control.lifecycle == Ready || control.lifecycle == Leaving)
  }

  ghost predicate CredentialDurable(onDisk: Option<Credential>, published: Credential, control: Control, gate: Gate) {
    && (Usable(control) ==> onDisk == Some(published))
    && (gate.ByRotator? ==> RotationDurable(onDisk, published, gate.at))
  }

  ghost predicate RuntimeDurable(disk: Disk, rt: Runtime) {
    && LeaveDurable(disk, rt.binding, rt.control)
    && CredentialDurable(disk.credential, rt.shared.credential, rt.control, rt.gate)
  }

  // --- the two layers ----------------------------------------------------------------------

  ghost predicate CoreProcess(relay: Relay, process: Process) {
    match process
    case Idle | OrphanRead => true
    case Starting(b, step) => b.member < relay.nextMember && StartCore(relay, b, step)
    case OrphanCleanup(b, _) => b.member in relay.ended
    case Joining(step) => JoinCore(relay, step)
    case Live(rt) => MemoryInv(rt) && Entitled(relay, rt)
  }

  ghost predicate ReleasedCore(relay: Relay, released: seq<Runtime>) {
    forall i :: 0 <= i < |released| ==> ReleasedInv(released[i]) && Entitled(relay, released[i])
  }

  ghost predicate Core(s: State) {
    RelayInv(s.disk, s.relay) && CoreProcess(s.relay, s.process) && ReleasedCore(s.relay, s.released)
  }

  ghost predicate DurableProcess(disk: Disk, process: Process) {
    match process
    case Idle | OrphanRead => true
    case Starting(b, step) => StartDurable(disk, b, step)
    case OrphanCleanup(b, at) => Cleaning(disk, b, at)
    case Joining(step) => JoinDurable(disk, step)
    case Live(rt) => RuntimeDurable(disk, rt)
  }

  ghost predicate Durable(s: State) {
    IntentBound(s.disk) && DurableProcess(s.disk, s.process)
  }

  // An accepted leave goes on for a handle whose lock has passed to somebody else.
  ghost predicate Trespassing(s: State) {
    exists i :: 0 <= i < |s.released| && Acting(s.released[i].control.leave)
  }

  ghost predicate Inv(s: State) {
    Core(s) && Durable(s) && !Trespassing(s)
  }

  ghost predicate CoreWorld(w: World) {
    RelayInv(w.disk, w.relay) && MemoryInv(w.rt) && Entitled(w.relay, w.rt)
  }

  ghost predicate DurableWorld(w: World) {
    IntentBound(w.disk) && RuntimeDurable(w.disk, w.rt)
  }

  // --- memory ------------------------------------------------------------------------------

  // Steps that do not publish, and do not take the gate from a send, keep the authority of sends.
  lemma AuthorityFrame(active: map<nat, Send>, shared: Shared, gate: Gate, shared': Shared, gate': Gate)
    requires AuthorityInv(active, shared, gate)
    requires shared'.generation == shared.generation && shared'.published == shared.published
    requires gate.BySend? || gate'.BySend? ==> gate' == gate
    ensures AuthorityInv(active, shared', gate')
  {
  }

  lemma AdmitCore(w: World, a: SendAction)
    requires CoreWorld(w) && SendStep(w.rt, a).Some? && (a.Reserve? || a.TakeGate?)
    ensures CoreWorld(w.(rt := SendStep(w.rt, a).value))
  {
  }

  lemma SendCore(w: World, a: SendAction)
    requires CoreWorld(w) && SendStep(w.rt, a).Some?
    ensures CoreWorld(w.(rt := SendStep(w.rt, a).value))
  {
    if a.Reserve? || a.TakeGate? { AdmitCore(w, a); }
    else if a.Recheck? { RecheckCore(w, a.id); }
  }

  lemma RecheckCore(w: World, id: nat)
    requires CoreWorld(w) && SendStep(w.rt, Recheck(id)).Some?
    ensures CoreWorld(w.(rt := SendStep(w.rt, Recheck(id)).value))
  {
  }

  lemma ReportCore(w: World, a: ReportAction)
    requires CoreWorld(w) && ReportStep(w.rt, a).Some?
    ensures CoreWorld(w.(rt := ReportStep(w.rt, a).value))
  {
  }

  lemma SchedulerCore(w: World, a: RotationAction)
    requires CoreWorld(w) && SchedulerStep(w.rt, a).Some?
    ensures CoreWorld(w.(rt := SchedulerStep(w.rt, a).value))
  {
  }

  lemma PublishCore(w: World)
    requires CoreWorld(w) && w.rt.gate.ByRotator? && RotatorMemoryStep(w.rt, Publish).Some?
    ensures CoreWorld(w.(rt := RotatorMemoryStep(w.rt, Publish).value))
  {
  }

  lemma RotatorCore(w: World, a: RotationAction)
    requires CoreWorld(w) && w.rt.gate.ByRotator? && RotatorMemoryStep(w.rt, a).Some? && !a.Publish?
    ensures CoreWorld(w.(rt := RotatorMemoryStep(w.rt, a).value))
  {
    var rt := RotatorMemoryStep(w.rt, a).value;
    AuthorityFrame(w.rt.sends.active, w.rt.shared, w.rt.gate, rt.shared, rt.gate);
  }

  lemma ResumeAnswerCore(w: World, reply: Reply)
    requires CoreWorld(w) && w.rt.gate.ByRotator? && ResumeStep(w, ResumeAnswer(reply)).Some?
    ensures CoreWorld(ResumeStep(w, ResumeAnswer(reply)).value)
  {
  }

  lemma PersistCore(w: World, io: Io)
    requires CoreWorld(w) && w.rt.gate.ByRotator? && ResumeStep(w, Persist(io)).Some?
    ensures CoreWorld(ResumeStep(w, Persist(io)).value)
  {
  }

  lemma OrphanedResumeCore(w: World, a: RotationAction)
    requires CoreWorld(w) && OrphanedResumeStep(w, a).Some?
    ensures CoreWorld(OrphanedResumeStep(w, a).value)
  {
  }

  lemma RotationCore(w: World, a: RotationAction)
    requires CoreWorld(w) && RotationStepOf(w, a).Some?
    ensures CoreWorld(RotationStepOf(w, a).value)
  {
    match a
    case SchedulerGate | SchedulerExit | AbortScheduler => SchedulerCore(w, a);
    case OrphanAnswer(_) | OrphanStore(_) => OrphanedResumeCore(w, a);
    case ResumeAnswer(reply) => ResumeAnswerCore(w, reply);
    case Persist(io) => PersistCore(w, io);
    case Publish => PublishCore(w);
    case _ => RotatorCore(w, a);
  }

  lemma DrainReportsCore(w: World, a: LeaveAction)
    requires CoreWorld(w) && LeaveMemoryStep(w.rt, a).Some?
    requires a.BeginLeave? || a.ReportsDrained? || a.ReportsTimeout?
    ensures CoreWorld(w.(rt := LeaveMemoryStep(w.rt, a).value))
  {
    var rt := LeaveMemoryStep(w.rt, a).value;
    AuthorityFrame(w.rt.sends.active, w.rt.shared, w.rt.gate, rt.shared, rt.gate);
  }

  lemma DrainSendsCore(w: World, a: LeaveAction)
    requires CoreWorld(w) && LeaveMemoryStep(w.rt, a).Some?
    requires a.SendsStopped? || a.SendsDrained? || a.SendsTimeout?
    ensures CoreWorld(w.(rt := LeaveMemoryStep(w.rt, a).value))
  {
    var rt := LeaveMemoryStep(w.rt, a).value;
    AuthorityFrame(w.rt.sends.active, w.rt.shared, w.rt.gate, rt.shared, rt.gate);
  }

  lemma EnterCore(w: World)
    requires CoreWorld(w) && w.rt.control.leave == EnterLeaving
    ensures CoreWorld(w.(rt := EnterLeave(w.rt)))
  {
  }

  lemma LeaveMemoryCore(w: World, a: LeaveAction)
    requires CoreWorld(w) && LeaveMemoryStep(w.rt, a).Some?
    requires a.GateTaken? || a.IssueIntentFails? || a.IssueConfirmedFails? || a.LeftPublished? || a.SchedulerReaped?
    ensures CoreWorld(w.(rt := LeaveMemoryStep(w.rt, a).value))
  {
  }

  lemma ReopenCore(w: World)
    requires CoreWorld(w) && (w.rt.control.leave == RollbackSends || w.rt.control.leave == RollbackReports)
    ensures CoreWorld(w.(rt := RollbackOf(w.rt).value))
  {
    var rt := RollbackOf(w.rt).value;
    AuthorityFrame(w.rt.sends.active, w.rt.shared, w.rt.gate, rt.shared, rt.gate);
  }

  lemma RollbackCore(w: World)
    requires CoreWorld(w) && (w.rt.control.leave == RollbackStart || w.rt.control.leave == RollbackReady)
    ensures CoreWorld(w.(rt := RollbackOf(w.rt).value))
  {
    var rt := RollbackOf(w.rt).value;
    AuthorityFrame(w.rt.sends.active, w.rt.shared, w.rt.gate, rt.shared, rt.gate);
  }

  lemma CleanLeaveCore(w: World, io: Io)
    requires CoreWorld(w) && w.rt.control.leave.LeaveCleanup?
    ensures CoreWorld(CleanLeave(w, io).value)
  {
    var rt := CleanLeave(w, io).value.rt;
    AuthorityFrame(w.rt.sends.active, w.rt.shared, w.rt.gate, rt.shared, rt.gate);
  }

  lemma CleanLeftCore(w: World, io: Io)
    requires CoreWorld(w) && w.rt.control.leave.LeftCleanup?
    ensures CoreWorld(CleanLeave(w, io).value)
  {
    var rt := CleanLeave(w, io).value.rt;
    AuthorityFrame(w.rt.sends.active, w.rt.shared, w.rt.gate, rt.shared, rt.gate);
  }

  lemma IntentCore(w: World, io: Io)
    requires CoreWorld(w) && w.rt.control.leave == StoreIntent
    ensures CoreWorld(LeaveDurableStep(w, IntentStored(io)).value)
  {
  }

  lemma AnswerCore(w: World, reply: Reply)
    requires CoreWorld(w) && w.rt.control.leave == LeaveCall && LeaveAnswered(w, reply).Some?
    ensures CoreWorld(LeaveAnswered(w, reply).value)
  {
  }

  lemma RefusedCore(w: World, io: Io)
    requires CoreWorld(w) && w.rt.control.leave == DropRefused
    ensures CoreWorld(LeaveDurableStep(w, RefusedDropped(io)).value)
  {
  }

  lemma ConfirmedCore(w: World, io: Io)
    requires CoreWorld(w) && w.rt.control.leave == ConfirmLeave
    ensures CoreWorld(LeaveDurableStep(w, ConfirmedStored(io)).value)
  {
  }

  lemma LeaveCore(w: World, a: LeaveAction)
    requires CoreWorld(w) && LeaveStepOf(w, a).Some?
    ensures CoreWorld(LeaveStepOf(w, a).value)
  {
    match a
    case Enter => EnterCore(w);
    case Rollback =>
      if w.rt.control.leave == RollbackSends || w.rt.control.leave == RollbackReports { ReopenCore(w); } else { RollbackCore(w); }
    case Clean(io) => if w.rt.control.leave.LeaveCleanup? { CleanLeaveCore(w, io); } else { CleanLeftCore(w, io); }
    case IntentStored(io) => IntentCore(w, io);
    case LeaveAnswer(reply) => AnswerCore(w, reply);
    case RefusedDropped(io) => RefusedCore(w, io);
    case ConfirmedStored(io) => ConfirmedCore(w, io);
    case GateTaken | IssueIntentFails | IssueConfirmedFails | LeftPublished | SchedulerReaped => LeaveMemoryCore(w, a);
    case SendsStopped | SendsDrained | SendsTimeout => DrainSendsCore(w, a);
    case _ => DrainReportsCore(w, a);
  }

  lemma ClosingCore(w: World)
    requires CoreWorld(w) && (w.rt.control.shutdown.CloseSends? || w.rt.control.shutdown.CloseReports?)
    ensures CoreWorld(w.(rt := AdvanceShutdown(w.rt).value))
  {
  }

  lemma DrainingCore(w: World)
    requires CoreWorld(w) && AdvanceShutdown(w.rt).Some?
    requires !w.rt.control.shutdown.CloseSends? && !w.rt.control.shutdown.CloseReports?
    requires !w.rt.control.shutdown.ShutAwaitOperation?
    ensures CoreWorld(w.(rt := AdvanceShutdown(w.rt).value))
  {
  }

  lemma ReleaseCore(w: World)
    requires CoreWorld(w) && AdvanceShutdown(w.rt).Some? && w.rt.control.shutdown.ShutAwaitOperation?
    ensures CoreWorld(w.(rt := AdvanceShutdown(w.rt).value))
  {
  }

  lemma ShutdownCore(w: World, a: ShutdownAction)
    requires CoreWorld(w) && ShutdownStepOf(w.rt, a).Some?
    ensures CoreWorld(w.(rt := ShutdownStepOf(w.rt, a).value))
  {
    if a.Advance? {
      if w.rt.control.shutdown.CloseSends? || w.rt.control.shutdown.CloseReports? { ClosingCore(w); }
      else if w.rt.control.shutdown.ShutAwaitOperation? { ReleaseCore(w); }
      else { DrainingCore(w); }
    }
  }

  // Every step of every call on any handle keeps the first layer, whoever owns the profile.
  lemma CallCore(w: World, c: Call)
    requires CoreWorld(w) && CallStep(w, c).Some?
    ensures CoreWorld(CallStep(w, c).value)
  {
    match c
    case ASend(send) => SendCore(w, send);
    case AReport(report) => ReportCore(w, report);
    case ARotation(rotation) => RotationCore(w, rotation);
    case ALeave(leave) => LeaveCore(w, leave);
    case AShutdown(shutdown) => ShutdownCore(w, shutdown);
  }

  lemma CallRelay(w: World, c: Call)
    requires CallStep(w, c).Some?
    ensures var w' := CallStep(w, c).value;
            w'.relay.nextMember == w.relay.nextMember && w'.relay.ended == w.relay.ended && w'.rt.binding == w.rt.binding
  {
  }

  // A released handle stays released, and none of its own tasks comes back.
  lemma StaysReleased(w: World, c: Call)
    requires ReleasedInv(w.rt) && CallStep(w, c).Some?
    ensures var rt := CallStep(w, c).value.rt; !rt.control.locked && OwnershipFree(rt.beat)
    ensures !c.ARotation?
  {
  }

  // --- the first layer is kept -------------------------------------------------------------

  lemma NewRuntimeCore(relay: Relay, b: Binding, c: Credential, generation: nat)
    requires b.member < relay.nextMember && c.member == b.member && generation <= 1
    ensures MemoryInv(NewRuntime(b, c, generation)) && Entitled(relay, NewRuntime(b, c, generation))
  {
  }

  lemma ReleasedGrows(relay: Relay, relay': Relay, released: seq<Runtime>)
    requires ReleasedCore(relay, released) && relay.nextMember <= relay'.nextMember && relay.ended <= relay'.ended
    ensures ReleasedCore(relay', released)
  {
  }

  lemma StartCoreKeeps(s: State, a: BootAction)
    requires Core(s) && s.process.Starting? && StartStepOf(s, a).Some?
    ensures Core(StartStepOf(s, a).value)
  {
    var s' := StartStepOf(s, a).value;
    if s'.process.Live? {
      var rt := s'.process.runtime;
      NewRuntimeCore(s'.relay, rt.binding, rt.shared.credential, rt.shared.generation);
    }
    ReleasedGrows(s.relay, s'.relay, s.released);
  }

  lemma BeginCore(s: State, a: BootAction)
    requires Core(s) && BootStep(s, a).Some? && (a.BeginStart? || a.BeginOrphan? || a.BeginJoin?)
    ensures Core(BootStep(s, a).value)
  {
    if s.process.Live? { assert ReleasedInv(s.process.runtime) && Entitled(s.relay, s.process.runtime); }
  }

  lemma JoinOrOrphanCore(s: State, a: BootAction)
    requires Core(s) && !s.process.Starting?
    requires !(a.BeginStart? || a.BeginOrphan? || a.BeginJoin?) && BootStep(s, a).Some?
    ensures Core(BootStep(s, a).value)
  {
    ReleasedGrows(s.relay, BootStep(s, a).value.relay, s.released);
  }

  lemma BootCore(s: State, a: BootAction)
    requires Core(s) && BootStep(s, a).Some?
    ensures Core(BootStep(s, a).value)
  {
    if a.BeginStart? || a.BeginOrphan? || a.BeginJoin? { BeginCore(s, a); }
    else if s.process.Starting? { StartCoreKeeps(s, a); }
    else { JoinOrOrphanCore(s, a); }
  }

  lemma RelayCore(s: State, m: nat)
    requires Core(s) && m < s.relay.nextMember
    ensures Core(s.(relay := s.relay.(ended := s.relay.ended + {m})))
  {
  }

  lemma HolderCore(s: State, c: Call)
    requires Core(s) && HolderStep(s, c).Some?
    ensures Core(HolderStep(s, c).value)
  {
    var w := World(s.disk, s.relay, s.process.runtime);
    CallCore(w, c);
    CallRelay(w, c);
    ReleasedGrows(s.relay, HolderStep(s, c).value.relay, s.released);
  }

  lemma ReleasedCoreKeeps(s: State, index: nat, c: Call)
    requires Core(s) && ReleasedStep(s, index, c).Some?
    ensures Core(ReleasedStep(s, index, c).value)
  {
    var w := World(s.disk, s.relay, s.released[index]);
    var s' := ReleasedStep(s, index, c).value;
    CallCore(w, c);
    CallRelay(w, c);
    StaysReleased(w, c);
    ReleasedGrows(s.relay, s'.relay, s.released);
  }

  // Every step of everybody keeps the first layer.
  lemma StepKeepsCore(s: State, a: Action)
    requires Core(s) && Step(s, a).Some?
    ensures Core(Step(s, a).value)
  {
    match a
    case ApplyLeave(m) => RelayCore(s, m);
    case EndMembership(m) => RelayCore(s, m);
    case Crash =>
    case DropHandle =>
    case Forget(_) =>
    case Boot(boot) => BootCore(s, boot);
    case Do(call) => HolderCore(s, call);
    case DoReleased(index, call) => ReleasedCoreKeeps(s, index, call);
  }

  // --- the disk ----------------------------------------------------------------------------

  // One step of the cleanup leaves a disk that the next step, or a later replay, may continue from.
  lemma CleanDiskKeeps(disk: Disk, b: Binding, at: CleanupStep, io: Io)
    requires IntentBound(disk) && Cleaning(disk, b, at)
    ensures IntentBound(CleanDisk(disk, at, io)) && Leftover(CleanDisk(disk, at, io), b)
    ensures AfterClean(at, io).Some? ==> Cleaning(CleanDisk(disk, at, io), b, AfterClean(at, io).value)
    ensures at == RemoveJournal && io == Done ==> Gone(CleanDisk(disk, at, io))
  {
  }

  lemma RotationDurableKeeps(w: World, a: RotationAction)
    requires CoreWorld(w) && DurableWorld(w) && RotationStepOf(w, a).Some?
    ensures DurableWorld(RotationStepOf(w, a).value)
  {
  }

  lemma LeaveBeginDurable(w: World, a: LeaveAction)
    requires CoreWorld(w) && DurableWorld(w) && LeaveMemoryStep(w.rt, a).Some?
    requires a.BeginLeave? || a.ReportsDrained? || a.ReportsTimeout? || a.Enter?
    ensures DurableWorld(w.(rt := LeaveMemoryStep(w.rt, a).value))
  {
  }

  lemma LeaveEndDurable(w: World, a: LeaveAction)
    requires CoreWorld(w) && DurableWorld(w) && LeaveMemoryStep(w.rt, a).Some?
    requires a.Rollback? || a.IssueConfirmedFails? || a.LeftPublished? || a.SchedulerReaped?
    ensures DurableWorld(w.(rt := LeaveMemoryStep(w.rt, a).value))
  {
  }

  lemma LeaveMemoryDurable(w: World, a: LeaveAction)
    requires CoreWorld(w) && DurableWorld(w) && LeaveMemoryStep(w.rt, a).Some?
    requires a.SendsStopped? || a.SendsDrained? || a.SendsTimeout? || a.GateTaken? || a.IssueIntentFails?
    ensures DurableWorld(w.(rt := LeaveMemoryStep(w.rt, a).value))
  {
  }

  lemma LeaveStoreDurable(w: World, a: LeaveAction)
    requires CoreWorld(w) && DurableWorld(w) && LeaveDurableStep(w, a).Some? && !a.Clean?
    ensures DurableWorld(LeaveDurableStep(w, a).value)
  {
  }

  lemma LeaveDurableKeeps(w: World, a: LeaveAction)
    requires CoreWorld(w) && DurableWorld(w) && LeaveStepOf(w, a).Some?
    ensures DurableWorld(LeaveStepOf(w, a).value)
  {
    match a
    case Clean(io) => CleanDiskKeeps(w.disk, w.rt.binding, w.rt.control.leave.at, io);
    case IntentStored(_) | LeaveAnswer(_) | RefusedDropped(_) | ConfirmedStored(_) => LeaveStoreDurable(w, a);
    case BeginLeave | ReportsDrained | ReportsTimeout | Enter => LeaveBeginDurable(w, a);
    case Rollback | IssueConfirmedFails | LeftPublished | SchedulerReaped => LeaveEndDurable(w, a);
    case _ => LeaveMemoryDurable(w, a);
  }

  lemma ShutdownDurable(w: World, a: ShutdownAction)
    requires DurableWorld(w) && ShutdownStepOf(w.rt, a).Some?
    ensures DurableWorld(w.(rt := ShutdownStepOf(w.rt, a).value))
  {
  }

  // Every step of the runtime that owns the profile keeps the disk in step with it.
  lemma CallDurable(w: World, c: Call)
    requires CoreWorld(w) && DurableWorld(w) && CallStep(w, c).Some?
    ensures DurableWorld(CallStep(w, c).value)
  {
    match c
    case ARotation(rotation) => RotationDurableKeeps(w, rotation);
    case ALeave(leave) => LeaveDurableKeeps(w, leave);
    case AShutdown(shutdown) => ShutdownDurable(w, shutdown);
    case ASend(_) | AReport(_) =>
  }

  // A released handle that `begin_leave` has not let through cannot touch disk or relay.
  lemma RefusedTouchesNothing(w: World, c: Call)
    requires ReleasedInv(w.rt) && !Acting(w.rt.control.leave) && CallStep(w, c).Some?
    ensures CallStep(w, c).value.disk == w.disk && CallStep(w, c).value.relay == w.relay
  {
    StaysReleased(w, c);
  }

  lemma NewRuntimeDurable(disk: Disk, b: Binding, c: Credential, generation: nat)
    requires Bound(disk, b) && disk.credential == Some(c) && disk.journal == NoJournal
    ensures RuntimeDurable(disk, NewRuntime(b, c, generation))
  {
  }

  lemma StartDurableKeeps(s: State, a: BootAction)
    requires Core(s) && Durable(s) && s.process.Starting? && StartStepOf(s, a).Some?
    ensures Durable(StartStepOf(s, a).value)
  {
    var s' := StartStepOf(s, a).value;
    if s.process.start.StartCleanup? {
      CleanDiskKeeps(s.disk, s.process.binding, s.process.start.at, a.io);
    } else if s'.process.Live? {
      var rt := s'.process.runtime;
      NewRuntimeDurable(s'.disk, rt.binding, rt.shared.credential, rt.shared.generation);
    }
  }

  lemma BootDurable(s: State, a: BootAction)
    requires Core(s) && Durable(s) && BootStep(s, a).Some?
    ensures Durable(BootStep(s, a).value)
  {
    if a.BeginStart? || a.BeginOrphan? || a.BeginJoin? {
    } else if s.process.Starting? {
      StartDurableKeeps(s, a);
    } else if s.process.OrphanCleanup? {
      CleanDiskKeeps(s.disk, s.process.binding, s.process.at, a.io);
    }
  }

  // Every step keeps both layers as long as nobody trespasses.
  lemma StepKeeps(s: State, a: Action)
    requires Inv(s) && Step(s, a).Some? && !Trespassing(Step(s, a).value)
    ensures Inv(Step(s, a).value)
  {
    StepKeepsCore(s, a);
    StepKeepsDurable(s, a);
  }

  lemma StepKeepsDurable(s: State, a: Action)
    requires Inv(s) && Step(s, a).Some?
    ensures Durable(Step(s, a).value)
  {
    match a
    case Boot(boot) => BootDurable(s, boot);
    case Do(call) => CallDurable(World(s.disk, s.relay, s.process.runtime), call);
    case DoReleased(index, call) => RefusedTouchesNothing(World(s.disk, s.relay, s.released[index]), call);
    case _ =>
  }
}
