/** What the answers of the relay and the disk lead to.

    An observer keeps notes of a run: what was answered, and how each durable write ended, in the start,
    the join, the leave and the heartbeat under way.  The notes are read off the actions; the theorems
    say that every start, leave and rotation ends as its notes demand.  */
module SessionAnswers {
  import opened Wrappers
  import opened SessionState
  import opened SessionSteps
  import opened SessionInvariant
  import opened SessionTheorems
  import opened SessionRecovery
  import opened SessionAdmission

  // `before` is the disk when `begin_leave` was asked, or when `start` read the journal; `gaveUp` says
  // that the sends could not be drained or a record could not be issued.
  datatype LeaveNote = LeaveNote(
    before: Disk, intent: Option<Io>, reply: Option<Reply>, drop: Option<Io>, confirm: Option<Io>, gaveUp: bool)

  datatype StartNote = StartNote(
    before: Disk, first: Option<Reply>, resumed: Option<Reply>, persisted: Option<Io>, drop: Option<Io>, confirm: Option<Io>,
    gaveUp: bool)

  datatype BeatNote = BeatNote(beat: Option<Reply>, resumed: Option<Reply>, persisted: Option<Io>)

  datatype Notes = Notes(leave: LeaveNote, start: StartNote, beat: BeatNote, join: Option<Reply>)

  const NO_BEAT: BeatNote := BeatNote(None, None, None)

  function Leave(disk: Disk): LeaveNote { LeaveNote(disk, None, None, None, None, false) }

  function Start(disk: Disk): StartNote { StartNote(disk, None, None, None, None, None, false) }

  const BLANK: Notes := Notes(Leave(INITIAL.disk), Start(INITIAL.disk), NO_BEAT, None)

  function NoteLeave(n: LeaveNote, disk: Disk, a: LeaveAction): LeaveNote {
    match a
    case Enter => Leave(disk)
    case IntentStored(io) => n.(intent := Some(io))
    case LeaveAnswer(reply) => n.(reply := Some(reply))
    case RefusedDropped(io) => n.(drop := Some(io))
    case ConfirmedStored(io) => n.(confirm := Some(io))
    case SendsTimeout | IssueIntentFails | IssueConfirmedFails => n.(gaveUp := true)
    case _ => n
  }

  function NoteBeat(n: BeatNote, c: Call): BeatNote {
    match c
    case ARotation(SchedulerGate) => NO_BEAT
    case AReport(EnterGate(_)) => NO_BEAT
    case ARotation(HeartbeatAnswer(reply)) => n.(beat := Some(reply))
    case ARotation(ResumeAnswer(reply)) => n.(resumed := Some(reply))
    case ARotation(Persist(io)) => n.(persisted := Some(io))
    case _ => n
  }

  function NoteStart(n: StartNote, disk: Disk, a: BootAction): StartNote {
    match a
    case ReadJournal => Start(disk)
    case FirstAnswer(reply) => n.(first := Some(reply))
    case StartResumed(reply) => n.(resumed := Some(reply))
    case StartPersisted(io) => n.(persisted := Some(io))
    case IntentDropped(io) => n.(drop := Some(io))
    case PendingConfirmed(io) => n.(confirm := Some(io))
    case ConfirmIssueFails => n.(gaveUp := true)
    case _ => n
  }

  function NoteJoin(n: Option<Reply>, a: BootAction): Option<Reply> {
    match a
    case BeginJoin => None
    case JoinAnswer(reply, _) => Some(reply)
    case _ => n
  }

  // What the observer writes down; what is called on released handles is not its business.
  function Note(n: Notes, disk: Disk, a: Action): Notes {
    match a
    case Boot(boot) => n.(start := NoteStart(n.start, disk, boot), join := NoteJoin(n.join, boot))
    case Do(call) =>
      n.(beat := NoteBeat(n.beat, call), leave := if call.ALeave? then NoteLeave(n.leave, disk, call.leave) else n.leave)
    case _ => n
  }

  function NotesOf(n: Notes, s: State, actions: seq<Action>): Notes
    decreases |actions|
  {
    if actions == [] || Step(s, actions[0]).None? then n
    else NotesOf(Note(n, s.disk, actions[0]), Step(s, actions[0]).value, actions[1..])
  }

  predicate Refused(reply: Option<Reply>) { reply == Some(LeaseExpired) || reply == Some(OtherApi) }

  predicate Agreed(reply: Option<Reply>) { reply == Some(Success) || reply == Some(NotMember) }

  // --- what the notes say of the step under way --------------------------------------------

  ghost predicate LeaveHeard(n: LeaveNote, leave: LeaveStep) {
    match leave
    case NoLeave | DrainReports | EnterLeaving | LeftCleanup(_) => true
    case StopSends | DrainSends | AwaitGate | StoreIntent => n == Leave(n.before)
    case LeaveCall => n == Leave(n.before).(intent := Some(Done))
    case DropRefused => Refused(n.reply) && n == Leave(n.before).(intent := Some(Done), reply := n.reply)
    case ConfirmLeave => Agreed(n.reply) && n == Leave(n.before).(intent := Some(Done), reply := n.reply)
    case LeaveCleanup(_) | PublishLeft | ReapScheduler => Agreed(n.reply) && n.confirm == Some(Done)
    case RollbackStart | RollbackSends | RollbackReports | RollbackReady => RolledBack(n)
  }

  // The leave never reached the wire, or was refused and its intent withdrawn.
  ghost predicate RolledBack(n: LeaveNote) {
    || (n.reply.None? && (if n.intent.None? then n.gaveUp else n.intent != Some(Done)))
    || (n.intent == Some(Done) && Refused(n.reply) && n.drop == Some(Done))
  }

  ghost predicate BeatHeard(n: BeatNote, gate: Gate) {
    gate.ByRotator? ==>
      match gate.at
      case Entered | HeartbeatCall => n == NO_BEAT
      case ResumeCall => n == NO_BEAT.(beat := Some(LeaseExpired))
      case PersistFresh(_) => n == BeatNote(Some(LeaseExpired), Some(Success), None)
      case PublishFresh(_) => n == BeatNote(Some(LeaseExpired), Some(Success), Some(Done))
      case BackToReady => n == BeatNote(Some(LeaseExpired), Some(Success), Some(Done))
      case PublishFailure(lifecycle, health) => n.beat == Some(LeaseExpired) && Failed(n) && Failing(n) == (lifecycle, health)
  }

  // The resume was answered with something else than a session, or its session could not be persisted.
  ghost predicate Failed(n: BeatNote) {
    && n.resumed.Some?
    && (n.resumed == Some(Success) ==> n.persisted.Some? && n.persisted != Some(Done))
  }

  // Where a resume that did not go through must leave the session.
  function Failing(n: BeatNote): (Lifecycle, Health) {
    if n.resumed == Some(Unresolved) then (OutcomeUnknown, UnknownOutcome)
    else if n.resumed == Some(Success) then (RotationFailed, FailedRotation)
    else (Ready, Degraded)
  }

  ghost predicate StartHeard(n: StartNote, step: StartStep) {
    match step
    case LoadJournal => true
    case FirstHeartbeat(_, _) => n == Start(n.before)
    case StartResume(_, _) => n == Start(n.before).(first := Some(LeaseExpired))
    case PersistResumed(_, _) => n == Start(n.before).(first := Some(LeaseExpired), resumed := Some(Success))
    case DropIntent(_, generation) =>
      if generation == 0 then n == Start(n.before).(first := Some(Success))
      else n == Start(n.before).(first := Some(LeaseExpired), resumed := Some(Success), persisted := Some(Done))
    case ConfirmPending => n == Start(n.before).(first := Some(NotMember))
    case StartCleanup(_) =>
      n == Start(n.before) || n == Start(n.before).(first := Some(NotMember), confirm := Some(Done))
  }

  ghost predicate Heard(n: Notes, process: Process) {
    match process
    case Starting(_, step) => StartHeard(n.start, step)
    case Joining(step) => !step.JoinCall? ==> n.join == Some(Success)
    case Live(rt) => LeaveHeard(n.leave, rt.control.leave) && BeatHeard(n.beat, rt.gate)
    case _ => true
  }

  lemma LeaveStoreHears(n: LeaveNote, w: World, a: LeaveAction)
    requires LeaveHeard(n, w.rt.control.leave) && LeaveDurableStep(w, a).Some?
    ensures LeaveHeard(NoteLeave(n, w.disk, a), LeaveDurableStep(w, a).value.rt.control.leave)
  {
  }

  lemma LeaveMemoryHears(n: LeaveNote, w: World, a: LeaveAction)
    requires LeaveHeard(n, w.rt.control.leave) && LeaveMemoryStep(w.rt, a).Some?
    ensures LeaveHeard(NoteLeave(n, w.disk, a), LeaveMemoryStep(w.rt, a).value.control.leave)
  {
  }

  lemma LeaveKeepsBeat(n: BeatNote, w: World, a: LeaveAction)
    requires BeatHeard(n, w.rt.gate) && LeaveStepOf(w, a).Some?
    ensures BeatHeard(n, LeaveStepOf(w, a).value.rt.gate)
  {
  }

  lemma LeaveHears(n: Notes, w: World, a: LeaveAction)
    requires LeaveHeard(n.leave, w.rt.control.leave) && BeatHeard(n.beat, w.rt.gate) && LeaveStepOf(w, a).Some?
    ensures var rt := LeaveStepOf(w, a).value.rt;
            LeaveHeard(NoteLeave(n.leave, w.disk, a), rt.control.leave) && BeatHeard(n.beat, rt.gate)
  {
    LeaveKeepsBeat(n.beat, w, a);
    if a.IntentStored? || a.LeaveAnswer? || a.RefusedDropped? || a.ConfirmedStored? || a.Clean? { LeaveStoreHears(n.leave, w, a); }
    else { LeaveMemoryHears(n.leave, w, a); }
  }

  lemma RotationHears(n: Notes, w: World, a: RotationAction)
    requires BeatHeard(n.beat, w.rt.gate) && RotationStepOf(w, a).Some?
    ensures var rt := RotationStepOf(w, a).value.rt;
            BeatHeard(NoteBeat(n.beat, ARotation(a)), rt.gate) && rt.control.leave == w.rt.control.leave
  {
  }

  lemma CallHears(n: Notes, w: World, c: Call)
    requires LeaveHeard(n.leave, w.rt.control.leave) && BeatHeard(n.beat, w.rt.gate) && CallStep(w, c).Some?
    ensures var rt := CallStep(w, c).value.rt;
            var n' := Note(n, w.disk, Do(c));
            LeaveHeard(n'.leave, rt.control.leave) && BeatHeard(n'.beat, rt.gate)
  {
    match c
    case ALeave(leave) => LeaveHears(n, w, leave);
    case ARotation(rotation) => RotationHears(n, w, rotation);
    case _ =>
  }

  lemma BootHears(n: Notes, s: State, a: BootAction)
    requires Heard(n, s.process) && BootStep(s, a).Some?
    ensures Heard(Note(n, s.disk, Boot(a)), BootStep(s, a).value.process)
  {
  }

  lemma HeardStep(n: Notes, s: State, a: Action)
    requires Heard(n, s.process) && Step(s, a).Some?
    ensures Heard(Note(n, s.disk, a), Step(s, a).value.process)
  {
    match a
    case Boot(boot) => BootHears(n, s, boot);
    case Do(call) => CallHears(n, World(s.disk, s.relay, s.process.runtime), call);
    case _ =>
  }

  lemma {:induction false} HeardRun(n: Notes, s: State, actions: seq<Action>)
    requires Heard(n, s.process) && Run(s, actions).Some?
    ensures Heard(NotesOf(n, s, actions), Run(s, actions).value.process)
    decreases |actions|
  {
    if actions != [] {
      HeardStep(n, s, actions[0]);
      HeardRun(Note(n, s.disk, actions[0]), Step(s, actions[0]).value, actions[1..]);
    }
  }

  // --- rotation ----------------------------------------------------------------------------

  ghost function HealthAfter(reply: Reply): Health {
    match reply
    case Success => Healthy
    case Unresolved => UnknownOutcome
    case _ => Degraded
  }

  // What one step of a heartbeat or rotation makes of lifecycle, health and credential.
  ghost predicate BeatFollows(n: BeatNote, rt: Runtime, a: RotationAction, rt': Runtime) {
    var lifecycle, lifecycle' := rt.control.lifecycle, rt'.control.lifecycle;
    match a
    case HeartbeatAnswer(reply) =>
      if lifecycle != Ready then lifecycle' == lifecycle && rt'.shared == rt.shared
      else if reply == LeaseExpired then lifecycle' == Recovering && rt'.shared == rt.shared
      else lifecycle' == Ready && rt'.shared == rt.shared.(health := HealthAfter(reply))
    case Publish =>
      && n.resumed == Some(Success) && n.persisted == Some(Done)
      && lifecycle' == lifecycle && rt'.shared.health == Healthy
      && rt'.shared.generation == NextGeneration(rt.shared.generation)
    case Reready => n.resumed == Some(Success) && n.persisted == Some(Done) && lifecycle' == Ready && rt'.shared == rt.shared
    case PublishError =>
      && Failed(n)
      && (lifecycle', rt'.shared.health) == Failing(n)
      && rt'.shared == rt.shared.(health := rt'.shared.health)
    case CheckLifecycle =>  // a heartbeat goes out of a ready session alone
      && lifecycle' == lifecycle && rt'.shared == rt.shared && rt.gate.ByRotator?
      && rt'.gate == if lifecycle == Ready then ByRotator(rt.gate.who, HeartbeatCall) else Free
    case _ => lifecycle' == lifecycle && rt'.shared == rt.shared
  }

  // In every run every heartbeat and every rotation does to lifecycle, health and credential what the
  // answers so far demand: a resume with unknown outcome ends in `OutcomeUnknown`, a persist that
  // failed in `RotationFailed`, any other failed resume in `Ready` with degraded health, and nothing
  // but a persisted resume publishes.
  lemma {:induction false} RotationFollowsAnswers(actions: seq<Action>, a: RotationAction)
    requires Run(INITIAL, actions).Some? && Run(INITIAL, actions).value.process.Live?
    requires Step(Run(INITIAL, actions).value, Do(ARotation(a))).Some?
    ensures var s := Run(INITIAL, actions).value;
            var s' := Step(s, Do(ARotation(a))).value;
            && s'.process.Live?
            && BeatFollows(NotesOf(BLANK, INITIAL, actions).beat, s.process.runtime, a, s'.process.runtime)
  {
    var s := Run(INITIAL, actions).value;
    ReachableCore(actions);
    HeardRun(BLANK, INITIAL, actions);
    StepFollows(NotesOf(BLANK, INITIAL, actions).beat, World(s.disk, s.relay, s.process.runtime), a);
  }

  lemma StepFollows(n: BeatNote, w: World, a: RotationAction)
    requires MemoryInv(w.rt) && BeatHeard(n, w.rt.gate) && RotationStepOf(w, a).Some?
    ensures BeatFollows(n, w.rt, a, RotationStepOf(w, a).value.rt)
  {
  }

  // A resume transaction outlives the abort of the task that waits for it: its answer is still heard,
  // and its credential still stored, though never published.
  lemma {:induction false} AbortedResumeGoesOn(actions: seq<Action>)
    requires Run(INITIAL, actions).Some? && Run(INITIAL, actions).value.process.Live?
    requires var rt := Run(INITIAL, actions).value.process.runtime;
             rt.beat.running && rt.beat.cancelled && rt.gate.ByRotator? && rt.gate.who == Scheduler
    ensures var s := Run(INITIAL, actions).value;
            var next := Step(s, Do(ARotation(AbortScheduler)));
            && next.Some? && next.value.process.Live?
            && var rt, rt' := s.process.runtime, next.value.process.runtime;
               && rt'.gate == Free && !rt'.beat.running && rt'.shared == rt.shared && next.value.disk == s.disk
               && rt'.beat.orphan == (match rt.gate.at
                                      case ResumeCall => OrphanCall
                                      case PersistFresh(c) => OrphanPersist(c)
                                      case _ => rt.beat.orphan)
  {
    ReachableCore(actions);
  }

  // What such a transaction does: a success is stored and nothing else is, and nobody's memory changes.
  lemma OrphanOnlyStores(w: World, a: RotationAction)
    requires RotationStepOf(w, a).Some? && (a.OrphanAnswer? || a.OrphanStore?)
    ensures var w' := RotationStepOf(w, a).value;
            && w'.rt == w.rt.(beat := w.rt.beat.(orphan := w'.rt.beat.orphan))
            && (a.OrphanAnswer? ==> w'.disk == w.disk && (w'.rt.beat.orphan.OrphanPersist? <==> a.reply == Success))
            && (a.OrphanStore? ==>
                  && w'.rt.beat.orphan == NoOrphan
                  && w'.disk == if a.io == FailedBefore then w.disk else w.disk.(credential := Some(w.rt.beat.orphan.renewed)))
  {
  }

  // Steps of one handle and of everybody beside it, as long as it holds the lock.
  ghost predicate SameHolder(actions: seq<Action>) {
    forall i :: 0 <= i < |actions| ==> Beside(actions[i])
  }

  ghost predicate Beside(a: Action) {
    !a.Crash? && !a.DropHandle? && !a.Boot?
  }

  // A handle that has lost track of its credential, and has no send on the wire.
  ghost predicate Halted(s: State, lifecycle: Lifecycle) {
    && s.process.Live? && s.process.runtime.control.lifecycle == lifecycle
    && (forall id :: id in s.process.runtime.sends.active ==> !s.process.runtime.sends.active[id].OnWire?)
  }

  lemma HaltedSend(rt: Runtime, a: SendAction)
    requires SendStep(rt, a).Some? && (rt.control.lifecycle == OutcomeUnknown || rt.control.lifecycle == RotationFailed)
    requires forall id :: id in rt.sends.active ==> !rt.sends.active[id].OnWire?
    ensures var rt' := SendStep(rt, a).value;
            && rt'.control == rt.control
            && (forall id :: id in rt'.sends.active ==> !rt'.sends.active[id].OnWire?)
  {
  }

  lemma HaltedOther(w: World, c: Call)
    requires MemoryInv(w.rt) && CallStep(w, c).Some? && !c.ASend?
    requires w.rt.control.lifecycle == OutcomeUnknown || w.rt.control.lifecycle == RotationFailed
    ensures var rt := CallStep(w, c).value.rt;
            rt.control.lifecycle == w.rt.control.lifecycle && rt.sends.active == w.rt.sends.active
  {
  }

  lemma HaltedCall(w: World, c: Call)
    requires MemoryInv(w.rt) && CallStep(w, c).Some?
    requires w.rt.control.lifecycle == OutcomeUnknown || w.rt.control.lifecycle == RotationFailed
    requires forall id :: id in w.rt.sends.active ==> !w.rt.sends.active[id].OnWire?
    ensures var rt := CallStep(w, c).value.rt;
            && rt.control.lifecycle == w.rt.control.lifecycle
            && (forall id :: id in rt.sends.active ==> !rt.sends.active[id].OnWire?)
  {
    if c.ASend? { HaltedSend(w.rt, c.send); } else { HaltedOther(w, c); }
  }

  lemma HaltedStep(s: State, lifecycle: Lifecycle, a: Action)
    requires Core(s) && Halted(s, lifecycle) && (lifecycle == OutcomeUnknown || lifecycle == RotationFailed)
    requires Beside(a) && Step(s, a).Some?
    ensures Halted(Step(s, a).value, lifecycle)
  {
    if a.Do? { HaltedCall(World(s.disk, s.relay, s.process.runtime), a.call); }
  }

  lemma {:induction false} HaltedRun(s: State, lifecycle: Lifecycle, actions: seq<Action>)
    requires Core(s) && Halted(s, lifecycle) && (lifecycle == OutcomeUnknown || lifecycle == RotationFailed)
    requires SameHolder(actions) && Run(s, actions).Some?
    ensures Halted(Run(s, actions).value, lifecycle)
    decreases |actions|
  {
    if actions != [] {
      assert Beside(actions[0]);
      StepKeepsCore(s, actions[0]);
      HaltedStep(s, lifecycle, actions[0]);
      HaltedRun(Step(s, actions[0]).value, lifecycle, actions[1..]);
    }
  }

  // Once a rotation with unknown outcome, or one that could not be persisted, has been published, the
  // handle stays in that state and never again puts a send on the wire.
  lemma {:induction false} FailedRotationHalts(actions: seq<Action>, after: seq<Action>)
    requires Run(INITIAL, actions).Some? && Run(INITIAL, actions).value.process.Live?
    requires Step(Run(INITIAL, actions).value, Do(ARotation(PublishError))).Some?
    requires NotesOf(BLANK, INITIAL, actions).beat.resumed in {Some(Success), Some(Unresolved)}
    requires Run(Step(Run(INITIAL, actions).value, Do(ARotation(PublishError))).value, after).Some? && SameHolder(after)
    ensures var s' := Step(Run(INITIAL, actions).value, Do(ARotation(PublishError))).value;
            Halted(Run(s', after).value,
                   if NotesOf(BLANK, INITIAL, actions).beat.resumed == Some(Unresolved) then OutcomeUnknown else RotationFailed)
  {
    var s := Run(INITIAL, actions).value;
    var s' := Step(s, Do(ARotation(PublishError))).value;
    RotationFollowsAnswers(actions, PublishError);
    ReachableCore(actions);
    StepKeepsCore(s, Do(ARotation(PublishError)));
    forall id | id in s'.process.runtime.sends.active ensures !s'.process.runtime.sends.active[id].OnWire? {
      assert SendInv(id, s.process.runtime.sends.active[id], s.process.runtime.shared, s.process.runtime.gate);
    }
    HaltedRun(s', s'.process.runtime.control.lifecycle, after);
  }

  // A send goes on the wire only from a handle that is healthy, ready or leaving, and at the
  // generation the send was admitted with; and then it does.
  lemma {:induction false} DispatchNeedsHealth(actions: seq<Action>, id: nat)
    requires Run(INITIAL, actions).Some? && Run(INITIAL, actions).value.process.Live?
    requires id in Run(INITIAL, actions).value.process.runtime.sends.active
    requires Run(INITIAL, actions).value.process.runtime.sends.active[id].Gated?
    ensures var s := Run(INITIAL, actions).value;
            var rt := s.process.runtime;
            var next := Step(s, Do(ASend(Recheck(id))));
            && next.Some? && next.value.process.Live?
            && var active := next.value.process.runtime.sends.active;
               (id in active && active[id].OnWire? <==>
                  && rt.shared.health == Healthy && rt.control.lifecycle in {Ready, Leaving}
                  && rt.sends.active[id].generation == rt.shared.generation)
  {
    ReachableCore(actions);
  }

  // --- leave -------------------------------------------------------------------------------

  // The disk as the notes have it.
  ghost function RolledBackDisk(n: LeaveNote, b: Binding): Disk {
    if n.intent == Some(FailedAfter) then n.before.(journal := Intent(b))
    else if n.intent == Some(Done) then n.before.(journal := NoJournal)
    else n.before
  }

  ghost predicate LeaveSeen(n: LeaveNote, leave: LeaveStep, b: Binding, disk: Disk) {
    match leave
    case StopSends | DrainSends | AwaitGate | StoreIntent => disk == n.before
    case LeaveCall | DropRefused | ConfirmLeave => disk == n.before.(journal := Intent(b))
    case RollbackStart | RollbackSends | RollbackReports | RollbackReady => disk == RolledBackDisk(n, b)
    case _ => true
  }

  ghost predicate StartSeen(n: StartNote, b: Binding, step: StartStep, disk: Disk) {
    match step
    case FirstHeartbeat(_, _) => disk == n.before
    case StartResume(_, _) => disk == n.before
    case PersistResumed(_, _) => disk == n.before
    case ConfirmPending => disk == n.before
    case DropIntent(c, generation) => disk == if generation == 0 then n.before else n.before.(credential := Some(c))
    case StartCleanup(_) => n.before.journal == if n.first.None? then Confirmed(b) else Intent(b)
    case LoadJournal => true
  }

  ghost predicate Seen(n: Notes, s: State) {
    match s.process
    case Starting(b, step) => StartSeen(n.start, b, step, s.disk)
    case Live(rt) => LeaveSeen(n.leave, rt.control.leave, rt.binding, s.disk)
    case _ => true
  }

  ghost predicate Watched(n: Notes, s: State) {
    Inv(s) && Heard(n, s.process) && Seen(n, s)
  }

  lemma LeaveSees(n: LeaveNote, w: World, a: LeaveAction)
    requires LeaveHeard(n, w.rt.control.leave) && LeaveSeen(n, w.rt.control.leave, w.rt.binding, w.disk)
    requires LeaveStepOf(w, a).Some?
    ensures var w' := LeaveStepOf(w, a).value;
            LeaveSeen(NoteLeave(n, w.disk, a), w'.rt.control.leave, w'.rt.binding, w'.disk)
  {
  }

  lemma CallSees(n: Notes, w: World, c: Call)
    requires CoreWorld(w) && LeaveHeard(n.leave, w.rt.control.leave) && CallStep(w, c).Some?
    requires LeaveSeen(n.leave, w.rt.control.leave, w.rt.binding, w.disk)
    ensures var w' := CallStep(w, c).value;
            LeaveSeen(Note(n, w.disk, Do(c)).leave, w'.rt.control.leave, w'.rt.binding, w'.disk)
  {
    if c.ALeave? { LeaveSees(n.leave, w, c.leave); }
    else if LeavingStep(w.rt.control.leave) { LeaveIsAlone(w, c); CallRelay(w, c); }
    else { OthersLeaveLeave(w, c); }
  }

  lemma OthersLeaveLeave(w: World, c: Call)
    requires !c.ALeave? && CallStep(w, c).Some?
    ensures CallStep(w, c).value.rt.control.leave == w.rt.control.leave
  {
  }

  lemma StartSees(n: Notes, s: State, a: BootAction)
    requires Durable(s) && Heard(n, s.process) && Seen(n, s) && s.process.Starting? && StartStepOf(s, a).Some?
    ensures Seen(Note(n, s.disk, Boot(a)), StartStepOf(s, a).value)
  {
  }

  lemma BootSees(n: Notes, s: State, a: BootAction)
    requires Core(s) && Durable(s) && Heard(n, s.process) && Seen(n, s) && BootStep(s, a).Some?
    ensures Seen(Note(n, s.disk, Boot(a)), BootStep(s, a).value)
  {
    if s.process.Starting? && !(a.BeginStart? || a.BeginOrphan? || a.BeginJoin?) { StartSees(n, s, a); }
  }

  lemma WatchedStep(n: Notes, s: State, a: Action)
    requires Watched(n, s) && Step(s, a).Some? && !Trespassing(Step(s, a).value)
    ensures Watched(Note(n, s.disk, a), Step(s, a).value)
  {
    StepKeeps(s, a);
    HeardStep(n, s, a);
    match a
    case Boot(boot) => BootSees(n, s, boot);
    case Do(call) => CallSees(n, World(s.disk, s.relay, s.process.runtime), call);
    case DoReleased(index, call) => ReleasedIdles(s, index, call);
    case _ =>
  }

  lemma {:induction false} WatchedRun(n: Notes, s: State, actions: seq<Action>)
    requires Watched(n, s) && Run(s, actions).Some? && Peaceful(s, actions)
    ensures Watched(NotesOf(n, s, actions), Run(s, actions).value)
    decreases |actions|
  {
    if actions != [] {
      WatchedStep(n, s, actions[0]);
      WatchedRun(Note(n, s.disk, actions[0]), Step(s, actions[0]).value, actions[1..]);
    }
  }

  // The outcome is open: the session knows that it does not know.
  ghost predicate Open(s: State, disk: Disk) {
    && s.process.Live? && s.process.runtime.control.lifecycle == OutcomeUnknown
    && s.process.runtime.shared.health == UnknownOutcome && s.disk == disk
  }

  // The leave is undone: the session is ready and admits, unless a shutdown overtook it.
  ghost predicate GivenBack(s: State, disk: Disk) {
    && s.process.Live? && s.disk == disk
    && (|| Admitting(s.process.runtime)
        || (s.process.runtime.control.shutdownRequested && s.process.runtime.control.lifecycle == Leaving))
  }

  ghost predicate Left(s: State, b: Binding) {
    && s.process.Live? && s.process.runtime.control.lifecycle == Lifecycle.Left
    && s.process.runtime.shared.health == Stopped && s.process.runtime.beat.cancelled
    && b.member in s.relay.ended && Leftover(s.disk, b)
  }

  // How an accepted leave must have ended.
  ghost predicate LeaveFollows(n: LeaveNote, b: Binding, s: State) {
    var before, withIntent := n.before, n.before.(journal := Intent(b));
    match n.reply
    case None =>  // it never reached the wire
      && (if n.intent.None? then n.gaveUp else n.intent != Some(Done))
      && GivenBack(s, if n.intent == Some(FailedAfter) then withIntent else before)
    case Some(LeaseExpired) | Some(OtherApi) =>
      (match n.drop
       case None => false
       case Some(Done) => GivenBack(s, before.(journal := NoJournal))
       case Some(FailedBefore) => Open(s, withIntent)
       case Some(FailedAfter) => Open(s, before.(journal := NoJournal)))
    case Some(Mismatched) | Some(Unresolved) | Some(OtherFailure) => Open(s, withIntent)
    case Some(Success) | Some(NotMember) =>
      (match n.confirm
       case None => n.gaveUp && Open(s, withIntent)
       case Some(Done) => Left(s, b)
       case Some(FailedBefore) => Open(s, withIntent)
       case Some(FailedAfter) => Open(s, before.(journal := Confirmed(b))))
  }

  // One that is about to end.
  ghost predicate Ending(n: Notes, s: State, a: LeaveAction) {
    && Watched(n, s) && s.process.Live? && HolderStep(s, ALeave(a)).Some?
    && HolderStep(s, ALeave(a)).value.process.Live?
    && HolderStep(s, ALeave(a)).value.process.runtime.control.leave == NoLeave
  }

  lemma RollbackEnds(n: Notes, s: State, a: LeaveAction)
    requires Ending(n, s, a) && RollbackStep(s.process.runtime.control.leave)
    ensures LeaveFollows(NoteLeave(n.leave, s.disk, a), s.process.runtime.binding, HolderStep(s, ALeave(a)).value)
  {
    var w := World(s.disk, s.relay, s.process.runtime);
    RollbackMoves(w, a);
    RollbackIsRollback(w, a);
    GivenBackFollows(n.leave, s.process.runtime.binding, HolderStep(s, ALeave(a)).value);
  }

  lemma RollbackIsRollback(w: World, a: LeaveAction)
    requires RollbackStep(w.rt.control.leave) && LeaveStepOf(w, a).Some?
    ensures a == Rollback
  {
  }

  lemma GivenBackFollows(n: LeaveNote, b: Binding, s: State)
    requires RolledBack(n) && GivenBack(s, RolledBackDisk(n, b))
    ensures LeaveFollows(n, b, s)
  {
  }

  lemma AnswerEnds(n: Notes, s: State, a: LeaveAction)
    requires Ending(n, s, a) && (s.process.runtime.control.leave.LeaveCall? || s.process.runtime.control.leave.DropRefused?)
    ensures LeaveFollows(NoteLeave(n.leave, s.disk, a), s.process.runtime.binding, HolderStep(s, ALeave(a)).value)
  {
  }

  lemma ConfirmEnds(n: Notes, s: State, a: LeaveAction)
    requires Ending(n, s, a) && s.process.runtime.control.leave.ConfirmLeave?
    ensures LeaveFollows(NoteLeave(n.leave, s.disk, a), s.process.runtime.binding, HolderStep(s, ALeave(a)).value)
  {
  }

  lemma ReapEnds(n: Notes, s: State, a: LeaveAction)
    requires Ending(n, s, a) && s.process.runtime.control.leave.ReapScheduler?
    ensures LeaveFollows(NoteLeave(n.leave, s.disk, a), s.process.runtime.binding, HolderStep(s, ALeave(a)).value)
  {
  }

  lemma LeaveEnds(n: Notes, s: State, a: LeaveAction)
    requires Ending(n, s, a) && Acting(s.process.runtime.control.leave) && !s.process.runtime.control.leave.LeftCleanup?
    ensures LeaveFollows(NoteLeave(n.leave, s.disk, a), s.process.runtime.binding, HolderStep(s, ALeave(a)).value)
  {
    NoEndYet(World(s.disk, s.relay, s.process.runtime), a);
    match s.process.runtime.control.leave
    case LeaveCall | DropRefused => AnswerEnds(n, s, a);
    case ConfirmLeave => ConfirmEnds(n, s, a);
    case ReapScheduler => ReapEnds(n, s, a);
    case RollbackStart | RollbackSends | RollbackReports | RollbackReady => RollbackEnds(n, s, a);
    case _ =>
  }

  lemma NoEndYet(w: World, a: LeaveAction)
    requires LeaveStepOf(w, a).Some?
    ensures match w.rt.control.leave
            case StopSends | DrainSends | AwaitGate | StoreIntent | LeaveCleanup(_) | PublishLeft =>
              LeaveStepOf(w, a).value.rt.control.leave != NoLeave
            case _ => true
  {
  }

  // In every run without a trespasser, under every interleaving: when a leave that `begin_leave` let
  // through comes to its end, that end is the one its own answers and writes demand.
  lemma {:induction false} LeaveFollowsAnswers(actions: seq<Action>, a: Action)
    requires Run(INITIAL, actions).Some? && Peaceful(INITIAL, actions)
    requires var s := Run(INITIAL, actions).value;
             && s.process.Live? && Acting(s.process.runtime.control.leave) && !s.process.runtime.control.leave.LeftCleanup?
             && Step(s, a).Some? && !Trespassing(Step(s, a).value) && Over(Step(s, a).value)
    ensures var s := Run(INITIAL, actions).value;
            LeaveFollows(Note(NotesOf(BLANK, INITIAL, actions), s.disk, a).leave, s.process.runtime.binding, Step(s, a).value)
  {
    var s := Run(INITIAL, actions).value;
    WatchedRun(BLANK, INITIAL, actions);
    StepKeeps(s, a);
    EndsByLeave(s, a);
    LeaveEnds(NotesOf(BLANK, INITIAL, actions), s, a.call.leave);
  }

  lemma EndsByLeave(s: State, a: Action)
    requires s.process.Live? && s.process.runtime.control.leave != NoLeave && Step(s, a).Some? && Over(Step(s, a).value)
    ensures a.Do? && a.call.ALeave?
  {
    match a
    case Do(call) => if !call.ALeave? { OthersLeaveLeave(World(s.disk, s.relay, s.process.runtime), call); }
    case Boot(boot) => BootGoesLiveFromStart(s, boot);
    case _ =>
  }

  // --- start -------------------------------------------------------------------------------

  // The relay accepted the membership: a first heartbeat, or a resume whose credential was persisted.
  ghost predicate Accepted(n: StartNote) {
    || n.first == Some(Success)
    || (n.first == Some(LeaseExpired) && n.resumed == Some(Success) && n.persisted == Some(Done))
  }

  ghost predicate Up(n: StartNote, b: Binding, s: State) {
    && s.process.Live? && s.disk.credential.Some? && s.disk.credential.value.member == b.member
    && s.process.runtime == NewRuntime(b, s.disk.credential.value, if n.first == Some(Success) then 0 else 1)
    && s.disk == n.before.(journal := NoJournal, credential := s.disk.credential)
    && (n.first == Some(Success) ==> s.disk.credential == n.before.credential)
    && Fresh(s.process.runtime)
  }

  // A runtime as it comes up: ready, healthy, admitting, beating, and with nothing in flight.
  ghost predicate Fresh(rt: Runtime) {
    && Admitting(rt) && rt.shared.health == Healthy && rt.gate == Free && rt.beat == Beat(true, false, NoOrphan)
    && rt.sends.active == map[] && !rt.sends.closed && rt.reports.active == {} && !rt.reports.closed
    && rt.control.locked && !rt.control.shutdownRequested && rt.control.shutdown == NoShutdown
    && rt.shared.published == {(rt.shared.generation, rt.shared.credential)}
  }

  // How a start that got past the journal must have ended, short of a crash.
  ghost predicate StartFollows(n: StartNote, b: Binding, s: State) {
    var pending := n.before.journal == Intent(b);
    if Accepted(n) && (pending ==> n.drop == Some(Done)) then Up(n, b, s)
    else
      && s.process.Idle?
      && match n.first
         case None => n.before.journal == Confirmed(b) && Leftover(s.disk, b)
         case Some(NotMember) =>
           if !pending then s.disk == n.before
           else (match n.confirm
                 case Some(Done) => b.member in s.relay.ended && Leftover(s.disk, b)
                 case Some(FailedAfter) => s.disk == n.before.(journal := Confirmed(b))
                 case Some(FailedBefore) => s.disk == n.before
                 case None => n.gaveUp && s.disk == n.before)
         case Some(Success) =>
           n.drop.Some? && s.disk == n.before.(journal := if n.drop == Some(FailedAfter) then NoJournal else Intent(b))
         case Some(LeaseExpired) =>
           if n.resumed != Some(Success) || n.persisted == Some(FailedBefore) then n.resumed.Some? && s.disk == n.before
           else
             && (n.persisted == Some(FailedAfter) || n.drop.Some?)
             && s.disk.profile == n.before.profile
             && s.disk.credential.Some? && s.disk.credential.value.member == b.member
             && s.disk.journal == if n.drop == Some(FailedAfter) then NoJournal else n.before.journal
         case Some(_) => s.disk == n.before
  }

  // In every run without a trespasser: when a start comes to its end, it brings a runtime up exactly if
  // the relay accepted the membership and an open intent was durably withdrawn, and else leaves what its
  // own answers and writes demand.
  lemma {:induction false} StartFollowsAnswers(actions: seq<Action>, a: BootAction)
    requires Run(INITIAL, actions).Some? && Peaceful(INITIAL, actions)
    requires var s := Run(INITIAL, actions).value;
             && s.process.Starting? && !s.process.start.LoadJournal?
             && Step(s, Boot(a)).Some? && !Step(s, Boot(a)).value.process.Starting?
    ensures var s := Run(INITIAL, actions).value;
            StartFollows(Note(NotesOf(BLANK, INITIAL, actions), s.disk, Boot(a)).start, s.process.binding, Step(s, Boot(a)).value)
  {
    WatchedRun(BLANK, INITIAL, actions);
    StartEnds(NotesOf(BLANK, INITIAL, actions), Run(INITIAL, actions).value, a);
  }

  lemma StartEnds(n: Notes, s: State, a: BootAction)
    requires Watched(n, s) && s.process.Starting? && !s.process.start.LoadJournal?
    requires BootStep(s, a).Some? && !BootStep(s, a).value.process.Starting?
    ensures StartFollows(NoteStart(n.start, s.disk, a), s.process.binding, BootStep(s, a).value)
  {
    if s.process.start.StartCleanup? { CleanupEnds(n, s, a); }
    else if s.process.start.FirstHeartbeat? || s.process.start.StartResume? { AnswerEndsStart(n, s, a); }
    else { StoreEndsStart(n, s, a); }
  }

  lemma CleanupEnds(n: Notes, s: State, a: BootAction)
    requires Watched(n, s) && s.process.Starting? && s.process.start.StartCleanup?
    requires BootStep(s, a).Some? && !BootStep(s, a).value.process.Starting?
    ensures StartFollows(NoteStart(n.start, s.disk, a), s.process.binding, BootStep(s, a).value)
  {
    CleanDiskKeeps(s.disk, s.process.binding, s.process.start.at, a.io);
  }

  lemma AnswerEndsStart(n: Notes, s: State, a: BootAction)
    requires Watched(n, s) && s.process.Starting? && (s.process.start.FirstHeartbeat? || s.process.start.StartResume?)
    requires BootStep(s, a).Some? && !BootStep(s, a).value.process.Starting?
    ensures StartFollows(NoteStart(n.start, s.disk, a), s.process.binding, BootStep(s, a).value)
  {
  }

  lemma StoreEndsStart(n: Notes, s: State, a: BootAction)
    requires Watched(n, s) && s.process.Starting?
    requires s.process.start.PersistResumed? || s.process.start.DropIntent? || s.process.start.ConfirmPending?
    requires BootStep(s, a).Some? && !BootStep(s, a).value.process.Starting?
    ensures StartFollows(NoteStart(n.start, s.disk, a), s.process.binding, BootStep(s, a).value)
  {
  }

  // --- an intent withdrawn -----------------------------------------------------------------

  // In every run without a trespasser an intent is withdrawn, with its profile kept, only by a start
  // whose membership the relay accepted, or by a leave that the relay refused.
  lemma {:induction false} WithdrawnOnlyIfAnswered(actions: seq<Action>, a: Action)
    requires Run(INITIAL, actions).Some? && Peaceful(INITIAL, actions)
    requires var s := Run(INITIAL, actions).value;
             && Step(s, a).Some? && s.disk.journal.Intent? && Step(s, a).value.disk.journal == NoJournal
    ensures var s, n := Run(INITIAL, actions).value, NotesOf(BLANK, INITIAL, actions);
            && Step(s, a).value.disk == s.disk.(journal := NoJournal)
            && (|| (a.Boot? && s.process.Starting? && Accepted(n.start))
                || (a.Do? && s.process.Live? && s.process.runtime.control.leave == DropRefused && Refused(n.leave.reply)))
  {
    WatchedRun(BLANK, INITIAL, actions);
    Withdraws(NotesOf(BLANK, INITIAL, actions), Run(INITIAL, actions).value, a);
  }

  lemma Withdraws(n: Notes, s: State, a: Action)
    requires Watched(n, s) && Step(s, a).Some? && s.disk.journal.Intent? && Step(s, a).value.disk.journal == NoJournal
    ensures Step(s, a).value.disk == s.disk.(journal := NoJournal)
    ensures || (a.Boot? && s.process.Starting? && Accepted(n.start))
            || (a.Do? && s.process.Live? && s.process.runtime.control.leave == DropRefused && Refused(n.leave.reply))
  {
    match a
    case Boot(boot) => BootWithdraws(n, s, boot);
    case Do(call) => CallWithdraws(n, World(s.disk, s.relay, s.process.runtime), call);
    case DoReleased(index, call) => ReleasedIdles(s, index, call);
    case _ =>
  }

  lemma BootWithdraws(n: Notes, s: State, a: BootAction)
    requires Watched(n, s) && BootStep(s, a).Some? && s.disk.journal.Intent? && BootStep(s, a).value.disk.journal == NoJournal
    ensures BootStep(s, a).value.disk == s.disk.(journal := NoJournal) && s.process.Starting? && Accepted(n.start)
  {
  }

  lemma CallWithdraws(n: Notes, w: World, c: Call)
    requires CoreWorld(w) && DurableWorld(w) && LeaveHeard(n.leave, w.rt.control.leave) && CallStep(w, c).Some?
    requires w.disk.journal.Intent? && CallStep(w, c).value.disk.journal == NoJournal
    ensures CallStep(w, c).value.disk == w.disk.(journal := NoJournal)
    ensures w.rt.control.leave == DropRefused && Refused(n.leave.reply)
  {
  }

  // A join stores nothing before the relay gave it a membership.
  lemma {:induction false} JoinStoresOnlyIfAnswered(actions: seq<Action>)
    requires Run(INITIAL, actions).Some?
    requires var s := Run(INITIAL, actions).value; s.process.Joining? && !s.process.join.JoinCall?
    ensures NotesOf(BLANK, INITIAL, actions).join == Some(Success)
  {
    HeardRun(BLANK, INITIAL, actions);
  }
}
