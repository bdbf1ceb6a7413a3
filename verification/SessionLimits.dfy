/** Runs that leave the guarantees behind, and so show that their conditions are needed: a
    generation counter at its maximum, a handle used after its lock passed to somebody else, and
    power losses after a directory sync that failed or was never made.  */
module SessionLimits {
  import opened Wrappers
  import opened SessionState
  import opened SessionSteps
  import opened SessionInvariant
  import opened SessionTheorems
  import opened SessionTrespass
  import opened SessionRecovery
  import opened SessionPower

  ghost predicate Reaches(s: State, t: State) {
    exists actions :: Run(s, actions) == Some(t)
  }

  // One more step of a run.
  lemma Go(s: State, t: State, a: Action) returns (u: State)
    requires Reaches(s, t) && Step(t, a).Some?
    ensures u == Step(t, a).value && Reaches(s, u)
  {
    u := Step(t, a).value;
    var actions :| Run(s, actions) == Some(t);
    RunConcat(s, actions, [a]);
    assert [a][1..] == [] && Run(u, []) == Some(u);
  }

  lemma Begin(s: State)
    ensures Reaches(s, s)
  {
    assert Run(s, []) == Some(s);
  }

  // A step of the lock holder's leave that touches memory only.
  lemma GoLeave(s: State, t: State, a: LeaveAction) returns (u: State)
    requires Reaches(s, t) && t.process.Live? && LeaveMemoryStep(t.process.runtime, a).Some?
    requires !(a.IntentStored? || a.LeaveAnswer? || a.RefusedDropped? || a.ConfirmedStored? || a.Clean?)
    ensures Reaches(s, u) && u == t.(process := Live(LeaveMemoryStep(t.process.runtime, a).value))
  {
    u := Go(s, t, Do(ALeave(a)));
  }

  // The same on a released handle.
  lemma GoReleased(s: State, t: State, i: nat, a: LeaveAction) returns (u: State)
    requires Reaches(s, t) && i < |t.released| && LeaveMemoryStep(t.released[i], a).Some?
    requires !(a.IntentStored? || a.LeaveAnswer? || a.RefusedDropped? || a.ConfirmedStored? || a.Clean?)
    ensures Reaches(s, u) && u == t.(released := t.released[i := LeaveMemoryStep(t.released[i], a).value])
  {
    u := Go(s, t, DoReleased(i, ALeave(a)));
  }

  // A durable step of its leave, or the relay's answer.
  lemma GoStore(s: State, t: State, a: LeaveAction) returns (u: State)
    requires Reaches(s, t) && t.process.Live? && LeaveDurableStep(World(t.disk, t.relay, t.process.runtime), a).Some?
    ensures var w := LeaveDurableStep(World(t.disk, t.relay, t.process.runtime), a).value;
            Reaches(s, u) && u == t.(disk := w.disk, relay := w.relay, process := Live(w.rt))
  {
    u := Go(s, t, Do(ALeave(a)));
  }

  lemma GoRotation(s: State, t: State, a: RotationAction) returns (u: State)
    requires Reaches(s, t) && t.process.Live? && RotationStepOf(World(t.disk, t.relay, t.process.runtime), a).Some?
    ensures var w := RotationStepOf(World(t.disk, t.relay, t.process.runtime), a).value;
            Reaches(s, u) && u == t.(disk := w.disk, relay := w.relay, process := Live(w.rt))
  {
    u := Go(s, t, Do(ARotation(a)));
  }

  lemma GoShutdown(s: State, t: State) returns (u: State)
    requires Reaches(s, t) && t.process.Live? && AdvanceShutdown(t.process.runtime).Some?
    ensures Reaches(s, u) && u == t.(process := Live(AdvanceShutdown(t.process.runtime).value))
  {
    u := Go(s, t, Do(AShutdown(Advance)));
  }

  lemma GoJoin(s: State, t: State, a: BootAction) returns (u: State)
    requires Reaches(s, t) && t.process.Joining? && JoinStepOf(t, a).Some?
    requires a.JoinAnswer? || a.CredentialStored? || a.ProfileStored?
    ensures Reaches(s, u) && u == JoinStepOf(t, a).value
  {
    u := Go(s, t, Boot(a));
  }

  // --- generation saturation ---------------------------------------------------------------

  // A ready runtime at rest.
  ghost predicate Resting(t: State) {
    && t.process.Live?
    && t.process.runtime.gate == Free && t.process.runtime.beat.running
    && t.process.runtime.control.lifecycle == Ready
  }

  lemma Renew(s: State, t: State) returns (u: State)
    requires Reaches(s, t) && Resting(t)
    ensures Reaches(s, u) && u.process.Live?
    ensures var rt, c := t.process.runtime, Credential(t.process.runtime.binding.member, t.relay.nextSerial);
            && u.relay == t.relay.(nextSerial := t.relay.nextSerial + 1)
            && u.process.runtime == SetLifecycle(rt.(gate := ByRotator(Scheduler, PersistFresh(c))), Recovering)
  {
    u := GoRotation(s, t, SchedulerGate);
    u := GoRotation(s, u, CheckLifecycle);
    u := GoRotation(s, u, HeartbeatAnswer(LeaseExpired));
    u := GoRotation(s, u, ResumeAnswer(Success));
  }

  // One rotation from a lost lease: a fresh credential under the next generation.
  lemma Rotate(s: State, t: State) returns (u: State)
    requires Reaches(s, t) && Resting(t)
    ensures Reaches(s, u) && Resting(u) && u.relay.nextSerial == t.relay.nextSerial + 1
    ensures var rt, rt' := t.process.runtime, u.process.runtime;
            && rt'.binding == rt.binding && rt'.sends == rt.sends
            && rt'.shared.generation == NextGeneration(rt.shared.generation)
            && rt'.shared.credential == Credential(rt.binding.member, t.relay.nextSerial)
            && rt'.shared.health == Healthy
            && (rt'.shared.generation, rt'.shared.credential) in rt'.shared.published
  {
    u := Renew(s, t);
    u := GoRotation(s, u, Persist(Done));
    u := GoRotation(s, u, Publish);
    u := GoRotation(s, u, Reready);
  }

  ghost predicate Fresh(t: State) {
    && Resting(t) && t.process.runtime.sends == Sends(map[], true, false)
    && t.process.runtime.shared.health == Healthy
    && t.process.runtime.shared.credential.serial < t.relay.nextSerial
    && (t.process.runtime.shared.generation, t.process.runtime.shared.credential) in t.process.runtime.shared.published
  }

  lemma {:induction false} RotatedOften(n: nat) returns (t: State)
    requires n <= U64_MAX
    ensures Reaches(INITIAL, t) && Fresh(t) && t.process.runtime.shared.generation == n
  {
    if n == 0 {
      Begin(INITIAL);
      t := Join(INITIAL, INITIAL);
    } else {
      t := RotatedOften(n - 1);
      t := Rotate(INITIAL, t);
    }
  }

  // With the counter saturated the generation check lets a stale snapshot through: there is a run
  // after which a send is on the wire with a credential that is no longer the published one.
  lemma SaturationBreaksCurrency() returns (t: State)
    ensures Reaches(INITIAL, t) && t.process.Live?
    ensures var rt := t.process.runtime;
            && rt.shared.generation == U64_MAX
            && 0 in rt.sends.active && rt.sends.active[0].OnWire?
            && rt.sends.active[0].credential != rt.shared.credential
  {
    t := RotatedOften(U64_MAX);
    t := Go(INITIAL, t, Do(ASend(Reserve(0, U64_MAX, t.process.runtime.shared.credential))));
    t := Rotate(INITIAL, t);
    t := Go(INITIAL, t, Do(ASend(TakeGate(0))));
    t := Go(INITIAL, t, Do(ASend(Recheck(0))));
  }

  // --- joining, leaving, shutting down -----------------------------------------------------

  // An unfaulted join over an empty disk ends in a ready runtime of a fresh membership.
  lemma Join(s: State, t: State) returns (u: State)
    requires Reaches(s, t) && LockFree(t.process) && Gone(t.disk)
    ensures var b, c := Binding("squad", t.relay.nextMember), Credential(t.relay.nextMember, t.relay.nextSerial);
            && Reaches(s, u) && u.disk == Disk(Some(c), Some(b), NoJournal) && u.process == Live(NewRuntime(b, c, 0))
            && u.relay == t.relay.(nextMember := t.relay.nextMember + 1, nextSerial := t.relay.nextSerial + 1)
            && u.released == if t.process.Live? then t.released + [t.process.runtime] else t.released
  {
    u := Enroll(s, t);
    u := GoJoin(s, u, CredentialStored(Done));
    u := GoJoin(s, u, ProfileStored(Done));
    u := Start(s, u);
  }

  lemma Enroll(s: State, t: State) returns (u: State)
    requires Reaches(s, t) && LockFree(t.process) && Gone(t.disk)
    ensures Reaches(s, u) && u.disk == t.disk
    ensures u.process == Joining(StoreCredential(Binding("squad", t.relay.nextMember),
                                                 Credential(t.relay.nextMember, t.relay.nextSerial)))
    ensures u.relay == t.relay.(nextMember := t.relay.nextMember + 1, nextSerial := t.relay.nextSerial + 1)
    ensures u.released == if t.process.Live? then t.released + [t.process.runtime] else t.released
  {
    u := Go(s, t, Boot(BeginJoin));
    u := GoJoin(s, u, JoinAnswer(Success, "squad"));
  }

  // A start that has the lock: no journal, the credential of the profile, an accepted heartbeat.
  lemma Start(s: State, t: State) returns (u: State)
    requires Reaches(s, t) && t.process.Starting? && t.process.start == LoadJournal && t.disk.journal == NoJournal
    requires t.disk.credential.Some? && t.disk.credential.value.member == t.process.binding.member
    ensures Reaches(s, u) && u == t.(process := Live(NewRuntime(t.process.binding, t.disk.credential.value, 0)))
  {
    u := Go(s, t, Boot(ReadJournal));
    u := Go(s, u, Boot(FirstAnswer(Success)));
  }

  ghost predicate Untouched(t: State, b: Binding, c: Credential) {
    t.process == Live(NewRuntime(b, c, 0)) && t.disk == Disk(Some(c), Some(b), NoJournal)
  }

  lemma Drain(s: State, t: State, b: Binding, c: Credential) returns (u: State)
    requires Reaches(s, t) && Untouched(t, b, c)
    ensures Reaches(s, u)
    ensures u == t.(process := Live(NewRuntime(b, c, 0).(
                      control := Control(Leaving, StoreIntent, NoShutdown, false, true), gate := ByLeave,
                      sends := Sends(map[], false, false), reports := Reports({}, false, false))))
  {
    u := GoLeave(s, t, BeginLeave);
    u := GoLeave(s, u, ReportsDrained);
    u := GoLeave(s, u, Enter);
    u := GoLeave(s, u, SendsStopped);
    u := GoLeave(s, u, SendsDrained);
    u := GoLeave(s, u, GateTaken);
  }

  lemma Confirm(s: State, t: State) returns (u: State)
    requires Reaches(s, t) && t.process.Live? && t.process.runtime.control.leave == StoreIntent
    ensures var rt := t.process.runtime;
            && Reaches(s, u) && u.disk == t.disk.(journal := Confirmed(rt.binding))
            && u.relay == t.relay.(leaveRequests := t.relay.leaveRequests + {rt.binding.member},
                                   ended := t.relay.ended + {rt.binding.member})
            && u.process == Live(SetLeave(rt, LeaveCleanup(ClearCredential)).(beat := rt.beat.(cancelled := true)))
            && u.released == t.released
  {
    u := GoStore(s, t, IntentStored(Done));
    u := Go(s, u, ApplyLeave(t.process.runtime.binding.member));
    u := GoStore(s, u, LeaveAnswer(Success));
    u := GoStore(s, u, ConfirmedStored(Done));
  }

  lemma CleanUp(s: State, t: State) returns (u: State)
    requires Reaches(s, t) && t.process.Live? && t.process.runtime.control.leave == LeaveCleanup(ClearCredential)
    ensures Reaches(s, u)
    ensures u == t.(disk := Disk(None, None, NoJournal), process := Live(SetLeave(t.process.runtime, PublishLeft)))
  {
    u := GoStore(s, t, Clean(Done));
    u := GoStore(s, u, Clean(Done));
    u := GoStore(s, u, Clean(Done));
  }

  lemma Depart(s: State, t: State) returns (u: State)
    requires Reaches(s, t) && t.process.Live? && t.process.runtime.control.leave == PublishLeft
    ensures Reaches(s, u)
    ensures u == t.(process := Live(EndLeave(SetLifecycle(SetHealth(t.process.runtime, Stopped), Left))))
  {
    u := GoLeave(s, t, LeftPublished);
    u := GoLeave(s, u, SchedulerReaped);
  }

  // A handle at rest, left or not.
  ghost predicate AtRest(t: State) {
    && t.process.Live? && t.process.runtime.control.leave == NoLeave && t.process.runtime.control.shutdown == NoShutdown
    && t.process.runtime.sends.active == map[] && t.process.runtime.reports.active == {}
    && t.process.runtime.gate == Free && t.process.runtime.beat.running && t.process.runtime.beat.orphan.NoOrphan?
  }

  // One unfaulted leave of a runtime that has done nothing else.
  lemma Leave(s: State, t: State, b: Binding, c: Credential) returns (u: State)
    requires Reaches(s, t) && Untouched(t, b, c)
    ensures Reaches(s, u) && AtRest(u) && u.process.runtime.control.lifecycle == Left && Gone(u.disk)
    ensures u.process.runtime.binding == b && u.released == t.released
    ensures u.relay == t.relay.(leaveRequests := t.relay.leaveRequests + {b.member}, ended := t.relay.ended + {b.member})
  {
    u := Drain(s, t, b, c);
    u := Confirm(s, u);
    u := CleanUp(s, u);
    u := Depart(s, u);
  }

  lemma CloseDown(s: State, t: State) returns (u: State)
    requires Reaches(s, t) && AtRest(t)
    ensures Reaches(s, u) && AtRestButClosing(u) && u == t.(process := u.process)
    ensures u.process.runtime.binding == t.process.runtime.binding
    ensures u.process.runtime.control.lifecycle == t.process.runtime.control.lifecycle
  {
    u := Go(s, t, Do(AShutdown(Request)));
    u := GoShutdown(s, u);
    u := GoShutdown(s, u);
    u := GoShutdown(s, u);
    u := GoShutdown(s, u);
  }

  ghost predicate AtRestButClosing(t: State) {
    t.process.Live? && t.process.runtime.control.shutdown == ShutDrainSends
    && t.process.runtime.control.leave == NoLeave
    && t.process.runtime.sends.active == map[] && t.process.runtime.reports.active == {}
    && t.process.runtime.gate == Free && t.process.runtime.beat.running && t.process.runtime.beat.orphan.NoOrphan?
  }

  lemma StopBeating(s: State, t: State) returns (u: State)
    requires Reaches(s, t) && AtRestButClosing(t)
    ensures Reaches(s, u) && u == t.(process := u.process) && u.process.Live?
    ensures var rt := u.process.runtime;
            && rt == t.process.runtime.(control := rt.control, beat := Beat(false, true, NoOrphan))
            && rt.control == t.process.runtime.control.(shutdown := ShutReap)
  {
    u := GoShutdown(s, t);
    u := GoShutdown(s, u);
    u := GoRotation(s, u, SchedulerExit);
  }

  // One shutdown, to the release of the lock: it leaves the lifecycle as it is.
  lemma ShutDown(s: State, t: State) returns (u: State)
    requires Reaches(s, t) && AtRest(t)
    ensures Reaches(s, u) && LockFree(u.process) && u.process.Live? && u == t.(process := u.process)
    ensures var rt := u.process.runtime;
            && rt.control.leave == NoLeave && rt.control.lifecycle == t.process.runtime.control.lifecycle
            && rt.gate == Free && rt.sends.active == map[] && rt.reports.active == {}
            && rt.binding == t.process.runtime.binding
  {
    u := CloseDown(s, t);
    u := StopBeating(s, u);
    u := GoShutdown(s, u);
    u := GoShutdown(s, u);
  }

  // --- a handle used after its release -----------------------------------------------------

  // A released handle whose lifecycle is `Left` deletes the credential of a live runtime of another
  // membership that is not over and has no journal.
  lemma ReleasedLeftDeletes() returns (t: State, a: Action)
    ensures Reaches(INITIAL, t) && Step(t, a).Some? && a.DoReleased?
    ensures t.process.Live? && t.process.runtime.control.lifecycle == Ready && t.disk.journal == NoJournal
    ensures Bound(t.disk, t.process.runtime.binding) && t.process.runtime.binding.member !in t.relay.ended
    ensures Removes(t.disk, Step(t, a).value.disk)
  {
    Begin(INITIAL);
    t := Join(INITIAL, INITIAL);
    t := Leave(INITIAL, t, Binding("squad", 0), Credential(0, 0));
    t := ShutDown(INITIAL, t);
    t := Join(INITIAL, t);
    t := Reenter(INITIAL, t);
    a := DoReleased(0, ALeave(Clean(Done)));
    LeftCleans(t);
  }

  // A released handle whose lifecycle is still `Ready` journals an intent for a profile that is no
  // longer there, and orphaned recovery can then do nothing with it.
  lemma ReleasedReadyLies() returns (t: State)
    ensures Reaches(INITIAL, t) && t.disk == Disk(None, None, Intent(Binding("squad", 0)))
    ensures BootStep(t.(process := OrphanRead), OrphanJournal) == Some(t.(process := Idle))
  {
    var b, c := Binding("squad", 0), Credential(0, 0);
    Begin(INITIAL);
    t := Join(INITIAL, INITIAL);
    t := ShutDown(INITIAL, t);
    t := Go(INITIAL, t, Boot(BeginStart(b)));
    t := Start(INITIAL, t);
    t := Leave(INITIAL, t, b, c);
    t := Journal(INITIAL, t);
  }

  ghost predicate Callable(rt: Runtime) {
    && rt.control.leave == NoLeave && rt.gate == Free
    && rt.sends.active == map[] && rt.reports.active == {}
  }

  // A leave on a released handle, past `begin_leave`.
  lemma Reenter(s: State, t: State) returns (u: State)
    requires Reaches(s, t) && t.released != [] && Callable(t.released[0])
    ensures var rt := t.released[0];
            && Reaches(s, u)
            && u == t.(released := t.released[0 := EnterLeave(SetLeave(rt, EnterLeaving).(reports := rt.reports.(open := false)))])
  {
    u := Knock(s, t);
    u := GoReleased(s, u, 0, Enter);
  }

  lemma Knock(s: State, t: State) returns (u: State)
    requires Reaches(s, t) && t.released != [] && Callable(t.released[0])
    ensures var rt := t.released[0];
            && Reaches(s, u)
            && u == t.(released := t.released[0 := SetLeave(rt, EnterLeaving).(reports := rt.reports.(open := false))])
  {
    u := GoReleased(s, t, 0, BeginLeave);
    u := GoReleased(s, u, 0, ReportsDrained);
  }

  // On a `Ready` one, up to its intent.
  lemma Journal(s: State, t: State) returns (u: State)
    requires Reaches(s, t) && t.released != [] && Callable(t.released[0]) && t.released[0].control.lifecycle == Ready
    ensures Reaches(s, u) && u.disk == t.disk.(journal := Intent(t.released[0].binding))
  {
    u := Reenter(s, t);
    u := DrainAgain(s, u);
    IntentStores(u);
    u := Go(s, u, DoReleased(0, ALeave(IntentStored(Done))));
  }

  lemma DrainAgain(s: State, t: State) returns (u: State)
    requires Reaches(s, t) && t.released != [] && t.released[0].control.leave == StopSends
    requires t.released[0].sends.active == map[] && t.released[0].gate == Free
    ensures Reaches(s, u) && u.disk == t.disk && u.released != []
    ensures u.released[0].control.leave == StoreIntent && u.released[0].binding == t.released[0].binding
  {
    u := StopAgain(s, t);
    u := GoReleased(s, u, 0, GateTaken);
  }

  lemma StopAgain(s: State, t: State) returns (u: State)
    requires Reaches(s, t) && t.released != [] && t.released[0].control.leave == StopSends
    requires t.released[0].sends.active == map[] && t.released[0].gate == Free
    ensures Reaches(s, u) && u.disk == t.disk && u.released != []
    ensures u.released[0].control.leave == AwaitGate && u.released[0].binding == t.released[0].binding
    ensures u.released[0].gate == Free
  {
    u := GoReleased(s, t, 0, SendsStopped);
    u := GoReleased(s, u, 0, SendsDrained);
  }

  lemma IntentStores(t: State)
    requires t.released != [] && t.released[0].control.leave == StoreIntent
    ensures var next := Step(t, DoReleased(0, ALeave(IntentStored(Done))));
            next.Some? && next.value.disk == t.disk.(journal := Intent(t.released[0].binding))
  {
  }

  lemma LeftCleans(t: State)
    requires t.released != [] && t.released[0].control.leave == LeftCleanup(ClearCredential)
    ensures var next := Step(t, DoReleased(0, ALeave(Clean(Done))));
            next.Some? && next.value.disk == t.disk.(credential := None)
  {
  }

  // --- power losses ------------------------------------------------------------------------

  ghost predicate Attains(m: Machine) {
    exists events :: MachineRun(SWITCHED_ON, events) == Some(m)
  }

  lemma {:induction false} MachineConcat(m: Machine, first: seq<Event>, second: seq<Event>)
    requires MachineRun(m, first).Some?
    ensures MachineRun(m, first + second) == MachineRun(MachineRun(m, first).value, second)
    decreases |first|
  {
    if first == [] {
      assert first + second == second;
    } else {
      assert (first + second)[0] == first[0] && (first + second)[1..] == first[1..] + second;
      MachineConcat(MachineStep(m, first[0]).value, first[1..], second);
    }
  }

  lemma {:induction false} Happen(m: Machine, e: Event) returns (n: Machine)
    requires Attains(m) && MachineStep(m, e).Some?
    ensures n == MachineStep(m, e).value && Attains(n)
  {
    n := MachineStep(m, e).value;
    var events :| MachineRun(SWITCHED_ON, events) == Some(m);
    MachineConcat(SWITCHED_ON, events, [e]);
    assert [e][1..] == [] && MachineRun(n, []) == Some(n);
  }

  // A run without power losses, seen on the machine.
  lemma {:induction false} Lift(s: State, kept: Survivors, actions: seq<Action>) returns (n: Machine)
    requires Attains(Machine(s, kept)) && MachineCore(Machine(s, kept)) && Run(s, actions).Some?
    ensures Attains(n) && MachineCore(n) && n.state == Run(s, actions).value
    decreases |actions|
  {
    n := Machine(s, kept);
    if actions != [] {
      EventKeepsCore(n, Act(actions[0]));
      n := Happen(n, Act(actions[0]));
      n := Lift(n.state, n.kept, actions[1..]);
    }
  }

  lemma {:induction false} OnMachine(t: State) returns (n: Machine)
    requires Reaches(INITIAL, t)
    ensures Attains(n) && MachineCore(n) && n.state == t
  {
    var actions :| Run(INITIAL, actions) == Some(t);
    assert MachineRun(SWITCHED_ON, []) == Some(SWITCHED_ON);
    n := Lift(INITIAL, SWITCHED_ON.kept, actions);
  }

  const B: Binding := Binding("squad", 0)
  const C: Credential := Credential(0, 0)

  // A leave that was put on the wire and confirmed by the relay, its record not yet stored.
  lemma {:induction false} ToConfirm() returns (n: Machine)
    ensures Attains(n) && n.state.disk == Disk(Some(C), Some(B), Intent(B)) && n.kept.journal == {Intent(B)}
    ensures n.kept.profile == {Some(B)} && n.state.process.Live? && n.state.process.runtime.binding == B
    ensures n.state.process.runtime.control.leave == ConfirmLeave && Some(C) in n.kept.credential
  {
    Begin(INITIAL);
    var t := Join(INITIAL, INITIAL);
    t := Drain(INITIAL, t, B, C);
    n := OnMachine(t);
    n := JournalIntent(n);
    n := Happen(n, Act(ApplyLeave(0)));
    n := Accept(n);
  }

  lemma JournalIntent(m: Machine) returns (n: Machine)
    requires Attains(m) && m.state.process.Live? && m.state.process.runtime.control.leave == StoreIntent
    ensures var rt := m.state.process.runtime;
            && Attains(n) && n.state.disk == m.state.disk.(journal := Intent(rt.binding))
            && n.kept == Survivors(m.kept.credential, {n.state.disk.profile}, {n.state.disk.journal})
            && n.state.process == Live(SetLeave(rt, LeaveCall)) && n.state.relay.leaveRequests >= {rt.binding.member}
  {
    n := Happen(m, Act(Do(ALeave(IntentStored(Done)))));
  }

  lemma Accept(m: Machine) returns (n: Machine)
    requires Attains(m) && m.state.process.Live? && m.state.process.runtime.control.leave == LeaveCall
    requires m.state.process.runtime.binding.member in m.state.relay.ended
    ensures Attains(n) && n.kept == m.kept && n.state.disk == m.state.disk
    ensures n.state.process == Live(SetLeave(m.state.process.runtime, ConfirmLeave))
  {
    n := Happen(m, Act(Do(ALeave(LeaveAnswer(Success)))));
  }

  // The confirmation is stored, with or without the sync.
  lemma StoreConfirmation(m: Machine, io: Io) returns (n: Machine)
    requires Attains(m) && m.state.process.Live? && m.state.process.runtime.control.leave == ConfirmLeave
    requires io != FailedBefore
    ensures Attains(n) && n.state.disk == m.state.disk.(journal := Confirmed(m.state.process.runtime.binding))
    ensures n.kept == Outlive(m.kept, m.state.disk, n.state.disk, Write(JournalCell, io))
    ensures n.state.process.Live? && (io == Done ==> n.state.process.runtime.control.leave == LeaveCleanup(ClearCredential))
  {
    n := Happen(m, Act(Do(ALeave(ConfirmedStored(io)))));
  }

  // A restart that reads the confirmed record.
  lemma Restart(m: Machine) returns (n: Machine)
    requires Attains(m) && m.state.disk.profile == Some(B) && m.state.disk.journal == Confirmed(B)
    ensures Attains(n) && n.kept == m.kept && n.state.disk == m.state.disk
    ensures n.state.process == Starting(B, StartCleanup(ClearCredential))
  {
    n := Happen(m, Act(Crash));
    n := Happen(n, Act(Boot(BeginStart(B))));
    n := Happen(n, Act(Boot(ReadJournal)));
  }

  lemma CleanOnce(m: Machine, at: CleanupStep) returns (n: Machine)
    requires Attains(m) && m.state.process == Starting(B, StartCleanup(at))
    ensures var disk := CleanDisk(m.state.disk, at, Done);
            && Attains(n) && n.state.disk == disk && n.kept == Outlive(m.kept, m.state.disk, disk, CleanWrite(at, Done))
            && (AfterClean(at, Done).Some? ==> n.state.process == Starting(B, StartCleanup(AfterClean(at, Done).value)))
  {
    n := Happen(m, Act(Boot(CleanStart(Done))));
  }

  // The confirmation is renamed into place and its directory sync fails; a restart reads it and clears
  // the credential, in another directory; the power goes before the profile's directory is synced.
  // What comes back is the intent, with its profile and without a credential, and no run leaves that.
  lemma {:induction false} UnsyncedConfirmationStrands() returns (n: Machine)
    ensures Attains(n) && n.state.process.Idle? && n.state.disk == Disk(None, Some(B), Intent(B))
    ensures Stuck(n.state.disk) && !Bound(n.state.disk, B)
  {
    n := ToConfirm();
    n := StoreConfirmation(n, FailedAfter);
    n := Restart(n);
    n := CleanOnce(n, ClearCredential);
    n := Happen(n, PowerLoss(Disk(None, Some(B), Intent(B))));
  }

  // The credential is unlinked and that sync fails; the replayed cleanup finds nothing to remove,
  // syncs nothing and goes on to the end; the power loss brings the credential back alone.
  lemma {:induction false} UnsyncedRemovalStrands() returns (n: Machine)
    ensures Attains(n) && n.state.process.Idle? && n.state.disk == Disk(Some(C), None, NoJournal)
    ensures Stuck(n.state.disk)
  {
    n := ToConfirm();
    n := StoreConfirmation(n, Done);
    n := UnlinkUnsynced(n);
    n := Restart(n);
    n := CleanAll(n);
    n := Happen(n, PowerLoss(Disk(Some(C), None, NoJournal)));
  }

  // A cleanup that finds the credential gone already.
  lemma {:induction false} CleanAll(m: Machine) returns (n: Machine)
    requires Attains(m) && m.state.process == Starting(B, StartCleanup(ClearCredential))
    requires m.state.disk == Disk(None, Some(B), Confirmed(B))
    ensures Attains(n) && n.kept == Survivors(m.kept.credential, {None}, {NoJournal})
  {
    n := CleanOnce(m, ClearCredential);
    n := CleanOnce(n, ClearProfile);
    n := CleanOnce(n, RemoveJournal);
  }

  lemma UnlinkUnsynced(m: Machine) returns (n: Machine)
    requires Attains(m) && m.state.process.Live? && m.state.process.runtime.control.leave == LeaveCleanup(ClearCredential)
    requires m.state.disk.credential.Some?
    ensures Attains(n) && n.state.disk == m.state.disk.(credential := None)
    ensures n.kept == m.kept.(credential := m.kept.credential + {None})
  {
    n := Happen(m, Act(Do(ALeave(Clean(FailedAfter)))));
  }
}
