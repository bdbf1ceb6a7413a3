/** How a leave ends, under every interleaving, and whether it gives admission back: it does where it
    rolls back or gives up draining reports, and it does not where the lifecycle refuses it.  */
module SessionAdmission {
  import opened Wrappers
  import opened SessionState
  import opened SessionSteps
  import opened SessionInvariant
  import opened SessionTheorems
  import opened SessionRecovery

  ghost predicate Admitting(rt: Runtime) {
    && rt.sends.open && rt.reports.open && rt.control.lifecycle == Ready && rt.control.leave == NoLeave
    && rt.gate != ByLeave
  }

  // Up to its last state the run stays inside one leave of the lock holder; whatever else happens
  // in between is free.
  ghost predicate Ongoing(s: State, actions: seq<Action>)
    decreases |actions|
  {
    actions == [] ||
    (&& s.process.Live? && s.process.runtime.control.leave != NoLeave
     && (Step(s, actions[0]).Some? ==> Ongoing(Step(s, actions[0]).value, actions[1..])))
  }

  ghost predicate Over(s: State) {
    s.process.Live? && s.process.runtime.control.leave == NoLeave
  }

  // --- rollback ----------------------------------------------------------------------------

  ghost predicate RollingBack(s: State) {
    s.process.Live? && RollbackStep(s.process.runtime.control.leave)
  }

  ghost predicate Restored(s: State) {
    Over(s) && (s.process.runtime.control.shutdownRequested || Admitting(s.process.runtime))
  }

  // While a leave is under way no other task of the runtime writes the disk, moves the lifecycle or
  // ends the leave.
  lemma LeaveIsAlone(w: World, c: Call)
    requires CoreWorld(w) && !c.ALeave? && CallStep(w, c).Some?
    requires w.rt.control.lifecycle == Leaving || w.rt.control.lifecycle == Left
    ensures var w' := CallStep(w, c).value;
            && w'.disk == w.disk && w'.rt.control.leave == w.rt.control.leave
            && w'.rt.control.lifecycle == w.rt.control.lifecycle
            && (w.rt.control.shutdownRequested ==> w'.rt.control.shutdownRequested)
  {
  }

  lemma RollbackMoves(w: World, a: LeaveAction)
    requires CoreWorld(w) && RollbackStep(w.rt.control.leave) && LeaveStepOf(w, a).Some?
    ensures var w' := LeaveStepOf(w, a).value;
            && w'.disk == w.disk && w'.rt.control.shutdownRequested == w.rt.control.shutdownRequested
            && (if w'.rt.control.leave == NoLeave
                then Admitting(w'.rt) || (w'.rt.control.shutdownRequested && w'.rt.control.lifecycle == Leaving)
                else RollbackStep(w'.rt.control.leave))
  {
  }

  lemma RollbackCall(w: World, c: Call)
    requires CoreWorld(w) && RollbackStep(w.rt.control.leave) && CallStep(w, c).Some?
    ensures var w' := CallStep(w, c).value;
            && w'.disk == w.disk
            && (w.rt.control.shutdownRequested ==> w'.rt.control.shutdownRequested)
            && (if w'.rt.control.leave == NoLeave
                then Admitting(w'.rt) || (w'.rt.control.shutdownRequested && w'.rt.control.lifecycle == Leaving)
                else RollbackStep(w'.rt.control.leave))
  {
    if c.ALeave? { RollbackMoves(w, c.leave); } else { LeaveIsAlone(w, c); }
  }

  lemma RollbackAdvances(s: State, a: Action)
    requires Core(s) && RollingBack(s) && Step(s, a).Some? && Step(s, a).value.process.Live?
    ensures var s' := Step(s, a).value;
            && (RollingBack(s') || Restored(s'))
            && (!Trespassing(s) ==> s'.disk == s.disk)
  {
    match a
    case Do(call) => RollbackCall(World(s.disk, s.relay, s.process.runtime), call);
    case DoReleased(index, call) => if !Trespassing(s) { ReleasedIdles(s, index, call); }
    case Boot(boot) => BootGoesLiveFromStart(s, boot);
    case _ =>
  }

  // However a rollback is interleaved with sends, reports, heartbeats, the relay and calls on other
  // handles: if it comes to its end without a shutdown, the session is ready, both gates are open
  // and the heartbeat gate is free of it; and without trespassers the disk is what it was.
  lemma {:induction false} RollbackRestores(s: State, actions: seq<Action>)
    requires Core(s) && RollingBack(s) && Ongoing(s, actions) && Run(s, actions).Some?
    requires Over(Run(s, actions).value)
    ensures var rt := Run(s, actions).value.process.runtime; rt.control.shutdownRequested || Admitting(rt)
    ensures Peaceful(s, actions) ==> Run(s, actions).value.disk == s.disk
    decreases |actions|
  {
    var s' := Step(s, actions[0]).value;
    assert s'.process.Live? by { if |actions| == 1 { assert actions[1..] == []; } }
    RollbackAdvances(s, actions[0]);
    StepKeepsCore(s, actions[0]);
    if |actions| == 1 {
      assert actions[1..] == [] && Run(s, actions).value == s';
    } else {
      assert RollingBack(s');
      RollbackRestores(s', actions[1..]);
    }
  }

  // --- a leave that was put on the wire ----------------------------------------------------

  // Where the leave stands, given the disk at the moment it was put on the wire.
  ghost predicate Course(d: Disk, s: State) {
    && s.process.Live?
    && match s.process.runtime.control.leave
       case LeaveCall | DropRefused | ConfirmLeave => s.disk == d
       case RollbackStart | RollbackSends | RollbackReports | RollbackReady => s.disk == d.(journal := NoJournal)
       case LeaveCleanup(_) | PublishLeft | ReapScheduler => true
       case _ => false
  }

  // The four ways it ends.
  ghost predicate Completed(s: State) {
    && s.process.Live? && s.process.runtime.control.lifecycle == Left
    && s.process.runtime.binding.member in s.relay.ended && Leftover(s.disk, s.process.runtime.binding)
  }

  ghost predicate Undone(d: Disk, s: State) {
    && s.process.Live? && Admitting(s.process.runtime) && s.disk == d.(journal := NoJournal)
    && s.disk.credential == Some(s.process.runtime.shared.credential)
  }

  ghost predicate LeftOpen(d: Disk, s: State) {
    && s.process.Live? && s.process.runtime.control.lifecycle == OutcomeUnknown
    && s.disk.profile == d.profile && s.disk.credential == d.credential
    && (s.disk.journal != d.journal ==> s.disk.journal in {NoJournal, Confirmed(s.process.runtime.binding)})
  }

  ghost predicate Overtaken(d: Disk, s: State) {
    && s.process.Live? && s.process.runtime.control.lifecycle == Leaving && s.process.runtime.control.shutdownRequested
    && s.disk == d.(journal := NoJournal)
  }

  ghost predicate Concluded(d: Disk, s: State) {
    Over(s) && (Completed(s) || Undone(d, s) || LeftOpen(d, s) || Overtaken(d, s))
  }

  lemma CourseStores(d: Disk, s: State, a: LeaveAction)
    requires Inv(s) && Course(d, s) && !RollingBack(s) && HolderStep(s, ALeave(a)).Some?
    requires a.LeaveAnswer? || a.RefusedDropped? || a.ConfirmedStored? || a.Clean?
    ensures var s' := HolderStep(s, ALeave(a)).value;
            Course(d, s') || (Over(s') && (LeftOpen(d, s') || s'.process.runtime.control.lifecycle == Left))
  {
  }

  lemma CourseLeave(d: Disk, s: State, a: LeaveAction)
    requires Inv(s) && Course(d, s) && !RollingBack(s) && HolderStep(s, ALeave(a)).Some?
    requires !(a.LeaveAnswer? || a.RefusedDropped? || a.ConfirmedStored? || a.Clean?)
    ensures var s' := HolderStep(s, ALeave(a)).value;
            Course(d, s') || (Over(s') && (LeftOpen(d, s') || s'.process.runtime.control.lifecycle == Left))
  {
  }

  lemma CourseAdvances(d: Disk, s: State, a: Action)
    requires Inv(s) && Course(d, s) && Step(s, a).Some? && Step(s, a).value.process.Live?
    requires Inv(Step(s, a).value)
    ensures Course(d, Step(s, a).value) || Concluded(d, Step(s, a).value)
  {
    match a
    case Do(ALeave(leave)) =>
      if RollingBack(s) { CourseRollback(d, s, ALeave(leave)); }
      else if leave.LeaveAnswer? || leave.RefusedDropped? || leave.ConfirmedStored? || leave.Clean? { CourseStores(d, s, leave); }
      else { CourseLeave(d, s, leave); }
    case Do(call) => LeaveIsAlone(World(s.disk, s.relay, s.process.runtime), call);
    case DoReleased(index, call) => ReleasedIdles(s, index, call);
    case Boot(boot) => BootGoesLiveFromStart(s, boot);
    case _ =>
  }

  lemma CourseRollback(d: Disk, s: State, c: Call)
    requires Inv(s) && Course(d, s) && RollingBack(s) && HolderStep(s, c).Some? && Inv(HolderStep(s, c).value)
    ensures Course(d, HolderStep(s, c).value) || Concluded(d, HolderStep(s, c).value)
  {
    RollbackCall(World(s.disk, s.relay, s.process.runtime), c);
  }

  // Whatever comes between: a leave that was put on the wire ends completed, with the membership over
  // and at most its confirmed record left; or undone, with the intent withdrawn, the same credential
  // and profile on disk, and the session ready and admitting; or open, with credential and profile
  // untouched; or, if a shutdown overtook its rollback, undone on disk and closed in memory.
  lemma {:induction false} LeaveConcludes(s: State, actions: seq<Action>)
    requires Inv(s) && s.process.Live? && s.process.runtime.control.leave == LeaveCall
    requires Run(s, actions).Some? && Peaceful(s, actions) && Ongoing(s, actions) && Over(Run(s, actions).value)
    ensures Concluded(s.disk, Run(s, actions).value)
  {
    CourseRun(s.disk, s, actions);
  }

  lemma {:induction false} CourseRun(d: Disk, s: State, actions: seq<Action>)
    requires Inv(s) && Course(d, s)
    requires Run(s, actions).Some? && Peaceful(s, actions) && Ongoing(s, actions) && Over(Run(s, actions).value)
    ensures Concluded(d, Run(s, actions).value)
    decreases |actions|
  {
    var s' := Step(s, actions[0]).value;
    assert s'.process.Live? by { if |actions| == 1 { assert actions[1..] == []; } }
    StepKeeps(s, actions[0]);
    CourseAdvances(d, s, actions[0]);
    if |actions| == 1 {
      assert actions[1..] == [] && Run(s, actions).value == s';
    } else {
      CourseRun(d, s', actions[1..]);
    }
  }

  // --- leaves that come to nothing ---------------------------------------------------------

  // With a shutdown requested, a leave gives nothing back: the lifecycle stays `Leaving`.
  lemma ShutdownStopsRollback(s: State)
    requires Core(s) && s.process.Live? && s.process.runtime.control.leave == RollbackStart
    requires s.process.runtime.control.shutdownRequested
    ensures Step(s, Do(ALeave(Rollback))).Some? && Step(s, Do(ALeave(Rollback))).value.process.Live?
    ensures var rt := Step(s, Do(ALeave(Rollback))).value.process.runtime;
            rt.control.leave == NoLeave && rt.control.lifecycle == Leaving && !rt.reports.open && rt.gate != ByLeave
  {
  }

  // Giving up on the drain of reports reopens them exactly when the session is still `Ready` and no
  // shutdown was requested.
  lemma DrainTimeoutRestores(s: State)
    requires Core(s) && s.process.Live? && s.process.runtime.control.leave == DrainReports
    ensures var next := Step(s, Do(ALeave(ReportsTimeout)));
            && next.Some? && next.value.process.Live?
            && var rt, rt' := s.process.runtime, next.value.process.runtime;
               && rt'.control.leave == NoLeave && rt'.sends == rt.sends
               && (rt'.reports.open <==> rt.control.lifecycle == Ready && !rt.control.shutdownRequested)
  {
  }

  ghost predicate Silenced(s: State) {
    s.process.Live? ==> !s.process.runtime.reports.open && s.process.runtime.control.leave == NoLeave
  }

  ghost predicate BeginsNoLeave(a: Action) {
    a != Do(ALeave(BeginLeave)) && !a.Boot?
  }

  ghost predicate NoLeaveBegins(actions: seq<Action>) {
    forall i :: 0 <= i < |actions| ==> BeginsNoLeave(actions[i])
  }

  lemma SilencedStep(s: State, a: Action)
    requires Silenced(s) && Step(s, a).Some? && BeginsNoLeave(a)
    ensures Silenced(Step(s, a).value)
  {
  }

  lemma {:induction false} SilencedRun(s: State, actions: seq<Action>)
    requires Silenced(s) && Run(s, actions).Some? && NoLeaveBegins(actions)
    ensures Silenced(Run(s, actions).value)
    decreases |actions|
  {
    if actions != [] {
      assert BeginsNoLeave(actions[0]);
      SilencedStep(s, actions[0]);
      SilencedRun(Step(s, actions[0]).value, actions[1..]);
    }
  }

  // A leave that drained the reports and was then refused by the lifecycle, for instance because a
  // rotation is under way, has cancelled report admission and does not restore it: the runtime
  // refuses every report from then on, until another leave is tried, even once it is `Ready` again.
  lemma {:induction false} RefusedLeaveSilencesReports(s: State, actions: seq<Action>)
    requires Core(s) && s.process.Live? && s.process.runtime.control.leave == EnterLeaving
    requires s.process.runtime.control.lifecycle !in {Ready, Left}
    requires NoLeaveBegins(actions) && Run(s, [Do(ALeave(Enter))] + actions).Some?
    ensures Silenced(Run(s, [Do(ALeave(Enter))] + actions).value)
  {
    var all := [Do(ALeave(Enter))] + actions;
    assert all[0] == Do(ALeave(Enter)) && all[1..] == actions;
    SilencedRun(Step(s, all[0]).value, actions);
  }

  // A handle that admits does admit: a new send under any authority it has published, and a report
  // below the bound.
  lemma AdmittingAdmits(rt: Runtime, id: nat, generation: nat, credential: Credential)
    requires MemoryInv(rt) && Admitting(rt)
    ensures SendStep(rt, Reserve(id, generation, credential)).Some? <==>
              id !in rt.sends.active && rt.gate != BySend(id) && (generation, credential) in rt.shared.published
    ensures ReportStep(rt, Register(id)).Some? <==> id !in rt.reports.active && |rt.reports.active| < 8
  {
  }
}
