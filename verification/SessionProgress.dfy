/** Progress: what is admitted can be drained.  The fences of `SessionTheorems` say what a drain
    guarantees; here every drain can complete, from every reachable state and by the handle's own
    steps, and a shutdown closes, waits or gives up as it should.  */
module SessionProgress {
  import opened Wrappers
  import opened SessionState
  import opened SessionSteps
  import opened SessionInvariant
  import opened SessionTheorems

  // --- towards an empty handle -------------------------------------------------------------

  ghost function Some1(active: map<nat, Send>): nat
    requires active != map[]
  {
    var id :| id in active; id
  }

  // The next step of whoever holds the gate, or else of some send or report.
  ghost function Onward(rt: Runtime): Call
    requires rt.sends.active != map[] || rt.reports.active != {}
  {
    match rt.gate
    case BySend(id) =>
      if id !in rt.sends.active then ASend(ReleaseGate)
      else if rt.sends.active[id].Gated? then ASend(Recheck(id)) else ASend(FinishSend(id))
    case ByRotator(_, at) =>
      (match at
       case Entered => ARotation(GiveUp)
       case HeartbeatCall => ARotation(GiveUp)
       case ResumeCall => ARotation(ResumeAnswer(OtherFailure))
       case PersistFresh(_) => ARotation(Persist(Done))
       case PublishFresh(_) => ARotation(Publish)
       case PublishFailure(_, _) => ARotation(PublishError)
       case BackToReady => ARotation(Reready))
    case ByLeave => ALeave(Rollback)
    case Free =>
      if rt.sends.active != map[] then ASend(TakeGate(Some1(rt.sends.active)))
      else
        var id :| id in rt.reports.active; AReport(FinishReport(id))
  }

  // Steps until the gate is free again.
  function Hold(rt: Runtime): nat {
    match rt.gate
    case Free => 0
    case BySend(id) => if id !in rt.sends.active then 1 else if rt.sends.active[id].OnWire? then 2 else 3
    case ByRotator(_, at) =>
      (match at
       case Entered => 1
       case HeartbeatCall => 1
       case PersistFresh(_) => 4
       case PublishFresh(_) => 3
       case ResumeCall => 2
       case BackToReady => 1
       case PublishFailure(_, _) => 1)
    case ByLeave =>
      (match rt.control.leave
       case RollbackStart => 4
       case RollbackSends => 3
       case RollbackReports => 2
       case _ => 1)
  }

  // Sends that still have to take the gate.
  ghost function OwnedIds(rt: Runtime): set<nat> { set id | id in rt.sends.active && rt.sends.active[id].Owned? }

  ghost function Load(rt: Runtime): nat {
    5 * (|OwnedIds(rt)| + |rt.reports.active|) + Hold(rt)
  }

  ghost predicate Busy(rt: Runtime) {
    rt.sends.active != map[] || rt.reports.active != {}
  }

  lemma GateMoves(w: World)
    requires MemoryInv(w.rt) && Busy(w.rt) && w.rt.gate.ByRotator?
    ensures CallStep(w, Onward(w.rt)).Some? && Load(CallStep(w, Onward(w.rt)).value.rt) < Load(w.rt)
  {
    assert CallStep(w, Onward(w.rt)).value.rt.sends == w.rt.sends;
    assert CallStep(w, Onward(w.rt)).value.rt.reports == w.rt.reports;
  }

  lemma LeaveMoves(w: World)
    requires MemoryInv(w.rt) && Busy(w.rt) && w.rt.gate.ByLeave?
    ensures CallStep(w, Onward(w.rt)).Some? && Load(CallStep(w, Onward(w.rt)).value.rt) < Load(w.rt)
  {
    assert RollbackStep(w.rt.control.leave);
    assert CallStep(w, Onward(w.rt)).value.rt.sends.active == w.rt.sends.active;
    assert CallStep(w, Onward(w.rt)).value.rt.reports.active == w.rt.reports.active;
  }

  lemma SendMoves(w: World)
    requires MemoryInv(w.rt) && Busy(w.rt) && w.rt.gate.BySend?
    ensures CallStep(w, Onward(w.rt)).Some? && Load(CallStep(w, Onward(w.rt)).value.rt) < Load(w.rt)
  {
    if w.rt.gate.id in w.rt.sends.active { assert SendInv(w.rt.gate.id, w.rt.sends.active[w.rt.gate.id], w.rt.shared, w.rt.gate); }
    var rt' := CallStep(w, Onward(w.rt)).value.rt;
    assert OwnedIds(rt') <= OwnedIds(w.rt);
    Fewer(OwnedIds(rt'), OwnedIds(w.rt));
  }

  lemma Fewer(a: set<nat>, b: set<nat>)
    requires a <= b
    ensures |a| <= |b|
  {
    assert b == a + (b - a);
  }

  lemma FreeMoves(w: World)
    requires MemoryInv(w.rt) && Busy(w.rt) && w.rt.gate.Free?
    ensures CallStep(w, Onward(w.rt)).Some? && Load(CallStep(w, Onward(w.rt)).value.rt) < Load(w.rt)
  {
    var rt' := CallStep(w, Onward(w.rt)).value.rt;
    if w.rt.sends.active != map[] {
      var id := Some1(w.rt.sends.active);
      assert SendInv(id, w.rt.sends.active[id], w.rt.shared, w.rt.gate);
      assert rt' == SetSend(w.rt, id, Gated(w.rt.sends.active[id].generation, w.rt.sends.active[id].credential)).(gate := BySend(id));
      assert OwnedIds(rt') == OwnedIds(w.rt) - {id} && id in OwnedIds(w.rt);
    } else {
      assert OwnedIds(rt') == OwnedIds(w.rt);
    }
  }

  lemma OnwardMoves(w: World)
    requires MemoryInv(w.rt) && Busy(w.rt)
    ensures CallStep(w, Onward(w.rt)).Some? && Load(CallStep(w, Onward(w.rt)).value.rt) < Load(w.rt)
  {
    match w.rt.gate
    case Free => FreeMoves(w);
    case BySend(_) => SendMoves(w);
    case ByRotator(_, _) => GateMoves(w);
    case ByLeave => LeaveMoves(w);
  }

  lemma OnwardIsNoLeave(rt: Runtime)
    requires Busy(rt)
    ensures Onward(rt) != ALeave(BeginLeave)
  {
  }

  lemma HolderMoves(s: State)
    requires Core(s) && s.process.Live? && Busy(s.process.runtime)
    ensures var next := Step(s, Do(Onward(s.process.runtime)));
            && next.Some? && next.value.process.Live? && Core(next.value)
            && Load(next.value.process.runtime) < Load(s.process.runtime)
  {
    OnwardMoves(World(s.disk, s.relay, s.process.runtime));
    StepKeepsCore(s, Do(Onward(s.process.runtime)));
  }

  ghost predicate OwnSteps(actions: seq<Action>) {
    forall i :: 0 <= i < |actions| ==> actions[i].Do? && actions[i].call != ALeave(BeginLeave)
  }

  lemma {:induction false} Prepend(s: State, a: Action, rest: seq<Action>)
    requires Step(s, a).Some?
    ensures Run(s, [a] + rest) == Run(Step(s, a).value, rest)
    ensures a.Do? && a.call != ALeave(BeginLeave) && OwnSteps(rest) ==> OwnSteps([a] + rest)
  {
    assert ([a] + rest)[0] == a && ([a] + rest)[1..] == rest;
  }

  // From every reachable state, by steps of the handle alone, everything in flight can be brought to its
  // end: no admitted send and no report is stuck behind the heartbeat gate.
  lemma {:induction false} DrainCanComplete(s: State) returns (actions: seq<Action>)
    requires Core(s) && s.process.Live?
    ensures OwnSteps(actions) && Run(s, actions).Some? && Run(s, actions).value.process.Live?
    ensures !Busy(Run(s, actions).value.process.runtime)
    decreases Load(s.process.runtime)
  {
    if Busy(s.process.runtime) {
      var a := Do(Onward(s.process.runtime));
      HolderMoves(s);
      OnwardIsNoLeave(s.process.runtime);
      var rest := DrainCanComplete(Step(s, a).value);
      actions := [a] + rest;
      Prepend(s, a, rest);
    } else {
      actions := [];
    }
  }

  // --- shutdown ----------------------------------------------------------------------------

  // What one step of a shutdown does to the handle.
  ghost predicate ShutsDown(rt: Runtime, a: ShutdownAction, rt': Runtime) {
    && rt'.control.lifecycle == rt.control.lifecycle && rt'.control.shutdownRequested
    && (a.CloseFlags? ==> rt'.sends.closed && rt'.reports.closed && rt'.beat.cancelled)
    && (a.TimedOut? ==> rt' == rt.(control := rt.control.(shutdown := NoShutdown)))
    && (rt.control.locked && !rt'.control.locked ==>
          && rt'.shared.health == Stopped && rt'.control.leave == NoLeave
          && rt'.sends.active == map[] && rt'.reports.active == {} && rt'.beat.cancelled)
  }

  lemma ShutdownMoves(rt: Runtime, a: ShutdownAction)
    requires MemoryInv(rt)
    ensures a.CloseFlags? ==> (ShutdownStepOf(rt, a).Some? <==> rt.control.shutdownRequested)
    ensures a.TimedOut? ==> (ShutdownStepOf(rt, a).Some? <==> rt.control.shutdown != NoShutdown)
    ensures ShutdownStepOf(rt, a).Some? ==> ShutsDown(rt, a, ShutdownStepOf(rt, a).value)
  {
  }

  // In every run: asking for a shutdown closes both gates for good and tells the heartbeat to stop; a
  // shutdown that runs out of time keeps the lock and what it closed; and the step that gives up the
  // lock leaves the handle stopped, empty and outside any leave, with its lifecycle as it was.
  lemma {:induction false} ShutdownSteps(actions: seq<Action>, a: ShutdownAction)
    requires Run(INITIAL, actions).Some? && Run(INITIAL, actions).value.process.Live?
    ensures var s := Run(INITIAL, actions).value;
            var next := Step(s, Do(AShutdown(a)));
            && (a.CloseFlags? ==> (next.Some? <==> s.process.runtime.control.shutdownRequested))
            && (a.TimedOut? ==> (next.Some? <==> s.process.runtime.control.shutdown != NoShutdown))
            && (next.Some? ==>
                  && next.value.process.Live? && next.value.disk == s.disk
                  && ShutsDown(s.process.runtime, a, next.value.process.runtime))
  {
    ReachableCore(actions);
    ShutdownMoves(Run(INITIAL, actions).value.process.runtime, a);
  }

  // --- nothing is assumed away -------------------------------------------------------------

  // At every step of a leave everything that can happen there may happen: drains run out of time,
  // records cannot be issued, writes end in each of the three ways, and the relay gives every answer,
  // an agreeing one exactly if the membership is over.
  lemma LeaveMeetsEverything(w: World, io: Io, reply: Reply)
    ensures match w.rt.control.leave
            case DrainReports => LeaveStepOf(w, ReportsTimeout).Some?
            case DrainSends => LeaveStepOf(w, SendsTimeout).Some?
            case StoreIntent => LeaveStepOf(w, IssueIntentFails).Some? && LeaveStepOf(w, IntentStored(io)).Some?
            case LeaveCall =>
              LeaveStepOf(w, LeaveAnswer(reply)).Some? <==> (reply in {Success, NotMember} ==> w.rt.binding.member in w.relay.ended)
            case DropRefused => LeaveStepOf(w, RefusedDropped(io)).Some?
            case ConfirmLeave => LeaveStepOf(w, IssueConfirmedFails).Some? && LeaveStepOf(w, ConfirmedStored(io)).Some?
            case LeaveCleanup(_) => LeaveStepOf(w, Clean(io)).Some?
            case LeftCleanup(_) => LeaveStepOf(w, Clean(io)).Some?
            case _ => true
  {
  }

  // The same for a heartbeat and its rotation, and for a transaction that outlived its task.
  lemma RotationMeetsEverything(w: World, io: Io, reply: Reply)
    ensures w.rt.gate.ByRotator? ==>
              match w.rt.gate.at
              case HeartbeatCall => RotationStepOf(w, GiveUp).Some? && RotationStepOf(w, HeartbeatAnswer(reply)).Some?
              case ResumeCall => RotationStepOf(w, ResumeAnswer(reply)).Some?
              case PersistFresh(_) => RotationStepOf(w, Persist(io)).Some?
              case _ => true
    ensures w.rt.beat.orphan.OrphanCall? ==> RotationStepOf(w, OrphanAnswer(reply)).Some?
    ensures w.rt.beat.orphan.OrphanPersist? ==> RotationStepOf(w, OrphanStore(io)).Some?
  {
  }

  // The same for a start, and a crash may come at any time.
  lemma StartMeetsEverything(s: State, io: Io, reply: Reply)
    ensures Step(s, Crash) == Some(s.(process := Idle))
    ensures s.process.Starting? ==>
              match s.process.start
              case LoadJournal => BootStep(s, ReadJournal).Some?
              case FirstHeartbeat(_, _) =>
                BootStep(s, FirstAnswer(reply)).Some? <==> (reply == NotMember ==> s.process.binding.member in s.relay.ended)
              case StartResume(_, _) => BootStep(s, StartResumed(reply)).Some?
              case PersistResumed(_, _) => BootStep(s, StartPersisted(io)).Some?
              case DropIntent(_, _) => BootStep(s, IntentDropped(io)).Some?
              case ConfirmPending => BootStep(s, ConfirmIssueFails).Some? && BootStep(s, PendingConfirmed(io)).Some?
              case StartCleanup(_) => BootStep(s, CleanStart(io)).Some?
  {
  }

  // The same for an orphaned recovery and a join.
  lemma JoinMeetsEverything(s: State, io: Io, reply: Reply, squad: string)
    ensures s.process.OrphanRead? ==> BootStep(s, OrphanJournal).Some?
    ensures s.process.OrphanCleanup? ==> BootStep(s, CleanOrphan(io)).Some?
    ensures s.process.Joining? ==>
              match s.process.join
              case JoinCall => BootStep(s, JoinAnswer(reply, squad)).Some?
              case StoreCredential(_, _) => BootStep(s, CredentialStored(io)).Some?
              case StoreProfile(_, _) => BootStep(s, ProfileStored(io)).Some?
              case ScrubCredential(_, _) => BootStep(s, Scrub(io)).Some?
  {
  }
}
