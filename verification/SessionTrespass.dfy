/** What a leave on a released handle can do, exactly.

    `leave` looks neither at the profile lock nor at the shutdown flag, so a handle whose lock has
    passed to somebody else still runs it.  Whether that can do harm is decided by the handle's
    lifecycle alone (`TrespassHarms`); if nobody else moves meanwhile, by the disk as well
    (`TrespassAlone`).  */
module SessionTrespass {
  import opened Wrappers
  import opened SessionState
  import opened SessionSteps
  import opened SessionInvariant
  import opened SessionTheorems
  import opened SessionRecovery

  // The lock holder has a runtime that counts on the durable credential.
  ghost predicate HolderUsable(s: State) {
    s.process.Live? && Usable(s.process.runtime.control)
  }

  ghost predicate HolderServed(s: State) {
    HolderUsable(s) ==> s.disk.credential == Some(s.process.runtime.shared.credential)
  }

  // The remains of a confirmed leave, or nothing to remove.
  ghost predicate Removable(disk: Disk) {
    || (disk.profile.None? && disk.credential.None?)
    || (disk.journal.Confirmed? && (disk.profile.None? || disk.profile.value == disk.journal.binding))
  }

  // What a peaceful step guarantees: an intent has its profile, only the remains of a confirmed leave
  // are removed, outside the scrub of a failed join, and the lock holder keeps its credential.
  ghost predicate Sound(s: State, a: Action)
    requires Step(s, a).Some?
  {
    var s' := Step(s, a).value;
    && IntentBound(s'.disk) && HolderServed(s')
    && (Removes(s.disk, s'.disk) && !Scrubs(a) ==> Removable(s.disk))
  }

  ghost predicate SoundRun(s: State, actions: seq<Action>)
    requires Run(s, actions).Some?
    decreases |actions|
  {
    actions == [] || (Sound(s, actions[0]) && SoundRun(Step(s, actions[0]).value, actions[1..]))
  }

  // Only the released handle `i` and the relay act.
  ghost predicate SoloAction(i: nat, a: Action) {
    a.ApplyLeave? || a.EndMembership? || (a.DoReleased? && a.index == i)
  }

  ghost predicate Solo(i: nat, actions: seq<Action>) {
    forall k :: 0 <= k < |actions| ==> SoloAction(i, actions[k])
  }

  // When the handle does no harm as long as nobody but the relay moves beside it.
  ghost predicate Harmless(s: State, rt: Runtime) {
    match rt.control.lifecycle
    case Ready => Bound(s.disk, rt.binding) && !HolderUsable(s)
    case Left => Removable(s.disk)
    case _ => true
  }

  // --- harmless handles do no harm ---------------------------------------------------------

  // What is so at every step of a harmless leave.
  ghost predicate Behaved(s: State, rt: Runtime) {
    var control := rt.control;
    if Confirming(control) then
      && Removable(s.disk) && !HolderUsable(s)
      && (control.leave.LeaveCleanup? || control.leave.LeftCleanup? ==>
            && (control.leave.at != ClearCredential ==> s.disk.credential.None?)
            && (control.leave.at == RemoveJournal ==> s.disk.profile.None?))
    else if control.lifecycle == Ready || (LeavingStep(control.leave) && !RollbackStep(control.leave)) then
      && Bound(s.disk, rt.binding) && !HolderUsable(s)
      && (control.leave.LeaveCall? || control.leave.DropRefused? || control.leave.ConfirmLeave? ==>
            s.disk.journal == Intent(rt.binding))
    else true
  }

  ghost predicate SoloInv(s: State, i: nat) {
    Core(s) && IntentBound(s.disk) && HolderServed(s) && i < |s.released| && Behaved(s, s.released[i])
  }

  lemma CleanBehaves(s: State, i: nat, io: Io)
    requires SoloInv(s, i) && ReleasedStep(s, i, ALeave(Clean(io))).Some?
    ensures var s' := ReleasedStep(s, i, ALeave(Clean(io))).value;
            && IntentBound(s'.disk) && HolderServed(s') && Behaved(s', s'.released[i])
            && (Removes(s.disk, s'.disk) ==> Removable(s.disk))
  {
  }

  lemma LeaveCallBehaves(s: State, i: nat, a: LeaveAction)
    requires SoloInv(s, i) && ReleasedStep(s, i, ALeave(a)).Some?
    requires a.IntentStored? || a.LeaveAnswer?
    ensures var s' := ReleasedStep(s, i, ALeave(a)).value;
            && IntentBound(s'.disk) && HolderServed(s') && Behaved(s', s'.released[i])
            && !Removes(s.disk, s'.disk)
  {
  }

  lemma LeaveStoreBehaves(s: State, i: nat, a: LeaveAction)
    requires SoloInv(s, i) && ReleasedStep(s, i, ALeave(a)).Some?
    requires a.RefusedDropped? || a.ConfirmedStored?
    ensures var s' := ReleasedStep(s, i, ALeave(a)).value;
            && IntentBound(s'.disk) && HolderServed(s') && Behaved(s', s'.released[i])
            && !Removes(s.disk, s'.disk)
  {
  }

  lemma LeaveEntersBehaving(s: State, i: nat, a: LeaveAction)
    requires SoloInv(s, i) && ReleasedStep(s, i, ALeave(a)).Some?
    requires a.BeginLeave? || a.ReportsDrained? || a.ReportsTimeout? || a.Enter? || a.Rollback?
    ensures var s' := ReleasedStep(s, i, ALeave(a)).value;
            s'.disk == s.disk && s'.process == s.process && Behaved(s', s'.released[i])
  {
  }

  lemma LeaveMemoryBehaves(s: State, i: nat, a: LeaveAction)
    requires SoloInv(s, i) && ReleasedStep(s, i, ALeave(a)).Some?
    requires !(a.BeginLeave? || a.ReportsDrained? || a.ReportsTimeout? || a.Enter? || a.Rollback?)
    requires !a.Clean? && !(a.IntentStored? || a.LeaveAnswer? || a.RefusedDropped? || a.ConfirmedStored?)
    ensures var s' := ReleasedStep(s, i, ALeave(a)).value;
            s'.disk == s.disk && s'.process == s.process && Behaved(s', s'.released[i])
  {
  }

  lemma OtherCallBehaves(s: State, i: nat, c: Call)
    requires SoloInv(s, i) && ReleasedStep(s, i, c).Some? && !c.ALeave?
    ensures var s' := ReleasedStep(s, i, c).value;
            s'.disk == s.disk && s'.process == s.process && Behaved(s', s'.released[i])
  {
    StaysReleased(World(s.disk, s.relay, s.released[i]), c);
  }

  lemma SoloStep(s: State, i: nat, a: Action)
    requires SoloInv(s, i) && Step(s, a).Some? && SoloAction(i, a)
    ensures Sound(s, a) && SoloInv(Step(s, a).value, i)
  {
    StepKeepsCore(s, a);
    if a.DoReleased? {
      match a.call
      case ALeave(Clean(io)) => CleanBehaves(s, i, io);
      case ALeave(leave) =>
        if leave.IntentStored? || leave.LeaveAnswer? {
          LeaveCallBehaves(s, i, leave);
        } else if leave.RefusedDropped? || leave.ConfirmedStored? {
          LeaveStoreBehaves(s, i, leave);
        } else if leave.BeginLeave? || leave.ReportsDrained? || leave.ReportsTimeout? || leave.Enter? || leave.Rollback? {
          LeaveEntersBehaving(s, i, leave);
        } else {
          LeaveMemoryBehaves(s, i, leave);
        }
      case _ => OtherCallBehaves(s, i, a.call);
    }
  }

  lemma {:induction false} SoloSound(s: State, i: nat, actions: seq<Action>)
    requires SoloInv(s, i) && Solo(i, actions) && Run(s, actions).Some?
    ensures SoundRun(s, actions)
    decreases |actions|
  {
    if actions != [] {
      assert SoloAction(i, actions[0]);
      SoloStep(s, i, actions[0]);
      SoloSound(Step(s, actions[0]).value, i, actions[1..]);
    }
  }

  // --- the others do -----------------------------------------------------------------------

  ghost predicate CanHarm(s: State, i: nat) {
    exists actions :: Solo(i, actions) && Run(s, actions).Some? && !SoundRun(s, actions)
  }

  lemma HarmsNow(s: State, i: nat, a: Action)
    requires SoloAction(i, a) && Step(s, a).Some? && !Sound(s, a)
    ensures CanHarm(s, i)
  {
    assert [a][1..] == [] && Run(Step(s, a).value, []).Some?;
    assert Solo(i, [a]) && !SoundRun(s, [a]);
  }

  lemma HarmsLater(s: State, i: nat, a: Action)
    requires SoloAction(i, a) && Step(s, a).Some? && CanHarm(Step(s, a).value, i)
    ensures CanHarm(s, i)
  {
    var rest :| Solo(i, rest) && Run(Step(s, a).value, rest).Some? && !SoundRun(Step(s, a).value, rest);
    var actions := [a] + rest;
    assert actions[0] == a && actions[1..] == rest;
    assert Solo(i, actions) && !SoundRun(s, actions);
  }

  // A leave under way that can still do harm.
  ghost predicate Harmful(s: State, rt: Runtime) {
    && (!rt.control.leave.NoLeave? && !GatedLeave(rt.control.leave) ==> rt.gate == Free)
    && match rt.control.leave
       case NoLeave | DrainReports | EnterLeaving =>
         rt.control.lifecycle in {Ready, Left} && !Harmless(s, rt)
       case StopSends | DrainSends | AwaitGate | StoreIntent => !Bound(s.disk, rt.binding) || HolderUsable(s)
       case LeaveCall =>
         HolderUsable(s) && (rt.binding.member in s.relay.ended || rt.binding.member in s.relay.leaveRequests)
       case ConfirmLeave => HolderUsable(s)
       case LeaveCleanup(at) => HolderUsable(s) && at == ClearCredential
       case LeftCleanup(at) =>
         !Removable(s.disk) && (at == ClearCredential || (at == ClearProfile && s.disk.credential.None?))
       case _ => false
  }

  // The next call towards it.
  function Towards(rt: Runtime): Call {
    if rt.control.leave.NoLeave? && rt.gate != Free then ASend(ReleaseGate)
    else ALeave(
      match rt.control.leave
      case NoLeave => BeginLeave
      case DrainReports => ReportsDrained
      case EnterLeaving => Enter
      case StopSends => SendsStopped
      case DrainSends => SendsDrained
      case AwaitGate => GateTaken
      case StoreIntent => IntentStored(Done)
      case LeaveCall => LeaveAnswer(Success)
      case ConfirmLeave => ConfirmedStored(Done)
      case _ => Clean(Done))
  }

  function Distance(s: State, rt: Runtime): nat {
    match rt.control.leave
    case NoLeave => if rt.gate != Free then 14 else 13
    case DrainReports => 12
    case EnterLeaving => 11
    case StopSends => 10
    case DrainSends => 9
    case AwaitGate => 8
    case StoreIntent => 7
    case LeaveCall => if rt.binding.member in s.relay.ended then 4 else 5
    case ConfirmLeave => 3
    case LeftCleanup(at) => if at == ClearCredential then 2 else 1
    case _ => 0
  }

  ghost predicate Closing(s: State, i: nat) {
    i < |s.released| && ReleasedInv(s.released[i]) && Harmful(s, s.released[i])
  }

  // The step is enabled, and it does harm or comes closer to it.
  ghost predicate Closer(s: State, i: nat)
    requires i < |s.released|
  {
    var next := ReleasedStep(s, i, Towards(s.released[i]));
    && next.Some?
    && var s' := next.value;
       || !IntentBound(s'.disk)
       || !HolderServed(s')
       || (Removes(s.disk, s'.disk) && !Removable(s.disk))
       || (Harmful(s', s'.released[i]) && Distance(s', s'.released[i]) < Distance(s, s.released[i]))
  }

  lemma EntersCloser(s: State, i: nat)
    requires Closing(s, i)
    requires var leave := s.released[i].control.leave; leave.NoLeave? || leave.DrainReports? || leave.EnterLeaving?
    ensures Closer(s, i)
  {
  }

  lemma DrainsCloser(s: State, i: nat)
    requires Closing(s, i)
    requires var leave := s.released[i].control.leave; leave.StopSends? || leave.DrainSends? || leave.AwaitGate? || leave.StoreIntent?
    ensures Closer(s, i)
  {
  }

  lemma ConfirmsCloser(s: State, i: nat)
    requires Closing(s, i)
    requires var leave := s.released[i].control.leave; (leave.LeaveCall? && s.released[i].binding.member in s.relay.ended) || leave.ConfirmLeave?
    ensures Closer(s, i)
  {
  }

  lemma CleansCloser(s: State, i: nat)
    requires Closing(s, i)
    requires var leave := s.released[i].control.leave; leave.LeaveCleanup? || leave.LeftCleanup?
    ensures Closer(s, i)
  {
  }

  lemma StepsCloser(s: State, i: nat)
    requires Closing(s, i)
    requires s.released[i].control.leave.LeaveCall? ==> s.released[i].binding.member in s.relay.ended
    ensures Closer(s, i)
  {
    match s.released[i].control.leave
    case NoLeave | DrainReports | EnterLeaving => EntersCloser(s, i);
    case StopSends | DrainSends | AwaitGate | StoreIntent => DrainsCloser(s, i);
    case LeaveCall | ConfirmLeave => ConfirmsCloser(s, i);
    case _ => CleansCloser(s, i);
  }

  lemma {:induction false} HarmReached(s: State, i: nat)
    requires Core(s) && Closing(s, i)
    ensures CanHarm(s, i)
    decreases Distance(s, s.released[i])
  {
    var rt := s.released[i];
    if rt.control.leave.LeaveCall? && rt.binding.member !in s.relay.ended {
      var a := ApplyLeave(rt.binding.member);
      StepKeepsCore(s, a);
      HarmReached(Step(s, a).value, i);
      HarmsLater(s, i, a);
    } else {
      var a := DoReleased(i, Towards(rt));
      StepsCloser(s, i);
      StepKeepsCore(s, a);
      if Sound(s, a) {
        HarmReached(Step(s, a).value, i);
        HarmsLater(s, i, a);
      } else {
        HarmsNow(s, i, a);
      }
    }
  }

  // --- alone -------------------------------------------------------------------------------

  // From any state that peaceful runs reach, a released handle with only the relay moving beside it is
  // sound, whatever is called on it, however its leave ends and wherever it stops, exactly when its
  // lifecycle refuses the leave, or it is `Ready` and its own profile is still bound and serves no
  // newer runtime, or it is `Left` and the disk holds nothing but the remains of a confirmed leave.
  lemma {:induction false} TrespassAlone(s: State, i: nat)
    requires Inv(s) && i < |s.released| && s.released[i].control.leave == NoLeave
    ensures !CanHarm(s, i) <==> Harmless(s, s.released[i])
  {
    if Harmless(s, s.released[i]) {
      HarmlessBehaves(s, i);
      forall actions | Solo(i, actions) && Run(s, actions).Some? ensures SoundRun(s, actions) {
        SoloSound(s, i, actions);
      }
    } else {
      HarmReached(s, i);
    }
  }

  lemma HarmlessBehaves(s: State, i: nat)
    requires Inv(s) && i < |s.released| && s.released[i].control.leave == NoLeave && Harmless(s, s.released[i])
    ensures SoloInv(s, i)
  {
  }

  // --- with everybody moving ---------------------------------------------------------------

  // Nobody but the released handle `i` trespasses.
  ghost predicate OnlyOne(s: State, i: nat) {
    i < |s.released| && forall j :: 0 <= j < |s.released| && j != i ==> !Acting(s.released[j].control.leave)
  }

  // Anything may happen: boots, crashes, every call on the lock holder and on released handles, and
  // the relay.  The handle itself stays, under the same index.
  ghost predicate Unhindered(s: State, i: nat, actions: seq<Action>)
    decreases |actions|
  {
    && OnlyOne(s, i)
    && (actions != [] ==>
          && (actions[0].Forget? ==> actions[0].index > i)
          && (Step(s, actions[0]).Some? ==> Unhindered(Step(s, actions[0]).value, i, actions[1..])))
  }

  ghost predicate CanHarmFreely(s: State, i: nat) {
    exists actions :: Unhindered(s, i, actions) && Run(s, actions).Some? && !SoundRun(s, actions)
  }

  // A handle whose lifecycle refuses the leave never gets through.
  ghost predicate Refusing(s: State, i: nat) {
    && Inv(s) && i < |s.released|
    && s.released[i].control.lifecycle !in {Ready, Left} && !Acting(s.released[i].control.leave)
  }

  lemma RefusesForGood(w: World, c: Call)
    requires ReleasedInv(w.rt) && CallStep(w, c).Some?
    requires w.rt.control.lifecycle !in {Ready, Left} && !Acting(w.rt.control.leave)
    ensures var control := CallStep(w, c).value.rt.control; control.lifecycle !in {Ready, Left} && !Acting(control.leave)
  {
    StaysReleased(w, c);
  }

  lemma PeacefulIsSound(s: State, a: Action)
    requires Inv(s) && Step(s, a).Some? && Inv(Step(s, a).value)
    ensures Sound(s, a)
  {
    if Removes(s.disk, Step(s, a).value.disk) && !Scrubs(a) {
      RemovesOnlyOver(s, a);
      RemovesConfirmed(s, a);
    }
  }

  lemma RefusingElsewhere(s: State, i: nat, a: Action)
    requires i < |s.released| && Step(s, a).Some? && (a.Forget? ==> a.index > i) && !(a.DoReleased? && a.index == i)
    ensures i < |Step(s, a).value.released| && Step(s, a).value.released[i] == s.released[i]
  {
  }

  lemma RefusingStep(s: State, i: nat, a: Action)
    requires Refusing(s, i) && Step(s, a).Some? && (a.Forget? ==> a.index > i) && OnlyOne(Step(s, a).value, i)
    ensures Refusing(Step(s, a).value, i) && Sound(s, a)
  {
    if a.DoReleased? && a.index == i {
      RefusesForGood(World(s.disk, s.relay, s.released[i]), a.call);
    } else {
      RefusingElsewhere(s, i, a);
    }
    StepKeeps(s, a);
    PeacefulIsSound(s, a);
  }

  lemma {:induction false} RefusingSound(s: State, i: nat, actions: seq<Action>)
    requires Refusing(s, i) && Unhindered(s, i, actions) && Run(s, actions).Some?
    ensures SoundRun(s, actions)
    decreases |actions|
  {
    if actions != [] {
      assert Unhindered(Step(s, actions[0]).value, i, actions[1..]);
      RefusingStep(s, i, actions[0]);
      RefusingSound(Step(s, actions[0]).value, i, actions[1..]);
    }
  }

  lemma SoloStepIsFree(s: State, i: nat, a: Action)
    requires OnlyOne(s, i) && SoloAction(i, a) && Step(s, a).Some?
    ensures OnlyOne(Step(s, a).value, i)
  {
  }

  lemma {:induction false} SoloIsFree(s: State, i: nat, actions: seq<Action>)
    requires OnlyOne(s, i) && Solo(i, actions)
    ensures Unhindered(s, i, actions)
    decreases |actions|
  {
    if actions != [] {
      assert SoloAction(i, actions[0]);
      if Step(s, actions[0]).Some? {
        SoloStepIsFree(s, i, actions[0]);
        SoloIsFree(Step(s, actions[0]).value, i, actions[1..]);
      }
    }
  }

  lemma {:induction false} AloneIsFree(s: State, i: nat)
    requires OnlyOne(s, i) && CanHarm(s, i)
    ensures CanHarmFreely(s, i)
  {
    var actions :| Solo(i, actions) && Run(s, actions).Some? && !SoundRun(s, actions);
    SoloIsFree(s, i, actions);
  }

  lemma {:induction false} FreeLater(s: State, i: nat, a: Action)
    requires OnlyOne(s, i) && Step(s, a).Some? && !a.Forget? && CanHarmFreely(Step(s, a).value, i)
    ensures CanHarmFreely(s, i)
  {
    var s' := Step(s, a).value;
    var rest :| Unhindered(s', i, rest) && Run(s', rest).Some? && !SoundRun(s', rest);
    var actions := [a] + rest;
    assert actions[0] == a && actions[1..] == rest;
    assert Unhindered(s, i, actions) && !SoundRun(s, actions);
  }

  // Boots of others before it.
  lemma {:induction false} BootsFirst(s: State, i: nat, boots: seq<Action>)
    requires OnlyOne(s, i) && (s.process.Live? ==> !Acting(s.process.runtime.control.leave))
    requires forall k :: 0 <= k < |boots| ==> boots[k].Boot?
    requires Run(s, boots).Some? && CanHarmFreely(Run(s, boots).value, i)
    ensures CanHarmFreely(s, i)
    decreases |boots|
  {
    if boots != [] {
      assert boots[0].Boot?;
      BootLeavesOne(s, i, boots[0].boot);
      BootsFirst(Step(s, boots[0]).value, i, boots[1..]);
      FreeLater(s, i, boots[0]);
    }
  }

  lemma BootLeavesOne(s: State, i: nat, a: BootAction)
    requires OnlyOne(s, i) && (s.process.Live? ==> !Acting(s.process.runtime.control.leave)) && BootStep(s, a).Some?
    ensures var s' := BootStep(s, a).value;
            && OnlyOne(s', i) && (s'.process.Live? ==> !Acting(s'.process.runtime.control.leave))
            && s'.released[i] == s.released[i]
  {
  }

  // A join over the empty disk gives a `Left` handle something to delete.
  lemma {:induction false} EmptyHarms(s: State, i: nat)
    requires Core(s) && s.process.Idle? && OnlyOne(s, i) && Gone(s.disk)
    requires s.released[i].control.leave == NoLeave && s.released[i].control.lifecycle == Left
    ensures CanHarmFreely(s, i)
  {
    JoinRuns(s, "");
    var joined := Run(s, JoinCalls("")).value;
    RunKeepsCore(s, JoinCalls(""));
    HarmReached(joined, i);
    AloneIsFree(joined, i);
    BootsFirst(s, i, JoinCalls(""));
  }

  // A `Left` handle beside nobody: finish what cleanup is left, and join anew.
  lemma {:induction false} LeftHarms(s: State, i: nat)
    requires Inv(s) && s.process.Idle? && OnlyOne(s, i)
    requires s.released[i].control.leave == NoLeave && s.released[i].control.lifecycle == Left
    ensures CanHarmFreely(s, i)
  {
    if Removable(s.disk) {
      var b := if s.disk.journal.Confirmed? then s.disk.journal.binding else s.released[i].binding;
      RecoverOnce(s, b);
      RunKeepsCore(s, RecoveryCall(s.disk));
      EmptyHarms(s.(disk := Disk(None, None, NoJournal)), i);
      BootsFirst(s, i, RecoveryCall(s.disk));
    } else {
      HarmReached(s, i);
      AloneIsFree(s, i);
    }
  }

  // A `Ready` handle on its way to the wire, with its profile bound and nobody else there.
  ghost predicate Proceeding(s: State, rt: Runtime) {
    && s.process.Idle? && Bound(s.disk, rt.binding)
    && (!rt.control.leave.NoLeave? && !GatedLeave(rt.control.leave) ==> rt.gate == Free)
    && match rt.control.leave
       case NoLeave | DrainReports | EnterLeaving => rt.control.lifecycle == Ready
       case StopSends | DrainSends | AwaitGate | StoreIntent => true
       case LeaveCall => s.disk.journal == Intent(rt.binding) && rt.binding.member in s.relay.leaveRequests
       case _ => false
  }

  lemma Proceeds(s: State, i: nat)
    requires i < |s.released| && ReleasedInv(s.released[i]) && Proceeding(s, s.released[i])
    requires !s.released[i].control.leave.LeaveCall?
    ensures var next := ReleasedStep(s, i, Towards(s.released[i]));
            && next.Some? && Proceeding(next.value, next.value.released[i])
            && Distance(next.value, next.value.released[i]) < Distance(s, s.released[i])
  {
  }

  // A start over the open intent: it is accepted, and withdraws the intent.
  lemma StartOverIntent(s: State, b: Binding) returns (boots: seq<Action>)
    requires s.process.Idle? && Bound(s.disk, b) && s.disk.journal == Intent(b)
    ensures forall k :: 0 <= k < |boots| ==> boots[k].Boot?
    ensures Run(s, boots) == Some(s.(disk := s.disk.(journal := NoJournal),
                                     process := Live(NewRuntime(b, s.disk.credential.value, 0))))
  {
    var first := [Boot(BeginStart(b)), Boot(ReadJournal)];
    var second := [Boot(FirstAnswer(Success)), Boot(IntentDropped(Done))];
    TwoSteps(s, first[0], first[1]);
    TwoSteps(Run(s, first).value, second[0], second[1]);
    RunConcat(s, first, second);
    boots := first + second;
  }

  lemma {:induction false} ReadyHarms(s: State, i: nat)
    requires Core(s) && OnlyOne(s, i) && Proceeding(s, s.released[i])
    ensures CanHarmFreely(s, i)
    decreases Distance(s, s.released[i])
  {
    var rt := s.released[i];
    if rt.control.leave.LeaveCall? {
      var boots := StartOverIntent(s, rt.binding);
      var t := Run(s, boots).value;
      RunKeepsCore(s, boots);
      HarmReached(t, i);
      AloneIsFree(t, i);
      BootsFirst(s, i, boots);
    } else {
      var a := DoReleased(i, Towards(rt));
      Proceeds(s, i);
      StepKeepsCore(s, a);
      SoloStepIsFree(s, i, a);
      ReadyHarms(Step(s, a).value, i);
      FreeLater(s, i, a);
    }
  }

  // From any state that peaceful runs reach, and with everybody else free to move without trespassing
  // themselves, a leave on a released handle can do harm exactly when the handle's lifecycle is `Ready`
  // or `Left`, whatever is on disk.
  lemma {:induction false} TrespassHarms(s: State, i: nat)
    requires Inv(s) && i < |s.released| && s.released[i].control.leave == NoLeave
    ensures CanHarmFreely(s, i) <==> s.released[i].control.lifecycle in {Ready, Left}
  {
    var rt := s.released[i];
    if rt.control.lifecycle in {Ready, Left} {
      var idle := Step(s, Crash).value;
      StepKeeps(s, Crash);
      if rt.control.lifecycle == Left { LeftHarms(idle, i); }
      else if Bound(s.disk, rt.binding) { ReadyHarms(idle, i); }
      else { HarmReached(idle, i); AloneIsFree(idle, i); }
      FreeLater(s, i, Crash);
    } else {
      forall actions | Unhindered(s, i, actions) && Run(s, actions).Some? ensures SoundRun(s, actions) {
        RefusingSound(s, i, actions);
      }
    }
  }
}
