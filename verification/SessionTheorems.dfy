/** What holds in every run of the session supervisor: any interleaving of leave, recovery, joins,
    sends, reports, heartbeats, rotations and shutdown, with faults of every durable write, crashes
    at every step, relay answers that are lost, refused or applied late, and calls on handles that
    have given up their lock.  What needs the absence of trespassers says so.  */
module SessionTheorems {
  import opened Wrappers
  import opened SessionState
  import opened SessionSteps
  import opened SessionInvariant

  // No state of the run has an accepted leave on a handle whose lock somebody else took.
  ghost predicate Peaceful(s: State, actions: seq<Action>)
    decreases |actions|
  {
    && !Trespassing(s)
    && (actions != [] && Step(s, actions[0]).Some? ==> Peaceful(Step(s, actions[0]).value, actions[1..]))
  }

  lemma {:induction false} RunKeepsCore(s: State, actions: seq<Action>)
    requires Core(s) && Run(s, actions).Some?
    ensures Core(Run(s, actions).value)
    decreases |actions|
  {
    if actions != [] {
      StepKeepsCore(s, actions[0]);
      RunKeepsCore(Step(s, actions[0]).value, actions[1..]);
    }
  }

  lemma {:induction false} RunKeeps(s: State, actions: seq<Action>)
    requires Inv(s) && Run(s, actions).Some? && Peaceful(s, actions)
    ensures Inv(Run(s, actions).value)
    decreases |actions|
  {
    if actions != [] {
      StepKeeps(s, actions[0]);
      RunKeeps(Step(s, actions[0]).value, actions[1..]);
    }
  }

  lemma {:induction false} ReachableCore(actions: seq<Action>)
    requires Run(INITIAL, actions).Some?
    ensures Core(Run(INITIAL, actions).value)
  {
    RunKeepsCore(INITIAL, actions);
  }

  lemma {:induction false} ReachableInv(actions: seq<Action>)
    requires Run(INITIAL, actions).Some? && Peaceful(INITIAL, actions)
    ensures Inv(Run(INITIAL, actions).value)
  {
    RunKeeps(INITIAL, actions);
  }

  lemma {:induction false} RunConcat(s: State, first: seq<Action>, second: seq<Action>)
    requires Run(s, first).Some?
    ensures Run(s, first + second) == Run(Run(s, first).value, second)
    decreases |first|
  {
    if first == [] {
      assert first + second == second;
    } else {
      assert (first + second)[0] == first[0] && (first + second)[1..] == first[1..] + second;
      RunConcat(Step(s, first[0]).value, first[1..], second);
    }
  }

  // --- what a caller can see to ------------------------------------------------------------

  // No leave is begun on a handle that has released its lock, whether or not somebody took it.
  ghost predicate BeginsLocked(s: State, a: Action) {
    && (a == Do(ALeave(BeginLeave)) && s.process.Live? ==> s.process.runtime.control.locked)
    && (a.DoReleased? ==> a.call != ALeave(BeginLeave))
  }

  ghost predicate LocksRespected(s: State, actions: seq<Action>)
    decreases |actions|
  {
    actions == [] ||
    (&& BeginsLocked(s, actions[0])
     && (Step(s, actions[0]).Some? ==> LocksRespected(Step(s, actions[0]).value, actions[1..])))
  }

  // No handle without its lock is inside a leave.
  ghost predicate UnlockedRest(s: State) {
    && (s.process.Live? && !s.process.runtime.control.locked ==> s.process.runtime.control.leave == NoLeave)
    && (forall i :: 0 <= i < |s.released| ==> s.released[i].control.leave == NoLeave)
  }

  lemma UnlockedLeave(w: World, a: LeaveAction)
    requires LeaveStepOf(w, a).Some? && (!w.rt.control.locked ==> w.rt.control.leave == NoLeave && a != BeginLeave)
    ensures var rt := LeaveStepOf(w, a).value.rt; !rt.control.locked ==> rt.control.leave == NoLeave
  {
  }

  lemma UnlockedCall(w: World, c: Call)
    requires CallStep(w, c).Some? && (!w.rt.control.locked ==> w.rt.control.leave == NoLeave)
    requires c == ALeave(BeginLeave) ==> w.rt.control.locked
    ensures var rt := CallStep(w, c).value.rt; !rt.control.locked ==> rt.control.leave == NoLeave
  {
    if c.ALeave? { UnlockedLeave(w, c.leave); }
  }

  lemma UnlockedStep(s: State, a: Action)
    requires Core(s) && UnlockedRest(s) && Step(s, a).Some? && BeginsLocked(s, a)
    ensures UnlockedRest(Step(s, a).value)
  {
    match a
    case Do(call) => UnlockedCall(World(s.disk, s.relay, s.process.runtime), call);
    case DoReleased(index, call) =>
      var w := World(s.disk, s.relay, s.released[index]);
      UnlockedCall(w, call);
      StaysReleased(w, call);
    case Boot(boot) => UnlockedBoot(s, boot);
    case _ =>
  }

  lemma UnlockedBoot(s: State, a: BootAction)
    requires UnlockedRest(s) && BootStep(s, a).Some?
    ensures UnlockedRest(BootStep(s, a).value)
  {
  }

  // A run in which every leave is begun on a handle that still owns its lock has no trespasser, and
  // so has all that follows from that.
  lemma {:induction false} LockedLeavesArePeaceful(s: State, actions: seq<Action>)
    requires Core(s) && UnlockedRest(s) && Run(s, actions).Some? && LocksRespected(s, actions)
    ensures Peaceful(s, actions)
    decreases |actions|
  {
    if actions != [] {
      UnlockedStep(s, actions[0]);
      StepKeepsCore(s, actions[0]);
      LockedLeavesArePeaceful(Step(s, actions[0]).value, actions[1..]);
    }
  }

  // The runtimes there are: the lock holder's, and the released ones.
  ghost predicate Handle(s: State, rt: Runtime) {
    s.process == Live(rt) || rt in s.released
  }

  // --- the leave journal -------------------------------------------------------------------

  // In every run a confirmed journal proves that the membership is over.  Without trespassers an
  // intent always finds its profile and a credential of the same membership still in place.
  lemma {:induction false} JournalIsTruthful(actions: seq<Action>)
    requires Run(INITIAL, actions).Some?
    ensures var s := Run(INITIAL, actions).value;
            && (s.disk.journal.Confirmed? ==> s.disk.journal.binding.member in s.relay.ended)
            && (s.disk.journal.Intent? && !Bound(s.disk, s.disk.journal.binding) ==> !Peaceful(INITIAL, actions))
  {
    ReachableCore(actions);
    if Peaceful(INITIAL, actions) { ReachableInv(actions); }
  }

  // Some durable authority disappears between the two disks.
  ghost predicate Removes(before: Disk, after: Disk) {
    (before.profile.Some? && after.profile.None?) || (before.credential.Some? && after.credential.None?)
  }

  // The binding whose cleanup an action carries on.
  ghost function Cleaner(s: State, a: Action): Option<Binding> {
    match a
    case Boot(CleanStart(_)) => if s.process.Starting? then Some(s.process.binding) else None
    case Boot(CleanOrphan(_)) => if s.process.OrphanCleanup? then Some(s.process.binding) else None
    case Do(ALeave(Clean(_))) => if s.process.Live? then Some(s.process.runtime.binding) else None
    case DoReleased(i, ALeave(Clean(_))) => if i < |s.released| then Some(s.released[i].binding) else None
    case _ => None
  }

  lemma CallRemoves(w: World, c: Call)
    requires CoreWorld(w) && CallStep(w, c).Some? && Removes(w.disk, CallStep(w, c).value.disk)
    ensures c.ALeave? && c.leave.Clean? && w.rt.binding.member in w.relay.ended
  {
  }

  lemma BootRemoves(s: State, a: BootAction)
    requires Core(s) && BootStep(s, a).Some? && Removes(s.disk, BootStep(s, a).value.disk) && !a.Scrub?
    ensures Cleaner(s, Boot(a)).Some? && Cleaner(s, Boot(a)).value.member in s.relay.ended
  {
  }

  lemma RemovesOnlyOver(s: State, a: Action)
    requires Core(s) && Step(s, a).Some? && Removes(s.disk, Step(s, a).value.disk) && !Scrubs(a)
    ensures Cleaner(s, a).Some? && Cleaner(s, a).value.member in s.relay.ended
  {
    match a
    case Boot(boot) => BootRemoves(s, boot);
    case Do(call) => CallRemoves(World(s.disk, s.relay, s.process.runtime), call);
    case DoReleased(index, call) => CallRemoves(World(s.disk, s.relay, s.released[index]), call);
    case _ =>
  }

  // Outside the scrub of a failed join, nothing is ever removed in any run but by the cleanup of a
  // membership that is over.  Without trespassers that membership is the one the profile names, its
  // leave is journalled as confirmed, and a scrub removes exactly the credential its own join stored.
  lemma {:induction false} DeletesOnlyConfirmed(actions: seq<Action>, a: Action)
    requires Run(INITIAL, actions).Some?
    requires var s := Run(INITIAL, actions).value; Step(s, a).Some? && Removes(s.disk, Step(s, a).value.disk)
    ensures var s := Run(INITIAL, actions).value;
            if Scrubs(a) then Peaceful(INITIAL, actions) ==> RemovesItsOwn(s, Step(s, a).value)
            else
              && Cleaner(s, a).Some? && Cleaner(s, a).value.member in s.relay.ended
              && (Peaceful(INITIAL, actions) ==>
                    && s.disk.journal == Confirmed(Cleaner(s, a).value)
                    && (s.disk.profile.Some? ==> s.disk.profile == Cleaner(s, a)))
  {
    var s := Run(INITIAL, actions).value;
    ReachableCore(actions);
    if !Scrubs(a) { RemovesOnlyOver(s, a); }
    if Peaceful(INITIAL, actions) {
      ReachableInv(actions);
      if !Scrubs(a) { RemovesConfirmed(s, a); }
    }
  }

  ghost predicate Scrubs(a: Action) {
    a.Boot? && a.boot.Scrub?
  }

  // The credential is the one this join stored, no profile but this join's is there, and nothing else
  // is touched.
  ghost predicate RemovesItsOwn(s: State, s': State) {
    && s.process.Joining? && s.process.join.ScrubCredential?
    && s.disk.credential == Some(s.process.join.credential)
    && (s.disk.profile.Some? ==> s.disk.profile == Some(s.process.join.binding))
    && s'.disk == s.disk.(credential := None)
  }

  lemma RemovesConfirmed(s: State, a: Action)
    requires Inv(s) && Step(s, a).Some? && Removes(s.disk, Step(s, a).value.disk) && Cleaner(s, a).Some?
    ensures s.disk.journal == Confirmed(Cleaner(s, a).value)
    ensures s.disk.profile.Some? ==> s.disk.profile == Cleaner(s, a)
  {
    match a
    case Boot(_) =>
    case Do(call) => CallRemoves(World(s.disk, s.relay, s.process.runtime), call);
    case DoReleased(index, call) => RefusedTouchesNothing(World(s.disk, s.relay, s.released[index]), call);
  }

  // --- published authority -----------------------------------------------------------------

  // Without trespassers nothing is published that is not already durable, and while the session is
  // usable the disk holds exactly the published credential.
  lemma {:induction false} PublishedIsDurable(actions: seq<Action>, a: Action)
    requires Run(INITIAL, actions).Some? && Peaceful(INITIAL, actions)
    requires var s := Run(INITIAL, actions).value;
             && s.process.Live? && Step(s, a).Some? && Step(s, a).value.process.Live?
    ensures var s := Run(INITIAL, actions).value;
            var rt, rt' := s.process.runtime, Step(s, a).value.process.runtime;
            && (rt'.shared.credential != rt.shared.credential ==> s.disk.credential == Some(rt'.shared.credential))
            && (Usable(rt.control) ==> s.disk.credential == Some(rt.shared.credential))
  {
    ReachableInv(actions);
    OnlyPublishChanges(Run(INITIAL, actions).value, a);
  }

  lemma OnlyPublishChanges(s: State, a: Action)
    requires s.process.Live? && Step(s, a).Some? && Step(s, a).value.process.Live?
    ensures var rt, rt' := s.process.runtime, Step(s, a).value.process.runtime;
            rt'.shared.credential != rt.shared.credential ==>
              && a == Do(ARotation(Publish))
              && rt.gate.ByRotator? && rt.gate.at == PublishFresh(rt'.shared.credential)
              && rt'.shared.generation == NextGeneration(rt.shared.generation)
  {
    if a.Do? {
      var w := World(s.disk, s.relay, s.process.runtime);
      if a.call.ALeave? { LeavePublishesNothing(w, a.call.leave); }
      else if a.call.ARotation? && RotationStepOf(w, a.call.rotation).value.rt.shared.credential != w.rt.shared.credential {
        RotationPublishes(w, a.call.rotation);
      }
    } else if a.Boot? {
      BootGoesLiveFromStart(s, a.boot);
    }
  }

  lemma BootGoesLiveFromStart(s: State, a: BootAction)
    requires BootStep(s, a).Some? && BootStep(s, a).value.process.Live?
    ensures s.process.Starting?
  {
  }

  lemma RotationPublishes(w: World, a: RotationAction)
    requires RotationStepOf(w, a).Some? && RotationStepOf(w, a).value.rt.shared.credential != w.rt.shared.credential
    ensures a == Publish && w.rt.gate.ByRotator?
    ensures w.rt.gate.at == PublishFresh(RotationStepOf(w, a).value.rt.shared.credential)
    ensures RotationStepOf(w, a).value.rt.shared.generation == NextGeneration(w.rt.shared.generation)
  {
  }

  lemma LeavePublishesNothing(w: World, a: LeaveAction)
    requires LeaveStepOf(w, a).Some?
    ensures LeaveStepOf(w, a).value.rt.shared.credential == w.rt.shared.credential
  {
  }

  // Every send on the wire holds the gate alone, names the current generation, and below
  // saturation carries the published credential; no step of anyone changes that credential
  // while the call is out.
  lemma {:induction false} WireCarriesPublished(actions: seq<Action>, id: nat, a: Action)
    requires Run(INITIAL, actions).Some?
    requires var s := Run(INITIAL, actions).value;
             && s.process.Live? && id in s.process.runtime.sends.active
             && s.process.runtime.sends.active[id].OnWire?
             && Step(s, a).Some?
    ensures var s := Run(INITIAL, actions).value;
            var rt := s.process.runtime;
            var send := rt.sends.active[id];
            && send.generation == rt.shared.generation
            && (rt.shared.generation < U64_MAX ==> send.credential == rt.shared.credential)
            && (forall other :: other in rt.sends.active && other != id ==> rt.sends.active[other].Owned?)
            && (Step(s, a).value.process.Live? ==>
                  Step(s, a).value.process.runtime.shared.credential == rt.shared.credential)
  {
    var s := Run(INITIAL, actions).value;
    ReachableCore(actions);
    var rt := s.process.runtime;
    var send := rt.sends.active[id];
    assert SendInv(id, send, rt.shared, rt.gate);
    var p, q := (send.generation, send.credential), (rt.shared.generation, rt.shared.credential);
    assert p in rt.shared.published && q in rt.shared.published;
    if Step(s, a).value.process.Live? { OnlyPublishChanges(s, a); }
  }

  // Below saturation a generation names one credential, whatever snapshots are still around.
  lemma {:induction false} GenerationNamesCredential(actions: seq<Action>, rt: Runtime, g: nat, c: Credential, c': Credential)
    requires Run(INITIAL, actions).Some? && Handle(Run(INITIAL, actions).value, rt)
    requires (g, c) in rt.shared.published && (g, c') in rt.shared.published && g < U64_MAX
    ensures c == c'
  {
    ReachableCore(actions);
    var p, q := (g, c), (g, c');
    assert p.0 == q.0;
  }

  // --- drain fences ------------------------------------------------------------------------

  // While a handle has its leave on the wire it has no owned send and no report in flight, nobody
  // else of it holds the heartbeat gate, and nobody can be admitted.
  lemma {:induction false} LeaveFence(actions: seq<Action>, rt: Runtime)
    requires Run(INITIAL, actions).Some? && Handle(Run(INITIAL, actions).value, rt) && rt.control.leave == LeaveCall
    ensures rt.sends.active == map[] && rt.reports.active == {} && rt.gate == ByLeave
    ensures !rt.sends.open && !rt.reports.open
  {
    ReachableCore(actions);
  }

  // When shutdown releases the profile lock, and ever after on that handle, no send and no report
  // is in flight, both gates are closed for good, the heartbeat was told to stop, and no rotation can
  // begin.
  lemma {:induction false} ReleaseFence(actions: seq<Action>, rt: Runtime)
    requires Run(INITIAL, actions).Some? && Handle(Run(INITIAL, actions).value, rt) && !rt.control.locked
    ensures rt.sends.active == map[] && rt.reports.active == {}
    ensures rt.sends.closed && !rt.sends.open && rt.reports.closed && !rt.reports.open && rt.beat.cancelled
    ensures rt in Run(INITIAL, actions).value.released ==> OwnershipFree(rt.beat) && !rt.gate.ByRotator?
  {
    ReachableCore(actions);
  }

  // A resume transaction that outlived its aborted heartbeat task can still store a credential,
  // but never while a leave of the same runtime is past `begin_leave`.
  lemma {:induction false} OrphanExcludesLeave(actions: seq<Action>, rt: Runtime)
    requires Run(INITIAL, actions).Some? && Handle(Run(INITIAL, actions).value, rt) && !rt.beat.orphan.NoOrphan?
    ensures !LeavingStep(rt.control.leave) && !Confirming(rt.control)
  {
    ReachableCore(actions);
  }
}
