/** Recovery: what interrupted cleanups converge to, how an open intent is settled, and which disks
    no run can leave.  */
module SessionRecovery {
  import opened Wrappers
  import opened SessionState
  import opened SessionSteps
  import opened SessionInvariant
  import opened SessionTheorems

  // Released handles that are not let through `begin_leave` are of no consequence.
  lemma ReleasedIdles(s: State, index: nat, c: Call)
    requires Core(s) && !Trespassing(s) && ReleasedStep(s, index, c).Some?
    ensures var s' := ReleasedStep(s, index, c).value;
            s'.disk == s.disk && s'.relay == s.relay && s'.process == s.process
  {
    RefusedTouchesNothing(World(s.disk, s.relay, s.released[index]), c);
  }

  ghost predicate JoinFree(actions: seq<Action>) {
    forall i :: 0 <= i < |actions| ==> actions[i] != Boot(BeginJoin)
  }

  // --- convergence -------------------------------------------------------------------------

  // Somewhere between two recovery attempts of the confirmed leave of `b`, or inside one.
  ghost predicate Replaying(s: State, b: Binding) {
    && b.member in s.relay.ended
    && Leftover(s.disk, b)
    && match s.process
       case Idle | OrphanRead => true
       case Starting(b', step) =>
         b' == b && (step.LoadJournal? || (step.StartCleanup? && Cleaning(s.disk, b, step.at)))
         && (step.LoadJournal? ==> s.disk.profile == Some(b))
       case OrphanCleanup(b', at) => b' == b && Cleaning(s.disk, b, at)
       case _ => false
  }

  lemma ReplayStep(s: State, b: Binding, a: Action)
    requires Core(s) && !Trespassing(s) && Replaying(s, b) && Step(s, a).Some? && a != Boot(BeginJoin)
    ensures Replaying(Step(s, a).value, b)
  {
    if a.DoReleased? { ReleasedIdles(s, a.index, a.call); }
  }

  lemma {:induction false} ReplayRun(s: State, b: Binding, actions: seq<Action>)
    requires Core(s) && Replaying(s, b) && Run(s, actions).Some? && Peaceful(s, actions) && JoinFree(actions)
    ensures Replaying(Run(s, actions).value, b)
    decreases |actions|
  {
    if actions != [] {
      assert actions[0] != Boot(BeginJoin);
      ReplayStep(s, b, actions[0]);
      StepKeepsCore(s, actions[0]);
      ReplayRun(Step(s, actions[0]).value, b, actions[1..]);
    }
  }

  // The recovery entry point that applies: `start` while metadata is left, else the orphan path.
  function RecoveryCall(disk: Disk): seq<Action> {
    match disk.profile
    case Some(b) => [Boot(BeginStart(b)), Boot(ReadJournal)] + seq(3, _ => Boot(CleanStart(Done)))
    case None =>
      if disk.journal.Confirmed? then [Boot(BeginOrphan), Boot(OrphanJournal)] + seq(3, _ => Boot(CleanOrphan(Done)))
      else [Boot(BeginOrphan), Boot(OrphanJournal)]
  }

  lemma {:induction false} CleanStartRuns(s: State, b: Binding)
    requires s.process == Starting(b, StartCleanup(ClearCredential))
    ensures Run(s, seq(3, _ => Boot(CleanStart(Done)))) == Some(s.(disk := Disk(None, None, NoJournal), process := Idle))
  {
    var a := Boot(CleanStart(Done));
    assert seq(3, _ => a) == [a] + [a] + [a];
    var s1 := Step(s, a).value;
    var s2 := Step(s1, a).value;
    var s3 := Step(s2, a).value;
    assert Run(s2, [a]) == Some(s3) by { assert [a][1..] == []; }
    assert Run(s1, [a, a]) == Some(s3) by { assert [a, a][1..] == [a]; }
    assert Run(s, [a, a, a]) == Some(s3) by { assert [a, a, a][1..] == [a, a]; }
    assert [a, a, a] == [a] + [a] + [a];
    assert s3.disk == Disk(None, None, NoJournal);
  }

  lemma {:induction false} CleanOrphanRuns(s: State, b: Binding)
    requires s.process == OrphanCleanup(b, ClearCredential)
    ensures Run(s, seq(3, _ => Boot(CleanOrphan(Done)))) == Some(s.(disk := Disk(None, None, NoJournal), process := Idle))
  {
    var a := Boot(CleanOrphan(Done));
    assert seq(3, _ => a) == [a] + [a] + [a];
    var s1 := Step(s, a).value;
    var s2 := Step(s1, a).value;
    var s3 := Step(s2, a).value;
    assert Run(s2, [a]) == Some(s3) by { assert [a][1..] == []; }
    assert Run(s1, [a, a]) == Some(s3) by { assert [a, a][1..] == [a]; }
    assert Run(s, [a, a, a]) == Some(s3) by { assert [a, a, a][1..] == [a, a]; }
    assert [a, a, a] == [a] + [a] + [a];
    assert s3.disk == Disk(None, None, NoJournal);
  }

  lemma {:induction false} TwoSteps(s: State, a: Action, b: Action)
    requires Step(s, a).Some? && Step(Step(s, a).value, b).Some?
    ensures Run(s, [a, b]) == Step(Step(s, a).value, b)
  {
    assert [a, b][1..] == [b] && [b][1..] == [];
    assert Run(Step(s, a).value, [b]) == Run(Step(Step(s, a).value, b).value, []);
  }

  lemma {:induction false} RecoverOnce(s: State, b: Binding)
    requires s.process.Idle? && Leftover(s.disk, b)
    ensures Run(s, RecoveryCall(s.disk)) == Some(s.(disk := Disk(None, None, NoJournal)))
  {
    match s.disk.profile
    case Some(_) =>
      var begin := [Boot(BeginStart(b)), Boot(ReadJournal)];
      TwoSteps(s, begin[0], begin[1]);
      var mid := Run(s, begin).value;
      CleanStartRuns(mid, b);
      RunConcat(s, begin, seq(3, _ => Boot(CleanStart(Done))));
    case None =>
      var begin := [Boot(BeginOrphan), Boot(OrphanJournal)];
      TwoSteps(s, begin[0], begin[1]);
      if s.disk.journal.Confirmed? {
        var mid := Run(s, begin).value;
        CleanOrphanRuns(mid, b);
        RunConcat(s, begin, seq(3, _ => Boot(CleanOrphan(Done))));
      }
  }

  // From a confirmed leave whose profile is absent or its own, after any join-free run of faulted
  // recoveries and crashes, one unfaulted recovery call leaves nothing on disk; calling it again
  // changes nothing.
  lemma {:induction false} RecoveryConverges(s: State, b: Binding, actions: seq<Action>)
    requires Inv(s) && s.process.Idle? && s.disk.journal == Confirmed(b)
    requires s.disk.profile.None? || s.disk.profile == Some(b)
    requires JoinFree(actions) && Run(s, actions).Some? && Peaceful(s, actions)
    ensures var crashed := Run(s, actions).value.(process := Idle);
            var done := crashed.(disk := Disk(None, None, NoJournal));
            && Run(crashed, RecoveryCall(crashed.disk)) == Some(done)
            && Run(done, RecoveryCall(done.disk)) == Some(done)
  {
    ReplayRun(s, b, actions);
    var crashed := Run(s, actions).value.(process := Idle);
    RecoverOnce(crashed, b);
    RecoverOnce(crashed.(disk := Disk(None, None, NoJournal)), b);
  }

  // --- an open intent ----------------------------------------------------------------------

  // Starts, orphaned recoveries, crashes and the relay, but no call on a runtime and no join.
  ghost predicate Restarting(a: Action) {
    a != Boot(BeginJoin) && !a.Do?
  }

  ghost predicate RestartsOnly(actions: seq<Action>) {
    forall i :: 0 <= i < |actions| ==> Restarting(actions[i])
  }

  // The intent is open, or withdrawn with the membership kept.
  ghost predicate Kept(disk: Disk, b: Binding) {
    Bound(disk, b) && (disk.journal == Intent(b) || disk.journal == NoJournal)
  }

  ghost predicate Settling(s: State, b: Binding) {
    && (Kept(s.disk, b) || (b.member in s.relay.ended && Leftover(s.disk, b)))
    && match s.process
       case Idle | OrphanRead => true
       case Starting(b', _) => b' == b
       case OrphanCleanup(b', _) => b' == b
       case Joining(_) => false
       case Live(rt) =>
         && Bound(s.disk, b) && s.disk.journal == NoJournal
         && (rt == NewRuntime(b, s.disk.credential.value, 0) || rt == NewRuntime(b, s.disk.credential.value, 1))
  }

  lemma SettlingStep(s: State, b: Binding, a: Action)
    requires Inv(s) && Settling(s, b) && Step(s, a).Some? && Restarting(a)
    ensures Settling(Step(s, a).value, b)
  {
    match a
    case DoReleased(index, call) => ReleasedIdles(s, index, call);
    case Boot(boot) => SettlingBoot(s, b, boot);
    case _ =>
  }

  lemma SettlingStart(s: State, b: Binding, a: BootAction)
    requires Inv(s) && Settling(s, b) && s.process.Starting? && StartStepOf(s, a).Some?
    ensures Settling(StartStepOf(s, a).value, b)
  {
  }

  lemma SettlingBoot(s: State, b: Binding, a: BootAction)
    requires Inv(s) && Settling(s, b) && BootStep(s, a).Some? && !a.BeginJoin?
    ensures Settling(BootStep(s, a).value, b)
  {
    if s.process.Starting? && !(a.BeginStart? || a.BeginOrphan?) { SettlingStart(s, b, a); }
  }

  // However often the profile is restarted over an open intent, with whatever faults, crashes and
  // answers: a runtime comes up only with the journal gone, for the same membership and with the
  // durable credential, renewed at most once; and either the profile and a credential of the
  // membership are all there, with the intent still open or withdrawn, or the membership is over
  // and its confirmed record or nothing is left.
  lemma {:induction false} IntentResolves(s: State, b: Binding, actions: seq<Action>)
    requires Inv(s) && s.process.Idle? && s.disk.journal == Intent(b)
    requires RestartsOnly(actions) && Run(s, actions).Some? && Peaceful(s, actions)
    ensures var s' := Run(s, actions).value;
            && (Kept(s'.disk, b) || (b.member in s'.relay.ended && Leftover(s'.disk, b)))
            && (s'.process.Live? ==>
                  && s'.process.runtime.binding == b && s'.disk.journal == NoJournal && Bound(s'.disk, b)
                  && s'.disk.credential == Some(s'.process.runtime.shared.credential)
                  && s'.process.runtime.shared.generation <= 1)
  {
    SettlingRun(s, b, actions);
  }

  lemma {:induction false} SettlingRun(s: State, b: Binding, actions: seq<Action>)
    requires Inv(s) && Settling(s, b) && RestartsOnly(actions) && Run(s, actions).Some? && Peaceful(s, actions)
    ensures Settling(Run(s, actions).value, b)
    decreases |actions|
  {
    if actions != [] {
      assert Restarting(actions[0]);
      SettlingStep(s, b, actions[0]);
      StepKeeps(s, actions[0]);
      SettlingRun(Step(s, actions[0]).value, b, actions[1..]);
    }
  }

  // --- disks no run can leave --------------------------------------------------------------

  // A journal beside a profile it does not belong to.
  ghost predicate StaleJournal(disk: Disk) {
    disk.profile.Some? && disk.journal != NoJournal && disk.journal.binding != disk.profile.value
  }

  // Without a confirmed leave, a credential that belongs to no profile or a profile without its
  // credential; or a stale journal.
  ghost predicate Stuck(disk: Disk) {
    || (!disk.journal.Confirmed? && disk.profile.None? && disk.credential.Some?)
    || (!disk.journal.Confirmed? && disk.profile.Some? && !Bound(disk, disk.profile.value))
    || StaleJournal(disk)
  }

  ghost predicate Wedged(s: State) {
    && Stuck(s.disk)
    && (s.process.Idle? || s.process.OrphanRead? || (s.process.Starting? && s.process.start.LoadJournal?))
    && (s.process.Starting? ==> s.disk.profile == Some(s.process.binding))
  }

  lemma WedgedStep(s: State, a: Action)
    requires Core(s) && !Trespassing(s) && Wedged(s) && Step(s, a).Some?
    ensures Wedged(Step(s, a).value) && Step(s, a).value.disk == s.disk
  {
    if a.DoReleased? { ReleasedIdles(s, a.index, a.call); }
  }

  // Such a disk fails closed, and for good: no run deletes anything, and none ever gets a runtime.
  lemma {:induction false} StuckFailsClosed(s: State, actions: seq<Action>)
    requires Core(s) && Wedged(s) && Run(s, actions).Some? && Peaceful(s, actions)
    ensures Run(s, actions).value.disk == s.disk && !Run(s, actions).value.process.Live?
    decreases |actions|
  {
    if actions != [] {
      WedgedStep(s, actions[0]);
      StepKeepsCore(s, actions[0]);
      StuckFailsClosed(Step(s, actions[0]).value, actions[1..]);
    }
  }

  // Some peaceful run changes the disk or gets a runtime.
  ghost predicate CanMove(s: State) {
    exists actions :: Run(s, actions).Some? && Peaceful(s, actions)
                      && (Run(s, actions).value.disk != s.disk || Run(s, actions).value.process.Live?)
  }

  // Runs of boots alone disturb nobody.
  lemma {:induction false} BootsArePeaceful(s: State, actions: seq<Action>)
    requires !Trespassing(s) && (s.process.Live? ==> !Acting(s.process.runtime.control.leave))
    requires forall i :: 0 <= i < |actions| ==> actions[i].Boot?
    ensures Peaceful(s, actions)
    decreases |actions|
  {
    if actions != [] && Step(s, actions[0]).Some? {
      assert actions[0].Boot?;
      BootDisturbsNobody(s, actions[0].boot);
      BootsArePeaceful(Step(s, actions[0]).value, actions[1..]);
    }
  }

  lemma BootDisturbsNobody(s: State, a: BootAction)
    requires !Trespassing(s) && (s.process.Live? ==> !Acting(s.process.runtime.control.leave)) && BootStep(s, a).Some?
    ensures var s' := BootStep(s, a).value;
            !Trespassing(s') && (s'.process.Live? ==> !Acting(s'.process.runtime.control.leave))
  {
  }

  lemma {:induction false} FourSteps(s: State, first: seq<Action>, second: seq<Action>)
    requires |first| == 2 && |second| == 2
    requires Run(s, first).Some? && Run(Run(s, first).value, second).Some?
    requires !Trespassing(s) && s.process.Idle?
    requires forall i :: 0 <= i < 2 ==> first[i].Boot? && second[i].Boot?
    requires var t := Run(Run(s, first).value, second).value; t.disk != s.disk || t.process.Live?
    ensures CanMove(s)
  {
    RunConcat(s, first, second);
    BootsArePeaceful(s, first + second);
  }

  function JoinCalls(squad: string): seq<Action> {
    [Boot(BeginJoin), Boot(JoinAnswer(Success, squad))] + [Boot(CredentialStored(Done)), Boot(ProfileStored(Done))]
  }

  function AskedToJoin(s: State, squad: string): State {
    s.(relay := s.relay.(nextMember := s.relay.nextMember + 1, nextSerial := s.relay.nextSerial + 1),
       process := Joining(StoreCredential(Binding(squad, s.relay.nextMember),
                                          Credential(s.relay.nextMember, s.relay.nextSerial))))
  }

  lemma {:induction false} AskRuns(s: State, squad: string)
    requires s.process.Idle? && s.disk.profile.None? && s.disk.credential.None?
    ensures Run(s, [Boot(BeginJoin), Boot(JoinAnswer(Success, squad))]) == Some(AskedToJoin(s, squad))
  {
    TwoSteps(s, Boot(BeginJoin), Boot(JoinAnswer(Success, squad)));
  }

  // An unfaulted join, up to its start: it looks at profile and credential alone.
  lemma {:induction false} JoinRuns(s: State, squad: string)
    requires s.process.Idle? && s.disk.profile.None? && s.disk.credential.None?
    ensures Run(s, JoinCalls(squad)).Some?
    ensures var b := Binding(squad, s.relay.nextMember);
            var t := Run(s, JoinCalls(squad)).value;
            && t.disk.profile == Some(b) && t.disk.journal == s.disk.journal && t.process == Starting(b, LoadJournal)
            && t.released == s.released
  {
    AskRuns(s, squad);
    TwoSteps(AskedToJoin(s, squad), Boot(CredentialStored(Done)), Boot(ProfileStored(Done)));
    RunConcat(s, [Boot(BeginJoin), Boot(JoinAnswer(Success, squad))], [Boot(CredentialStored(Done)), Boot(ProfileStored(Done))]);
  }

  // A join where neither profile nor credential is left.
  lemma EmptyMoves(s: State)
    requires s.process.Idle? && !Trespassing(s) && s.disk.profile.None? && s.disk.credential.None?
    ensures CanMove(s)
  {
    JoinRuns(s, "");
    BootsArePeaceful(s, JoinCalls(""));
  }

  // A start of a bound profile.
  lemma BoundMoves(s: State, b: Binding)
    requires s.process.Idle? && !Trespassing(s) && Bound(s.disk, b) && (s.disk.journal == NoJournal || s.disk.journal == Intent(b))
    ensures CanMove(s)
  {
    var first := [Boot(BeginStart(b)), Boot(ReadJournal)];
    TwoSteps(s, first[0], first[1]);
    var mid := Run(s, first).value;
    if s.disk.journal == NoJournal {
      var up := first + [Boot(FirstAnswer(Success))];
      RunConcat(s, first, [Boot(FirstAnswer(Success))]);
      OneStep(mid, Boot(FirstAnswer(Success)));
      BootsArePeaceful(s, up);
    } else {
      var drop := [Boot(FirstAnswer(Success)), Boot(IntentDropped(Done))];
      TwoSteps(mid, drop[0], drop[1]);
      FourSteps(s, first, drop);
    }
  }

  lemma {:induction false} OneStep(s: State, a: Action)
    ensures Run(s, [a]) == Step(s, a)
  {
    assert [a][1..] == [];
    if Step(s, a).Some? { assert Run(Step(s, a).value, []) == Step(s, a); }
  }

  // The remains of a confirmed leave.
  lemma ConfirmedMoves(s: State, b: Binding)
    requires s.process.Idle? && !Trespassing(s) && s.disk.journal == Confirmed(b) && Leftover(s.disk, b)
    ensures CanMove(s)
  {
    RecoverOnce(s, b);
    BootsArePeaceful(s, RecoveryCall(s.disk));
  }

  // Exactly these idle disks are never left: no peaceful run changes anything or gets a runtime.
  lemma StuckExactly(s: State)
    requires Core(s) && !Trespassing(s) && s.process.Idle?
    ensures !CanMove(s) <==> Stuck(s.disk)
  {
    if Stuck(s.disk) {
      forall actions | Run(s, actions).Some? && Peaceful(s, actions)
        ensures Run(s, actions).value.disk == s.disk && !Run(s, actions).value.process.Live?
      {
        StuckFailsClosed(s, actions);
      }
    } else {
      if s.disk.journal.Confirmed? { ConfirmedMoves(s, s.disk.journal.binding); }
      else if s.disk.profile.Some? { BoundMoves(s, s.disk.profile.value); }
      else { EmptyMoves(s); }
    }
  }

  // --- how one gets there ------------------------------------------------------------------

  // The endings of a join that strand the profile: an error or a crash with the credential stored and
  // no profile to it, or the credential scrubbed from under a profile that was stored after all.
  ghost predicate Strands(s: State, a: Action) {
    && s.process.Joining?
    && match s.process.join
       case JoinCall => false
       case StoreCredential(_, _) => a == Boot(CredentialStored(FailedAfter))
       case StoreProfile(_, _) => a == Crash
       case ScrubCredential(_, _) =>
         if s.disk.profile.None? then a == Crash || a == Boot(Scrub(FailedBefore))
         else a == Boot(Scrub(Done)) || a == Boot(Scrub(FailedAfter))
  }

  // A join is attempted only where no journal is left, as a caller that ran the orphan recovery
  // first can see.
  ghost predicate JoinsClean(s: State, a: Action) {
    a == Boot(BeginJoin) ==> s.disk.journal == NoJournal
  }

  ghost predicate Unstranded(s: State) {
    Inv(s) && if s.process.Joining? then s.disk.journal == NoJournal else !Stuck(s.disk)
  }

  // Of all steps that end or leave out a join, exactly the stranding ones reach such a disk.
  lemma StrandsExactly(s: State, a: Action)
    requires Unstranded(s) && Step(s, a).Some? && JoinsClean(s, a)
    ensures var s' := Step(s, a).value;
            if s'.process.Joining? then s'.disk.journal == NoJournal else (Stuck(s'.disk) <==> Strands(s, a))
  {
    match a
    case Boot(boot) => BootStrands(s, boot);
    case Do(call) =>
      var w := World(s.disk, s.relay, s.process.runtime);
      CallDurable(w, call);
      DurableIsNotStuck(CallStep(w, call).value.disk, CallStep(w, call).value.rt);
    case DoReleased(index, call) => ReleasedIdles(s, index, call);
    case _ =>
  }

  lemma DurableIsNotStuck(disk: Disk, rt: Runtime)
    requires RuntimeDurable(disk, rt)
    ensures !Stuck(disk)
  {
  }

  lemma BootStrands(s: State, a: BootAction)
    requires Unstranded(s) && BootStep(s, a).Some? && (a == BeginJoin ==> s.disk.journal == NoJournal)
    ensures var s' := BootStep(s, a).value;
            if s'.process.Joining? then s'.disk.journal == NoJournal else (Stuck(s'.disk) <==> Strands(s, Boot(a)))
  {
  }

  // Every join begins over an empty journal and is not stranded.
  ghost predicate Careful(s: State, actions: seq<Action>)
    decreases |actions|
  {
    actions == [] ||
    (&& JoinsClean(s, actions[0]) && !Strands(s, actions[0])
     && (Step(s, actions[0]).Some? ==> Careful(Step(s, actions[0]).value, actions[1..])))
  }

  // Runs with careful joins never come to a disk they cannot leave ...
  lemma {:induction false} CarefulNeverStuck(s: State, actions: seq<Action>)
    requires Unstranded(s) && Run(s, actions).Some? && Peaceful(s, actions) && Careful(s, actions)
    ensures Unstranded(Run(s, actions).value)
    decreases |actions|
  {
    if actions != [] {
      StrandsExactly(s, actions[0]);
      StepKeeps(s, actions[0]);
      CarefulNeverStuck(Step(s, actions[0]).value, actions[1..]);
    }
  }

  // ... and every unfaulted join over a confirmed journal does.
  lemma {:induction false} StaleJoinWedges(s: State, squad: string)
    requires Inv(s) && s.process.Idle? && s.disk.journal.Confirmed?
    requires s.disk.profile.None? && s.disk.credential.None?
    ensures Run(s, JoinCalls(squad)).Some?
    ensures Wedged(Run(s, JoinCalls(squad)).value) && StaleJournal(Run(s, JoinCalls(squad)).value.disk)
  {
    JoinRuns(s, squad);
  }
}
