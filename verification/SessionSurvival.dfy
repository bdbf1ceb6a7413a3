/** Power losses and the disks no run can leave: which writes, left unsynced, let a power loss strand
    the profile, and that recovery converges without them.  */
module SessionSurvival {
  import opened Wrappers
  import opened SessionState
  import opened SessionSteps
  import opened SessionInvariant
  import opened SessionTheorems
  import opened SessionRecovery
  import opened SessionPower

  // A disk that lies about its intent or that no run can leave.
  ghost predicate Bad(disk: Disk) {
    Stuck(disk) || !IntentBound(disk)
  }

  ghost predicate Safe(kept: Survivors) {
    forall d :: MayFind(kept, d) ==> !Bad(d)
  }

  ghost predicate HasProfile(kept: Survivors) {
    exists p :: p in kept.profile && p != None
  }

  // --- outside joins -----------------------------------------------------------------------

  // The writes after which a power loss can leave a bad disk:
  //  - the credential is removed while an intent can come back, or the absence of the journal can
  //    together with the profile;
  //  - an intent is journalled without a sync while the profile may not be what it seems;
  //  - the record of a confirmed leave is removed while the credential it stood for can come back, or,
  //    without a sync, the profile can.
  ghost predicate Threatens(kept: Survivors, before: Disk, after: Disk, w: Write) {
    match w
    case NoWrite => false
    case Write(CredentialCell, io) =>
      && io != FailedBefore && before.credential.Some? && after.credential.None?
      && (HasIntent(kept) || (HasProfile(kept) && NoJournal in kept.journal))
    case Write(ProfileCell, _) => false
    case Write(JournalCell, io) =>
      || (io == FailedAfter && after.journal.Intent? && kept.profile != {after.profile})
      || (&& io != FailedBefore && before.journal.Confirmed? && after.journal == NoJournal
          && (kept.credential != {None} || (io == FailedAfter && kept.profile != {None})))
  }

  // Outside a join credentials are replaced or removed, and profiles removed.
  ghost predicate NoFirstStore(before: Disk, after: Disk, w: Write) {
    match w
    case NoWrite => true
    case Write(cell, io) =>
      || io == FailedBefore
      || (cell == CredentialCell && (after.credential.Some? ==> before.credential.Some?))
      || (cell == ProfileCell && after.profile.None?)
      || cell == JournalCell
  }

  lemma OutsideJoins(s: State, a: Action)
    requires Inv(s) && Step(s, a).Some? && !s.process.Joining?
    ensures NoFirstStore(s.disk, Step(s, a).value.disk, WriteOf(s, a))
  {
    StepIsRegular(s, a);
    match a
    case Do(ARotation(rotation)) => RotationReplaces(World(s.disk, s.relay, s.process.runtime), rotation);
    case Do(call) =>
    case Boot(boot) => BootReplaces(s, boot);
    case _ =>
  }

  lemma RotationReplaces(w: World, a: RotationAction)
    requires CoreWorld(w) && DurableWorld(w) && RotationStepOf(w, a).Some?
    ensures NoFirstStore(w.disk, RotationStepOf(w, a).value.disk, CallWrite(w.rt, ARotation(a)))
  {
  }

  lemma BootReplaces(s: State, a: BootAction)
    requires Core(s) && Durable(s) && BootStep(s, a).Some? && !s.process.Joining?
    ensures NoFirstStore(s.disk, BootStep(s, a).value.disk, BootWrite(s.process, a))
  {
  }

  lemma RemovedCredential(kept: Survivors, before: Disk, after: Disk, io: Io)
    requires MayFind(kept, before) && Safe(kept) && io != FailedBefore
    requires after == before.(credential := None) && before.credential.Some?
    ensures Safe(Outlive(kept, before, after, Write(CredentialCell, io))) <==>
              !(HasIntent(kept) || (HasProfile(kept) && NoJournal in kept.journal))
  {
    var kept' := Outlive(kept, before, after, Write(CredentialCell, io));
    if HasIntent(kept) {
      var j :| j in kept.journal && j.Intent?;
      var d := Disk(None, before.profile, j);
      assert MayFind(kept', d) && Bad(d);
    } else if HasProfile(kept) && NoJournal in kept.journal {
      var p :| p in kept.profile && p != None;
      var d := Disk(None, p, NoJournal);
      assert MayFind(kept', d) && Bad(d);
    } else {
      forall d | MayFind(kept', d) ensures !Bad(d) {
        assert MayFind(kept, d.(credential := before.credential));
      }
    }
  }

  lemma RenewedCredential(kept: Survivors, before: Disk, after: Disk, io: Io)
    requires MayFind(kept, before) && Safe(kept) && io != FailedBefore
    requires OnlyWrites(before, after, Write(CredentialCell, io)) && Regular(before, after, CredentialCell)
    requires before.credential.Some? && after.credential.Some?
    ensures Safe(Outlive(kept, before, after, Write(CredentialCell, io)))
  {
    forall d | MayFind(Outlive(kept, before, after, Write(CredentialCell, io)), d) ensures !Bad(d) {
      if d.credential == after.credential { assert MayFind(kept, d.(credential := before.credential)); }
    }
  }

  lemma RemovedProfile(kept: Survivors, before: Disk, after: Disk, io: Io)
    requires MayFind(kept, before) && Safe(kept) && io != FailedBefore
    requires after == before.(profile := None) && before.credential.None?
    ensures Safe(Outlive(kept, before, after, Write(ProfileCell, io)))
  {
    forall d | MayFind(Outlive(kept, before, after, Write(ProfileCell, io)), d) ensures !Bad(d) {
      if before.profile.Some? && d.profile.None? {
        assert MayFind(kept, Disk(None, before.profile, d.journal));
      }
    }
  }

  lemma OpenedJournal(kept: Survivors, before: Disk, after: Disk, io: Io)
    requires MayFind(kept, before) && Safe(kept) && io != FailedBefore
    requires OnlyWrites(before, after, Write(JournalCell, io)) && Regular(before, after, JournalCell) && after.journal.Intent?
    ensures Safe(Outlive(kept, before, after, Write(JournalCell, io))) <==> !(io == FailedAfter && kept.profile != {after.profile})
  {
    var kept' := Outlive(kept, before, after, Write(JournalCell, io));
    if io == FailedAfter && kept.profile != {after.profile} {
      var p :| p in kept.profile && p != after.profile;
      var d := Disk(before.credential, p, after.journal);
      assert MayFind(kept', d) && Bad(d);
    } else {
      forall d | MayFind(kept', d) ensures !Bad(d) {
        if d.journal == after.journal { assert MayFind(kept, Disk(d.credential, before.profile, before.journal)); }
      }
    }
  }

  lemma ConfirmedJournal(kept: Survivors, before: Disk, after: Disk, io: Io)
    requires MayFind(kept, before) && Safe(kept) && io != FailedBefore
    requires OnlyWrites(before, after, Write(JournalCell, io)) && Regular(before, after, JournalCell) && after.journal.Confirmed?
    ensures Safe(Outlive(kept, before, after, Write(JournalCell, io)))
  {
    forall d | MayFind(Outlive(kept, before, after, Write(JournalCell, io)), d) ensures !Bad(d) {
      if d.journal == after.journal && d.profile in kept.profile { assert MayFind(kept, d.(journal := before.journal)); }
    }
  }

  lemma WithdrawnJournal(kept: Survivors, before: Disk, after: Disk, io: Io)
    requires MayFind(kept, before) && Safe(kept) && io != FailedBefore
    requires after == before.(journal := NoJournal) && before.journal.Intent?
    ensures Safe(Outlive(kept, before, after, Write(JournalCell, io)))
  {
    forall d | MayFind(Outlive(kept, before, after, Write(JournalCell, io)), d) ensures !Bad(d) {
      if d.journal == NoJournal { assert MayFind(kept, d.(journal := before.journal)); }
    }
  }

  lemma RemovedJournal(kept: Survivors, before: Disk, after: Disk, io: Io)
    requires MayFind(kept, before) && Safe(kept) && io != FailedBefore
    requires after == before.(journal := NoJournal) && before.profile.None? && before.credential.None? && before.journal.Confirmed?
    ensures Safe(Outlive(kept, before, after, Write(JournalCell, io))) <==>
              !(kept.credential != {None} || (io == FailedAfter && kept.profile != {None}))
  {
    var kept' := Outlive(kept, before, after, Write(JournalCell, io));
    if kept.credential != {None} {
      var c :| c in kept.credential && c != None;
      var d := Disk(c, None, NoJournal);
      assert MayFind(kept', d) && Bad(d);
    } else if io == FailedAfter && kept.profile != {None} {
      var p :| p in kept.profile && p != None;
      var d := Disk(None, p, NoJournal);
      assert MayFind(kept', d) && Bad(d);
    }
  }

  // Outside joins exactly the threatening writes lose safety.
  lemma ThreatensExactly(kept: Survivors, before: Disk, after: Disk, w: Write)
    requires MayFind(kept, before) && Safe(kept)
    requires OnlyWrites(before, after, w) && RegularWrite(before, after, w) && NoFirstStore(before, after, w)
    ensures Safe(Outlive(kept, before, after, w)) <==> !Threatens(kept, before, after, w)
  {
    if !w.NoWrite? && w.io != FailedBefore && !NothingToRemove(before, after, w.cell) {
      match w.cell
      case CredentialCell =>
        if after.credential.None? { RemovedCredential(kept, before, after, w.io); }
        else { RenewedCredential(kept, before, after, w.io); }
      case ProfileCell => RemovedProfile(kept, before, after, w.io);
      case JournalCell =>
        match after.journal
        case Intent(_) => OpenedJournal(kept, before, after, w.io);
        case Confirmed(_) => ConfirmedJournal(kept, before, after, w.io);
        case NoJournal =>
          if before.journal.Intent? { WithdrawnJournal(kept, before, after, w.io); }
          else { RemovedJournal(kept, before, after, w.io); }
    }
  }

  // --- joins -------------------------------------------------------------------------------

  // Past its first store a join has the credential durable, and is safe once more without it.
  ghost predicate JoinSafe(m: Machine)
    requires m.state.process.Joining?
  {
    && m.state.disk.journal == NoJournal
    && match m.state.process.join
       case JoinCall => Safe(m.kept)
       case StoreCredential(_, _) => Safe(m.kept)
       case StoreProfile(_, c) => m.kept.credential == {Some(c)} && Safe(m.kept.(credential := {None}))
       case ScrubCredential(_, c) =>
         && m.kept.credential == {Some(c)} && None in m.kept.profile
         && (m.state.disk.profile.None? ==> Safe(m.kept.(credential := {None})))
  }

  ghost predicate SafeMachine(m: Machine) {
    && MachineCore(m) && Inv(m.state)
    && if m.state.process.Joining? then JoinSafe(m) else Safe(m.kept)
  }

  // The endings of a join that leave a disk, seen or to come back, that is bad.
  ghost predicate Forsakes(s: State, a: Action)
    requires s.process.Joining?
  {
    match s.process.join
    case JoinCall => false
    case StoreCredential(_, _) => a == Boot(CredentialStored(FailedAfter))
    case StoreProfile(_, _) => a == Crash
    case ScrubCredential(_, _) => a == Crash || (Scrubs(a) && !(a == Boot(Scrub(Done)) && s.disk.profile.None?))
  }

  ghost predicate Endangers(m: Machine, a: Action)
    requires Step(m.state, a).Some?
  {
    if m.state.process.Joining? then Forsakes(m.state, a)
    else Threatens(m.kept, m.state.disk, Step(m.state, a).value.disk, WriteOf(m.state, a))
  }

  lemma JoinBootEnds(m: Machine, a: BootAction)
    requires SafeMachine(m) && m.state.process.Joining? && BootStep(m.state, a).Some?
    ensures var s' := BootStep(m.state, a).value;
            var m' := Acted(m, Boot(a), s');
            if s'.process.Joining? then JoinSafe(m') else (Safe(m'.kept) <==> !Forsakes(m.state, Boot(a)))
  {
    var s' := BootStep(m.state, a).value;
    var m' := Acted(m, Boot(a), s');
    match m.state.process.join
    case JoinCall =>
    case StoreCredential(_, c) =>
      if a == CredentialStored(FailedAfter) { assert MayFind(m'.kept, s'.disk) && Bad(s'.disk); }
      else if a == CredentialStored(Done) { SaferWithout(m.kept, m'.kept); }
    case StoreProfile(b, c) =>
    case ScrubCredential(b, c) => ScrubEnds(m, a.io);
  }

  lemma SaferWithout(kept: Survivors, kept': Survivors)
    requires Safe(kept) && None in kept.credential && kept'.profile == kept.profile && kept'.journal == kept.journal
    ensures Safe(kept'.(credential := {None}))
  {
    assert forall d :: MayFind(kept'.(credential := {None}), d) ==> MayFind(kept, d);
  }

  lemma ScrubEnds(m: Machine, io: Io)
    requires SafeMachine(m) && m.state.process.Joining? && m.state.process.join.ScrubCredential?
    ensures var s' := JoinStepOf(m.state, Scrub(io)).value;
            Safe(Outlive(m.kept, m.state.disk, s'.disk, Write(CredentialCell, io))) <==>
              (io == Done && m.state.disk.profile.None?)
  {
    var s' := JoinStepOf(m.state, Scrub(io)).value;
    var kept' := Outlive(m.kept, m.state.disk, s'.disk, Write(CredentialCell, io));
    var c := m.state.process.join.credential;
    if io != Done {
      var d := Disk(Some(c), None, NoJournal);
      assert MayFind(kept', d) && Bad(d);
    } else if m.state.disk.profile.Some? {
      assert MayFind(kept', s'.disk) && Bad(s'.disk);
    } else {
      assert kept' == m.kept.(credential := {None});
    }
  }

  lemma CrashEnds(m: Machine)
    requires SafeMachine(m) && m.state.process.Joining?
    ensures Safe(m.kept) <==> !Forsakes(m.state, Crash)
  {
    var join := m.state.process.join;
    if join.StoreProfile? || join.ScrubCredential? {
      var d := Disk(Some(join.credential), None, NoJournal);
      assert MayFind(m.kept, d) && Bad(d);
    }
  }

  // Exactly the endangering steps let a power loss, or the step itself, leave a bad disk.
  lemma EndangersExactly(m: Machine, a: Action)
    requires SafeMachine(m) && Step(m.state, a).Some? && JoinsClean(m.state, a)
    ensures var s' := Step(m.state, a).value;
            var m' := Acted(m, a, s');
            if s'.process.Joining? then JoinSafe(m') else (Safe(m'.kept) <==> !Endangers(m, a))
  {
    var s' := Step(m.state, a).value;
    if !m.state.process.Joining? {
      StepWrites(m.state, a);
      StepIsRegular(m.state, a);
      OutsideJoins(m.state, a);
      ThreatensExactly(m.kept, m.state.disk, s'.disk, WriteOf(m.state, a));
      if s'.process.Joining? { JoinBegins(m, a); }
    } else {
      match a
      case Boot(boot) => JoinBootEnds(m, boot);
      case Crash => CrashEnds(m);
      case DoReleased(index, call) =>
        ReleasedIdles(m.state, index, call);
        StepIsRegular(m.state, a);
      case _ =>
    }
  }

  lemma JoinBegins(m: Machine, a: Action)
    requires !m.state.process.Joining? && Step(m.state, a).Some? && Step(m.state, a).value.process.Joining?
    ensures a == Boot(BeginJoin) && Step(m.state, a).value.process.join == JoinCall
    ensures Step(m.state, a).value.disk == m.state.disk
  {
  }

  // --- whole runs --------------------------------------------------------------------------

  ghost predicate MidJoin(s: State) {
    s.process.Joining? && (s.process.join.StoreProfile? || s.process.join.ScrubCredential?)
  }

  ghost predicate CarefulEvent(m: Machine, e: Event) {
    match e
    case PowerLoss(_) => !MidJoin(m.state)
    case Act(a) => JoinsClean(m.state, a) && (Step(m.state, a).Some? ==> !Endangers(m, a))
  }

  // Nobody trespasses, every join begins over an empty journal, nothing endangers the disk, and the
  // power does not go between the two stores of a join.
  ghost predicate CarefulRun(m: Machine, events: seq<Event>)
    decreases |events|
  {
    && !Trespassing(m.state)
    && (events != [] ==>
          && CarefulEvent(m, events[0])
          && (MachineStep(m, events[0]).Some? ==> CarefulRun(MachineStep(m, events[0]).value, events[1..])))
  }

  lemma LossIsSafe(m: Machine, found: Disk)
    requires SafeMachine(m) && !MidJoin(m.state) && MayFind(m.kept, found)
    ensures SafeMachine(Lost(m, found))
  {
    EventKeepsCore(m, PowerLoss(found));
    assert !Bad(found);
  }

  // Then, with power losses at any other time, every intent has its profile, and the disk is never one
  // that no run can leave.
  lemma {:induction false} CarefulSurvives(m: Machine, events: seq<Event>)
    requires SafeMachine(m) && MachineRun(m, events).Some? && CarefulRun(m, events)
    ensures SafeMachine(MachineRun(m, events).value)
    decreases |events|
  {
    if events != [] {
      var next := MachineStep(m, events[0]).value;
      assert CarefulEvent(m, events[0]) && CarefulRun(next, events[1..]);
      if events[0].PowerLoss? {
        LossIsSafe(m, events[0].found);
      } else {
        EventKeepsCore(m, events[0]);
        StepKeeps(m.state, events[0].action);
        EndangersExactly(m, events[0].action);
      }
      CarefulSurvives(next, events[1..]);
    }
  }

  // --- recovery ----------------------------------------------------------------------------

  // Whatever comes back is the remains of the confirmed leave of `b`.
  ghost predicate Remains(kept: Survivors, b: Binding) {
    forall d :: MayFind(kept, d) ==> Leftover(d, b)
  }

  ghost predicate ReplayingMachine(m: Machine, b: Binding) {
    MachineCore(m) && Replaying(m.state, b) && Remains(m.kept, b)
  }

  lemma CleanRemains(kept: Survivors, b: Binding, disk: Disk, at: CleanupStep, io: Io)
    requires MayFind(kept, disk) && Remains(kept, b) && Cleaning(disk, b, at)
    requires at == RemoveJournal ==> !Threatens(kept, disk, CleanDisk(disk, at, io), CleanWrite(at, io))
    ensures Remains(Outlive(kept, disk, CleanDisk(disk, at, io), CleanWrite(at, io)), b)
  {
    forall d | MayFind(Outlive(kept, disk, CleanDisk(disk, at, io), CleanWrite(at, io)), d) ensures Leftover(d, b) {
      match at
      case ClearCredential => assert MayFind(kept, d.(credential := disk.credential));
      case ClearProfile => assert MayFind(kept, d.(profile := disk.profile)) || MayFind(kept, d.(profile := disk.profile, journal := disk.journal));
      case RemoveJournal => assert MayFind(kept, d) || d.journal == NoJournal;
    }
  }

  lemma ReplayWrites(s: State, b: Binding, a: Action)
    requires Core(s) && !Trespassing(s) && Replaying(s, b) && Step(s, a).Some? && a != Boot(BeginJoin)
    ensures || (WriteOf(s, a).NoWrite? && Step(s, a).value.disk == s.disk)
            || (exists at, io :: WriteOf(s, a) == CleanWrite(at, io) && Cleaning(s.disk, b, at)
                                 && Step(s, a).value.disk == CleanDisk(s.disk, at, io))
  {
    match a
    case DoReleased(index, call) =>
      ReleasedIdles(s, index, call);
      ReleasedWritesNothing(World(s.disk, s.relay, s.released[index]), call);
    case Boot(CleanStart(io)) =>
      assert WriteOf(s, a) == CleanWrite(s.process.start.at, io);
    case Boot(CleanOrphan(io)) =>
      assert WriteOf(s, a) == CleanWrite(s.process.at, io);
    case _ =>
  }

  ghost predicate Unthreatened(m: Machine, e: Event) {
    e.Act? ==>
      && e.action != Boot(BeginJoin)
      && (Step(m.state, e.action).Some? ==>
            !Threatens(m.kept, m.state.disk, Step(m.state, e.action).value.disk, WriteOf(m.state, e.action)))
  }

  ghost predicate UnthreatenedRun(m: Machine, events: seq<Event>)
    decreases |events|
  {
    && !Trespassing(m.state)
    && (events != [] ==>
          && Unthreatened(m, events[0])
          && (MachineStep(m, events[0]).Some? ==> UnthreatenedRun(MachineStep(m, events[0]).value, events[1..])))
  }

  lemma ReplaySurvives(m: Machine, b: Binding, e: Event)
    requires ReplayingMachine(m, b) && !Trespassing(m.state) && MachineStep(m, e).Some? && Unthreatened(m, e)
    ensures ReplayingMachine(MachineStep(m, e).value, b)
  {
    EventKeepsCore(m, e);
    if e.Act? {
      var s' := Step(m.state, e.action).value;
      ReplayStep(m.state, b, e.action);
      ReplayWrites(m.state, b, e.action);
      if !WriteOf(m.state, e.action).NoWrite? {
        var at, io :| WriteOf(m.state, e.action) == CleanWrite(at, io) && Cleaning(m.state.disk, b, at)
                      && s'.disk == CleanDisk(m.state.disk, at, io);
        CleanRemains(m.kept, b, m.state.disk, at, io);
      }
    }
  }

  lemma {:induction false} ReplayOutlives(m: Machine, b: Binding, events: seq<Event>)
    requires ReplayingMachine(m, b) && MachineRun(m, events).Some? && UnthreatenedRun(m, events)
    ensures ReplayingMachine(MachineRun(m, events).value, b)
    decreases |events|
  {
    if events != [] {
      assert Unthreatened(m, events[0]) && UnthreatenedRun(MachineStep(m, events[0]).value, events[1..]);
      ReplaySurvives(m, b, events[0]);
      ReplayOutlives(MachineStep(m, events[0]).value, b, events[1..]);
    }
  }

  // From a confirmed leave that is durable and whose profile is absent or its own, after any join-free
  // run of faulted recoveries, crashes and power losses without a threatening write, one unfaulted
  // recovery call leaves nothing on disk.
  lemma {:induction false} RecoveryOutlivesPower(m: Machine, b: Binding, events: seq<Event>)
    requires MachineCore(m) && Covered(m) && m.state.process.Idle? && m.state.disk.journal == Confirmed(b)
    requires m.state.disk.profile.None? || m.state.disk.profile == Some(b)
    requires MachineRun(m, events).Some? && UnthreatenedRun(m, events)
    ensures var crashed := MachineRun(m, events).value.state.(process := Idle);
            Run(crashed, RecoveryCall(crashed.disk)) == Some(crashed.(disk := Disk(None, None, NoJournal)))
  {
    ReplayOutlives(m, b, events);
    RecoverOnce(MachineRun(m, events).value.state.(process := Idle), b);
  }
}
