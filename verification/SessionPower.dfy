/** Power loss.

    `SessionSteps` knows what a reader sees on disk.  A rename or an unlink is seen at once but lasts
    only from the next successful sync of its directory on; until then a power loss may bring back what
    was there before.  Profile and journal share one directory, the credential has its own.  Here every
    cell also has its survivors, and a power loss picks among them and ends every process.  */
module SessionPower {
  import opened Wrappers
  import opened SessionState
  import opened SessionSteps
  import opened SessionInvariant
  import opened SessionTheorems
  import opened SessionRecovery

  datatype Survivors = Survivors(credential: set<Option<Credential>>, profile: set<Option<Binding>>, journal: set<Journal>)

  datatype Machine = Machine(state: State, kept: Survivors)

  datatype Cell = CredentialCell | ProfileCell | JournalCell

  datatype Write = NoWrite | Write(cell: Cell, io: Io)

  // --- which cell an action writes ---------------------------------------------------------

  function CleanWrite(at: CleanupStep, io: Io): Write {
    match at
    case ClearCredential => Write(CredentialCell, io)
    case ClearProfile => Write(ProfileCell, io)
    case RemoveJournal => Write(JournalCell, io)
  }

  function CallWrite(rt: Runtime, c: Call): Write {
    match c
    case ALeave(IntentStored(io)) => Write(JournalCell, io)
    case ALeave(RefusedDropped(io)) => Write(JournalCell, io)
    case ALeave(ConfirmedStored(io)) => Write(JournalCell, io)
    case ALeave(Clean(io)) =>
      (match rt.control.leave
       case LeaveCleanup(at) => CleanWrite(at, io)
       case LeftCleanup(at) => CleanWrite(at, io)
       case _ => NoWrite)
    case ARotation(Persist(io)) => Write(CredentialCell, io)
    case ARotation(OrphanStore(io)) => Write(CredentialCell, io)
    case _ => NoWrite
  }

  function BootWrite(process: Process, a: BootAction): Write {
    match a
    case StartPersisted(io) => Write(CredentialCell, io)
    case IntentDropped(io) => Write(JournalCell, io)
    case PendingConfirmed(io) => Write(JournalCell, io)
    case CleanStart(io) =>
      if process.Starting? && process.start.StartCleanup? then CleanWrite(process.start.at, io) else NoWrite
    case CleanOrphan(io) => if process.OrphanCleanup? then CleanWrite(process.at, io) else NoWrite
    case CredentialStored(io) => Write(CredentialCell, io)
    case ProfileStored(io) => Write(ProfileCell, io)
    case Scrub(io) => Write(CredentialCell, io)
    case _ => NoWrite
  }

  function WriteOf(s: State, a: Action): Write {
    match a
    case Boot(boot) => BootWrite(s.process, boot)
    case Do(call) => if s.process.Live? then CallWrite(s.process.runtime, call) else NoWrite
    case DoReleased(i, call) => if i < |s.released| then CallWrite(s.released[i], call) else NoWrite
    case _ => NoWrite
  }

  // --- what survives -----------------------------------------------------------------------

  // Removing what is not there reports success without a sync.
  predicate NothingToRemove(before: Disk, after: Disk, cell: Cell) {
    match cell
    case CredentialCell => before.credential.None? && after.credential.None?
    case ProfileCell => before.profile.None? && after.profile.None?
    case JournalCell => before.journal == NoJournal && after.journal == NoJournal
  }

  // A completed write syncs its directory; one that failed with the new value in place has not.
  function Outlive(kept: Survivors, before: Disk, after: Disk, w: Write): Survivors {
    if w.NoWrite? || w.io == FailedBefore || NothingToRemove(before, after, w.cell) then kept
    else if w.io == Done then
      if w.cell == CredentialCell then kept.(credential := {after.credential})
      else kept.(profile := {after.profile}, journal := {after.journal})
    else match w.cell
      case CredentialCell => kept.(credential := kept.credential + {after.credential})
      case ProfileCell => kept.(profile := kept.profile + {after.profile})
      case JournalCell => kept.(journal := kept.journal + {after.journal})
  }

  predicate MayFind(kept: Survivors, disk: Disk) {
    disk.credential in kept.credential && disk.profile in kept.profile && disk.journal in kept.journal
  }

  function Exactly(disk: Disk): Survivors {
    Survivors({disk.credential}, {disk.profile}, {disk.journal})
  }

  datatype Event = Act(action: Action) | PowerLoss(found: Disk)

  function Lost(m: Machine, found: Disk): Machine {
    Machine(State(found, m.state.relay, Idle, []), Exactly(found))
  }

  function Acted(m: Machine, a: Action, s': State): Machine {
    Machine(s', Outlive(m.kept, m.state.disk, s'.disk, WriteOf(m.state, a)))
  }

  function MachineStep(m: Machine, e: Event): Option<Machine> {
    match e
    case PowerLoss(found) => if MayFind(m.kept, found) then Some(Lost(m, found)) else None
    case Act(a) =>
      match Step(m.state, a)
      case None => None
      case Some(s') => Some(Acted(m, a, s'))
  }

  function MachineRun(m: Machine, events: seq<Event>): Option<Machine>
    decreases |events|
  {
    if events == [] then Some(m)
    else
      var next := MachineStep(m, events[0]);
      if next.None? then None else MachineRun(next.value, events[1..])
  }

  const SWITCHED_ON: Machine := Machine(INITIAL, Exactly(INITIAL.disk))

  // Without an uncovered write a power loss finds what everybody saw.
  ghost predicate Covered(m: Machine) {
    m.kept == Exactly(m.state.disk)
  }

  lemma CoveredLosesNothing(m: Machine)
    requires MayFind(m.kept, m.state.disk)
    ensures (forall d :: MayFind(m.kept, d) ==> d == m.state.disk) <==> Covered(m)
  {
    if forall d :: MayFind(m.kept, d) ==> d == m.state.disk {
      var disk := m.state.disk;
      forall c | c in m.kept.credential ensures c == disk.credential { assert MayFind(m.kept, disk.(credential := c)); }
      forall p | p in m.kept.profile ensures p == disk.profile { assert MayFind(m.kept, disk.(profile := p)); }
      forall j | j in m.kept.journal ensures j == disk.journal { assert MayFind(m.kept, disk.(journal := j)); }
    }
  }

  // --- in every run ------------------------------------------------------------------------

  lemma CallWrites(w: World, c: Call)
    requires CallStep(w, c).Some?
    ensures OnlyWrites(w.disk, CallStep(w, c).value.disk, CallWrite(w.rt, c))
  {
  }

  // The two disks differ in the written cell at most.
  ghost predicate OnlyWrites(before: Disk, after: Disk, w: Write) {
    if w.NoWrite? || w.io == FailedBefore then after == before
    else match w.cell
      case CredentialCell => after == before.(credential := after.credential)
      case ProfileCell => after == before.(profile := after.profile)
      case JournalCell => after == before.(journal := after.journal)
  }

  lemma StepWrites(s: State, a: Action)
    requires Step(s, a).Some?
    ensures OnlyWrites(s.disk, Step(s, a).value.disk, WriteOf(s, a))
  {
    match a
    case Do(call) => CallWrites(World(s.disk, s.relay, s.process.runtime), call);
    case DoReleased(index, call) => CallWrites(World(s.disk, s.relay, s.released[index]), call);
    case Boot(boot) => BootWrites(s, boot);
    case _ =>
  }

  lemma BootWrites(s: State, a: BootAction)
    requires BootStep(s, a).Some?
    ensures OnlyWrites(s.disk, BootStep(s, a).value.disk, BootWrite(s.process, a))
  {
  }

  ghost predicate KeptCore(m: Machine) {
    && MayFind(m.kept, m.state.disk)
    && (forall j :: j in m.kept.journal && j.Confirmed? ==> j.binding.member in m.state.relay.ended)
    && (forall j :: j in m.kept.journal && j.Intent? ==> j.binding.member < m.state.relay.nextMember)
    && (forall p :: p in m.kept.profile && p.Some? ==> p.value.member < m.state.relay.nextMember)
  }

  ghost predicate MachineCore(m: Machine) {
    Core(m.state) && KeptCore(m)
  }

  lemma RelayGrows(s: State, a: Action)
    requires Step(s, a).Some?
    ensures s.relay.nextMember <= Step(s, a).value.relay.nextMember && s.relay.ended <= Step(s, a).value.relay.ended
  {
    match a
    case Do(call) => CallRelay(World(s.disk, s.relay, s.process.runtime), call);
    case DoReleased(index, call) => CallRelay(World(s.disk, s.relay, s.released[index]), call);
    case _ =>
  }

  lemma EventKeepsCore(m: Machine, e: Event)
    requires MachineCore(m) && MachineStep(m, e).Some?
    ensures MachineCore(MachineStep(m, e).value)
  {
    if e.Act? {
      StepKeepsCore(m.state, e.action);
      StepWrites(m.state, e.action);
      RelayGrows(m.state, e.action);
    }
  }

  // Whenever the power goes, and however often: a confirmed journal proves that the membership is
  // over, and so does every confirmed journal that could still come back; and memory, relay and
  // entitlement are in order.
  lemma {:induction false} CoreSurvivesPower(m: Machine, events: seq<Event>)
    requires MachineCore(m) && MachineRun(m, events).Some?
    ensures MachineCore(MachineRun(m, events).value)
    decreases |events|
  {
    if events != [] {
      EventKeepsCore(m, events[0]);
      CoreSurvivesPower(MachineStep(m, events[0]).value, events[1..]);
    }
  }

  // --- an intent and its profile -----------------------------------------------------------

  ghost predicate HasIntent(kept: Survivors) {
    exists j :: j in kept.journal && j.Intent?
  }

  // Every intent that may come back finds every profile and every credential that may come back with
  // it its own.
  ghost predicate Coherent(kept: Survivors) {
    forall j :: j in kept.journal && j.Intent? ==>
      && (forall p :: p in kept.profile ==> p == Some(j.binding))
      && (forall c :: c in kept.credential ==> c.Some? && c.value.member == j.binding.member)
  }

  // A power loss keeps the invariant, whatever it finds, exactly when the survivors are coherent.
  lemma PowerLossExactly(m: Machine)
    requires MachineCore(m)
    ensures (forall d :: MayFind(m.kept, d) ==> Inv(Lost(m, d).state)) <==> Coherent(m.kept)
  {
    if forall d :: MayFind(m.kept, d) ==> Inv(Lost(m, d).state) {
      forall j, p, c | j in m.kept.journal && j.Intent? && p in m.kept.profile && c in m.kept.credential
        ensures p == Some(j.binding) && c.Some? && c.value.member == j.binding.member
      {
        var d := Disk(c, p, j);
        assert MayFind(m.kept, d) && Inv(Lost(m, d).state);
        assert IntentBound(d);
      }
      assert m.state.disk.profile in m.kept.profile && m.state.disk.credential in m.kept.credential;
    }
  }

  // While the profile is bound, every credential that may come back is of its membership; and a join
  // past its first store has that store behind it.
  ghost predicate KeptBound(m: Machine) {
    && (m.state.disk.profile.Some? && Bound(m.state.disk, m.state.disk.profile.value) ==>
          forall c :: c in m.kept.credential ==> c.Some? && c.value.member == m.state.disk.profile.value.member)
    && (m.state.process.Joining? && (m.state.process.join.StoreProfile? || m.state.process.join.ScrubCredential?) ==>
          m.kept.credential == {Some(m.state.process.join.credential)})
  }

  ghost predicate MachineInv(m: Machine) {
    MachineCore(m) && Inv(m.state) && KeptBound(m) && Coherent(m.kept)
  }

  // The steps after which a power loss can separate an intent from its profile or credential: a
  // credential is removed while an intent can still come back, because the confirmation that replaced
  // it was never synced; or an intent is journalled without a sync while the profile's own store was
  // never synced either.
  ghost predicate Exposes(m: Machine, a: Action, after: Disk) {
    match WriteOf(m.state, a)
    case NoWrite => false
    case Write(cell, io) =>
      || (cell == CredentialCell && io != FailedBefore && after.credential.None? && HasIntent(m.kept))
      || (cell == JournalCell && io == FailedAfter && after.journal.Intent? && m.kept.profile != {after.profile})
  }

  // What the writes of a peaceful run look like to a reader.
  ghost predicate Regular(before: Disk, after: Disk, cell: Cell) {
    match cell
    case CredentialCell =>
      if after.credential.None? then true                                        // cleanup, or the scrub of a join
      else if before.credential.None? then before.profile.None?                  // a join
      else                                                                       // a rotation
        && before.profile.Some? && Bound(before, before.profile.value) && Bound(after, before.profile.value)
    case ProfileCell =>
      if after.profile.None? then before.credential.None?                        // cleanup
      else before.profile.None? && !before.journal.Intent? && Bound(after, after.profile.value)
    case JournalCell =>
      match after.journal
      case Intent(b) => Bound(before, b) && !before.journal.Confirmed?
      case Confirmed(b) => before.journal == Intent(b)
      case NoJournal =>
        || (before.profile.None? && before.credential.None? && !before.journal.Intent?)   // the end of a cleanup
        || before.journal.Intent?                                                         // an intent withdrawn
  }

  ghost predicate RegularWrite(before: Disk, after: Disk, w: Write) {
    w.NoWrite? || w.io == FailedBefore || Regular(before, after, w.cell)
  }

  lemma LeaveIsRegular(w: World, a: LeaveAction)
    requires CoreWorld(w) && DurableWorld(w) && LeaveStepOf(w, a).Some?
    ensures RegularWrite(w.disk, LeaveStepOf(w, a).value.disk, CallWrite(w.rt, ALeave(a)))
  {
  }

  lemma RotationIsRegular(w: World, a: RotationAction)
    requires CoreWorld(w) && DurableWorld(w) && RotationStepOf(w, a).Some?
    ensures RegularWrite(w.disk, RotationStepOf(w, a).value.disk, CallWrite(w.rt, ARotation(a)))
  {
  }

  lemma BootIsRegular(s: State, a: BootAction)
    requires Core(s) && Durable(s) && BootStep(s, a).Some?
    ensures RegularWrite(s.disk, BootStep(s, a).value.disk, BootWrite(s.process, a))
  {
  }

  lemma StepIsRegular(s: State, a: Action)
    requires Inv(s) && Step(s, a).Some?
    ensures a.DoReleased? || RegularWrite(s.disk, Step(s, a).value.disk, WriteOf(s, a))
    ensures a.DoReleased? ==> WriteOf(s, a).NoWrite?
  {
    match a
    case Do(ALeave(leave)) => LeaveIsRegular(World(s.disk, s.relay, s.process.runtime), leave);
    case Do(ARotation(rotation)) => RotationIsRegular(World(s.disk, s.relay, s.process.runtime), rotation);
    case DoReleased(index, call) => ReleasedWritesNothing(World(s.disk, s.relay, s.released[index]), call);
    case Boot(boot) => BootIsRegular(s, boot);
    case _ =>
  }

  lemma ReleasedWritesNothing(w: World, c: Call)
    requires ReleasedInv(w.rt) && !Acting(w.rt.control.leave) && CallStep(w, c).Some?
    ensures CallWrite(w.rt, c).NoWrite?
  {
    StaysReleased(w, c);
  }

  // The survivors after a regular write, for each cell.
  lemma CredentialExposes(kept: Survivors, before: Disk, after: Disk, io: Io)
    requires MayFind(kept, before) && Coherent(kept) && io != FailedBefore
    requires OnlyWrites(before, after, Write(CredentialCell, io)) && Regular(before, after, CredentialCell)
    ensures Coherent(Outlive(kept, before, after, Write(CredentialCell, io))) <==> !(after.credential.None? && HasIntent(kept))
  {
  }

  lemma ProfileExposes(kept: Survivors, before: Disk, after: Disk, io: Io)
    requires MayFind(kept, before) && Coherent(kept) && IntentBound(before) && io != FailedBefore
    requires OnlyWrites(before, after, Write(ProfileCell, io)) && Regular(before, after, ProfileCell)
    ensures Coherent(Outlive(kept, before, after, Write(ProfileCell, io)))
  {
    assert !HasIntent(kept);
  }

  lemma JournalExposes(kept: Survivors, before: Disk, after: Disk, io: Io)
    requires MayFind(kept, before) && Coherent(kept) && io != FailedBefore
    requires OnlyWrites(before, after, Write(JournalCell, io)) && Regular(before, after, JournalCell)
    requires before.profile.Some? && Bound(before, before.profile.value) ==>
               forall c :: c in kept.credential ==> c.Some? && c.value.member == before.profile.value.member
    ensures Coherent(Outlive(kept, before, after, Write(JournalCell, io))) <==>
              !(io == FailedAfter && after.journal.Intent? && kept.profile != {after.profile})
  {
    if io == FailedAfter && after.journal.Intent? && kept.profile != {after.profile} {
      var p :| p in kept.profile && p != after.profile;
      assert after.journal in Outlive(kept, before, after, Write(JournalCell, io)).journal;
    }
  }

  // Exactly those steps lose coherence.
  lemma ExposesExactly(m: Machine, a: Action)
    requires MachineInv(m) && Step(m.state, a).Some?
    ensures var s' := Step(m.state, a).value; Coherent(Acted(m, a, s').kept) <==> !Exposes(m, a, s'.disk)
  {
    var s, s' := m.state, Step(m.state, a).value;
    StepWrites(s, a);
    StepIsRegular(s, a);
    match WriteOf(s, a)
    case NoWrite =>
    case Write(cell, io) =>
      if io != FailedBefore {
        match cell
        case CredentialCell => CredentialExposes(m.kept, s.disk, s'.disk, io);
        case ProfileCell => ProfileExposes(m.kept, s.disk, s'.disk, io);
        case JournalCell => JournalExposes(m.kept, s.disk, s'.disk, io);
      }
  }

  // The credentials that may come back stay those of the bound membership.
  lemma BoundSurvives(kept: Survivors, before: Disk, after: Disk, w: Write)
    requires MayFind(kept, before) && OnlyWrites(before, after, w) && RegularWrite(before, after, w)
    requires before.profile.Some? && Bound(before, before.profile.value) ==>
               forall c :: c in kept.credential ==> c.Some? && c.value.member == before.profile.value.member
    requires before.profile.None? && after.profile.Some? ==> kept.credential == {before.credential}
    ensures var kept' := Outlive(kept, before, after, w);
            after.profile.Some? && Bound(after, after.profile.value) ==>
              forall c :: c in kept'.credential ==> c.Some? && c.value.member == after.profile.value.member
  {
  }

  lemma JoinKeepsBound(m: Machine, a: Action)
    requires MachineInv(m) && Step(m.state, a).Some?
    ensures var s' := Step(m.state, a).value;
            && (s'.process.Joining? && (s'.process.join.StoreProfile? || s'.process.join.ScrubCredential?) ==>
                  Acted(m, a, s').kept.credential == {Some(s'.process.join.credential)})
            && (m.state.disk.profile.None? && s'.disk.profile.Some? ==> m.kept.credential == {m.state.disk.credential})
  {
    StepWrites(m.state, a);
    match a
    case Boot(boot) => JoinBoots(m, boot);
    case DoReleased(index, call) =>
      ReleasedIdles(m.state, index, call);
      StepIsRegular(m.state, a);
    case Do(call) => CallWrites(World(m.state.disk, m.state.relay, m.state.process.runtime), call);
    case _ =>
  }

  lemma JoinBoots(m: Machine, a: BootAction)
    requires MachineInv(m) && BootStep(m.state, a).Some?
    ensures var s' := BootStep(m.state, a).value;
            && (s'.process.Joining? && (s'.process.join.StoreProfile? || s'.process.join.ScrubCredential?) ==>
                  Acted(m, Boot(a), s').kept.credential == {Some(s'.process.join.credential)})
            && (m.state.disk.profile.None? && s'.disk.profile.Some? ==> m.kept.credential == {m.state.disk.credential})
  {
  }

  lemma ActKeeps(m: Machine, a: Action)
    requires MachineInv(m) && Step(m.state, a).Some?
    requires !Trespassing(Step(m.state, a).value) && !Exposes(m, a, Step(m.state, a).value.disk)
    ensures MachineInv(Acted(m, a, Step(m.state, a).value))
  {
    var s' := Step(m.state, a).value;
    EventKeepsCore(m, Act(a));
    StepKeeps(m.state, a);
    StepWrites(m.state, a);
    StepIsRegular(m.state, a);
    JoinKeepsBound(m, a);
    BoundSurvives(m.kept, m.state.disk, s'.disk, WriteOf(m.state, a));
    ExposesExactly(m, a);
  }

  // No step of the run trespasses, and none exposes an intent.
  ghost predicate Guarded(m: Machine, events: seq<Event>)
    decreases |events|
  {
    && !Trespassing(m.state)
    && (events != [] && MachineStep(m, events[0]).Some? ==>
          && (events[0].Act? ==> !Exposes(m, events[0].action, MachineStep(m, events[0]).value.state.disk))
          && Guarded(MachineStep(m, events[0]).value, events[1..]))
  }

  // In every such run, with power losses at any time, the whole invariant holds: in particular every
  // intent, seen or to come back, has its profile and a credential of its membership.
  lemma {:induction false} GuardedKeeps(m: Machine, events: seq<Event>)
    requires MachineInv(m) && MachineRun(m, events).Some? && Guarded(m, events)
    ensures MachineInv(MachineRun(m, events).value)
    decreases |events|
  {
    if events != [] {
      var next := MachineStep(m, events[0]).value;
      if events[0].Act? {
        ActKeeps(m, events[0].action);
      } else {
        EventKeepsCore(m, events[0]);
        PowerLossExactly(m);
      }
      GuardedKeeps(next, events[1..]);
    }
  }

  // So the truth of the journal survives power losses in every run that neither trespasses nor exposes.
  lemma {:induction false} JournalSurvivesPower(events: seq<Event>)
    requires MachineRun(SWITCHED_ON, events).Some?
    ensures var s := MachineRun(SWITCHED_ON, events).value.state;
            && (s.disk.journal.Confirmed? ==> s.disk.journal.binding.member in s.relay.ended)
            && (s.disk.journal.Intent? && !Bound(s.disk, s.disk.journal.binding) ==> !Guarded(SWITCHED_ON, events))
  {
    CoreSurvivesPower(SWITCHED_ON, events);
    if Guarded(SWITCHED_ON, events) { GuardedKeeps(SWITCHED_ON, events); }
  }
}
