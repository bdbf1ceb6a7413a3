/** The activation state machine, and the operator status that must accept all its snapshots. */
module Activation {
  import opened Wrappers
  import opened Backoff

  const MAX_WAKE_PENDING_COUNT: nat := 1_000_000

  datatype Phase = Quiet | Pending | Waking | Running | Backoff | Blocked | Stopped

  datatype Priority = Normal | High

  datatype Wake = Wake(profile: string, squad: string, count: nat, priority: Priority, oldest: string)

  predicate IdentifierByte(c: char) {
    'a' <= c <= 'z' || 'A' <= c <= 'Z' || '0' <= c <= '9' || c == '-' || c == '_' || c == '.'
  }

  predicate ValidIdentifier(value: string, maximum: nat) {
    1 <= |value| <= maximum && forall i :: 0 <= i < |value| ==> IdentifierByte(value[i])
  }

  // `WakeMetadata::new`.
  predicate ValidWake(w: Wake) {
    && ValidIdentifier(w.profile, 64) && ValidIdentifier(w.squad, 64)
    && 1 <= w.count <= MAX_WAKE_PENDING_COUNT
    && ValidIdentifier(w.oldest, 128)
  }

  datatype Command = NoCommand | Activate(wake: Wake) | ReconcileNow | RetryAfter(delay: nat)

  datatype Machine = Machine(policy: Policy, phase: Phase, pending: Option<Wake>, reconcile: bool, attempt: nat)

  function NewMachine(policy: Policy): Option<Machine> {
    if ValidPolicy(policy) then Some(Machine(policy, Quiet, None, false, 0)) else None
  }

  predicate HostBusy(phase: Phase) { phase == Waking || phase == Running }

  // --- the calls, as transitions; a rejected call changes nothing --------------------------

  function Observe(m: Machine, seen: Option<Wake>): (Machine, Command) {
    if m.phase == Stopped || m.phase == Blocked || seen.None? then (m, NoCommand)
    else if m.phase == Quiet then (m.(phase := Pending, pending := seen), Activate(seen.value))
    else (m.(pending := seen, reconcile := true), NoCommand)
  }

  function WakeStarted(m: Machine): Option<Machine> {
    if m.phase != Pending || m.pending.None? then None else Some(m.(phase := Waking))
  }

  function WakeAccepted(m: Machine): Option<Machine> {
    if m.phase != Waking then None else Some(m.(phase := Running))
  }

  function WakeCompleted(m: Machine): Option<Machine> {
    if !HostBusy(m.phase) then None
    else Some(m.(phase := Quiet, pending := None, reconcile := false, attempt := 0))
  }

  function NextAttempt(attempt: nat): nat { if attempt >= 255 then 255 else attempt + 1 }

  function WakeRetryable(m: Machine): Option<(Machine, Command)> {
    if !HostBusy(m.phase) then None
    else
      var attempt := NextAttempt(m.attempt);
      if attempt >= m.policy.attempts then Some((m.(attempt := attempt, phase := Blocked), NoCommand))
      else Some((m.(attempt := attempt, phase := Backoff), RetryAfter(RetryDelay(m.policy, attempt))))
  }

  function RetryDue(m: Machine): Option<Machine> {
    if m.phase != Backoff || m.pending.None? then None else Some(m.(phase := Pending, reconcile := false))
  }

  function WakePermanent(m: Machine): Option<Machine> {
    if !HostBusy(m.phase) then None else Some(m.(phase := Blocked))
  }

  function Stop(m: Machine): Machine { m.(phase := Stopped, pending := None, reconcile := false) }

  function Block(m: Machine): Machine { if m.phase == Stopped then m else m.(phase := Blocked) }

  // --- every sequence of calls -------------------------------------------------------------

  datatype Call =
    | DoObserve(seen: Option<Wake>) | DoStarted | DoAccepted | DoCompleted | DoRetryable | DoRetryDue | DoPermanent
    | DoStop | DoBlock

  function Otherwise(m: Machine, next: Option<Machine>): Machine { if next.Some? then next.value else m }

  function Do(m: Machine, c: Call): Machine {
    match c
    case DoObserve(seen) => Observe(m, seen).0
    case DoStarted => Otherwise(m, WakeStarted(m))
    case DoAccepted => Otherwise(m, WakeAccepted(m))
    case DoCompleted => Otherwise(m, WakeCompleted(m))
    case DoRetryable => if WakeRetryable(m).Some? then WakeRetryable(m).value.0 else m
    case DoRetryDue => Otherwise(m, RetryDue(m))
    case DoPermanent => Otherwise(m, WakePermanent(m))
    case DoStop => Stop(m)
    case DoBlock => Block(m)
  }

  function DoAll(m: Machine, calls: seq<Call>): Machine
    decreases |calls|
  {
    if calls == [] then m else DoAll(Do(m, calls[0]), calls[1..])
  }

  predicate WellTyped(c: Call) { c.DoObserve? && c.seen.Some? ==> ValidWake(c.seen.value) }

  ghost predicate MachineInv(m: Machine) {
    && ValidPolicy(m.policy)
    && (m.phase in {Pending, Waking, Running, Backoff} ==> m.pending.Some?)
    && (m.phase in {Quiet, Stopped} ==> m.pending.None?)
    && (m.pending.Some? ==> ValidWake(m.pending.value))
    && m.attempt <= m.policy.attempts
    && (m.phase !in {Blocked, Stopped} ==> m.attempt < m.policy.attempts)
    && (m.phase == Quiet ==> m.attempt == 0 && !m.reconcile)
  }

  lemma DoKeeps(m: Machine, c: Call)
    requires MachineInv(m) && WellTyped(c)
    ensures MachineInv(Do(m, c)) && Do(m, c).policy == m.policy
  {
  }

  lemma {:induction false} DoAllKeeps(m: Machine, calls: seq<Call>)
    requires MachineInv(m) && forall i :: 0 <= i < |calls| ==> WellTyped(calls[i])
    ensures MachineInv(DoAll(m, calls)) && DoAll(m, calls).policy == m.policy
    decreases |calls|
  {
    if calls != [] {
      assert WellTyped(calls[0]);
      DoKeeps(m, calls[0]);
      DoAllKeeps(Do(m, calls[0]), calls[1..]);
    }
  }

  // `Stopped` is final, and `Blocked` gives way only to it.
  lemma {:induction false} TerminalPhases(m: Machine, calls: seq<Call>)
    ensures m.phase == Stopped ==> DoAll(m, calls).phase == Stopped
    ensures m.phase == Blocked ==> DoAll(m, calls).phase in {Blocked, Stopped}
    decreases |calls|
  {
    if calls != [] { TerminalPhases(Do(m, calls[0]), calls[1..]); }
  }

  // --- operator status ---------------------------------------------------------------------

  const HARNESS_STATUS_VERSION: nat := 1

  datatype Status = Status(
    version: nat, profile: string, phase: Phase, attempt: nat, count: Option<nat>, priority: Option<Priority>, pid: nat)

  function FromSnapshot(profile: string, m: Machine, pid: nat): Status {
    Status(HARNESS_STATUS_VERSION, profile, m.phase, m.attempt,
           if m.pending.Some? then Some(m.pending.value.count) else None,
           if m.pending.Some? then Some(m.pending.value.priority) else None, pid)
  }

  predicate ValidStatus(validProfile: string -> bool, s: Status) {
    && s.version == HARNESS_STATUS_VERSION
    && validProfile(s.profile)
    && s.pid != 0 && s.attempt <= MAX_BACKOFF_ATTEMPTS
    && ((s.count.None? && s.priority.None?)
        || (s.count.Some? && s.priority.Some? && 1 <= s.count.value <= MAX_WAKE_PENDING_COUNT))
    && !((s.phase == Quiet || s.phase == Stopped) && s.count.Some?)
    && !((s.phase == Pending || s.phase == Waking || s.phase == Running || s.phase == Backoff) && s.count.None?)
  }

  // Whatever calls are made, in whatever order, accepted or rejected, the status of the resulting
  // snapshot validates exactly when the profile name and the process id do, and it shows the phase,
  // the attempts, and the count and priority of the mail pending, if there is any.
  lemma {:induction false} EverySnapshotValidates(policy: Policy, calls: seq<Call>, validProfile: string -> bool,
                                                  profile: string, pid: nat)
    requires NewMachine(policy).Some? && forall i :: 0 <= i < |calls| ==> WellTyped(calls[i])
    ensures var m := DoAll(NewMachine(policy).value, calls);
            var status := FromSnapshot(profile, m, pid);
            && (ValidStatus(validProfile, status) <==> validProfile(profile) && pid != 0)
            && status.phase == m.phase && status.attempt == m.attempt && status.profile == profile && status.pid == pid
            && (status.count.Some? <==> m.pending.Some?)
            && (m.pending.Some? ==> status.count == Some(m.pending.value.count) && status.priority == Some(m.pending.value.priority))
  {
    DoAllKeeps(NewMachine(policy).value, calls);
  }

  // --- which call leads where --------------------------------------------------------------

  // The phase after a call, by the phase before it.
  ghost predicate LeadsTo(m: Machine, c: Call, phase: Phase) {
    match c
    case DoObserve(seen) => phase == if m.phase == Quiet && seen.Some? then Pending else m.phase
    case DoStarted => phase == if m.phase == Pending then Waking else m.phase
    case DoAccepted => phase == if m.phase == Waking then Running else m.phase
    case DoCompleted => phase == if m.phase in {Waking, Running} then Quiet else m.phase
    case DoRetryable =>
      if m.phase in {Waking, Running} then phase == if m.attempt + 1 >= m.policy.attempts then Blocked else Backoff
      else phase == m.phase
    case DoRetryDue => phase == if m.phase == Backoff then Pending else m.phase
    case DoPermanent => phase == if m.phase in {Waking, Running} then Blocked else m.phase
    case DoStop => phase == Stopped
    case DoBlock => phase == if m.phase == Stopped then Stopped else Blocked
  }

  // In every reachable machine each call leads where the life of a wake says; mail that arrives
  // meanwhile replaces the mail remembered and asks for reconciliation; and an attempt is counted by a
  // declined request alone, and forgotten by a completed turn alone.
  lemma {:induction false} CallsLeadOn(policy: Policy, calls: seq<Call>, c: Call)
    requires NewMachine(policy).Some? && forall i :: 0 <= i < |calls| ==> WellTyped(calls[i])
    ensures var m := DoAll(NewMachine(policy).value, calls);
            var m' := Do(m, c);
            && LeadsTo(m, c, m'.phase)
            && (c.DoObserve? && c.seen.Some? && m.phase !in {Blocked, Stopped} ==> m'.pending == c.seen)
            && (c.DoObserve? && c.seen.Some? && m.phase !in {Quiet, Blocked, Stopped} ==> m'.reconcile)
            && (m'.attempt == if m.phase in {Waking, Running} && c.DoRetryable? then m.attempt + 1
                              else if m.phase in {Waking, Running} && c.DoCompleted? then 0 else m.attempt)
  {
    DoAllKeeps(NewMachine(policy).value, calls);
  }
}
