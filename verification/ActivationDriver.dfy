/** The owned activation loop: observe, wake, wait for the turn, and never start a turn while the
    fate of an earlier one is open.

    What the source, the host, the clock and the random source answer, and when cancellation wins a
    race, is the script held by `World`.  Its items are used up in order, one by each request, and
    `World.log` pairs every request with the item that answered it.  A script that runs out leaves
    the loop waiting, which is how a run of any length is looked at.  */
module ActivationDriver {
  import opened Wrappers
  import opened Backoff
  import opened Activation
  import opened ActivationObject

  datatype Observation = ObserveCancelled | Saw(seen: Option<Wake>) | FailedRetryable | FailedPermanent

  datatype StartAnswer = StartCancelled | StartAccepted | RetryableBeforeStart | StartUnknown | StartPermanent

  datatype Completion = TurnCancelled | TurnCompleted | TurnFailed

  // What the environment would answer at one point, whichever request comes.
  datatype Move = Move(poll: Observation, start: StartAnswer, completion: Completion, cancelled: bool, sample: Option<nat>)

  // A request and its answer; none while it is still out.
  datatype Event =
    | Polled(wait: nat, observed: Option<Observation>)
    | Started(wake: Wake, started: Option<StartAnswer>)
    | Awaited(completed: Option<Completion>)
    | Slept(delay: nat, sample: Option<nat>, cancelled: Option<bool>)

  datatype Exit = Returned | Cancelled | Waiting

  // --- what a run may look like ------------------------------------------------------------

  ghost function Last(log: seq<Event>): Event
    requires log != []
  {
    log[|log| - 1]
  }

  ghost function Init(log: seq<Event>): seq<Event>
    requires log != []
  {
    log[..|log| - 1]
  }

  // Requests made for the wake in progress.
  ghost function Starts(log: seq<Event>): nat
    decreases |log|
  {
    if log == [] then 0
    else match Last(log)
      case Polled(_, _) => 0
      case Started(_, _) => Starts(Init(log)) + 1
      case Awaited(_) => Starts(Init(log))
      case Slept(_, _, _) => Starts(Init(log))
  }

  // Polls that failed one after the other.
  ghost function Failures(log: seq<Event>): nat
    decreases |log|
  {
    if log == [] then 0
    else match Last(log)
      case Polled(_, observed) => if observed == Some(FailedRetryable) then Failures(Init(log)) + 1 else 0
      case Slept(_, _, _) => Failures(Init(log))
      case Started(_, _) => 0
      case Awaited(_) => 0
  }

  // Why the run is over, or none where another request is due.
  ghost function Verdict(log: seq<Event>, policy: Policy): Option<Exit> {
    if log == [] then None
    else match Last(log)
      case Polled(_, observed) =>
        (match observed
         case None => Some(Waiting)
         case Some(ObserveCancelled) => Some(Cancelled)
         case Some(FailedPermanent) => Some(Returned)
         case Some(FailedRetryable) => if Failures(log) >= policy.attempts then Some(Returned) else None
         case Some(Saw(_)) => None)
      case Started(_, started) =>
        (match started
         case None => Some(Waiting)
         case Some(StartCancelled) => Some(Cancelled)
         case Some(StartUnknown) => Some(Returned)
         case Some(StartPermanent) => Some(Returned)
         case Some(RetryableBeforeStart) => if Starts(log) >= policy.attempts then Some(Returned) else None
         case Some(StartAccepted) => None)
      case Awaited(completed) =>
        (match completed
         case None => Some(Waiting)
         case Some(TurnCancelled) => Some(Cancelled)
         case Some(TurnFailed) => Some(Returned)
         case Some(TurnCompleted) => None)
      case Slept(_, _, cancelled) =>
        (match cancelled case None => Some(Waiting) case Some(true) => Some(Cancelled) case Some(false) => None)
  }

  const LONGEST_WAIT: nat := 30 * SECOND

  function UsualWait(policy: Policy): nat { Min(policy.reconcile, LONGEST_WAIT) }

  // The initial backoff, doubled and capped once for every failure after the first.
  ghost function PauseAfter(policy: Policy, failures: nat): nat {
    Iterated(policy.initial, policy.maximum, if failures == 0 then 0 else failures - 1)
  }

  lemma PausesAgree(policy: Policy, failures: nat)
    requires ValidPolicy(policy) && 1 <= failures <= policy.attempts
    ensures RetryDelay(policy, failures) == PauseAfter(policy, failures)
  {
    AdmittedDelays(policy, failures);
  }

  // `jitter_delay`: without a sample the delay stands.
  function Jittered(delay: nat, sample: Option<nat>): nat {
    if sample.None? then delay else Jitter(delay, sample.value)
  }

  // The event before the last.
  ghost predicate BeforeLast(log: seq<Event>, e: Event) {
    |log| >= 2 && log[|log| - 2] == e
  }

  // Whether a request may follow a log that is not over.
  ghost predicate Fits(log: seq<Event>, e: Event, policy: Policy) {
    if log == [] then e.Polled? && e.wait == UsualWait(policy)
    else match e
      case Polled(wait, _) =>
        // at once after a finished turn, else after an empty poll or the pause after a failed one
        if Last(log).Awaited? then wait == 0
        else wait == UsualWait(policy)
             && (Last(log).Slept? ==> |log| >= 2 && log[|log| - 2].Polled?)
             && (Last(log).Polled? ==> Last(log).observed == Some(Saw(None)))
             && !Last(log).Started?
      case Started(wake, _) =>
        // for mail just seen, or again after the host said that it had started nothing
        || (Last(log).Polled? && Last(log).observed == Some(Saw(Some(wake))))
        || (Last(log).Slept? && BeforeLast(log, Started(wake, Some(RetryableBeforeStart))))
      case Awaited(_) => Last(log).Started? && Last(log).started == Some(StartAccepted)
      case Slept(delay, sample, _) =>
        || (Last(log).Polled? && Last(log).observed == Some(FailedRetryable) && delay == PauseAfter(policy, Failures(log)))
        || (Last(log).Started? && Last(log).started == Some(RetryableBeforeStart)
            && delay == Jittered(PauseAfter(policy, Starts(log)), sample))
  }

  // Every request was due when it was made, and no bound of the policy was passed.
  ghost predicate GoodLog(log: seq<Event>, policy: Policy)
    decreases |log|
  {
    log == [] || (&& GoodLog(Init(log), policy) && Verdict(Init(log), policy).None? && Fits(Init(log), Last(log), policy)
                  && Starts(log) <= policy.attempts && Failures(log) <= policy.attempts)
  }

  lemma Append(log: seq<Event>, e: Event, policy: Policy)
    requires GoodLog(log, policy) && Verdict(log, policy).None? && Fits(log, e, policy)
    requires Starts(log + [e]) <= policy.attempts && Failures(log + [e]) <= policy.attempts
    ensures GoodLog(log + [e], policy) && Last(log + [e]) == e && Init(log + [e]) == log
  {
    assert Init(log + [e]) == log;
  }

  // --- what that means for host turns ------------------------------------------------------

  lemma {:induction false} GoodPrefix(log: seq<Event>, policy: Policy, n: nat)
    requires GoodLog(log, policy) && n <= |log|
    ensures GoodLog(log[..n], policy)
    ensures n < |log| ==> Verdict(log[..n], policy).None? && Fits(log[..n], log[n], policy)
    decreases |log|
  {
    if n < |log| {
      GoodPrefix(Init(log), policy, n);
      assert Init(log)[..n] == log[..n];
    } else {
      assert log[..n] == log;
    }
  }

  // A request that left nothing behind: declined before the start, or accepted and completed.
  ghost predicate Concluded(log: seq<Event>, i: nat)
    requires i < |log|
  {
    && log[i].Started?
    && (|| log[i].started == Some(RetryableBeforeStart)
        || (log[i].started == Some(StartAccepted) && i + 1 < |log| && log[i + 1] == Awaited(Some(TurnCompleted))))
  }

  // A request that is not the last event is concluded by what follows it.
  lemma {:induction false} StartsConclude(log: seq<Event>, policy: Policy, i: nat)
    requires GoodLog(log, policy) && i < |log| && log[i].Started?
    requires i + 1 < |log| && (log[i + 1].Awaited? ==> i + 2 < |log|)
    ensures Concluded(log, i)
  {
    GoodPrefix(log, policy, i + 1);
    var before := log[..i + 1];
    assert Last(before) == log[i];
    if log[i].started == Some(StartAccepted) {
      GoodPrefix(log, policy, i + 2);
      assert Last(log[..i + 2]) == log[i + 1];
    }
  }

  // No two host turns are ever outstanding: when a host turn is requested, every earlier request was
  // declined before it started anything or its turn has completed; and the request is for mail the
  // poll just returned, or repeats the one that was just declined.
  lemma {:induction false} NoDuplicateTurn(log: seq<Event>, policy: Policy, k: nat)
    requires GoodLog(log, policy) && k < |log| && log[k].Started?
    ensures forall i :: 0 <= i < k && log[i].Started? ==> Concluded(log, i)
    ensures k > 0 && (|| (log[k - 1].Polled? && log[k - 1].observed == Some(Saw(Some(log[k].wake))))
                      || (k > 1 && log[k - 1].Slept? && log[k - 2] == Started(log[k].wake, Some(RetryableBeforeStart))))
    ensures 1 <= Starts(log[..k + 1]) <= policy.attempts
  {
    GoodPrefix(log, policy, k);
    GoodPrefix(log, policy, k + 1);
    var before, upTo := log[..k], log[..k + 1];
    assert Last(upTo) == log[k] && Init(upTo) == before;
    assert before != [] && Last(before) == log[k - 1];
    forall i | 0 <= i < k && log[i].Started? ensures Concluded(log, i) {
      StartsConclude(log, policy, i);
    }
  }

  // Nothing is asked after an ambiguous or permanent outcome, a cancellation, or an open request.
  lemma {:induction false} FinalIsLast(log: seq<Event>, policy: Policy, i: nat)
    requires GoodLog(log, policy) && i < |log| - 1
    ensures match log[i]
            case Polled(_, observed) => observed.Some? && (observed.value.Saw? || observed.value.FailedRetryable?)
            case Started(_, started) => started.Some? && (started.value.StartAccepted? || started.value.RetryableBeforeStart?)
            case Awaited(completed) => completed == Some(TurnCompleted)
            case Slept(_, _, cancelled) => cancelled == Some(false)
  {
    GoodPrefix(log, policy, i + 1);
    assert Last(log[..i + 1]) == log[i];
  }

  // --- the environment ---------------------------------------------------------------------

  predicate ValidMoves(moves: seq<Move>) {
    forall i :: 0 <= i < |moves| && moves[i].poll.Saw? && moves[i].poll.seen.Some? ==> ValidWake(moves[i].poll.seen.value)
  }

  // The answer in an event is that of the move.
  ghost predicate AnsweredBy(e: Event, move: Option<Move>) {
    match e
    case Polled(_, observed) => observed == (if move.None? then None else Some(move.value.poll))
    case Started(_, started) => started == (if move.None? then None else Some(move.value.start))
    case Awaited(completed) => completed == (if move.None? then None else Some(move.value.completion))
    case Slept(_, sample, cancelled) =>
      && cancelled == (if move.None? then None else Some(move.value.cancelled))
      && sample == (if move.None? then None else move.value.sample)
  }

  class World {
    const moves: seq<Move>
    var taken: nat
    ghost var log: seq<Event>

    ghost predicate Valid()
      reads this
    {
      && ValidMoves(moves) && taken == |log|
      && (forall i :: 0 <= i < |log| ==> AnsweredBy(log[i], MoveAt(i)))
    }

    function MoveAt(i: nat): Option<Move> { if i < |moves| then Some(moves[i]) else None }

    constructor (moves: seq<Move>)
      requires ValidMoves(moves)
      ensures Valid() && log == [] && this.moves == moves
    {
      this.moves, taken, log := moves, 0, [];
    }

    // One exchange; the methods below name its four kinds.
    method Take(ghost e: Event, ghost policy: Policy) returns (move: Option<Move>)
      requires Valid() && AnsweredBy(e, MoveAt(taken))
      requires GoodLog(log, policy) && Verdict(log, policy).None? && Fits(log, e, policy)
      requires Starts(log + [e]) <= policy.attempts && Failures(log + [e]) <= policy.attempts
      modifies this
      ensures Valid() && log == old(log) + [e] && GoodLog(log, policy) && Last(log) == e && Init(log) == old(log)
      ensures move == MoveAt(old(taken)) && (move.Some? ==> old(taken) < |moves|) && taken == old(taken) + 1
    {
      Append(log, e, policy);
      move := MoveAt(taken);
      taken, log := taken + 1, log + [e];
    }

    method Poll(wait: nat, ghost policy: Policy) returns (observed: Option<Observation>)
      requires Valid() && GoodLog(log, policy) && Verdict(log, policy).None? && Fits(log, Polled(wait, None), policy)
      requires Failures(log) < policy.attempts
      modifies this
      ensures Valid() && log == old(log) + [Polled(wait, observed)] && GoodLog(log, policy)
      ensures Last(log) == Polled(wait, observed) && Starts(log) == 0
      ensures Failures(log) == if observed == Some(FailedRetryable) then Failures(old(log)) + 1 else 0
      ensures taken == old(taken) + 1 && (observed.Some? ==> taken <= |moves|)
      ensures observed.Some? && observed.value.Saw? && observed.value.seen.Some? ==> ValidWake(observed.value.seen.value)
    {
      ghost var e := Polled(wait, if MoveAt(taken).None? then None else Some(MoveAt(taken).value.poll));
      assert Init(log + [e]) == log;
      var move := Take(e, policy);
      observed := if move.None? then None else Some(move.value.poll);
    }

    method Start(wake: Wake, ghost policy: Policy) returns (started: Option<StartAnswer>)
      requires Valid() && GoodLog(log, policy) && Verdict(log, policy).None? && Fits(log, Started(wake, None), policy)
      requires Starts(log) < policy.attempts
      modifies this
      ensures Valid() && log == old(log) + [Started(wake, started)] && GoodLog(log, policy)
      ensures Last(log) == Started(wake, started) && Starts(log) == Starts(old(log)) + 1
      ensures taken == old(taken) + 1 && (started.Some? ==> taken <= |moves|)
    {
      ghost var e := Started(wake, if MoveAt(taken).None? then None else Some(MoveAt(taken).value.start));
      assert Init(log + [e]) == log;
      var move := Take(e, policy);
      started := if move.None? then None else Some(move.value.start);
    }

    method Await(ghost policy: Policy) returns (completed: Option<Completion>)
      requires Valid() && GoodLog(log, policy) && Verdict(log, policy).None? && Fits(log, Awaited(None), policy)
      modifies this
      ensures Valid() && log == old(log) + [Awaited(completed)] && GoodLog(log, policy)
      ensures Last(log) == Awaited(completed) && Failures(log) == 0
      ensures taken == old(taken) + 1 && (completed.Some? ==> taken <= |moves|)
    {
      ghost var e := Awaited(if MoveAt(taken).None? then None else Some(MoveAt(taken).value.completion));
      assert Init(log + [e]) == log;
      var move := Take(e, policy);
      completed := if move.None? then None else Some(move.value.completion);
    }

    // The random source, asked just before a jittered sleep.
    function Sample(): Option<nat>
      reads this
    {
      if MoveAt(taken).None? then None else MoveAt(taken).value.sample
    }

    method Sleep(delay: nat, ghost policy: Policy) returns (cancelled: Option<bool>)
      requires Valid() && GoodLog(log, policy) && Verdict(log, policy).None? && Fits(log, Slept(delay, Sample(), None), policy)
      modifies this
      ensures Valid() && log == old(log) + [Slept(delay, old(Sample()), cancelled)] && GoodLog(log, policy)
      ensures Last(log) == Slept(delay, old(Sample()), cancelled) && Init(log) == old(log)
      ensures Starts(log) == Starts(old(log)) && Failures(log) == Failures(old(log))
      ensures taken == old(taken) + 1 && (cancelled.Some? ==> taken <= |moves|)
    {
      ghost var e := Slept(delay, Sample(), if MoveAt(taken).None? then None else Some(MoveAt(taken).value.cancelled));
      assert Init(log + [e]) == log;
      var move := Take(e, policy);
      cancelled := if move.None? then None else Some(move.value.cancelled);
    }
  }

  // --- `drive_wake` ------------------------------------------------------------------------

  // What holds when the loop is about to request a turn for `wake`.
  ghost predicate Due(machine: Machine, world: World, wake: Wake)
    reads world
  {
    && MachineInv(machine) && machine.phase == Pending && machine.pending == Some(wake)
    && world.Valid() && GoodLog(world.log, machine.policy) && Verdict(world.log, machine.policy).None?
    && Fits(world.log, Started(wake, None), machine.policy)
    && Starts(world.log) == machine.attempt
  }

  // What holds when `drive_wake` is over: a finished turn leaves the machine quiet, and everything
  // else is what the log says.
  ghost predicate Driven(machine: Machine, world: World, exit: Exit)
    reads world
  {
    && MachineInv(machine) && world.Valid() && GoodLog(world.log, machine.policy) && world.log != []
    && (if exit == Returned && machine.phase == Quiet
        then Last(world.log) == Awaited(Some(TurnCompleted))
        else Verdict(world.log, machine.policy) == Some(exit))
    && (exit == Returned ==> machine.phase in {Quiet, Blocked})
    && (exit != Returned ==> machine.phase in {Waking, Running, Backoff})
  }

  // The tail of `drive_wake`, once the host took the request.
  method AwaitTurn(machine: ActivationMachine, world: World) returns (exit: Exit)
    requires MachineInv(machine.State()) && machine.phase == Waking
    requires world.Valid() && GoodLog(world.log, machine.policy) && world.log != []
    requires Last(world.log).Started? && Last(world.log).started == Some(StartAccepted)
    modifies machine, world
    ensures Driven(machine.State(), world, exit) && machine.policy == old(machine.policy)
    ensures world.taken > old(world.taken)
  {
    var accepted := machine.WakeAccepted();
    assert accepted;
    var completed := world.Await(machine.policy);
    if completed.None? { return Waiting; }
    match completed.value {
      case TurnCancelled => return Cancelled;
      case TurnCompleted =>
        var _ := machine.WakeCompleted();
        return Returned;
      case TurnFailed =>
        // once a turn was accepted, every missing completion is ambiguous
        var _ := machine.WakePermanent();
        return Returned;
    }
  }

  datatype Pause = Retry(wake: Wake) | Leave(exit: Exit)

  // The pause before a declined request is repeated.
  method Rest(machine: ActivationMachine, world: World, delay: nat) returns (pause: Pause)
    requires MachineInv(machine.State()) && machine.phase == Backoff
    requires world.Valid() && GoodLog(world.log, machine.policy) && world.log != []
    requires Last(world.log) == Started(machine.pending.value, Some(RetryableBeforeStart))
    requires Starts(world.log) == machine.retryAttempt && delay == PauseAfter(machine.policy, machine.retryAttempt)
    modifies machine, world
    ensures machine.policy == old(machine.policy) && world.taken > old(world.taken)
    ensures pause.Retry? ==> Due(machine.State(), world, pause.wake) && world.taken <= |world.moves|
    ensures pause.Leave? ==> Driven(machine.State(), world, pause.exit)
  {
    var cancelled := world.Sleep(Jittered(delay, world.Sample()), machine.policy);
    if cancelled.None? { return Leave(Waiting); }
    if cancelled.value { return Leave(Cancelled); }
    var retained := machine.RetryDue();
    assert retained.Some?;
    return Retry(retained.value);
  }

  // The retry arm of `drive_wake`.
  method BackOff(machine: ActivationMachine, world: World) returns (pause: Pause)
    requires MachineInv(machine.State()) && machine.phase == Waking
    requires world.Valid() && GoodLog(world.log, machine.policy) && world.log != []
    requires Last(world.log) == Started(machine.pending.value, Some(RetryableBeforeStart))
    requires Starts(world.log) == machine.retryAttempt + 1
    modifies machine, world
    ensures machine.policy == old(machine.policy) && world.taken >= old(world.taken)
    ensures pause.Retry? ==> Due(machine.State(), world, pause.wake) && world.taken <= |world.moves|
    ensures pause.Leave? ==> Driven(machine.State(), world, pause.exit)
  {
    var delay := Decline(machine);
    if delay.None? { return Leave(Returned); }
    pause := Rest(machine, world, delay.value);
  }

  // A declined request is counted, and blocks the machine or names the pause.
  method Decline(machine: ActivationMachine) returns (delay: Option<nat>)
    requires MachineInv(machine.State()) && machine.phase == Waking
    modifies machine
    ensures MachineInv(machine.State()) && machine.policy == old(machine.policy) && machine.pending == old(machine.pending)
    ensures machine.retryAttempt == old(machine.retryAttempt) + 1
    ensures delay.None? ==> machine.phase == Blocked && machine.retryAttempt >= machine.policy.attempts
    ensures delay.Some? ==>
              machine.phase == Backoff && delay.value == PauseAfter(machine.policy, machine.retryAttempt)
  {
    var command := machine.WakeRetryable();
    assert command.Some?;
    if !command.value.RetryAfter? { return None; }
    PausesAgree(machine.policy, machine.retryAttempt);
    return Some(command.value.delay);
  }

  // The arms of `drive_wake`, by what the host answered.
  method Respond(machine: ActivationMachine, world: World, started: StartAnswer) returns (pause: Pause)
    requires MachineInv(machine.State()) && machine.phase == Waking
    requires world.Valid() && GoodLog(world.log, machine.policy) && world.log != []
    requires Last(world.log) == Started(machine.pending.value, Some(started))
    requires Starts(world.log) == machine.retryAttempt + 1
    modifies machine, world
    ensures machine.policy == old(machine.policy) && world.taken >= old(world.taken)
    ensures pause.Retry? ==> Due(machine.State(), world, pause.wake) && world.taken <= |world.moves|
    ensures pause.Leave? ==> Driven(machine.State(), world, pause.exit)
  {
    match started {
      case StartCancelled => return Leave(Cancelled);
      case RetryableBeforeStart => pause := BackOff(machine, world);
      case StartUnknown | StartPermanent =>
        var _ := machine.WakePermanent();
        return Leave(Returned);
      case StartAccepted =>
        var exit := AwaitTurn(machine, world);
        return Leave(exit);
    }
  }

  // One turn of the loop of `drive_wake`.
  method Attempt(machine: ActivationMachine, world: World, wake: Wake) returns (pause: Pause)
    requires Due(machine.State(), world, wake)
    modifies machine, world
    ensures machine.policy == old(machine.policy) && world.taken > old(world.taken)
    ensures pause.Retry? ==> Due(machine.State(), world, pause.wake) && world.taken <= |world.moves|
    ensures pause.Leave? ==> Driven(machine.State(), world, pause.exit)
  {
    var issued := machine.WakeStarted();
    assert issued;
    var started := world.Start(wake, machine.policy);
    if started.None? { return Leave(Waiting); }
    pause := Respond(machine, world, started.value);
  }

  method DriveWake(machine: ActivationMachine, world: World, first: Wake) returns (exit: Exit)
    requires Due(machine.State(), world, first)
    modifies machine, world
    ensures Driven(machine.State(), world, exit) && machine.policy == old(machine.policy)
    ensures world.taken > old(world.taken)
  {
    var pause := Attempt(machine, world, first);
    while pause.Retry?
      invariant machine.policy == old(machine.policy) && world.taken > old(world.taken)
      invariant pause.Retry? ==> Due(machine.State(), world, pause.wake) && world.taken <= |world.moves|
      invariant pause.Leave? ==> Driven(machine.State(), world, pause.exit)
      decreases if pause.Retry? then |world.moves| - world.taken + 1 else 0
    {
      pause := Attempt(machine, world, pause.wake);
    }
    return pause.exit;
  }

  // --- `run_activation` --------------------------------------------------------------------

  // What holds at the head of the loop: the machine is quiet, nothing is outstanding, and the next
  // poll is the one that is due.
  ghost predicate AtHead(m: Machine, world: World, wait: nat, failures: nat)
    reads world
  {
    && MachineInv(m) && m.phase == Quiet
    && world.Valid() && GoodLog(world.log, m.policy) && Verdict(world.log, m.policy).None?
    && Fits(world.log, Polled(wait, None), m.policy)
    && Failures(world.log) == failures < m.policy.attempts
  }

  // What holds when the loop is left.
  ghost predicate Ended(m: Machine, world: World, exit: Exit)
    reads world
  {
    && MachineInv(m) && world.Valid() && GoodLog(world.log, m.policy)
    && Verdict(world.log, m.policy) == Some(exit)
    && (exit == Returned <==> m.phase == Blocked)
    && (exit != Returned ==> m.phase in {Quiet, Waking, Running, Backoff})
  }

  // One successful poll: mail is driven, an empty inbox is not.
  method React(machine: ActivationMachine, world: World, seen: Option<Wake>) returns (exit: Option<Exit>, wait: nat)
    requires MachineInv(machine.State()) && machine.phase == Quiet && (seen.Some? ==> ValidWake(seen.value))
    requires world.Valid() && GoodLog(world.log, machine.policy) && world.log != [] && Starts(world.log) == 0
    requires Last(world.log).Polled? && Last(world.log).observed == Some(Saw(seen)) && Failures(world.log) == 0
    modifies machine, world
    ensures machine.policy == old(machine.policy) && world.taken >= old(world.taken)
    ensures exit.None? ==> AtHead(machine.State(), world, wait, 0)
    ensures exit.Some? ==> Ended(machine.State(), world, exit.value)
  {
    wait := UsualWait(machine.policy);
    var command := machine.Observe(seen);
    if !command.Activate? { return None, wait; }
    var driven := DriveWake(machine, world, command.wake);
    if driven != Returned || machine.phase == Blocked { return Some(driven), wait; }
    return None, 0;
  }

  // One failed poll: count it, and block or pause.
  method Falter(machine: ActivationMachine, world: World, failures: nat) returns (exit: Option<Exit>)
    requires MachineInv(machine.State()) && machine.phase == Quiet
    requires world.Valid() && GoodLog(world.log, machine.policy) && world.log != []
    requires Last(world.log).Polled? && Last(world.log).observed == Some(FailedRetryable)
    requires Failures(world.log) == failures <= machine.policy.attempts
    modifies machine, world
    ensures machine.policy == old(machine.policy) && world.taken >= old(world.taken)
    ensures exit.None? ==> AtHead(machine.State(), world, UsualWait(machine.policy), failures)
    ensures exit.Some? ==> Ended(machine.State(), world, exit.value)
  {
    if failures >= machine.policy.attempts {
      machine.Block();
      return Some(Returned);
    }
    PausesAgree(machine.policy, failures);
    var cancelled := world.Sleep(RetryDelay(machine.policy, failures), machine.policy);
    if cancelled.None? { return Some(Waiting); }
    return if cancelled.value then Some(Cancelled) else None;
  }

  // One round of `run_activation`.
  method Round(machine: ActivationMachine, world: World, wait: nat, failures: nat)
    returns (exit: Option<Exit>, nextWait: nat, nextFailures: nat)
    requires AtHead(machine.State(), world, wait, failures)
    modifies machine, world
    ensures machine.policy == old(machine.policy) && world.taken >= old(world.taken)
    ensures exit.None? ==> AtHead(machine.State(), world, nextWait, nextFailures)
    ensures exit.None? ==> old(world.taken) < |world.moves| && old(world.taken) < world.taken
    ensures exit.Some? ==> Ended(machine.State(), world, exit.value)
  {
    nextWait, nextFailures := UsualWait(machine.policy), 0;
    var observed := world.Poll(wait, machine.policy);
    if observed.None? { return Some(Waiting), nextWait, nextFailures; }
    match observed.value {
      case ObserveCancelled => exit := Some(Cancelled);
      case FailedPermanent =>
        machine.Block();
        exit := Some(Returned);
      case FailedRetryable =>
        nextFailures := NextAttempt(failures);
        exit := Falter(machine, world, nextFailures);
      case Saw(seen) => exit, nextWait := React(machine, world, seen);
    }
  }

  // The loop comes back exactly when the log says that it is over, for the reason it says: blocked,
  // cancelled by an answer of the environment, or still waiting for one.
  method RunActivation(machine: ActivationMachine, world: World, policy: Policy) returns (exit: Exit)
    requires NewMachine(policy) == Some(machine.State())
    requires world.Valid() && world.log == []
    modifies machine, world
    ensures machine.policy == policy && Ended(machine.State(), world, exit)
  {
    var nextWait, observationFailures := UsualWait(policy), 0;
    while true
      invariant machine.policy == policy && AtHead(machine.State(), world, nextWait, observationFailures)
      decreases |world.moves| - world.taken
    {
      var left: Option<Exit>;
      left, nextWait, observationFailures := Round(machine, world, nextWait, observationFailures);
      if left.Some? { return left.value; }
    }
  }
}
