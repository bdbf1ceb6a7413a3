/** The activation machine as the object its driver mutates.  Each method is proved against the
    transition of the same name in `Activation`.  */
module ActivationObject {
  import opened Wrappers
  import opened Backoff
  import A = Activation
  import opened Activation

  class ActivationMachine {
    var policy: Policy
    var phase: Phase
    var pending: Option<Wake>
    var reconcileNeeded: bool
    var retryAttempt: nat

    function State(): Machine
      reads this
    {
      Machine(policy, phase, pending, reconcileNeeded, retryAttempt)
    }

    constructor (policy: Policy)
      requires ValidPolicy(policy)
      ensures NewMachine(policy) == Some(State()) && MachineInv(State())
    {
      this.policy, phase, pending, reconcileNeeded, retryAttempt := policy, Quiet, None, false, 0;
    }

    method Observe(seen: Option<Wake>) returns (command: Command)
      modifies this
      ensures (State(), command) == A.Observe(old(State()), seen)
    {
      if phase == Stopped || phase == Blocked || seen.None? { return NoCommand; }
      pending := seen;
      if phase == Quiet {
        phase := Pending;
        return Activate(seen.value);
      }
      reconcileNeeded := true;
      return NoCommand;
    }

    method WakeStarted() returns (ok: bool)
      modifies `phase
      ensures ok == A.WakeStarted(old(State())).Some? && State() == Otherwise(old(State()), A.WakeStarted(old(State())))
    {
      ok := phase == Pending && pending.Some?;
      if ok { phase := Waking; }
    }

    method WakeAccepted() returns (ok: bool)
      modifies `phase
      ensures ok == A.WakeAccepted(old(State())).Some? && State() == Otherwise(old(State()), A.WakeAccepted(old(State())))
    {
      ok := phase == Waking;
      if ok { phase := Running; }
    }

    method WakeCompleted() returns (ok: bool)
      modifies this
      ensures ok == HostBusy(old(phase)) && State() == Otherwise(old(State()), A.WakeCompleted(old(State())))
    {
      ok := HostBusy(phase);
      if ok { phase, pending, reconcileNeeded, retryAttempt := Quiet, None, false, 0; }
    }

    method WakeRetryable() returns (command: Option<Command>)
      modifies this
      ensures match A.WakeRetryable(old(State()))
              case Some(r) => State() == r.0 && command == Some(r.1)
              case None => State() == old(State()) && command == None
    {
      if !HostBusy(phase) { return None; }
      retryAttempt := NextAttempt(retryAttempt);
      if retryAttempt >= policy.attempts {
        phase := Blocked;
        return Some(NoCommand);
      }
      phase := Backoff;
      return Some(RetryAfter(RetryDelay(policy, retryAttempt)));
    }

    method RetryDue() returns (retained: Option<Wake>)
      modifies this
      ensures State() == Otherwise(old(State()), A.RetryDue(old(State())))
      ensures retained == if A.RetryDue(old(State())).Some? then old(pending) else None
    {
      if phase != Backoff || pending.None? { return None; }
      phase, reconcileNeeded := Pending, false;
      return pending;
    }

    method WakePermanent() returns (ok: bool)
      modifies `phase
      ensures ok == HostBusy(old(phase)) && State() == Otherwise(old(State()), A.WakePermanent(old(State())))
    {
      ok := HostBusy(phase);
      if ok { phase := Blocked; }
    }

    method Stop()
      modifies this
      ensures State() == A.Stop(old(State()))
    {
      phase, pending, reconcileNeeded := Stopped, None, false;
    }

    method Block()
      modifies this
      ensures State() == A.Block(old(State()))
    {
      if phase != Stopped { phase := Blocked; }
    }
  }
}
