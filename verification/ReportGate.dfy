/** The availability-report tracker at the grain of its atomic steps: a token behind a mutex, a
    counter moved by compare-and-swap and by unlocked decrements, a permanent flag, and any number
    of threads registering, finishing, cancelling, closing and draining at once.  */
module ReportGate {
  import opened Wrappers

  const MAX_ACTIVE_REPORTS: nat := 8

  datatype Pc =
    // register: flag, token and counter under the token's mutex
    | RegisterLock | CheckClosed | CheckToken | LoadActive | Swap(observed: nat)
    | Reporter                                  // registered; the report is in flight
    // close_permanently, and shutdown's drain after it
    | StoreClosed | CancelLock | ShutDrain | ShutDone
    // leave: cancel, drain, and reopen if it gives up or rolls back
    | LeaveCancel | LeaveDrain | LeaveDrained | ReopenLock | ReopenCheck | ReopenToken
    | Gone

  datatype Gate = Gate(closed: bool, cancelled: bool, active: nat, lock: Option<nat>, threads: map<nat, Pc>)

  const NEW_GATE: Gate := Gate(false, false, 0, None, map[])

  datatype Call = Register | ClosePermanently | Leave

  datatype Action = Spawn(thread: nat, call: Call) | Go(who: nat, choice: bool)

  predicate Leaving(pc: Pc) { pc.LeaveCancel? || Refusing(pc) }

  predicate Refusing(pc: Pc) {
    pc.LeaveDrain? || pc.LeaveDrained? || pc.ReopenLock? || pc.ReopenCheck? || pc.ReopenToken?
  }

  predicate Holding(pc: Pc) { pc.CheckClosed? || PastClosed(pc) || pc.ReopenCheck? || pc.ReopenToken? }

  predicate PastClosed(pc: Pc) { pc.CheckToken? || PastToken(pc) }

  predicate PastToken(pc: Pc) { pc.LoadActive? || pc.Swap? }

  function Move(g: Gate, t: nat, pc: Pc): Gate { g.(threads := g.threads[t := pc]) }

  function Unlock(g: Gate, t: nat, pc: Pc): Gate { Move(g, t, pc).(lock := None) }

  function Lock(g: Gate, t: nat, pc: Pc): Option<Gate> {
    if g.lock.Some? then None else Some(Move(g, t, pc).(lock := Some(t)))
  }

  // A weak compare-and-swap may fail although the value matches; it then reloads.
  function RegisterStep(g: Gate, t: nat, pc: Pc, choice: bool): Option<Gate> {
    match pc
    case RegisterLock => Lock(g, t, CheckClosed)
    case CheckClosed => Some(if g.closed then Unlock(g, t, Gone) else Move(g, t, CheckToken))
    case CheckToken => Some(if g.cancelled then Unlock(g, t, Gone) else Move(g, t, LoadActive))
    case LoadActive => Some(Move(g, t, Swap(g.active)))
    case Swap(observed) =>
      Some(if observed >= MAX_ACTIVE_REPORTS then Unlock(g, t, Gone)
           else if g.active == observed && choice then Unlock(g, t, Reporter).(active := g.active + 1)
           else Move(g, t, Swap(g.active)))
    case Reporter => Some(Move(g, t, Gone).(active := if g.active == 0 then 0 else g.active - 1))
    case _ => None
  }

  function ShutStep(g: Gate, t: nat, pc: Pc, choice: bool): Option<Gate> {
    match pc
    case StoreClosed => Some(Move(g, t, CancelLock).(closed := true))
    case CancelLock => if g.lock.Some? then None
                       else Some(Move(g, t, if choice then ShutDrain else Gone).(cancelled := true))
    case ShutDrain => if choice then Some(Move(g, t, Gone))
                      else if g.active != 0 then None else Some(Move(g, t, ShutDone))
    case _ => None
  }

  function LeaveStep(g: Gate, t: nat, pc: Pc, choice: bool): Option<Gate> {
    match pc
    case LeaveCancel => if g.lock.Some? then None else Some(Move(g, t, LeaveDrain).(cancelled := true))
    case LeaveDrain => if choice then Some(Move(g, t, ReopenLock))
                       else if g.active != 0 then None else Some(Move(g, t, LeaveDrained))
    case LeaveDrained => Some(Move(g, t, ReopenLock))
    case ReopenLock => if choice then Some(Move(g, t, Gone)) else Lock(g, t, ReopenCheck)
    case ReopenCheck => Some(if g.closed then Unlock(g, t, Gone) else Move(g, t, ReopenToken))
    case ReopenToken => Some(Unlock(g, t, Gone).(cancelled := false))
    case _ => None
  }

  function First(call: Call): Pc {
    match call case Register => RegisterLock case ClosePermanently => StoreClosed case Leave => LeaveCancel
  }

  function GoStep(g: Gate, t: nat, choice: bool): Option<Gate>
    requires t in g.threads
  {
    var pc := g.threads[t];
    if Leaving(pc) then LeaveStep(g, t, pc, choice)
    else if pc.StoreClosed? || pc.CancelLock? || pc.ShutDrain? then ShutStep(g, t, pc, choice)
    else RegisterStep(g, t, pc, choice)
  }

  function Step(g: Gate, a: Action): Option<Gate> {
    match a
    case Spawn(t, call) =>
      if t in g.threads || (call == Leave && exists u | u in g.threads :: Leaving(g.threads[u])) then None
      else Some(Move(g, t, First(call)))
    case Go(t, choice) => if t in g.threads then GoStep(g, t, choice) else None
  }

  function Run(g: Gate, actions: seq<Action>): Option<Gate>
    decreases |actions|
  {
    if actions == [] then Some(g)
    else if Step(g, actions[0]).None? then None
    else Run(Step(g, actions[0]).value, actions[1..])
  }

  // --- invariant ---------------------------------------------------------------------------

  ghost function Reporters(g: Gate): set<nat> { set t | t in g.threads && g.threads[t].Reporter? }

  ghost predicate LockInv(g: Gate) {
    && (forall t :: t in g.threads ==> (Holding(g.threads[t]) <==> g.lock == Some(t)))
    && (g.lock.Some? ==> g.lock.value in g.threads)
    && (forall t, u :: t in g.threads && u in g.threads && Leaving(g.threads[t]) && Leaving(g.threads[u]) ==> t == u)
  }

  ghost predicate CountInv(g: Gate) { g.active == |Reporters(g)| && g.active <= MAX_ACTIVE_REPORTS }

  // A token that is live after the permanent close is about to be cancelled by its closer.
  ghost predicate FlagInv(g: Gate) {
    g.closed && (!g.cancelled || exists r :: r in g.threads && g.threads[r].ReopenToken?) ==>
      exists t :: t in g.threads && g.threads[t].CancelLock?
  }

  ghost predicate Sealed(g: Gate) {
    g.closed && forall u :: u in g.threads ==> !PastClosed(g.threads[u])
  }

  ghost predicate DrainInv(g: Gate) {
    && (forall t :: t in g.threads && g.threads[t].CancelLock? ==> g.closed)
    && (forall t :: t in g.threads && (g.threads[t].ShutDrain? || g.threads[t].ShutDone?) ==> Sealed(g))
    && (forall t :: t in g.threads && g.threads[t].ShutDone? ==> Reporters(g) == {})
    && (forall t :: t in g.threads && Refusing(g.threads[t]) ==>
          g.cancelled && forall u :: u in g.threads ==> !PastToken(g.threads[u]))
    && (forall t :: t in g.threads && g.threads[t].LeaveDrained? ==> Reporters(g) == {})
  }

  ghost predicate Inv(g: Gate) { LockInv(g) && CountInv(g) && FlagInv(g) && DrainInv(g) }

  // --- one thread moves --------------------------------------------------------------------

  ghost predicate LocalLock(g: Gate, g': Gate, t: nat, pc: Pc, pc': Pc) {
    && g'.threads == g.threads[t := pc']
    && (Holding(pc') <==> g'.lock == Some(t))
    && (g'.lock == g.lock || ((g.lock.None? || g.lock == Some(t)) && (g'.lock.None? || g'.lock == Some(t))))
    && (Leaving(pc') ==> Leaving(pc))
  }

  ghost predicate LocalCount(g: Gate, g': Gate, pc: Pc, pc': Pc) {
    if pc.Reporter? && !pc'.Reporter? then g'.active == if g.active == 0 then 0 else g.active - 1
    else if !pc.Reporter? && pc'.Reporter? then g'.active == g.active + 1 <= MAX_ACTIVE_REPORTS
    else g'.active == g.active
  }

  ghost predicate LocalFlags(g: Gate, g': Gate, pc: Pc, pc': Pc) {
    && (g.closed ==> g'.closed)
    && (g'.closed && !g.closed ==> pc'.CancelLock?)
    && (pc'.CancelLock? ==> g'.closed)
    && (!g'.cancelled ==> !g.cancelled || pc.ReopenToken?)
    && (pc'.ReopenToken? ==> !g'.closed)
    && (pc.CancelLock? ==> g'.cancelled && g.lock.None?)
    && (pc'.ShutDrain? || pc'.ShutDone? ==> g.closed)
  }

  ghost predicate LocalDrain(g: Gate, g': Gate, pc: Pc, pc': Pc) {
    && (PastClosed(pc') ==> PastClosed(pc) || !g.closed)
    && (PastToken(pc') ==> PastToken(pc) || !g.cancelled)
    && (pc'.Reporter? ==> pc.Reporter? || PastToken(pc))
    && (pc'.ShutDrain? ==> g.lock.None?)
    && (pc'.ShutDone? ==> pc.ShutDone? || (pc.ShutDrain? && g.active == 0))
    && (Refusing(pc') ==> g'.cancelled && (Refusing(pc) || g.lock.None?))
    && (pc'.LeaveDrained? ==> pc.LeaveDrained? || (Refusing(pc) && g.active == 0))
    && (!g'.cancelled ==> !g.cancelled || Leaving(pc))
  }

  ghost predicate Local(g: Gate, g': Gate, t: nat) {
    && t in g.threads && t in g'.threads
    && LocalLock(g, g', t, g.threads[t], g'.threads[t])
    && LocalCount(g, g', g.threads[t], g'.threads[t])
    && LocalFlags(g, g', g.threads[t], g'.threads[t])
    && LocalDrain(g, g', g.threads[t], g'.threads[t])
  }

  ghost predicate Consistent(g: Gate, t: nat, pc: Pc) {
    && (Holding(pc) <==> g.lock == Some(t))
    && (pc.CancelLock? || pc.ShutDrain? || pc.ShutDone? ==> g.closed)
    && (Refusing(pc) ==> g.cancelled)
  }

  lemma CheckIsLocal(g: Gate, t: nat, choice: bool)
    requires t in g.threads && Consistent(g, t, g.threads[t]) && RegisterStep(g, t, g.threads[t], choice).Some?
    requires g.threads[t].RegisterLock? || g.threads[t].CheckClosed? || g.threads[t].CheckToken? || g.threads[t].LoadActive?
    ensures Local(g, RegisterStep(g, t, g.threads[t], choice).value, t)
  {
  }

  lemma CountIsLocal(g: Gate, t: nat, choice: bool)
    requires t in g.threads && Consistent(g, t, g.threads[t]) && (g.threads[t].Swap? || g.threads[t].Reporter?)
    ensures Local(g, RegisterStep(g, t, g.threads[t], choice).value, t)
  {
  }

  lemma RegisterIsLocal(g: Gate, t: nat, choice: bool)
    requires t in g.threads && Consistent(g, t, g.threads[t]) && RegisterStep(g, t, g.threads[t], choice).Some?
    ensures Local(g, RegisterStep(g, t, g.threads[t], choice).value, t)
  {
    if g.threads[t].Swap? || g.threads[t].Reporter? { CountIsLocal(g, t, choice); } else { CheckIsLocal(g, t, choice); }
  }

  lemma ShutIsLocal(g: Gate, t: nat, choice: bool)
    requires t in g.threads && Consistent(g, t, g.threads[t]) && ShutStep(g, t, g.threads[t], choice).Some?
    ensures Local(g, ShutStep(g, t, g.threads[t], choice).value, t)
  {
  }

  lemma LeaveIsLocal(g: Gate, t: nat, choice: bool)
    requires t in g.threads && Consistent(g, t, g.threads[t]) && LeaveStep(g, t, g.threads[t], choice).Some?
    ensures Local(g, LeaveStep(g, t, g.threads[t], choice).value, t)
  {
  }

  lemma LocalKeepsLock(g: Gate, g': Gate, t: nat)
    requires LockInv(g) && Local(g, g', t)
    ensures LockInv(g')
  {
  }

  lemma LocalKeepsCount(g: Gate, g': Gate, t: nat)
    requires CountInv(g) && Local(g, g', t)
    ensures CountInv(g')
  {
    var pc, pc' := g.threads[t], g'.threads[t];
    if pc.Reporter? && !pc'.Reporter? {
      assert Reporters(g') == Reporters(g) - {t} && t in Reporters(g);
    } else if !pc.Reporter? && pc'.Reporter? {
      assert Reporters(g') == Reporters(g) + {t};
    } else {
      assert Reporters(g') == Reporters(g);
    }
  }

  lemma LocalKeepsFlags(g: Gate, g': Gate, t: nat)
    requires LockInv(g) && FlagInv(g) && Local(g, g', t)
    ensures FlagInv(g')
  {
    if g'.closed && (!g'.cancelled || exists r :: r in g'.threads && g'.threads[r].ReopenToken?) {
      if g'.threads[t].CancelLock? {
      } else {
        assert g.closed;
        if !g.cancelled {
        } else if !g'.cancelled {
          assert g.threads[t].ReopenToken?;
        } else {
          var r :| r in g'.threads && g'.threads[r].ReopenToken?;
          assert r != t && g.threads[r].ReopenToken?;
        }
        var c :| c in g.threads && g.threads[c].CancelLock?;
        assert forall r :: r in g'.threads && g'.threads[r].ReopenToken? ==> r == t || Holding(g.threads[r]);
        assert c != t && g'.threads[c].CancelLock?;
      }
    }
  }

  lemma NobodyHolds(g: Gate)
    requires LockInv(g) && g.lock.None?
    ensures forall u :: u in g.threads ==> !PastClosed(g.threads[u])
  {
    forall u | u in g.threads ensures !PastClosed(g.threads[u]) { assert !Holding(g.threads[u]); }
  }

  lemma LocalKeepsShut(g: Gate, g': Gate, t: nat)
    requires Inv(g) && Local(g, g', t)
    ensures forall s :: s in g'.threads && (g'.threads[s].ShutDrain? || g'.threads[s].ShutDone?) ==> Sealed(g')
    ensures forall s :: s in g'.threads && g'.threads[s].ShutDone? ==> Reporters(g') == {}
  {
    if s :| s in g'.threads && (g'.threads[s].ShutDrain? || g'.threads[s].ShutDone?) {
      if g'.threads[t].ShutDrain? { NobodyHolds(g); }
      assert Sealed(g);
    }
    if s :| s in g'.threads && g'.threads[s].ShutDone? {
      assert Reporters(g) == {} by {
        if s == t && !g.threads[t].ShutDone? { assert |Reporters(g)| == 0; }
      }
      assert t !in Reporters(g);
      assert Reporters(g') == {};
    }
  }

  lemma LocalKeepsRefusal(g: Gate, g': Gate, t: nat)
    requires Inv(g) && Local(g, g', t)
    ensures forall r :: r in g'.threads && Refusing(g'.threads[r]) ==>
              g'.cancelled && forall u :: u in g'.threads ==> !PastToken(g'.threads[u])
    ensures forall d :: d in g'.threads && g'.threads[d].LeaveDrained? ==> Reporters(g') == {}
  {
    if r :| r in g'.threads && Refusing(g'.threads[r]) {
      if r == t && !Refusing(g.threads[t]) { NobodyHolds(g); }
      assert g'.cancelled && !PastToken(g'.threads[t]);
      forall u | u in g'.threads ensures !PastToken(g'.threads[u]) { assert u != t ==> u in g.threads; }
    }
    if d :| d in g'.threads && g'.threads[d].LeaveDrained? {
      assert Refusing(g'.threads[d]);
      assert Reporters(g) == {} by {
        if d == t && !g.threads[t].LeaveDrained? { assert |Reporters(g)| == 0; }
      }
      assert t !in Reporters(g);
      assert Reporters(g') == {};
    }
  }

  lemma LocalKeeps(g: Gate, g': Gate, t: nat)
    requires Inv(g) && Local(g, g', t)
    ensures Inv(g')
  {
    LocalKeepsLock(g, g', t);
    LocalKeepsCount(g, g', t);
    LocalKeepsFlags(g, g', t);
    LocalKeepsShut(g, g', t);
    LocalKeepsRefusal(g, g', t);
  }

  // A thread about to begin is one that has been sitting at `Gone`.
  lemma ParkKeeps(g: Gate, t: nat)
    requires Inv(g) && t !in g.threads
    ensures Inv(Move(g, t, Gone))
  {
    var parked := Move(g, t, Gone);
    assert Reporters(parked) == Reporters(g);
    assert forall u :: u in g.threads ==> parked.threads[u] == g.threads[u];
    assert FlagInv(parked) by {
      if parked.closed && (!parked.cancelled || exists r :: r in parked.threads && parked.threads[r].ReopenToken?) {
        var c :| c in g.threads && g.threads[c].CancelLock?;
        assert parked.threads[c].CancelLock?;
      }
    }
  }

  lemma BeginLeaveKeeps(g: Gate, t: nat)
    requires Inv(g) && t in g.threads && g.threads[t] == Gone
    requires forall u :: u in g.threads ==> !Leaving(g.threads[u])
    ensures Inv(Move(g, t, LeaveCancel))
  {
    var g' := Move(g, t, LeaveCancel);
    assert Reporters(g') == Reporters(g);
    assert FlagInv(g') by {
      if g'.closed && (!g'.cancelled || exists r :: r in g'.threads && g'.threads[r].ReopenToken?) {
        var c :| c in g.threads && g.threads[c].CancelLock?;
        assert g'.threads[c].CancelLock?;
      }
    }
  }

  lemma BeginIsLocal(g: Gate, t: nat, pc: Pc)
    requires t in g.threads && g.threads[t] == Gone && g.lock != Some(t) && (pc.RegisterLock? || pc.StoreClosed?)
    ensures Local(g, Move(g, t, pc), t)
  {
  }

  lemma SpawnKeeps(g: Gate, t: nat, call: Call)
    requires Inv(g) && Step(g, Spawn(t, call)).Some?
    ensures Inv(Step(g, Spawn(t, call)).value)
  {
    ParkKeeps(g, t);
    var parked, g' := Move(g, t, Gone), Step(g, Spawn(t, call)).value;
    assert g'.threads == parked.threads[t := First(call)];
    if call == Leave {
      BeginLeaveKeeps(parked, t);
    } else {
      BeginIsLocal(parked, t, g'.threads[t]);
      LocalKeeps(parked, g', t);
    }
  }

  lemma GoIsLocal(g: Gate, t: nat, choice: bool)
    requires Inv(g) && t in g.threads && GoStep(g, t, choice).Some?
    ensures Local(g, GoStep(g, t, choice).value, t) && !g.threads[t].ShutDone?
  {
    var pc := g.threads[t];
    assert Consistent(g, t, pc);
    if Leaving(pc) { LeaveIsLocal(g, t, choice); }
    else if pc.StoreClosed? || pc.CancelLock? || pc.ShutDrain? { ShutIsLocal(g, t, choice); }
    else { RegisterIsLocal(g, t, choice); }
  }

  lemma StepKeeps(g: Gate, a: Action)
    requires Inv(g) && Step(g, a).Some?
    ensures Inv(Step(g, a).value)
    ensures forall s :: s in g.threads && g.threads[s].ShutDone? ==>
              s in Step(g, a).value.threads && Step(g, a).value.threads[s].ShutDone?
  {
    match a
    case Spawn(t, call) => SpawnKeeps(g, t, call);
    case Go(t, choice) =>
      GoIsLocal(g, t, choice);
      LocalKeeps(g, Step(g, a).value, t);
  }

  lemma {:induction false} RunKeeps(g: Gate, actions: seq<Action>)
    requires Inv(g) && Run(g, actions).Some?
    ensures Inv(Run(g, actions).value)
    ensures forall s :: s in g.threads && g.threads[s].ShutDone? ==>
              s in Run(g, actions).value.threads && Run(g, actions).value.threads[s].ShutDone?
    decreases |actions|
  {
    if actions != [] {
      StepKeeps(g, actions[0]);
      RunKeeps(Step(g, actions[0]).value, actions[1..]);
    }
  }

  lemma {:induction false} Reachable(actions: seq<Action>)
    requires Run(NEW_GATE, actions).Some?
    ensures Inv(Run(NEW_GATE, actions).value)
  {
    assert Reporters(NEW_GATE) == {};
    RunKeeps(NEW_GATE, actions);
  }

  // --- what holds in every interleaving ----------------------------------------------------

  // The counter is the number of reports in flight and never passes its bound, although it is
  // moved by a weak compare-and-swap on one side and unlocked decrements on the other.
  lemma {:induction false} CountIsExact(actions: seq<Action>)
    requires Run(NEW_GATE, actions).Some?
    ensures var g := Run(NEW_GATE, actions).value;
            g.active == |Reporters(g)| <= MAX_ACTIVE_REPORTS
  {
    Reachable(actions);
  }

  // After the permanent close, a token can be live only while its closer waits to cancel it.
  lemma {:induction false} ClosedIsCancelled(actions: seq<Action>)
    requires Run(NEW_GATE, actions).Some?
    ensures var g := Run(NEW_GATE, actions).value;
            g.closed && (forall t :: t in g.threads ==> !g.threads[t].CancelLock?) ==> g.cancelled
  {
    Reachable(actions);
  }

  // When a shutdown has seen the tracker drained, no report is in flight from then on, in any run.
  lemma {:induction false} ShutdownDrainHolds(before: seq<Action>, after: seq<Action>, t: nat)
    requires Run(NEW_GATE, before).Some? && Run(Run(NEW_GATE, before).value, after).Some?
    requires t in Run(NEW_GATE, before).value.threads && Run(NEW_GATE, before).value.threads[t] == ShutDone
    ensures Run(Run(NEW_GATE, before).value, after).value.active == 0
  {
    Reachable(before);
    RunKeeps(Run(NEW_GATE, before).value, after);
    var g' := Run(Run(NEW_GATE, before).value, after).value;
    assert g'.threads[t].ShutDone?;
    assert Reporters(g') == {};
  }

  // As long as leave stands on its drain, no report is in flight and none can register.
  lemma {:induction false} LeaveDrainHolds(actions: seq<Action>, t: nat)
    requires Run(NEW_GATE, actions).Some?
    requires t in Run(NEW_GATE, actions).value.threads && Run(NEW_GATE, actions).value.threads[t] == LeaveDrained
    ensures var g := Run(NEW_GATE, actions).value;
            && g.active == 0 && g.cancelled
            && (forall u :: u in g.threads ==> !g.threads[u].LoadActive? && !g.threads[u].Swap?)
  {
    Reachable(actions);
    var g := Run(NEW_GATE, actions).value;
    assert Refusing(g.threads[t]);
    forall u | u in g.threads ensures !PastToken(g.threads[u]) { }
    assert Reporters(g) == {};
  }

  // --- a thread left to itself -------------------------------------------------------------

  ghost function Alone(t: nat, n: nat): seq<Action> { seq(n, _ => Go(t, true)) }

  lemma {:induction false} AloneLater(g: Gate, t: nat, n: nat)
    requires Step(g, Go(t, true)).Some? && n > 0
    ensures Run(g, Alone(t, n)) == Run(Step(g, Go(t, true)).value, Alone(t, n - 1))
  {
    assert Alone(t, n)[0] == Go(t, true) && Alone(t, n)[1..] == Alone(t, n - 1);
  }

  function ChecksLeft(g: Gate, pc: Pc): nat {
    match pc
    case RegisterLock => 6
    case CheckClosed => 5
    case CheckToken => 4
    case LoadActive => 3
    case Swap(observed) => if observed == g.active then 1 else 2
    case _ => 0
  }

  // With nobody else moving, a registration succeeds exactly when the tracker is not closed, its token
  // is live and fewer than eight reports are in flight, as far as it has not checked that yet; and then
  // it is counted.
  lemma {:induction false} RegisteredExactly(g: Gate, t: nat) returns (n: nat)
    requires t in g.threads && ChecksLeft(g, g.threads[t]) > 0 && g.lock == if Holding(g.threads[t]) then Some(t) else None
    requires g.threads[t].Swap? ==> g.threads[t].observed == g.active
    ensures Run(g, Alone(t, n)).Some? && t in Run(g, Alone(t, n)).value.threads
    ensures var g', left := Run(g, Alone(t, n)).value, ChecksLeft(g, g.threads[t]);
            && g'.lock == None && g'.closed == g.closed && g'.cancelled == g.cancelled
            && (if (left >= 5 ==> !g.closed) && (left >= 4 ==> !g.cancelled) && g.active < MAX_ACTIVE_REPORTS
                then g'.threads[t] == Reporter && g'.active == g.active + 1
                else g'.threads[t] == Gone && g'.active == g.active)
    decreases ChecksLeft(g, g.threads[t])
  {
    var next := Step(g, Go(t, true)).value;
    if ChecksLeft(next, next.threads[t]) > 0 {
      var rest := RegisteredExactly(next, t);
      n := rest + 1;
    } else {
      n := 1;
      assert Run(next, Alone(t, 0)) == Some(next);
    }
    AloneLater(g, t, n);
  }

  function ReopensLeft(pc: Pc): nat {
    match pc
    case ReopenLock => 3
    case ReopenCheck => 2
    case ReopenToken => 1
    case _ => 0
  }

  // With nobody else moving, a leave that gives up or rolls back makes the token live again unless the
  // tracker is closed for good.
  lemma {:induction false} ReopenExactly(g: Gate, t: nat) returns (n: nat)
    requires t in g.threads && ReopensLeft(g.threads[t]) > 0 && g.lock == if Holding(g.threads[t]) then Some(t) else None
    requires g.threads[t].ReopenToken? ==> !g.closed
    ensures var actions := seq(n, _ => Go(t, false));
            && Run(g, actions).Some? && t in Run(g, actions).value.threads
            && var g' := Run(g, actions).value;
               && g'.threads[t] == Gone && g'.lock == None && g'.closed == g.closed && g'.active == g.active
               && g'.cancelled == (g.closed && g.cancelled)
    decreases ReopensLeft(g.threads[t])
  {
    var next := Step(g, Go(t, false)).value;
    if ReopensLeft(next.threads[t]) > 0 {
      var rest := ReopenExactly(next, t);
      n := rest + 1;
    } else {
      n := 1;
      assert Run(next, seq(0, _ => Go(t, false))) == Some(next);
    }
    var actions := seq(n, _ => Go(t, false));
    assert actions[0] == Go(t, false) && actions[1..] == seq(n - 1, _ => Go(t, false));
  }
}
