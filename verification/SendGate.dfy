/** The admission gate of the send ledger at the grain of its atomic loads, stores and critical
    sections, with any number of threads in `reserve`, `close_permanently`, `stop_and_drain`,
    `reopen_admission` and `finish` at once (sequentially consistent).  */
module SendGate {
  import opened Wrappers

  // Where a thread is: the next thing it does.
  datatype Pc =
    // reserve: two loads, then the ledger mutex, then three checks under it
    | LoadClosed | LoadOpen | ReserveLock | RecheckClosed | RecheckAccepting | RecheckOpen | Admit
    | Owner                                     // admitted; the send is in flight
    // close_permanently, and shutdown's drain after it
    | StoreClosed | StoreStopped | ShutStop | ShutLock | ShutWait | ShutDone
    // leave: drain, then, if it rolls back, reopen_admission
    | LeaveStop | LeaveLock | LeaveWait | LeaveDrained
    | ReopenCheck | ReopenLock | ReopenRecheck | ReopenAccept | ReopenOpen | ReopenLast | ReopenUndo
    | Gone

  datatype Gate = Gate(
    closed: bool, open: bool, accepting: bool, inflight: nat, lock: Option<nat>, threads: map<nat, Pc>)

  const NEW_GATE: Gate := Gate(false, true, true, 0, None, map[])

  datatype Call = Reserve | ClosePermanently | Leave

  datatype Action = Spawn(thread: nat, call: Call) | Go(who: nat, choice: bool)

  predicate Leaving(pc: Pc) {
    || pc.LeaveStop? || pc.LeaveLock? || pc.LeaveWait? || pc.LeaveDrained? || pc.ReopenCheck? || pc.ReopenLock?
    || pc.ReopenRecheck? || pc.ReopenAccept? || pc.ReopenOpen? || pc.ReopenLast? || pc.ReopenUndo?
  }

  predicate Holding(pc: Pc) {
    || pc.RecheckClosed? || pc.RecheckAccepting? || pc.RecheckOpen? || pc.Admit?
    || pc.ReopenRecheck? || pc.ReopenAccept? || pc.ReopenOpen? || pc.ReopenLast? || pc.ReopenUndo?
  }

  function Move(g: Gate, t: nat, pc: Pc): Gate { g.(threads := g.threads[t := pc]) }

  function Lock(g: Gate, t: nat, pc: Pc): Option<Gate> {
    if g.lock.Some? then None else Some(Move(g, t, pc).(lock := Some(t)))
  }

  function Unlock(g: Gate, t: nat, pc: Pc): Gate { Move(g, t, pc).(lock := None) }

  function ReserveStep(g: Gate, t: nat, pc: Pc, choice: bool): Option<Gate> {
    match pc
    case LoadClosed => Some(Move(g, t, if g.closed then Gone else LoadOpen))
    case LoadOpen => Some(Move(g, t, if g.open then ReserveLock else Gone))
    case ReserveLock => Lock(g, t, RecheckClosed)
    case RecheckClosed => Some(if g.closed then Unlock(g, t, Gone) else Move(g, t, RecheckAccepting))
    case RecheckAccepting => Some(if g.accepting then Move(g, t, RecheckOpen) else Unlock(g, t, Gone))
    case RecheckOpen => Some(if g.open then Move(g, t, Admit) else Unlock(g, t, Gone))
    case Admit =>  // a new entry, or an existing one or a refusal
      Some(if choice then Unlock(g, t, Owner).(inflight := g.inflight + 1) else Unlock(g, t, Gone))
    case Owner => if g.lock.Some? then None else Some(Move(g, t, Gone).(inflight := if g.inflight == 0 then 0 else g.inflight - 1))
    case _ => None
  }

  // A wait either sees the count reach zero or times out.
  function DrainStep(g: Gate, t: nat, pc: Pc, choice: bool): Option<Gate> {
    match pc
    case StoreClosed => Some(Move(g, t, StoreStopped).(closed := true))
    case StoreStopped => Some(Move(g, t, if choice then ShutStop else Gone).(open := false))
    case ShutStop => Some(Move(g, t, ShutLock).(open := false))
    case ShutLock => if g.lock.Some? then None
                     else Some(Move(g, t, if g.inflight == 0 then ShutDone else ShutWait).(accepting := false))
    case ShutWait => if choice then Some(Move(g, t, Gone))
                     else if g.lock.Some? || g.inflight != 0 then None else Some(Move(g, t, ShutDone))
    case LeaveStop => Some(Move(g, t, LeaveLock).(open := false))
    case LeaveLock => if g.lock.Some? then None
                      else Some(Move(g, t, if g.inflight == 0 then LeaveDrained else LeaveWait).(accepting := false))
    case LeaveWait => if choice then Some(Move(g, t, ReopenCheck))
                      else if g.lock.Some? || g.inflight != 0 then None else Some(Move(g, t, LeaveDrained))
    case LeaveDrained => Some(Move(g, t, if choice then ReopenCheck else Gone))
    case _ => None
  }

  function ReopenStep(g: Gate, t: nat, pc: Pc): Option<Gate> {
    match pc
    case ReopenCheck => Some(Move(g, t, if g.closed then Gone else ReopenLock))
    case ReopenLock => Lock(g, t, ReopenRecheck)
    case ReopenRecheck => Some(if g.closed then Unlock(g, t, Gone) else Move(g, t, ReopenAccept))
    case ReopenAccept => Some(Move(g, t, ReopenOpen).(accepting := true))
    case ReopenOpen => Some(Move(g, t, ReopenLast).(open := true))
    case ReopenLast => Some(if g.closed then Move(g, t, ReopenUndo) else Unlock(g, t, Gone))
    case ReopenUndo => Some(Unlock(g, t, Gone).(open := false))
    case _ => None
  }

  // Only one leave runs at a time: it holds the operation gate, and only leave reopens.
  function Step(g: Gate, a: Action): Option<Gate> {
    match a
    case Spawn(t, call) =>
      if t in g.threads then None
      else if call == Leave && (exists u | u in g.threads :: Leaving(g.threads[u])) then None
      else Some(Move(g, t, match call case Reserve => LoadClosed case ClosePermanently => StoreClosed case Leave => LeaveStop))
    case Go(t, choice) =>
      if t !in g.threads then None
      else
        var pc := g.threads[t];
        if ReserveStep(g, t, pc, choice).Some? then ReserveStep(g, t, pc, choice)
        else if DrainStep(g, t, pc, choice).Some? then DrainStep(g, t, pc, choice)
        else ReopenStep(g, t, pc)
  }

  function Run(g: Gate, actions: seq<Action>): Option<Gate>
    decreases |actions|
  {
    if actions == [] then Some(g)
    else if Step(g, actions[0]).None? then None
    else Run(Step(g, actions[0]).value, actions[1..])
  }

  // --- invariant ---------------------------------------------------------------------------

  ghost function Owners(g: Gate): set<nat> { set t | t in g.threads && g.threads[t] == Owner }

  // Past the check of `closed` under the mutex, and past that of `accepting`.
  predicate PastClosed(pc: Pc) { pc.RecheckAccepting? || PastAccepting(pc) }

  predicate PastAccepting(pc: Pc) { pc.RecheckOpen? || pc.Admit? }

  ghost predicate LockInv(g: Gate) {
    && (forall t :: t in g.threads ==> (Holding(g.threads[t]) <==> g.lock == Some(t)))
    && (g.lock.Some? ==> g.lock.value in g.threads)
    && g.inflight == |Owners(g)|
    && (forall t, u :: t in g.threads && u in g.threads && Leaving(g.threads[t]) && Leaving(g.threads[u]) ==> t == u)
  }

  predicate MidFlight(pc: Pc) { pc.StoreStopped? || pc.ReopenLast? || pc.ReopenUndo? }

  ghost predicate FlagInv(g: Gate) {
    && (forall t :: t in g.threads && (g.threads[t].StoreStopped? || Shutting(g.threads[t])) ==> g.closed)
    && (g.closed && g.open ==> exists t :: t in g.threads && MidFlight(g.threads[t]))
  }

  predicate Shutting(pc: Pc) { pc.ShutStop? || pc.ShutLock? || pc.ShutWait? || pc.ShutDone? }

  // Nobody is in flight, nobody is about to be.
  ghost predicate Sealed(g: Gate) {
    forall u :: u in g.threads ==> g.threads[u] != Owner && !PastClosed(g.threads[u])
  }

  predicate Refusing(pc: Pc) {
    pc.LeaveWait? || pc.LeaveDrained? || pc.ReopenCheck? || pc.ReopenLock? || pc.ReopenRecheck? || pc.ReopenAccept?
  }

  ghost predicate DrainInv(g: Gate) {
    && (forall t :: t in g.threads && g.threads[t].ShutDone? ==> Sealed(g))
    && (forall t :: t in g.threads && Refusing(g.threads[t]) ==>
          !g.accepting && forall u :: u in g.threads ==> !PastAccepting(g.threads[u]))
    && (forall t :: t in g.threads && g.threads[t].LeaveDrained? ==> Owners(g) == {})
  }

  ghost predicate Inv(g: Gate) { LockInv(g) && FlagInv(g) && DrainInv(g) }

  // --- one thread moves --------------------------------------------------------------------

  // What every step of a thread has in common, said of that thread and the flags alone.
  ghost predicate LocalLock(g: Gate, g': Gate, t: nat, pc: Pc, pc': Pc) {
    && g'.threads == g.threads[t := pc']
    && (Holding(pc') <==> g'.lock == Some(t))
    && (g'.lock == g.lock || ((g.lock.None? || g.lock == Some(t)) && (g'.lock.None? || g'.lock == Some(t))))
    && g'.inflight == (if pc.Owner? && !pc'.Owner? then (if g.inflight == 0 then 0 else g.inflight - 1)
                       else if !pc.Owner? && pc'.Owner? then g.inflight + 1 else g.inflight)
    && (Leaving(pc') ==> Leaving(pc))
  }

  ghost predicate LocalFlags(g: Gate, g': Gate, pc: Pc, pc': Pc) {
    && (g.closed ==> g'.closed)
    && (pc'.StoreStopped? || Shutting(pc') ==> g'.closed)
    && (g'.closed && g'.open ==> MidFlight(pc') || (g.closed && g.open && !MidFlight(pc)))
  }

  ghost predicate LocalDrain(g: Gate, g': Gate, pc: Pc, pc': Pc) {
    && (PastClosed(pc') ==> PastClosed(pc) || !g.closed)
    && (PastAccepting(pc') ==> PastAccepting(pc) || g.accepting)
    && (pc'.Owner? ==> pc.Owner? || PastAccepting(pc))
    && (pc'.ShutDone? ==> pc.ShutDone? || (g.closed && g.lock.None? && g.inflight == 0))
    && (Refusing(pc') ==> (Refusing(pc) && !g'.accepting) || (g.lock.None? && !g'.accepting))
    && (pc'.LeaveDrained? ==> pc.LeaveDrained? || g.inflight == 0)
    && (g'.accepting ==> g.accepting || (Leaving(pc) && !Refusing(pc')))
  }

  ghost predicate Local(g: Gate, g': Gate, t: nat) {
    && t in g.threads && t in g'.threads
    && LocalLock(g, g', t, g.threads[t], g'.threads[t])
    && LocalFlags(g, g', g.threads[t], g'.threads[t])
    && LocalDrain(g, g', g.threads[t], g'.threads[t])
  }

  // What the invariant says of one thread.
  ghost predicate Consistent(g: Gate, t: nat, pc: Pc) {
    && (Holding(pc) <==> g.lock == Some(t))
    && (pc.StoreStopped? || Shutting(pc) ==> g.closed)
    && (Refusing(pc) ==> !g.accepting)
  }

  lemma ReserveIsLocal(g: Gate, t: nat, choice: bool)
    requires t in g.threads && Consistent(g, t, g.threads[t]) && ReserveStep(g, t, g.threads[t], choice).Some?
    ensures Local(g, ReserveStep(g, t, g.threads[t], choice).value, t)
  {
    match g.threads[t]
    case LoadClosed | LoadOpen | ReserveLock => LoadIsLocal(g, t, choice);
    case Admit | Owner => OwnIsLocal(g, t, choice);
    case _ => CheckIsLocal(g, t, choice);
  }

  lemma LoadIsLocal(g: Gate, t: nat, choice: bool)
    requires t in g.threads && Consistent(g, t, g.threads[t]) && ReserveStep(g, t, g.threads[t], choice).Some?
    requires g.threads[t].LoadClosed? || g.threads[t].LoadOpen? || g.threads[t].ReserveLock?
    ensures Local(g, ReserveStep(g, t, g.threads[t], choice).value, t)
  {
  }

  lemma CheckIsLocal(g: Gate, t: nat, choice: bool)
    requires t in g.threads && g.lock == Some(t)
    requires g.threads[t].RecheckClosed? || g.threads[t].RecheckAccepting? || g.threads[t].RecheckOpen?
    ensures Local(g, ReserveStep(g, t, g.threads[t], choice).value, t)
  {
  }

  lemma OwnIsLocal(g: Gate, t: nat, choice: bool)
    requires t in g.threads && Consistent(g, t, g.threads[t]) && (g.threads[t].Admit? || g.threads[t].Owner?)
    requires ReserveStep(g, t, g.threads[t], choice).Some?
    ensures Local(g, ReserveStep(g, t, g.threads[t], choice).value, t)
  {
  }

  lemma DrainIsLocal(g: Gate, t: nat, choice: bool)
    requires t in g.threads && Consistent(g, t, g.threads[t]) && DrainStep(g, t, g.threads[t], choice).Some?
    ensures Local(g, DrainStep(g, t, g.threads[t], choice).value, t)
  {
    if Leaving(g.threads[t]) { LeaveDrainIsLocal(g, t, choice); }
    else if g.threads[t].StoreClosed? || g.threads[t].StoreStopped? { CloseIsLocal(g, t, choice); }
    else { ShutDrainIsLocal(g, t, choice); }
  }

  lemma CloseIsLocal(g: Gate, t: nat, choice: bool)
    requires t in g.threads && Consistent(g, t, g.threads[t]) && (g.threads[t].StoreClosed? || g.threads[t].StoreStopped?)
    ensures Local(g, DrainStep(g, t, g.threads[t], choice).value, t)
  {
  }

  lemma ShutDrainIsLocal(g: Gate, t: nat, choice: bool)
    requires t in g.threads && Consistent(g, t, g.threads[t]) && Shutting(g.threads[t])
    requires DrainStep(g, t, g.threads[t], choice).Some?
    ensures Local(g, DrainStep(g, t, g.threads[t], choice).value, t)
  {
  }

  lemma LeaveDrainIsLocal(g: Gate, t: nat, choice: bool)
    requires t in g.threads && Consistent(g, t, g.threads[t]) && Leaving(g.threads[t])
    requires DrainStep(g, t, g.threads[t], choice).Some?
    ensures Local(g, DrainStep(g, t, g.threads[t], choice).value, t)
  {
  }

  lemma ReopenChecksAreLocal(g: Gate, t: nat)
    requires t in g.threads && Consistent(g, t, g.threads[t]) && ReopenStep(g, t, g.threads[t]).Some?
    requires g.threads[t].ReopenCheck? || g.threads[t].ReopenLock? || g.threads[t].ReopenRecheck?
    ensures Local(g, ReopenStep(g, t, g.threads[t]).value, t)
  {
  }

  lemma ReopenStoresAreLocal(g: Gate, t: nat)
    requires t in g.threads && Consistent(g, t, g.threads[t])
    requires g.threads[t].ReopenAccept? || g.threads[t].ReopenOpen?
    ensures Local(g, ReopenStep(g, t, g.threads[t]).value, t)
  {
  }

  lemma ReopenEndsAreLocal(g: Gate, t: nat)
    requires t in g.threads && Consistent(g, t, g.threads[t])
    requires g.threads[t].ReopenLast? || g.threads[t].ReopenUndo?
    ensures Local(g, ReopenStep(g, t, g.threads[t]).value, t)
  {
  }

  lemma ReopenIsLocal(g: Gate, t: nat)
    requires t in g.threads && Consistent(g, t, g.threads[t]) && ReopenStep(g, t, g.threads[t]).Some?
    ensures Local(g, ReopenStep(g, t, g.threads[t]).value, t)
  {
    match g.threads[t]
    case ReopenAccept | ReopenOpen => ReopenStoresAreLocal(g, t);
    case ReopenLast | ReopenUndo => ReopenEndsAreLocal(g, t);
    case _ => ReopenChecksAreLocal(g, t);
  }

  lemma LocalKeepsCount(g: Gate, g': Gate, t: nat)
    requires LockInv(g) && Local(g, g', t)
    ensures g'.inflight == |Owners(g')|
  {
    var pc, pc' := g.threads[t], g'.threads[t];
    if pc.Owner? && !pc'.Owner? {
      assert Owners(g') == Owners(g) - {t} && t in Owners(g);
    } else if !pc.Owner? && pc'.Owner? {
      assert Owners(g') == Owners(g) + {t};
    } else {
      assert Owners(g') == Owners(g);
    }
  }

  lemma LocalKeepsLock(g: Gate, g': Gate, t: nat)
    requires LockInv(g) && Local(g, g', t)
    ensures LockInv(g')
  {
    LocalKeepsCount(g, g', t);
  }

  lemma LocalKeepsFlags(g: Gate, g': Gate, t: nat)
    requires FlagInv(g) && t in g.threads && t in g'.threads && g'.threads == g.threads[t := g'.threads[t]]
    requires LocalFlags(g, g', g.threads[t], g'.threads[t])
    ensures FlagInv(g')
  {
    if g'.closed && g'.open {
      if MidFlight(g'.threads[t]) {
      } else {
        var m :| m in g.threads && MidFlight(g.threads[m]);
        assert m in g'.threads && MidFlight(g'.threads[m]);
      }
    }
  }

  lemma NobodyHolds(g: Gate)
    requires LockInv(g) && g.lock.None?
    ensures forall u :: u in g.threads ==> !PastClosed(g.threads[u])
    ensures g.inflight == 0 ==> Sealed(g) && Owners(g) == {}
  {
    forall u | u in g.threads ensures !PastClosed(g.threads[u]) { assert !Holding(g.threads[u]); }
    if g.inflight == 0 {
      assert Owners(g) == {};
      forall u | u in g.threads ensures g.threads[u] != Owner { assert u !in Owners(g); }
    }
  }

  lemma LocalKeepsShut(g: Gate, g': Gate, t: nat)
    requires Inv(g) && Local(g, g', t)
    ensures forall u :: u in g'.threads && g'.threads[u].ShutDone? ==> Sealed(g')
  {
    if s :| s in g'.threads && g'.threads[s].ShutDone? {
      if g'.threads[t].ShutDone? && !g.threads[t].ShutDone? { NobodyHolds(g); }
      assert g.closed && Sealed(g);
    }
  }

  lemma LocalKeepsRefusal(g: Gate, g': Gate, t: nat)
    requires Inv(g) && Local(g, g', t)
    ensures forall r :: r in g'.threads && Refusing(g'.threads[r]) ==>
              !g'.accepting && forall u :: u in g'.threads ==> !PastAccepting(g'.threads[u])
    ensures forall d :: d in g'.threads && g'.threads[d].LeaveDrained? ==> Owners(g') == {}
  {
    if r :| r in g'.threads && Refusing(g'.threads[r]) {
      if r == t && !Refusing(g.threads[t]) { NobodyHolds(g); }
      assert !g'.accepting && !PastAccepting(g'.threads[t]);
      forall u | u in g'.threads ensures !PastAccepting(g'.threads[u]) { assert u != t ==> u in g.threads; }
    }
    if d :| d in g'.threads && g'.threads[d].LeaveDrained? {
      assert Refusing(g'.threads[d]);
      assert Owners(g) == {} by {
        if d == t && !g.threads[t].LeaveDrained? { assert |Owners(g)| == 0; }
      }
      assert t !in Owners(g);
      assert Owners(g') == {};
    }
  }

  lemma LocalKeeps(g: Gate, g': Gate, t: nat)
    requires Inv(g) && Local(g, g', t)
    ensures Inv(g')
  {
    LocalKeepsLock(g, g', t);
    LocalKeepsFlags(g, g', t);
    LocalKeepsShut(g, g', t);
    LocalKeepsRefusal(g, g', t);
  }

  // A thread about to begin is one that has been sitting at `Gone`.
  lemma ParkKeeps(g: Gate, t: nat)
    requires Inv(g) && t !in g.threads
    ensures Inv(Move(g, t, Gone))
  {
    var parked := Move(g, t, Gone);
    assert Owners(parked) == Owners(g);
    ParkKeepsFlags(g, t);
    ParkKeepsDrain(g, t);
  }

  lemma ParkKeepsDrain(g: Gate, t: nat)
    requires DrainInv(g) && t !in g.threads
    ensures DrainInv(Move(g, t, Gone))
  {
    var parked := Move(g, t, Gone);
    assert Owners(parked) == Owners(g);
    if s :| s in parked.threads && parked.threads[s].ShutDone? { assert s in g.threads && Sealed(g); }
  }

  lemma ParkKeepsFlags(g: Gate, t: nat)
    requires FlagInv(g) && t !in g.threads
    ensures FlagInv(Move(g, t, Gone))
  {
    var parked := Move(g, t, Gone);
    if g.closed && g.open {
      var m :| m in g.threads && MidFlight(g.threads[m]);
      assert MidFlight(parked.threads[m]);
    }
  }

  lemma BeginIsLocal(g: Gate, t: nat, pc: Pc)
    requires t in g.threads && g.threads[t] == Gone && g.lock != Some(t) && (pc.LoadClosed? || pc.StoreClosed?)
    ensures Local(g, Move(g, t, pc), t)
  {
  }

  lemma SpawnKeeps(g: Gate, t: nat, call: Call)
    requires Inv(g) && Step(g, Spawn(t, call)).Some?
    ensures Inv(Step(g, Spawn(t, call)).value)
  {
    ParkKeeps(g, t);
    var parked, g' := Move(g, t, Gone), Step(g, Spawn(t, call)).value;
    assert g'.threads == parked.threads[t := g'.threads[t]];
    if call == Leave {
      BeginLeaveKeeps(parked, t);
    } else {
      BeginIsLocal(parked, t, g'.threads[t]);
      LocalKeeps(parked, g', t);
    }
  }

  lemma BeginLeaveKeeps(g: Gate, t: nat)
    requires Inv(g) && t in g.threads && g.threads[t] == Gone
    requires forall u :: u in g.threads ==> !Leaving(g.threads[u])
    ensures Inv(Move(g, t, LeaveStop))
  {
    var g' := Move(g, t, LeaveStop);
    assert Owners(g') == Owners(g);
    LocalKeepsFlags(g, g', t);
    BeginLeaveKeepsDrain(g, t);
  }

  lemma BeginLeaveKeepsDrain(g: Gate, t: nat)
    requires DrainInv(g) && t in g.threads && g.threads[t] == Gone
    ensures DrainInv(Move(g, t, LeaveStop))
  {
    var g' := Move(g, t, LeaveStop);
    assert Owners(g') == Owners(g);
    if s :| s in g'.threads && g'.threads[s].ShutDone? { assert s in g.threads && Sealed(g); }
  }

  lemma GoIsLocal(g: Gate, t: nat, choice: bool)
    requires Inv(g) && Step(g, Go(t, choice)).Some?
    ensures Local(g, Step(g, Go(t, choice)).value, t)
    ensures !g.threads[t].ShutDone?
  {
    assert Consistent(g, t, g.threads[t]);
    if ReserveStep(g, t, g.threads[t], choice).Some? { ReserveIsLocal(g, t, choice); }
    else if DrainStep(g, t, g.threads[t], choice).Some? { DrainIsLocal(g, t, choice); }
    else { ReopenIsLocal(g, t); }
  }

  lemma StepKeeps(g: Gate, a: Action)
    requires Inv(g) && Step(g, a).Some?
    ensures Inv(Step(g, a).value)
  {
    match a
    case Spawn(t, call) => SpawnKeeps(g, t, call);
    case Go(t, choice) =>
      GoIsLocal(g, t, choice);
      LocalKeeps(g, Step(g, a).value, t);
  }

  lemma {:induction false} RunKeeps(g: Gate, actions: seq<Action>)
    requires Inv(g) && Run(g, actions).Some?
    ensures Inv(Run(g, actions).value)
    decreases |actions|
  {
    if actions != [] {
      StepKeeps(g, actions[0]);
      RunKeeps(Step(g, actions[0]).value, actions[1..]);
    }
  }

  lemma {:induction false} Reachable(actions: seq<Action>)
    requires Run(NEW_GATE, actions).Some?
    ensures Inv(Run(NEW_GATE, actions).value)
  {
    assert Owners(NEW_GATE) == {};
    RunKeeps(NEW_GATE, actions);
  }

  // --- what holds in every interleaving ----------------------------------------------------

  // Once closed for good, the gate also reads as not open, unless a close or a reopen is between
  // two of its stores.
  lemma {:induction false} ClosedReadsShut(actions: seq<Action>)
    requires Run(NEW_GATE, actions).Some?
    ensures var g := Run(NEW_GATE, actions).value;
            g.closed && (forall t :: t in g.threads ==> !MidFlight(g.threads[t])) ==> !g.open
  {
    Reachable(actions);
  }

  // A send that can still be admitted after the close: one whose last check of the flag is done.
  ghost function Pending(g: Gate): set<nat> { set t | t in g.threads && PastClosed(g.threads[t]) }

  lemma NoNewPending(g: Gate, a: Action)
    requires Inv(g) && g.closed && Step(g, a).Some?
    ensures Step(g, a).value.closed
    ensures var g' := Step(g, a).value; Owners(g') + Pending(g') <= Owners(g) + Pending(g)
  {
    if a.Go? {
      GoIsLocal(g, a.who, a.choice);
      LocalAddsNone(g, Step(g, a).value, a.who);
    }
  }

  lemma LocalAddsNone(g: Gate, g': Gate, t: nat)
    requires g.closed && Local(g, g', t)
    ensures Owners(g') + Pending(g') <= Owners(g) + Pending(g)
  {
  }

  // Once the permanent flag is set, no run admits anybody whose check comes later: whoever is in
  // flight at its end was in flight before, or is the one thread that held the mutex past its check.
  lemma {:induction false} NoLateAdmission(before: seq<Action>, after: seq<Action>)
    requires Run(NEW_GATE, before).Some? && Run(NEW_GATE, before).value.closed
    requires Run(Run(NEW_GATE, before).value, after).Some?
    ensures var g := Run(NEW_GATE, before).value;
            var g' := Run(g, after).value;
            && g'.closed && Owners(g') <= Owners(g) + Pending(g)
            && (forall t :: t in Pending(g) ==> g.lock == Some(t))
  {
    Reachable(before);
    LateRun(Run(NEW_GATE, before).value, after);
  }

  lemma {:induction false} LateRun(g: Gate, actions: seq<Action>)
    requires Inv(g) && g.closed && Run(g, actions).Some?
    ensures var g' := Run(g, actions).value; g'.closed && Owners(g') + Pending(g') <= Owners(g) + Pending(g)
    decreases |actions|
  {
    if actions != [] {
      StepKeeps(g, actions[0]);
      NoNewPending(g, actions[0]);
      LateRun(Step(g, actions[0]).value, actions[1..]);
    }
  }

  lemma {:induction false} DoneStays(g: Gate, t: nat, actions: seq<Action>)
    requires Inv(g) && t in g.threads && g.threads[t] == ShutDone && Run(g, actions).Some?
    ensures t in Run(g, actions).value.threads && Run(g, actions).value.threads[t] == ShutDone
    decreases |actions|
  {
    if actions != [] {
      StepKeeps(g, actions[0]);
      DoneStep(g, t, actions[0]);
      DoneStays(Step(g, actions[0]).value, t, actions[1..]);
    }
  }

  lemma DoneStep(g: Gate, t: nat, a: Action)
    requires Inv(g) && t in g.threads && g.threads[t] == ShutDone && Step(g, a).Some?
    ensures t in Step(g, a).value.threads && Step(g, a).value.threads[t] == ShutDone
  {
    if a.Go? { GoIsLocal(g, a.who, a.choice); }
  }

  // When a shutdown has seen the ledger drained, nothing is in flight from then on, in any run.
  lemma {:induction false} ShutdownDrainHolds(before: seq<Action>, after: seq<Action>, t: nat)
    requires Run(NEW_GATE, before).Some? && Run(Run(NEW_GATE, before).value, after).Some?
    requires t in Run(NEW_GATE, before).value.threads && Run(NEW_GATE, before).value.threads[t] == ShutDone
    ensures Run(Run(NEW_GATE, before).value, after).value.inflight == 0
  {
    var g := Run(NEW_GATE, before).value;
    Reachable(before);
    RunKeeps(g, after);
    DoneStays(g, t, after);
    var g' := Run(g, after).value;
    assert Sealed(g');
    assert Owners(g') == {};
  }

  // As long as leave stands on its drain, nothing is in flight and nobody is admitted.
  lemma {:induction false} LeaveDrainHolds(actions: seq<Action>, t: nat)
    requires Run(NEW_GATE, actions).Some?
    requires t in Run(NEW_GATE, actions).value.threads && Run(NEW_GATE, actions).value.threads[t] == LeaveDrained
    ensures var g := Run(NEW_GATE, actions).value;
            && g.inflight == 0 && !g.accepting
            && (forall u :: u in g.threads ==> !g.threads[u].Admit? && !g.threads[u].RecheckOpen?)
  {
    Reachable(actions);
    var g := Run(NEW_GATE, actions).value;
    assert Refusing(g.threads[t]);
    forall u | u in g.threads ensures !PastAccepting(g.threads[u]) { }
  }

  // --- a thread left to itself -------------------------------------------------------------

  ghost function Alone(t: nat, n: nat): seq<Action> { seq(n, _ => Go(t, true)) }

  lemma {:induction false} AloneLater(g: Gate, t: nat, n: nat)
    requires Step(g, Go(t, true)).Some? && n > 0
    ensures Run(g, Alone(t, n)) == Run(Step(g, Go(t, true)).value, Alone(t, n - 1))
  {
    assert Alone(t, n)[0] == Go(t, true) && Alone(t, n)[1..] == Alone(t, n - 1);
  }

  predicate Reserving(pc: Pc) {
    || pc.LoadClosed? || pc.LoadOpen? || pc.ReserveLock? || pc.RecheckClosed? || pc.RecheckAccepting? || pc.RecheckOpen?
    || pc.Admit?
  }

  function ChecksLeft(pc: Pc): nat {
    match pc
    case LoadClosed => 7
    case LoadOpen => 6
    case ReserveLock => 5
    case RecheckClosed => 4
    case RecheckAccepting => 3
    case RecheckOpen => 2
    case Admit => 1
    case _ => 0
  }

  // What the checks still ahead of it will find.
  ghost predicate Passes(g: Gate, pc: Pc) {
    && (ChecksLeft(pc) >= 4 ==> !g.closed)
    && (ChecksLeft(pc) >= 3 ==> g.accepting)
    && (ChecksLeft(pc) >= 2 ==> g.open)
  }

  // With nobody else moving, a reservation is admitted exactly when every check still ahead of it
  // passes, and then it is counted.
  lemma {:induction false} AdmittedExactly(g: Gate, t: nat) returns (n: nat)
    requires t in g.threads && Reserving(g.threads[t]) && g.lock == if Holding(g.threads[t]) then Some(t) else None
    ensures Run(g, Alone(t, n)).Some? && t in Run(g, Alone(t, n)).value.threads
    ensures var g' := Run(g, Alone(t, n)).value;
            && g'.lock == None && g'.open == g.open && g'.accepting == g.accepting && g'.closed == g.closed
            && (if Passes(g, g.threads[t]) then g'.threads[t] == Owner && g'.inflight == g.inflight + 1
                else g'.threads[t] == Gone && g'.inflight == g.inflight)
    decreases ChecksLeft(g.threads[t])
  {
    var next := Step(g, Go(t, true)).value;
    if Reserving(next.threads[t]) {
      var rest := AdmittedExactly(next, t);
      n := rest + 1;
    } else {
      n := 1;
      assert Run(next, Alone(t, 0)) == Some(next);
    }
    AloneLater(g, t, n);
  }

  function ReopensLeft(pc: Pc): nat {
    match pc
    case ReopenCheck => 6
    case ReopenLock => 5
    case ReopenRecheck => 4
    case ReopenAccept => 3
    case ReopenOpen => 2
    case ReopenLast => 1
    case _ => 0
  }

  lemma ReopenGoes(g: Gate, t: nat)
    requires t in g.threads && ReopensLeft(g.threads[t]) > 0 && g.lock == if Holding(g.threads[t]) then Some(t) else None
    ensures ReopenStep(g, t, g.threads[t]).Some? && Step(g, Go(t, true)) == ReopenStep(g, t, g.threads[t])
  {
  }

  // What holds along an undisturbed reopen.
  ghost predicate Reopening(g: Gate, t: nat) {
    && t in g.threads && ReopensLeft(g.threads[t]) > 0 && g.lock == (if Holding(g.threads[t]) then Some(t) else None)
    && (ReopensLeft(g.threads[t]) < 4 ==> !g.closed)
    && (ReopensLeft(g.threads[t]) < 3 ==> g.accepting) && (ReopensLeft(g.threads[t]) < 2 ==> g.open)
  }

  lemma ReopenNext(g: Gate, t: nat)
    requires Reopening(g, t)
    ensures var g' := ReopenStep(g, t, g.threads[t]).value;
            && t in g'.threads && g'.closed == g.closed && g'.inflight == g.inflight
            && (g.closed ==> g'.open == g.open && g'.accepting == g.accepting)
            && (if g'.threads[t] == Gone then g'.lock == None && (!g.closed ==> g'.open && g'.accepting)
                else Reopening(g', t) && ReopensLeft(g'.threads[t]) < ReopensLeft(g.threads[t]))
  {
    ReopenGoes(g, t);
  }

  // With nobody else moving, a reopen from its first check on opens both flags unless the gate is
  // closed for good, and then leaves them.
  lemma {:induction false} ReopenExactly(g: Gate, t: nat) returns (n: nat)
    requires Reopening(g, t)
    ensures Run(g, Alone(t, n)).Some? && t in Run(g, Alone(t, n)).value.threads
    ensures var g' := Run(g, Alone(t, n)).value;
            && g'.threads[t] == Gone && g'.lock == None && g'.closed == g.closed && g'.inflight == g.inflight
            && (if g.closed then g'.open == g.open && g'.accepting == g.accepting else g'.open && g'.accepting)
    decreases ReopensLeft(g.threads[t])
  {
    ReopenGoes(g, t);
    ReopenNext(g, t);
    var next := ReopenStep(g, t, g.threads[t]).value;
    if next.threads[t] != Gone {
      var rest := ReopenExactly(next, t);
      n := rest + 1;
    } else {
      n := 1;
      assert Run(next, Alone(t, 0)) == Some(next);
    }
    AloneLater(g, t, n);
  }
}
