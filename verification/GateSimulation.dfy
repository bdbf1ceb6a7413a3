/** The two admission gates, atomic step by atomic step, against the gates of the session model.

    `SendGate` and `ReportGate` have one step for every load, store and critical section;
    `SessionSteps` has an admission flag, a permanent flag and a set of members in flight.  Under the
    mappings below every step of the former is at most two moves of the latter, so what
    `SessionTheorems` says of drains and closed gates is said of the interleavings of the code.  */
module GateSimulation {
  import opened Wrappers
  import SendGate
  import ReportGate
  import S = SessionState
  import P = SessionSteps

  // The gate of the session model, of sends or of reports.
  datatype Coarse = Coarse(active: set<nat>, open: bool, closed: bool)

  ghost predicate Admits(c: Coarse, c': Coarse, t: nat) {
    c.open && !c.closed && t !in c.active && c' == c.(active := c.active + {t})
  }

  ghost predicate Finishes(c: Coarse, c': Coarse, t: nat) {
    t in c.active && c' == c.(active := c.active - {t})
  }

  ghost predicate Flags(c: Coarse, c': Coarse) {
    || c' == c
    || c' == c.(open := false)
    || (!c.closed && c' == c.(open := true))
    || c' == c.(open := false, closed := true)
  }

  // One move, or none.
  ghost predicate Moves(c: Coarse, c': Coarse) {
    Flags(c, c') || exists t :: Admits(c, c', t) || Finishes(c, c', t)
  }

  // An admission or a completion, and then what happens to the flags.
  ghost predicate MovesTwice(c: Coarse, c': Coarse) {
    exists mid :: Moves(c, mid) && Flags(mid, c')
  }

  // --- the session's own steps are such moves ----------------------------------------------

  ghost function SendsOf(rt: S.Runtime): Coarse {
    Coarse(rt.sends.active.Keys, rt.sends.open, rt.sends.closed)
  }

  ghost function ReportsOf(rt: S.Runtime): Coarse {
    Coarse(rt.reports.active, rt.reports.open, rt.reports.closed)
  }

  lemma SendActionMoves(rt: S.Runtime, a: P.SendAction)
    requires P.SendStep(rt, a).Some?
    ensures Moves(SendsOf(rt), SendsOf(P.SendStep(rt, a).value))
    ensures ReportsOf(P.SendStep(rt, a).value) == ReportsOf(rt)
  {
    var c, c' := SendsOf(rt), SendsOf(P.SendStep(rt, a).value);
    match a
    case Reserve(id, _, _) => assert Admits(c, c', id);
    case TakeGate(id) => assert c' == c;
    case Recheck(id) =>
      if id in c'.active { assert c' == c; } else { assert Finishes(c, c', id); }
    case FinishSend(id) => assert Finishes(c, c', id);
    case ReleaseGate => assert c' == c;
  }

  lemma ReportActionMoves(rt: S.Runtime, a: P.ReportAction)
    requires P.ReportStep(rt, a).Some?
    ensures Moves(ReportsOf(rt), ReportsOf(P.ReportStep(rt, a).value))
    ensures SendsOf(P.ReportStep(rt, a).value) == SendsOf(rt)
  {
    var c, c' := ReportsOf(rt), ReportsOf(P.ReportStep(rt, a).value);
    match a
    case Register(id) => assert Admits(c, c', id);
    case EnterGate(_) => assert c' == c;
    case FinishReport(id) => assert Finishes(c, c', id);
  }

  lemma LeaveMoves(w: P.World, a: P.LeaveAction)
    requires P.LeaveStepOf(w, a).Some?
    ensures Flags(SendsOf(w.rt), SendsOf(P.LeaveStepOf(w, a).value.rt))
    ensures Flags(ReportsOf(w.rt), ReportsOf(P.LeaveStepOf(w, a).value.rt))
  {
    if a.Clean? || a.IntentStored? || a.LeaveAnswer? || a.RefusedDropped? || a.ConfirmedStored? { StoresMove(w, a); }
  }

  lemma StoresMove(w: P.World, a: P.LeaveAction)
    requires P.LeaveDurableStep(w, a).Some?
    ensures var rt := P.LeaveDurableStep(w, a).value.rt; rt.sends == w.rt.sends && rt.reports == w.rt.reports
  {
  }

  lemma RotationMoves(w: P.World, a: P.RotationAction)
    requires P.RotationStepOf(w, a).Some?
    ensures SendsOf(P.RotationStepOf(w, a).value.rt) == SendsOf(w.rt)
    ensures ReportsOf(P.RotationStepOf(w, a).value.rt) == ReportsOf(w.rt)
  {
  }

  // Every step of every call on a handle is one move of each of its gates: leave, shutdown and
  // rotation move the flags alone.
  lemma SessionMoves(w: P.World, c: P.Call)
    requires P.CallStep(w, c).Some?
    ensures var rt := P.CallStep(w, c).value.rt; Moves(SendsOf(w.rt), SendsOf(rt)) && Moves(ReportsOf(w.rt), ReportsOf(rt))
  {
    match c
    case ASend(send) => SendActionMoves(w.rt, send);
    case AReport(report) => ReportActionMoves(w.rt, report);
    case ARotation(rotation) => RotationMoves(w, rotation);
    case ALeave(leave) => LeaveMoves(w, leave);
    case AShutdown(_) =>
  }

  // A gate that is closed for good is not open.
  ghost predicate Proper(c: Coarse) { c.closed ==> !c.open }

  lemma FlagsMove(c: Coarse, c': Coarse)
    requires Proper(c) && Proper(c') && c'.active == c.active && (c.closed ==> c'.closed)
    ensures Flags(c, c')
  {
  }

  // Whoever comes in was let in while the gate was open, whoever goes was in, and closed stays closed.
  lemma Simulates(c: Coarse, c': Coarse, t: nat)
    requires Proper(c) && Proper(c') && (c.closed ==> c'.closed)
    requires c'.active == c.active || c'.active == c.active - {t} || (c'.active == c.active + {t} && c.open)
    ensures MovesTwice(c, c')
  {
    var mid := c.(active := c'.active);
    if c'.active != c.active {
      if t in c.active { assert Finishes(c, mid, t); } else { assert Admits(c, mid, t); }
    } else {
      assert mid == c && Flags(c, mid);
    }
    assert Moves(c, mid);
    FlagsMove(mid, c');
  }

  // --- the send gate -----------------------------------------------------------------------

  // A thread that read the permanent flag as clear under the mutex, and one that read `accepting` as
  // set as well.
  ghost predicate SendMid(g: SendGate.Gate) {
    exists t :: t in g.threads && SendGate.PastClosed(g.threads[t])
  }

  ghost predicate SendWindow(g: SendGate.Gate) {
    exists t :: t in g.threads && SendGate.PastAccepting(g.threads[t])
  }

  // The permanent close takes effect once no thread is past its check of it; admission is open while
  // both flags say so, and to a thread past its check of `accepting`.
  ghost function SendView(g: SendGate.Gate): Coarse {
    var closed := g.closed && !SendMid(g);
    Coarse(SendGate.Owners(g), !closed && (SendWindow(g) || (g.accepting && g.open)), closed)
  }

  lemma SendLocal(g: SendGate.Gate, g': SendGate.Gate, t: nat)
    requires SendGate.Local(g, g', t)
    ensures MovesTwice(SendView(g), SendView(g'))
  {
    var c, c' := SendView(g), SendView(g');
    var pc, pc' := g.threads[t], g'.threads[t];
    if pc'.Owner? && !pc.Owner? {
      assert SendGate.PastAccepting(pc) && SendGate.PastClosed(pc);
      assert c.open;
    }
    assert SendGate.Owners(g') == if pc'.Owner? then SendGate.Owners(g) + {t} else SendGate.Owners(g) - {t};
    Simulates(c, c', t);
  }

  lemma SendSpawn(g: SendGate.Gate, g': SendGate.Gate, t: nat)
    requires t !in g.threads && g' == g.(threads := g'.threads) && t in g'.threads && g'.threads == g.threads[t := g'.threads[t]]
    requires !SendGate.PastClosed(g'.threads[t]) && !g'.threads[t].Owner?
    ensures SendView(g') == SendView(g)
  {
    assert SendGate.Owners(g') == SendGate.Owners(g);
    forall u | u in g.threads ensures g'.threads[u] == g.threads[u] { }
    if SendMid(g) { var u :| u in g.threads && SendGate.PastClosed(g.threads[u]); assert SendGate.PastClosed(g'.threads[u]); }
    if SendWindow(g) { var u :| u in g.threads && SendGate.PastAccepting(g.threads[u]); assert SendGate.PastAccepting(g'.threads[u]); }
  }

  // Every atomic step of the send gate is at most two moves of the session's.
  lemma SendGateSimulates(g: SendGate.Gate, a: SendGate.Action)
    requires SendGate.Inv(g) && SendGate.Step(g, a).Some?
    ensures MovesTwice(SendView(g), SendView(SendGate.Step(g, a).value))
  {
    var g' := SendGate.Step(g, a).value;
    match a
    case Go(t, choice) =>
      SendGate.GoIsLocal(g, t, choice);
      SendLocal(g, g', t);
    case Spawn(t, _) =>
      SendSpawn(g, g', t);
      Simulates(SendView(g), SendView(g'), t);
  }

  // Where leave or shutdown has seen the ledger drained, the session's gate is drained and shut.
  lemma SendDrainAgrees(g: SendGate.Gate, t: nat)
    requires SendGate.Inv(g) && t in g.threads && (g.threads[t].LeaveDrained? || g.threads[t].ShutDone?)
    ensures SendView(g).active == {} && !SendView(g).open
    ensures g.threads[t].ShutDone? ==> SendView(g).closed
  {
    if g.threads[t].ShutDone? {
      assert SendGate.Sealed(g) && SendGate.Shutting(g.threads[t]);
      assert SendGate.Owners(g) == {};
    } else {
      assert SendGate.Refusing(g.threads[t]);
    }
  }

  // --- the report gate ---------------------------------------------------------------------

  ghost predicate ReportMid(g: ReportGate.Gate) {
    exists t :: t in g.threads && ReportGate.PastClosed(g.threads[t])
  }

  ghost predicate ReportWindow(g: ReportGate.Gate) {
    exists t :: t in g.threads && ReportGate.PastToken(g.threads[t])
  }

  ghost function ReportView(g: ReportGate.Gate): Coarse {
    var closed := g.closed && !ReportMid(g);
    Coarse(ReportGate.Reporters(g), !closed && (ReportWindow(g) || !g.cancelled), closed)
  }

  lemma ReportLocal(g: ReportGate.Gate, g': ReportGate.Gate, t: nat)
    requires ReportGate.Local(g, g', t)
    ensures MovesTwice(ReportView(g), ReportView(g'))
  {
    var c, c' := ReportView(g), ReportView(g');
    var pc, pc' := g.threads[t], g'.threads[t];
    if pc'.Reporter? && !pc.Reporter? {
      assert ReportGate.PastToken(pc) && ReportGate.PastClosed(pc);
      assert c.open;
    }
    assert ReportGate.Reporters(g') == if pc'.Reporter? then ReportGate.Reporters(g) + {t} else ReportGate.Reporters(g) - {t};
    Simulates(c, c', t);
  }

  lemma ReportSpawn(g: ReportGate.Gate, g': ReportGate.Gate, t: nat)
    requires t !in g.threads && g' == g.(threads := g'.threads) && t in g'.threads && g'.threads == g.threads[t := g'.threads[t]]
    requires !ReportGate.PastClosed(g'.threads[t]) && !g'.threads[t].Reporter?
    ensures ReportView(g') == ReportView(g)
  {
    assert ReportGate.Reporters(g') == ReportGate.Reporters(g);
    forall u | u in g.threads ensures g'.threads[u] == g.threads[u] { }
    if ReportMid(g) { var u :| u in g.threads && ReportGate.PastClosed(g.threads[u]); assert ReportGate.PastClosed(g'.threads[u]); }
    if ReportWindow(g) { var u :| u in g.threads && ReportGate.PastToken(g.threads[u]); assert ReportGate.PastToken(g'.threads[u]); }
  }

  // Every atomic step of the report gate is at most two moves of the session's, within its bound.
  lemma ReportGateSimulates(g: ReportGate.Gate, a: ReportGate.Action)
    requires ReportGate.Inv(g) && ReportGate.Step(g, a).Some?
    ensures MovesTwice(ReportView(g), ReportView(ReportGate.Step(g, a).value))
    ensures |ReportView(ReportGate.Step(g, a).value).active| <= ReportGate.MAX_ACTIVE_REPORTS
  {
    var g' := ReportGate.Step(g, a).value;
    ReportGate.StepKeeps(g, a);
    match a
    case Go(t, choice) =>
      ReportGate.GoIsLocal(g, t, choice);
      ReportLocal(g, g', t);
    case Spawn(t, _) =>
      ReportSpawn(g, g', t);
      Simulates(ReportView(g), ReportView(g'), t);
  }

  lemma ReportDrainAgrees(g: ReportGate.Gate, t: nat)
    requires ReportGate.Inv(g) && t in g.threads && (g.threads[t].LeaveDrained? || g.threads[t].ShutDone?)
    ensures ReportView(g).active == {} && !ReportView(g).open
    ensures g.threads[t].ShutDone? ==> ReportView(g).closed
  {
    if g.threads[t].LeaveDrained? { assert ReportGate.Refusing(g.threads[t]); }
    else { assert ReportGate.Sealed(g); }
  }
}
