/** The session's owner of in-flight sends, field by field.  `State` abstracts an object to the
    record of `LedgerModel`; every method is proved against the transition of that record, and so
    keeps the invariant that `LedgerTheorems` proves of it.  */
module SendLedger {
  import opened Wrappers
  import opened LedgerModel
  import T = LedgerTheorems

  datatype Admission = Admitted(reservation: Reservation) | Closed

  class SendLedger {
    var accepting: bool
    var retainedBytes: nat
    var inflight: nat
    var entries: map<Key, Entry>
    var terminalFifo: seq<Key>
    var terminals: map<nat, Terminal>
    var nextEntry: nat
    var admissionOpen: bool
    var permanentlyClosed: bool
    ghost var issued: seq<Issue>

    ghost function State(): Ledger
      reads this
    {
      Ledger(retainedBytes, inflight, entries, terminalFifo, terminals, issued)
    }

    // Entry handles are handed out in order of issue.
    ghost predicate Numbered()
      reads this
    {
      nextEntry == |issued|
    }

    ghost predicate Admits()
      reads this
    {
      accepting && admissionOpen && !permanentlyClosed
    }

    constructor ()
      ensures Numbered() && State() == EMPTY && T.Valid(State()) && Admits()
    {
      accepting, retainedBytes, inflight := true, 0, 0;
      entries, terminalFifo, terminals := map[], [], map[];
      admissionOpen, permanentlyClosed := true, false;
      issued, nextEntry := [], 0;
      new;
      T.EmptyValid();
    }

    // The eviction loop of `reserve`.
    method MakeRoom(bytes: nat)
      modifies `retainedBytes, `entries, `terminalFifo
      ensures State() == Evict(old(State()), bytes)
      ensures terminalFifo == [] || HasRoom(|entries|, retainedBytes, bytes)
    {
      while (|entries| >= MAX_OWNED_SENDS || SatAdd(retainedBytes, bytes) > MAX_OWNED_SEND_BYTES)
            && |terminalFifo| > 0
        invariant Evict(State(), bytes) == Evict(old(State()), bytes)
        decreases |terminalFifo|
      {
        ghost var before := State();
        var key := terminalFifo[0];
        terminalFifo := terminalFifo[1..];
        if key in entries {
          retainedBytes := SatSub(retainedBytes, entries[key].bytes);
          entries := entries - {key};
        }
        assert State() == EvictFront(before);
      }
    }

    // The new entry of `reserve`.
    method Admit(key: Key, bytes: nat)
      requires Numbered()
      modifies `retainedBytes, `inflight, `entries, `nextEntry, `issued
      ensures Numbered() && State() == Insert(old(State()), key, bytes)
    {
      entries := entries[key := Entry(nextEntry, bytes)];
      retainedBytes := retainedBytes + bytes;
      inflight := inflight + 1;
      nextEntry := nextEntry + 1;
      issued := issued + [Issue(key, bytes)];
    }

    method Reserve(request: Request) returns (r: Admission)
      requires Numbered()
      modifies `retainedBytes, `inflight, `entries, `terminalFifo, `nextEntry, `issued
      ensures Numbered()
      ensures T.Valid(old(State())) ==> T.Valid(State())
      ensures !Admits() ==> r == Closed && State() == old(State())
      ensures Admits() ==>
                var (after, reservation) := ReserveIn(old(State()), request.dedupe, RequestBytes(request));
                State() == after && r == Admitted(reservation)
      // A fresh handle is that of the entry just inserted; a shared one that of the entry there was.
      ensures T.Valid(old(State())) && r.Admitted? && r.reservation.New? ==>
                && request.dedupe !in old(entries) && r.reservation.id == |old(issued)|
                && request.dedupe in entries && entries[request.dedupe] == Entry(r.reservation.id, RequestBytes(request))
      ensures r.Admitted? && r.reservation.Existing? ==>
                State() == old(State()) && request.dedupe in entries && entries[request.dedupe].id == r.reservation.id
    {
      var key := request.dedupe;
      var bytes := RequestBytes(request);
      ghost var after := ReserveIn(State(), key, bytes).0;
      T.ReserveKeeps(State(), key, bytes);
      if T.Valid(State()) { T.ReserveMeans(State(), key, bytes); }
      if permanentlyClosed || !admissionOpen || !accepting {
        return Closed;
      }
      if key in entries {
        assert State() == after;
        return Admitted(Existing(entries[key].id));
      }
      T.EvictExtends(State(), bytes);
      MakeRoom(bytes);
      if |entries| >= MAX_OWNED_SENDS || SatAdd(retainedBytes, bytes) > MAX_OWNED_SEND_BYTES {
        assert State() == after;
        return Admitted(Refused);
      }
      r := Admitted(New(nextEntry));
      Admit(key, bytes);
      assert State() == after;
    }

    // Called once, by the owner of the entry.
    method Finish(key: Key, entry: Entry, result: Terminal)
      requires Numbered()
      requires entry.id < |issued| && issued[entry.id] == Issue(key, entry.bytes) && entry.id !in terminals
      modifies `retainedBytes, `inflight, `entries, `terminalFifo, `terminals
      ensures T.Valid(old(State())) ==> T.Valid(State())
      ensures State() == FinishIn(old(State()), key, entry, result)
      // What waiters read is the owner's result; the entry stays exactly when that fits.
      ensures terminals == old(terminals)[entry.id := result]
      ensures if TerminalBytes(result) <= entry.bytes then entries == old(entries) && terminalFifo == old(terminalFifo) + [key]
              else entries == old(entries) - {key} && terminalFifo == old(terminalFifo)
    {
      ghost var after := FinishIn(State(), key, entry, result);
      T.FinishKeeps(State(), entry.id, result);
      var retain := TerminalBytes(result) <= entry.bytes;
      terminals := terminals[entry.id := result];
      inflight := SatSub(inflight, 1);
      if retain {
        terminalFifo := terminalFifo + [key];
      } else if key in entries {
        entries := entries - {key};
        retainedBytes := SatSub(retainedBytes, entry.bytes);
      }
      assert State() == after;
    }

    // The first half of `stop_and_drain`, and what its wait looks at.
    method StopAdmission() returns (drained: bool)
      modifies `admissionOpen, `accepting
      ensures !accepting && !admissionOpen && !Admits()
      ensures drained <==> inflight == 0
    {
      admissionOpen := false;
      accepting := false;
      drained := inflight == 0;
    }

    method ReopenAdmission()
      modifies `admissionOpen, `accepting
      ensures Admits() <==> !permanentlyClosed || old(Admits())
      ensures permanentlyClosed ==> admissionOpen == old(admissionOpen) && accepting == old(accepting)
    {
      if !permanentlyClosed {
        accepting := true;
        admissionOpen := true;
      }
    }

    method ClosePermanently()
      modifies `admissionOpen, `permanentlyClosed
      ensures permanentlyClosed && !admissionOpen && !Admits()
    {
      permanentlyClosed := true;
      admissionOpen := false;
    }
  }
}
