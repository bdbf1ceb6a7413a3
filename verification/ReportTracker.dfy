/** The report tracker object: a bounded counter and a succession of cancellation tokens.  Its
    interleavings are the subject of `ReportGate`; here each call runs alone.  */
module ReportTracker {
  import opened Wrappers
  import opened ReportGate

  datatype Refusal = NotReady | OperationCapacity

  class ReportTracker {
    var active: nat
    var tokens: seq<bool>           // one flag per token ever made, set when it was cancelled
    var permanentlyClosed: bool

    ghost predicate Valid()
      reads this
    {
      active <= MAX_ACTIVE_REPORTS && |tokens| > 0
    }

    ghost predicate Live()
      reads this
      requires Valid()
    {
      !tokens[|tokens| - 1] && !permanentlyClosed
    }

    constructor ()
      ensures Valid() && active == 0 && tokens == [false] && !permanentlyClosed
    {
      active, tokens, permanentlyClosed := 0, [false], false;
    }

    // A caller is refused exactly when the gate is shut or full, and gets the current token.
    method Register() returns (r: Result<nat, Refusal>)
      requires Valid()
      modifies `active
      ensures Valid()
      ensures r.Ok? <==> Live() && old(active) < MAX_ACTIVE_REPORTS
      ensures r.Ok? ==> r.value == |tokens| - 1 && active == old(active) + 1
      ensures r.Err? ==> active == old(active) && r.error == (if Live() then OperationCapacity else NotReady)
    {
      if permanentlyClosed || tokens[|tokens| - 1] { return Err(NotReady); }
      if active >= MAX_ACTIVE_REPORTS { return Err(OperationCapacity); }
      active := active + 1;
      return Ok(|tokens| - 1);
    }

    method Finish() returns (drained: bool)
      requires Valid() && active > 0
      modifies `active
      ensures Valid() && active == old(active) - 1 && (drained <==> active == 0)
    {
      active := active - 1;
      drained := active == 0;
    }

    // Cancels the token every report of this epoch holds.
    method Cancel()
      requires Valid()
      modifies `tokens
      ensures Valid() && !Live() && tokens == old(tokens)[|old(tokens)| - 1 := true]
    {
      tokens := tokens[|tokens| - 1 := true];
    }

    method ClosePermanently()
      requires Valid()
      modifies `tokens, `permanentlyClosed
      ensures Valid() && permanentlyClosed && !Live() && tokens == old(tokens)[|old(tokens)| - 1 := true]
    {
      permanentlyClosed := true;
      Cancel();
    }

    // A new epoch; the tokens handed out before keep their fate.
    method Reopen()
      requires Valid()
      modifies `tokens
      ensures Valid() && tokens == old(tokens) + (if permanentlyClosed then [] else [false])
      ensures Live() <==> !permanentlyClosed
    {
      if !permanentlyClosed { tokens := tokens + [false]; }
    }
  }
}
