/** The App Server client's acknowledgement fence: a model turn may acknowledge only mail that it
    was given in that same turn and that has not been acknowledged since.  */
module AckFence {
  import opened Wrappers

  const U64_MAX: nat := 0xFFFF_FFFF_FFFF_FFFF
  const FIRST_ID: nat := 3   // 1 and 2 initialise the connection and the thread

  // A server-side tool call, as far as `parse_tool_call` looks into it.
  // Both lists are as they stand in the arguments; an element that is no string is `None`.
  datatype Arguments = Arguments(acknowledgeIds: Option<seq<Option<string>>>, messageIds: Option<seq<Option<string>>>)

  datatype ToolCall = ToolCall(
    answerable: bool, thread: Option<string>, turn: Option<string>, namespaced: bool,
    tool: Option<string>, arguments: Option<Arguments>)

  datatype Forward = Receive | Acknowledge(ids: set<string>)

  // `message_ids`: between one and a hundred valid identifiers.
  function MessageIds(valid: string -> bool, values: Option<seq<Option<string>>>): Option<set<string>> {
    match values
    case None => None
    case Some(list) =>
      if !(1 <= |list| <= 100) || exists i | 0 <= i < |list| :: list[i].None? || !valid(list[i].value) then None
      else Some(set i | 0 <= i < |list| && list[i].Some? :: list[i].value)
  }

  function Parse(valid: string -> bool, call: ToolCall, thread: string, turn: string, retrieved: set<string>): Option<Forward> {
    if !call.answerable || call.thread != Some(thread) || call.turn != Some(turn) || call.namespaced
       || call.arguments.None? then None
    else if call.tool == Some("psst_wake_message_receive") && call.arguments.value.acknowledgeIds == Some([]) then
      Some(Receive)
    else if call.tool == Some("psst_wake_message_acknowledge") then
      match MessageIds(valid, call.arguments.value.messageIds)
      case None => None
      case Some(ids) => if ids <= retrieved then Some(Acknowledge(ids)) else None
    else None
  }

  // The answer to a forwarded call: a failed request, or whether it reports an error and the ids in
  // its output, where the output is present and well formed.
  datatype Answer = Failed | Output(isError: bool, present: bool, ids: Option<set<string>>)

  // The client's own state; the turn it waits for is an argument of each call.
  datatype Client = Client(nextId: nat, retrieved: set<string>)

  const NEW_CLIENT: Client := Client(FIRST_ID, {})

  // `start_turn`: forget the mail of earlier turns and ask under the next id.  With no id left it
  // fails before anything is sent, and the connection is closed.
  function StartTurn(c: Client): Option<(Client, nat)> {
    if c.nextId >= U64_MAX then None else Some((Client(c.nextId + 1, {}), c.nextId))
  }

  // What the answer to a forwarded call makes of the retrieved ids, and whether the turn goes on.
  function Settle(retrieved: set<string>, forward: Forward, answer: Answer): (set<string>, bool) {
    if answer.Failed? || !answer.present then (retrieved, false)
    else if answer.isError then (retrieved, true)
    else if answer.ids.None? then (retrieved, false)
    else match forward
      case Receive => (retrieved + answer.ids.value, true)
      case Acknowledge(asked) => if answer.ids.value == asked then (retrieved - asked, true) else (retrieved, false)
  }

  // The new state, what was sent and under which id, and whether the turn goes on.
  datatype Handled = Handled(client: Client, sent: Option<(nat, Forward)>, goOn: bool)

  // `handle_tool_call`; the answer is looked at only where a call was sent, and `replied` says
  // whether the model's own call could then be answered.
  function HandleToolCall(valid: string -> bool, c: Client, call: ToolCall, thread: string, turn: string, answer: Answer,
                          replied: bool)
    : Handled
  {
    match Parse(valid, call, thread, turn, c.retrieved)
    case None => Handled(c, None, false)
    case Some(forward) =>
      if c.nextId >= U64_MAX then Handled(c, None, false)
      else
        var (retrieved, goOn) := Settle(c.retrieved, forward, answer);
        Handled(Client(c.nextId + 1, retrieved), Some((c.nextId, forward)), goOn && replied)
  }

  // --- what an observer on the wire sees ---------------------------------------------------

  // A turn requested, with the name the server gave it; a tool call forwarded, with the turn the
  // model claimed for it, its arguments, which go out unchanged, and the server's answer.
  datatype Event =
    | TurnStarted(id: nat, named: Option<string>)
    | Forwarded(id: nat, claimed: Option<string>, call: Forward, arguments: Option<Arguments>, answer: Answer)

  // The observer writes the log, from what was sent and what the server answered.
  datatype Connection = Connection(client: Client, log: seq<Event>)

  // The turn waited for: the name the last start was answered with.
  function TurnOf(log: seq<Event>): Option<string>
    decreases |log|
  {
    if log == [] then None
    else match log[|log| - 1]
      case TurnStarted(_, named) => named
      case Forwarded(_, _, _, _, _) => TurnOf(log[..|log| - 1])
  }

  // Tool calls are handled only while a named turn is waited for.
  datatype Op = Turn(named: Option<string>) | Call(call: ToolCall, thread: string, answer: Answer, replied: bool)

  function Apply(valid: string -> bool, s: Connection, op: Op): Option<Connection> {
    match op
    case Turn(named) =>
      (match StartTurn(s.client)
       case None => None
       case Some((client, id)) => Some(Connection(client, s.log + [TurnStarted(id, named)])))
    case Call(call, thread, answer, replied) =>
      if TurnOf(s.log).None? then None
      else
        var h := HandleToolCall(valid, s.client, call, thread, TurnOf(s.log).value, answer, replied);
        Some(Connection(h.client, if h.sent.None? then s.log
                                  else s.log + [Forwarded(h.sent.value.0, call.turn, h.sent.value.1, call.arguments, answer)]))
  }

  function ApplyAll(valid: string -> bool, s: Connection, ops: seq<Op>): Option<Connection>
    decreases |ops|
  {
    if ops == [] then Some(s)
    else if Apply(valid, s, ops[0]).None? then None
    else ApplyAll(valid, Apply(valid, s, ops[0]).value, ops[1..])
  }

  const OPENED: Connection := Connection(NEW_CLIENT, [])

  // --- the fence, read off the log ---------------------------------------------------------

  // The ids of a call that the server answered without an error.
  predicate Succeeded(answer: Answer, ids: set<string>) {
    answer == Output(false, true, Some(ids))
  }

  // A successful receive that returned the id.
  predicate Gives(e: Event, id: string) {
    e.Forwarded? && e.call.Receive? && e.answer.Output? && e.answer.ids.Some?
    && Succeeded(e.answer, e.answer.ids.value) && id in e.answer.ids.value
  }

  // Ends what a receive gave: a new turn, or an acknowledgement the server confirmed in full.
  predicate Takes(e: Event, id: string) {
    e.TurnStarted? || (e.call.Acknowledge? && Succeeded(e.answer, e.call.ids) && id in e.call.ids)
  }

  // Mail given to the turn in progress and not acknowledged since.
  ghost predicate Held(log: seq<Event>, id: string) {
    exists j :: 0 <= j < |log| && Gives(log[j], id) && StillHeld(log, j + 1, id)
  }

  ghost predicate StillHeld(log: seq<Event>, from: nat, id: string) {
    forall k :: from <= k < |log| ==> !Takes(log[k], id)
  }

  // An id that a forwarded call asks the server to acknowledge: a receive through its own
  // acknowledge list, an acknowledgement through the ids it names.
  predicate Asks(e: Event, id: string) {
    e.Forwarded? && e.arguments.Some?
    && var list := if e.call.Receive? then e.arguments.value.acknowledgeIds else e.arguments.value.messageIds;
       list.Some? && Some(id) in list.value
  }

  // A receive asks for no acknowledgement at all, and an acknowledgement for exactly the ids it names.
  ghost predicate Honest(e: Event) {
    e.Forwarded? ==>
      && e.arguments.Some?
      && (e.call.Receive? ==> e.arguments.value.acknowledgeIds == Some([]))
      && (e.call.Acknowledge? ==> e.call.ids != {} && forall id :: id in e.call.ids <==> Asks(e, id))
  }

  // Everything forwarded belonged to the turn then running, everything the server was asked to
  // acknowledge, by whatever call, was held at that moment, and ids never go back.
  ghost predicate Fenced(log: seq<Event>) {
    && (forall i :: 0 <= i < |log| ==> Honest(log[i]))
    && (forall i :: 0 <= i < |log| && log[i].Forwarded? ==> log[i].claimed.Some? && log[i].claimed == TurnOf(log[..i]))
    && (forall i, id :: 0 <= i < |log| && Asks(log[i], id) ==> Held(log[..i], id))
    && (forall i, j :: 0 <= i < j < |log| ==> log[i].id < log[j].id)
  }

  ghost predicate ConnectionInv(s: Connection) {
    && Fenced(s.log)
    && (forall id :: id in s.client.retrieved <==> Held(s.log, id))
    && FIRST_ID <= s.client.nextId <= U64_MAX
    && (forall i :: 0 <= i < |s.log| ==> FIRST_ID <= s.log[i].id < s.client.nextId)
  }

  lemma HeldAppend(log: seq<Event>, e: Event, id: string)
    ensures Held(log + [e], id) <==> Gives(e, id) || (Held(log, id) && !Takes(e, id))
  {
    var next := log + [e];
    if Held(next, id) {
      var j :| 0 <= j < |next| && Gives(next[j], id) && StillHeld(next, j + 1, id);
      if j < |log| {
        assert next[|log|] == e;
        forall k | j + 1 <= k < |log| ensures !Takes(log[k], id) { assert next[k] == log[k]; }
        assert StillHeld(log, j + 1, id);
      }
    }
    if Gives(e, id) {
      assert StillHeld(next, |log| + 1, id) && Gives(next[|log|], id);
    } else if Held(log, id) && !Takes(e, id) {
      var j :| 0 <= j < |log| && Gives(log[j], id) && StillHeld(log, j + 1, id);
      assert StillHeld(next, j + 1, id) && Gives(next[j], id);
    }
  }

  // What one new event must satisfy for the fence to stand.
  ghost predicate Permitted(s: Connection, e: Event) {
    && e.id == s.client.nextId < U64_MAX
    && (e.Forwarded? ==> e.claimed.Some? && e.claimed == TurnOf(s.log))
    && (e.Forwarded? && e.call.Acknowledge? ==> e.call.ids <= s.client.retrieved)
    && Honest(e)
  }

  lemma FencedAppend(s: Connection, e: Event)
    requires ConnectionInv(s) && Permitted(s, e)
    ensures Fenced(s.log + [e])
  {
    var next := s.log + [e];
    forall i | 0 <= i < |next| ensures next[..i] == if i < |s.log| then s.log[..i] else s.log { }
    forall i, id | 0 <= i < |next| && Asks(next[i], id) ensures Held(next[..i], id) {
      if i < |s.log| { assert next[i] == s.log[i]; }
    }
  }

  lemma AppendKeeps(s: Connection, e: Event, s': Connection)
    requires ConnectionInv(s) && Permitted(s, e)
    requires s'.log == s.log + [e] && s'.client.nextId == s.client.nextId + 1
    requires forall id :: id in s'.client.retrieved <==> Gives(e, id) || (id in s.client.retrieved && !Takes(e, id))
    ensures ConnectionInv(s')
  {
    FencedAppend(s, e);
    forall id ensures id in s'.client.retrieved <==> Held(s'.log, id) { HeldAppend(s.log, e, id); }
  }

  // The envelope of a call of this thread and turn.
  ghost predicate Addressed(call: ToolCall, thread: string, turn: string) {
    && call.answerable && call.thread == Some(thread) && call.turn == Some(turn) && !call.namespaced
    && call.arguments.Some?
  }

  // A list of one to a hundred valid ids, all of them retrieved.
  ghost predicate MayAcknowledge(valid: string -> bool, list: Option<seq<Option<string>>>, retrieved: set<string>) {
    && list.Some? && 1 <= |list.value| <= 100
    && forall i :: 0 <= i < |list.value| ==> list.value[i].Some? && valid(list.value[i].value) && list.value[i].value in retrieved
  }

  // Exactly these calls pass: a receive of this thread and turn with an empty acknowledge list, and an
  // acknowledgement of valid, retrieved ids; and what passes is what was called.
  lemma ParseExactly(valid: string -> bool, call: ToolCall, thread: string, turn: string, retrieved: set<string>)
    ensures var parsed := Parse(valid, call, thread, turn, retrieved);
            && (parsed == Some(Receive) <==>
                  && Addressed(call, thread, turn) && call.tool == Some("psst_wake_message_receive")
                  && call.arguments.value.acknowledgeIds == Some([]))
            && (parsed.Some? && parsed.value.Acknowledge? <==>
                  && Addressed(call, thread, turn) && call.tool == Some("psst_wake_message_acknowledge")
                  && MayAcknowledge(valid, call.arguments.value.messageIds, retrieved))
            && (parsed.Some? && parsed.value.Acknowledge? ==>
                  forall id :: id in parsed.value.ids <==> Some(id) in call.arguments.value.messageIds.value)
  {
    if call.arguments.Some? && call.arguments.value.messageIds.Some? {
      MessageIdsExactly(valid, call.arguments.value.messageIds.value);
    }
  }

  lemma MessageIdsExactly(valid: string -> bool, list: seq<Option<string>>)
    ensures var ids := MessageIds(valid, Some(list));
            && (ids.Some? <==> 1 <= |list| <= 100 && forall i :: 0 <= i < |list| ==> list[i].Some? && valid(list[i].value))
            && (ids.Some? ==> forall id :: id in ids.value <==> Some(id) in list)
            && (ids.Some? ==> forall i :: 0 <= i < |list| ==> list[i].value in ids.value)
  {
    var ids := MessageIds(valid, Some(list));
    if ids.Some? {
      forall id ensures id in ids.value <==> Some(id) in list {
        if Some(id) in list { var i :| 0 <= i < |list| && list[i] == Some(id); }
      }
    }
  }

  // Only a call of this thread and turn passes, and only for mail that may be acknowledged.
  lemma ParseMeans(valid: string -> bool, call: ToolCall, thread: string, turn: string, retrieved: set<string>)
    requires Parse(valid, call, thread, turn, retrieved).Some?
    ensures call.thread == Some(thread) && call.turn == Some(turn)
    ensures var forward := Parse(valid, call, thread, turn, retrieved).value;
            forward.Acknowledge? ==> forward.ids <= retrieved && forward.ids != {} && forall id :: id in forward.ids ==> valid(id)
  {
    var forward := Parse(valid, call, thread, turn, retrieved).value;
    if forward.Acknowledge? {
      var list := call.arguments.value.messageIds.value;
      assert list[0].Some? && list[0].value in forward.ids;
    }
  }

  // The retrieved set moves exactly as the exchange gives and takes.
  lemma SettleMeans(retrieved: set<string>, id: nat, claimed: Option<string>, forward: Forward, arguments: Option<Arguments>,
                    answer: Answer, m: string)
    ensures var e := Forwarded(id, claimed, forward, arguments, answer);
            m in Settle(retrieved, forward, answer).0 <==> Gives(e, m) || (m in retrieved && !Takes(e, m))
  {
  }

  lemma ApplyKeeps(valid: string -> bool, s: Connection, op: Op)
    requires ConnectionInv(s) && Apply(valid, s, op).Some?
    ensures ConnectionInv(Apply(valid, s, op).value)
  {
    var s' := Apply(valid, s, op).value;
    if op.Turn? {
      AppendKeeps(s, TurnStarted(s.client.nextId, op.named), s');
    } else {
      var turn := TurnOf(s.log).value;
      var parsed := Parse(valid, op.call, op.thread, turn, s.client.retrieved);
      if parsed.Some? && s.client.nextId < U64_MAX {
        ParseMeans(valid, op.call, op.thread, turn, s.client.retrieved);
        ParseExactly(valid, op.call, op.thread, turn, s.client.retrieved);
        var e := Forwarded(s.client.nextId, op.call.turn, parsed.value, op.call.arguments, op.answer);
        forall m ensures m in s'.client.retrieved <==> Gives(e, m) || (m in s.client.retrieved && !Takes(e, m)) {
          SettleMeans(s.client.retrieved, e.id, e.claimed, e.call, e.arguments, e.answer, m);
        }
        AppendKeeps(s, e, s');
      }
    }
  }

  lemma {:induction false} AllKeep(valid: string -> bool, s: Connection, ops: seq<Op>)
    requires ConnectionInv(s) && ApplyAll(valid, s, ops).Some?
    ensures ConnectionInv(ApplyAll(valid, s, ops).value)
    decreases |ops|
  {
    if ops != [] {
      ApplyKeeps(valid, s, ops[0]);
      AllKeep(valid, Apply(valid, s, ops[0]).value, ops[1..]);
    }
  }

  // In every connection, each call forwarded belongs to the turn being waited for, a receive asks for
  // no acknowledgement, each id the server is asked to acknowledge was returned by an earlier receive of the same turn that the server answered
  // without an error and was in no acknowledgement it confirmed since, and request ids strictly
  // increase.
  lemma {:induction false} AcknowledgementFence(valid: string -> bool, ops: seq<Op>)
    requires ApplyAll(valid, OPENED, ops).Some?
    ensures Fenced(ApplyAll(valid, OPENED, ops).value.log)
  {
    AllKeep(valid, OPENED, ops);
  }

  // The fence lets through everything it should: while ids last, a call of this thread and turn is
  // forwarded exactly when it is a receive with an empty acknowledge list, or an acknowledgement of one
  // to a hundred valid ids all of which the turn holds.
  lemma {:induction false} FenceIsExact(valid: string -> bool, ops: seq<Op>, call: ToolCall, thread: string, answer: Answer,
                                        replied: bool)
    requires ApplyAll(valid, OPENED, ops).Some?
    requires var s := ApplyAll(valid, OPENED, ops).value;
             TurnOf(s.log).Some? && Addressed(call, thread, TurnOf(s.log).value) && s.client.nextId < U64_MAX
    ensures var s := ApplyAll(valid, OPENED, ops).value;
            var h := HandleToolCall(valid, s.client, call, thread, TurnOf(s.log).value, answer, replied);
            var list := call.arguments.value.messageIds;
            h.sent.Some? <==>
              || (call.tool == Some("psst_wake_message_receive") && call.arguments.value.acknowledgeIds == Some([]))
              || (&& call.tool == Some("psst_wake_message_acknowledge") && list.Some? && 1 <= |list.value| <= 100
                  && forall i :: 0 <= i < |list.value| ==>
                       list.value[i].Some? && valid(list.value[i].value) && Held(s.log, list.value[i].value))
  {
    AllKeep(valid, OPENED, ops);
    var s := ApplyAll(valid, OPENED, ops).value;
    ParseExactly(valid, call, thread, TurnOf(s.log).value, s.client.retrieved);
  }

  // The turn goes on exactly after a forwarded call that was answered, with an error or with ids that
  // are what was asked, and whose own answer could be written.
  lemma TurnGoesOn(valid: string -> bool, c: Client, call: ToolCall, thread: string, turn: string, answer: Answer, replied: bool)
    ensures var h := HandleToolCall(valid, c, call, thread, turn, answer, replied);
            h.goOn <==>
              && h.sent.Some? && replied && answer.Output? && answer.present
              && (answer.isError
                  || (answer.ids.Some? && (h.sent.value.1.Acknowledge? ==> answer.ids.value == h.sent.value.1.ids)))
  {
  }
}
