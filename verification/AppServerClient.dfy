/** The App Server client object: the request counter and the set of mail the turn may acknowledge,
    proved against `AckFence`.  */
module AppServerClient {
  import opened Wrappers
  import F = AckFence
  import opened AckFence

  class AppServerClient {
    var nextId: nat
    var retrieved: set<string>

    ghost function State(): Client
      reads this
    {
      Client(nextId, retrieved)
    }

    constructor ()
      ensures State() == NEW_CLIENT
    {
      nextId, retrieved := FIRST_ID, {};
    }

    // Returns the id the request went out under, if it went out at all.
    method StartTurn() returns (sent: Option<nat>)
      modifies this
      ensures match F.StartTurn(old(State()))
              case Some((client, id)) => State() == client && sent == Some(id)
              case None => State() == Client(old(nextId), {}) && sent == None
    {
      retrieved := {};
      if nextId >= U64_MAX { return None; }
      sent := Some(nextId);
      nextId := nextId + 1;
    }

    method HandleToolCall(valid: string -> bool, call: ToolCall, thread: string, expected: string, answer: Answer,
                          replied: bool)
      returns (sent: Option<(nat, Forward)>, goOn: bool)
      modifies this
      ensures Handled(State(), sent, goOn) == F.HandleToolCall(valid, old(State()), call, thread, expected, answer, replied)
    {
      var parsed := Parse(valid, call, thread, expected, retrieved);
      if parsed.None? || nextId >= U64_MAX { return None, false; }
      sent := Some((nextId, parsed.value));
      nextId := nextId + 1;
      if answer.Failed? || !answer.present { return sent, false; }
      if answer.isError { return sent, replied; }
      if answer.ids.None? { return sent, false; }
      match parsed.value {
        case Receive => retrieved := retrieved + answer.ids.value;
        case Acknowledge(asked) =>
          if answer.ids.value != asked { return sent, false; }
          retrieved := retrieved - asked;
      }
      return sent, replied;
    }
  }
}
