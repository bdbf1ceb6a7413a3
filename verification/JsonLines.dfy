/** The stdio protocol object of the App Server client, proved against `StdioDemux`. */
module JsonLines {
  import opened Wrappers
  import D = StdioDemux
  import opened StdioDemux

  class JsonLines {
    var wire: seq<Item>
    var pending: seq<Message>
    ghost var read: seq<Entry>
    ghost var delivered: seq<Message>

    ghost function State(): Demux
      reads this
    {
      Demux(wire, pending, read, delivered)
    }

    method ReadFromWire() returns (r: Result<Message, Failure>)
      modifies `wire
      ensures wire == if old(wire) == [] then [] else old(wire)[1..]
      ensures r == if old(wire) == [] then Err(Exited)
                   else if old(wire)[0].Broken? then Err(old(wire)[0].failure) else Ok(old(wire)[0].message)
    {
      if |wire| == 0 { return Err(Exited); }
      var item := wire[0];
      wire := wire[1..];
      r := match item case Line(m) => Ok(m) case Broken(f) => Err(f);
    }

    // `request`, after its frame is written.
    method Request(id: nat) returns (r: Result<string, Failure>)
      modifies this
      ensures (State(), r) == RequestFrom(old(State()), id, |old(read)|)
    {
      ghost var since := |read|;
      while true
        invariant RequestFrom(State(), id, since) == RequestFrom(old(State()), id, since)
        decreases |wire|
      {
        ghost var before := State();
        var next := ReadFromWire();
        if next.Err? { return Err(next.error); }
        var message := next.value;
        if message.id != Number(id) {
          pending := pending + [message];
          read := read + [Entry(message, None)];
          assert State() == Queue(before);
        } else {
          read := read + [Entry(message, Some(Question(id, since)))];
          return AnswerOf(message);
        }
      }
    }

    method Read() returns (r: Result<Message, Failure>)
      modifies this
      ensures (State(), r) == D.Read(old(State()))
    {
      if |pending| > 0 {
        var message := pending[0];
        pending := pending[1..];
        delivered := delivered + [message];
        return Ok(message);
      }
      r := ReadFromWire();
      if r.Ok? {
        read := read + [Entry(r.value, None)];
        delivered := delivered + [r.value];
      }
    }
  }
}
