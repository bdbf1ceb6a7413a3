/** The App Server's stdio protocol: one stream of JSON lines carries answers to our requests and
    everything the server says on its own.  `request` takes its answer out of the stream and queues
    the rest; `read` hands out the queue first.  */
module StdioDemux {
  import opened Wrappers

  datatype Id = NoId | Number(n: nat) | Text(s: string) | Other

  // `error` and `result` are the two members `request` looks at; `body` is everything else.
  datatype Message = Message(id: Id, error: bool, result: Option<string>, body: string)

  datatype Failure = Timeout | Exited | Protocol | Rejected

  // What the reader meets next: a well-formed line, or a line, silence or end that fails the read.
  datatype Item = Line(message: Message) | Broken(failure: Failure)

  // A request in progress: its id, and how much had been read when it was written.
  datatype Question = Question(id: nat, since: nat)

  datatype Entry = Entry(message: Message, answers: Option<Question>)

  // `read` and `delivered` remember, in order, what was taken off the wire and what was handed out.
  datatype Demux = Demux(wire: seq<Item>, pending: seq<Message>, read: seq<Entry>, delivered: seq<Message>)

  function NewDemux(wire: seq<Item>): Demux { Demux(wire, [], [], []) }

  // --- transitions -------------------------------------------------------------------------

  // How many lines `request` queues: those before the first that fails or carries the id.
  function Skipped(wire: seq<Item>, id: nat): nat {
    if wire == [] || wire[0].Broken? || wire[0].message.id == Number(id) then 0 else 1 + Skipped(wire[1..], id)
  }

  lemma {:induction false} SkippedIs(wire: seq<Item>, id: nat)
    ensures Skipped(wire, id) <= |wire|
    ensures forall i :: 0 <= i < Skipped(wire, id) ==> wire[i].Line? && wire[i].message.id != Number(id)
    ensures var n := Skipped(wire, id); n < |wire| ==> wire[n].Broken? || wire[n].message.id == Number(id)
    decreases |wire|
  {
    if !(wire == [] || wire[0].Broken? || wire[0].message.id == Number(id)) {
      SkippedIs(wire[1..], id);
      assert forall i :: 1 <= i < |wire| ==> wire[i] == wire[1..][i - 1];
    }
  }

  function Messages(items: seq<Item>): seq<Message>
    requires forall i :: 0 <= i < |items| ==> items[i].Line?
  {
    seq(|items|, i requires 0 <= i < |items| => items[i].message)
  }

  function AnswerOf(m: Message): Result<string, Failure> {
    if m.error then Err(Rejected) else if m.result.Some? then Ok(m.result.value) else Err(Protocol)
  }

  // One read of the request loop.
  function Queue(d: Demux): Demux
    requires d.wire != [] && d.wire[0].Line?
  {
    var m := d.wire[0].message;
    d.(wire := d.wire[1..], pending := d.pending + [m], read := d.read + [Entry(m, None)])
  }

  function RequestFrom(d: Demux, id: nat, since: nat): (Demux, Result<string, Failure>)
    decreases |d.wire|
  {
    if d.wire == [] then (d, Err(Exited))
    else if d.wire[0].Broken? then (d.(wire := d.wire[1..]), Err(d.wire[0].failure))
    else if d.wire[0].message.id == Number(id) then
      var m := d.wire[0].message;
      (d.(wire := d.wire[1..], read := d.read + [Entry(m, Some(Question(id, since)))]), AnswerOf(m))
    else RequestFrom(Queue(d), id, since)
  }

  function Request(d: Demux, id: nat): (Demux, Result<string, Failure>) { RequestFrom(d, id, |d.read|) }

  function Read(d: Demux): (Demux, Result<Message, Failure>) {
    if d.pending != [] then (d.(pending := d.pending[1..], delivered := d.delivered + [d.pending[0]]), Ok(d.pending[0]))
    else if d.wire == [] then (d, Err(Exited))
    else if d.wire[0].Broken? then (d.(wire := d.wire[1..]), Err(d.wire[0].failure))
    else
      var m := d.wire[0].message;
      (d.(wire := d.wire[1..], read := d.read + [Entry(m, None)], delivered := d.delivered + [m]), Ok(m))
  }

  lemma {:induction false} RequestScans(d: Demux, id: nat, since: nat)
    ensures Skipped(d.wire, id) <= |d.wire|
    ensures forall i :: 0 <= i < Skipped(d.wire, id) ==> d.wire[i].Line? && d.wire[i].message.id != Number(id)
    ensures var n := Skipped(d.wire, id);
            var (d', r) := RequestFrom(d, id, since);
            && d'.pending == d.pending + Messages(d.wire[..n]) && d'.delivered == d.delivered
            && d'.wire == (if n == |d.wire| then [] else d.wire[n + 1..])
            && r == (if n == |d.wire| then Err(Exited)
                     else if d.wire[n].Broken? then Err(d.wire[n].failure)
                     else AnswerOf(d.wire[n].message))
            && (n < |d.wire| && d.wire[n].Line? ==> d.wire[n].message.id == Number(id))
    decreases |d.wire|
  {
    SkippedIs(d.wire, id);
    var n := Skipped(d.wire, id);
    if n == 0 {
      assert Messages(d.wire[..0]) == [];
    } else {
      RequestScans(Queue(d), id, since);
      var rest := d.wire[1..];
      assert rest[..n - 1] == d.wire[1..n];
      assert [d.wire[0].message] + Messages(rest[..n - 1]) == Messages(d.wire[..n]);
      assert d.pending + [d.wire[0].message] + Messages(rest[..n - 1]) == d.pending + Messages(d.wire[..n]);
      if n < |d.wire| { assert rest[n - 1] == d.wire[n] && rest[n..] == d.wire[n + 1..]; }
    }
  }

  // A request stops at the first line that fails or carries its id, queues exactly the lines before
  // it, and answers from that line alone: rejected if it has an error, else its result, else a failure
  // of the protocol.
  lemma {:induction false} RequestTakesFirst(d: Demux, id: nat, since: nat) returns (n: nat)
    ensures n <= |d.wire| && forall i :: 0 <= i < n ==> d.wire[i].Line? && d.wire[i].message.id != Number(id)
    ensures n < |d.wire| && d.wire[n].Line? ==> d.wire[n].message.id == Number(id)
    ensures var (d', r) := RequestFrom(d, id, since);
            && d'.pending == d.pending + Messages(d.wire[..n]) && d'.delivered == d.delivered
            && d'.wire == (if n == |d.wire| then [] else d.wire[n + 1..])
            && (n == |d.wire| ==> r == Err(Exited))
            && (n < |d.wire| && d.wire[n].Broken? ==> r == Err(d.wire[n].failure))
            && (n < |d.wire| && d.wire[n].Line? ==>
                  var m := d.wire[n].message;
                  && (m.error ==> r == Err(Rejected))
                  && (!m.error && m.result.Some? ==> r == Ok(m.result.value))
                  && (!m.error && m.result.None? ==> r == Err(Protocol)))
  {
    RequestScans(d, id, since);
    n := Skipped(d.wire, id);
  }

  // --- conservation ------------------------------------------------------------------------

  // What was read and was nobody's answer, in order.
  ghost function Kept(read: seq<Entry>): seq<Message> {
    if read == [] then []
    else
      var last := read[|read| - 1];
      Kept(read[..|read| - 1]) + if last.answers.None? then [last.message] else []
  }

  // The well-formed lines of a stretch of wire.
  ghost function Lines(items: seq<Item>): seq<Message> {
    if items == [] then []
    else
      var last := items[|items| - 1];
      Lines(items[..|items| - 1]) + if last.Line? then [last.message] else []
  }

  ghost function Said(read: seq<Entry>): seq<Message> {
    seq(|read|, i requires 0 <= i < |read| => read[i].message)
  }

  // An entry answers a question only as the first message with that id read after it was asked.
  ghost predicate FirstAnswer(read: seq<Entry>, i: nat)
    requires i < |read|
  {
    read[i].answers.Some? ==>
      var q := read[i].answers.value;
      && q.since <= i
      && read[i].message.id == Number(q.id)
      && (forall j :: q.since <= j < i ==> read[j].message.id != Number(q.id))
  }

  ghost predicate Conserves(wire: seq<Item>, d: Demux) {
    && |d.wire| <= |wire| && wire[|wire| - |d.wire|..] == d.wire
    && Said(d.read) == Lines(wire[..|wire| - |d.wire|])
    && d.delivered + d.pending == Kept(d.read)
    && (forall i :: 0 <= i < |d.read| ==> FirstAnswer(d.read, i))
  }

  lemma {:induction false} KeptAppend(read: seq<Entry>, e: Entry)
    ensures Kept(read + [e]) == Kept(read) + if e.answers.None? then [e.message] else []
    ensures Said(read + [e]) == Said(read) + [e.message]
  {
    assert (read + [e])[..|read|] == read;
  }

  // Taking one item off the wire moves the boundary by one.
  lemma {:induction false} LinesAdvance(wire: seq<Item>, rest: seq<Item>)
    requires 0 < |rest| <= |wire| && wire[|wire| - |rest|..] == rest
    ensures wire[|wire| - |rest[1..]|..] == rest[1..]
    ensures Lines(wire[..|wire| - |rest[1..]|]) ==
              Lines(wire[..|wire| - |rest|]) + if rest[0].Line? then [rest[0].message] else []
  {
    var n := |wire| - |rest|;
    assert wire[n] == rest[0];
    assert wire[..n + 1][..n] == wire[..n] && wire[..n + 1][n] == rest[0];
  }

  lemma FirstAnswersStay(read: seq<Entry>, e: Entry)
    requires forall i :: 0 <= i < |read| ==> FirstAnswer(read, i)
    requires FirstAnswer(read + [e], |read|)
    ensures forall i :: 0 <= i < |read + [e]| ==> FirstAnswer(read + [e], i)
  {
    forall i | 0 <= i < |read + [e]| ensures FirstAnswer(read + [e], i) {
      if i < |read| { assert FirstAnswer(read, i); }
    }
  }

  lemma QueueConserves(wire: seq<Item>, d: Demux)
    requires Conserves(wire, d) && d.wire != [] && d.wire[0].Line?
    ensures Conserves(wire, Queue(d))
  {
    var m := d.wire[0].message;
    LinesAdvance(wire, d.wire);
    KeptAppend(d.read, Entry(m, None));
    FirstAnswersStay(d.read, Entry(m, None));
    assert d.delivered + (d.pending + [m]) == (d.delivered + d.pending) + [m];
  }

  lemma {:induction false} AnswerConserves(wire: seq<Item>, d: Demux, id: nat, since: nat)
    requires Conserves(wire, d) && d.wire != [] && d.wire[0].Line? && d.wire[0].message.id == Number(id)
    requires since <= |d.read| && forall j :: since <= j < |d.read| ==> d.read[j].message.id != Number(id)
    ensures Conserves(wire, RequestFrom(d, id, since).0)
  {
    var e := Entry(d.wire[0].message, Some(Question(id, since)));
    LinesAdvance(wire, d.wire);
    KeptAppend(d.read, e);
    FirstAnswersStay(d.read, e);
  }

  lemma {:induction false} RequestConserves(wire: seq<Item>, d: Demux, id: nat, since: nat)
    requires Conserves(wire, d)
    requires since <= |d.read| && forall j :: since <= j < |d.read| ==> d.read[j].message.id != Number(id)
    ensures Conserves(wire, RequestFrom(d, id, since).0)
    decreases |d.wire|
  {
    if d.wire != [] {
      LinesAdvance(wire, d.wire);
      if d.wire[0].Line? {
        if d.wire[0].message.id == Number(id) {
          AnswerConserves(wire, d, id, since);
        } else {
          QueueConserves(wire, d);
          RequestConserves(wire, Queue(d), id, since);
        }
      }
    }
  }

  lemma ReadConserves(wire: seq<Item>, d: Demux)
    requires Conserves(wire, d)
    ensures Conserves(wire, Read(d).0)
  {
    if d.pending != [] {
      assert d.delivered + d.pending == (d.delivered + [d.pending[0]]) + d.pending[1..];
    } else if d.wire != [] {
      LinesAdvance(wire, d.wire);
      if d.wire[0].Line? {
        var e := Entry(d.wire[0].message, None);
        KeptAppend(d.read, e);
        FirstAnswersStay(d.read, e);
        assert d.delivered + d.pending == d.delivered;
        assert d.delivered + [e.message] + [] == d.delivered + [e.message];
      }
    }
  }

  datatype Op = DoRequest(id: nat) | DoRead

  function Apply(d: Demux, op: Op): Demux {
    match op
    case DoRequest(id) => Request(d, id).0
    case DoRead => Read(d).0
  }

  function ApplyAll(d: Demux, ops: seq<Op>): Demux
    decreases |ops|
  {
    if ops == [] then d else ApplyAll(Apply(d, ops[0]), ops[1..])
  }

  lemma {:induction false} AllConserve(wire: seq<Item>, d: Demux, ops: seq<Op>)
    requires Conserves(wire, d)
    ensures Conserves(wire, ApplyAll(d, ops))
    decreases |ops|
  {
    if ops != [] {
      if ops[0].DoRequest? { RequestConserves(wire, d, ops[0].id, |d.read|); } else { ReadConserves(wire, d); }
      AllConserve(wire, Apply(d, ops[0]), ops[1..]);
    }
  }

  // For every wire and every interleaving of requests and reads: what was delivered, followed by
  // the queue, is the stream read so far without the answers, in order; and each answer is the
  // first message with the request's id that was read after the request.
  lemma {:induction false} Conservation(wire: seq<Item>, ops: seq<Op>)
    ensures Conserves(wire, ApplyAll(NewDemux(wire), ops))
  {
    assert wire[..0] == [] && wire[0..] == wire;
    AllConserve(wire, NewDemux(wire), ops);
  }

  // A read hands out the oldest message that is queued, or the next of the wire, and hands out exactly
  // what it records as delivered; only with nothing queued does it meet a failing line or the end.
  lemma ReadHandsOut(d: Demux)
    ensures var (d', r) := Read(d);
            && (r.Ok? ==> d'.delivered == d.delivered + [r.value])
            && (r.Err? ==> d'.delivered == d.delivered && d.pending == [])
            && (d.pending != [] ==> r == Ok(d.pending[0]) && d'.wire == d.wire && d'.pending == d.pending[1..])
            && (d.pending == [] && d.wire != [] ==>
                  r == if d.wire[0].Line? then Ok(d.wire[0].message) else Err(d.wire[0].failure))
            && (d.pending == [] && d.wire == [] ==> r == Err(Exited))
  {
  }
}
