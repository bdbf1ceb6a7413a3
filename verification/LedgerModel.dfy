/** The values a `SendLedger` works on: requests, responses, stored errors, and the ledger state
    as one record with its two transitions, reserve and finish.  */
module LedgerModel {
  import opened Wrappers

  const MAX_OWNED_SENDS: nat := 64
  const MAX_OWNED_SEND_BYTES: nat := 1024 * 1024
  const OWNED_SEND_FIXED_BYTES: nat := 1024
  const USIZE_MAX: nat := 0xFFFF_FFFF_FFFF_FFFF

  type Text = seq<bv8>

  function SatAdd(a: nat, b: nat): nat { if a + b <= USIZE_MAX then a + b else USIZE_MAX }

  function SatDouble(a: nat): nat { if 2 * a <= USIZE_MAX then 2 * a else USIZE_MAX }

  function SatSub(a: nat, b: nat): nat { if b <= a then a - b else 0 }

  function Length(t: Option<Text>): nat { if t.Some? then |t.value| else 0 }

  // --- requests, responses and their sizes -------------------------------------------------

  datatype Priority = Normal | High

  datatype Request = Request(
    recipient: Text, body: Text, dedupe: Text, priority: Priority, replyTo: Option<Text>, correlation: Option<Text>)

  datatype Message = Message(
    id: Text, squad: Text, sender: Text, recipient: Text, body: Text, priority: Priority,
    replyTo: Option<Text>, correlation: Option<Text>)

  // Bytes reserved for a request and a conservative copy of its terminal response.
  function RequestBytes(r: Request): nat {
    var strings := SatAdd(SatAdd(SatAdd(SatAdd(|r.recipient|, |r.body|), |r.dedupe|), Length(r.replyTo)),
                          Length(r.correlation));
    SatAdd(SatDouble(strings), OWNED_SEND_FIXED_BYTES)
  }

  datatype ClientError =
    | InvalidBaseUrl | InvalidConfiguration | InvalidRequest | MalformedCredential
    | Transport(detail: Text) | OutcomeUnknown | Timeout
    | Api(status: nat, code: nat, retryable: bool)
    | MalformedResponse(status: nat) | ResponseTooLarge | UnexpectedHttp(status: nat) | ClientBusy
    | RetryExhausted(attempts: nat, last: ClientError)

  datatype StoredError =
    | StoredInvalidBaseUrl | StoredInvalidConfiguration | StoredInvalidRequest | StoredMalformedCredential
    | StoredOutcomeUnknown | StoredTimeout
    | StoredApi(status: nat, code: nat, retryable: bool)
    | StoredMalformedResponse(status: nat) | StoredResponseTooLarge | StoredUnexpectedHttp(status: nat)
    | StoredClientBusy
    | StoredRetryExhausted(attempts: nat, last: StoredError)

  function Capture(e: ClientError): StoredError {
    match e
    case InvalidBaseUrl => StoredInvalidBaseUrl
    case InvalidConfiguration => StoredInvalidConfiguration
    case InvalidRequest => StoredInvalidRequest
    case MalformedCredential => StoredMalformedCredential
    case Transport(_) => StoredOutcomeUnknown
    case OutcomeUnknown => StoredOutcomeUnknown
    case Timeout => StoredTimeout
    case Api(status, code, retryable) => StoredApi(status, code, retryable)
    case MalformedResponse(status) => StoredMalformedResponse(status)
    case ResponseTooLarge => StoredResponseTooLarge
    case UnexpectedHttp(status) => StoredUnexpectedHttp(status)
    case ClientBusy => StoredClientBusy
    case RetryExhausted(attempts, last) => StoredRetryExhausted(attempts, Capture(last))
  }

  function Restore(e: StoredError): ClientError {
    match e
    case StoredInvalidBaseUrl => InvalidBaseUrl
    case StoredInvalidConfiguration => InvalidConfiguration
    case StoredInvalidRequest => InvalidRequest
    case StoredMalformedCredential => MalformedCredential
    case StoredOutcomeUnknown => OutcomeUnknown
    case StoredTimeout => Timeout
    case StoredApi(status, code, retryable) => Api(status, code, retryable)
    case StoredMalformedResponse(status) => MalformedResponse(status)
    case StoredResponseTooLarge => ResponseTooLarge
    case StoredUnexpectedHttp(status) => UnexpectedHttp(status)
    case StoredClientBusy => ClientBusy
    case StoredRetryExhausted(attempts, last) => RetryExhausted(attempts, Restore(last))
  }

  // The cause at the bottom of any number of retry wrappers.
  function RootCause(e: ClientError): ClientError {
    if e.RetryExhausted? then RootCause(e.last) else e
  }

  // Every waiter is told exactly what the owner was told, unless a transport error is at the root.
  lemma {:induction false} RestoreCapture(e: ClientError)
    ensures Restore(Capture(e)) == e <==> !RootCause(e).Transport?
    ensures RootCause(e).Transport? ==> RootCause(Restore(Capture(e))) == OutcomeUnknown
  {
    match e
    case RetryExhausted(_, last) => RestoreCapture(last);
    case _ =>
  }

  lemma {:induction false} CaptureRestore(e: StoredError)
    ensures Capture(Restore(e)) == e
  {
    match e
    case StoredRetryExhausted(_, last) => CaptureRestore(last);
    case _ =>
  }

  datatype Terminal = Sent(message: Message) | RelayFailed(error: StoredError) | NotReady

  predicate Echoes(r: Request, squad: Text, m: Message) {
    && m.squad == squad && m.recipient == r.recipient && m.body == r.body && m.priority == r.priority
    && m.replyTo == r.replyTo && m.correlation == r.correlation
  }

  // What the owner of a dispatched send stores.
  function OwnedTerminal(r: Request, squad: Text, outcome: Result<Message, ClientError>): Terminal {
    match outcome
    case Ok(m) => if Echoes(r, squad, m) then Sent(m) else RelayFailed(StoredMalformedResponse(200))
    case Err(e) => RelayFailed(Capture(e))
  }

  // A success is stored exactly for a response that repeats every field of the request and names its
  // squad, and is stored whole; a response that does not is a malformed one, and an error is what its
  // waiters will be told.
  lemma OwnerStores(r: Request, squad: Text, outcome: Result<Message, ClientError>)
    ensures var t := OwnedTerminal(r, squad, outcome);
            && t != NotReady
            && (forall m :: t == Sent(m) <==>
                  && outcome == Ok(m)
                  && m == Message(m.id, squad, m.sender, r.recipient, r.body, r.priority, r.replyTo, r.correlation))
            && (t.RelayFailed? && outcome.Ok? ==> Restore(t.error) == MalformedResponse(200))
            && (outcome.Err? && !RootCause(outcome.error).Transport? ==> t.RelayFailed? && Restore(t.error) == outcome.error)
  {
    if outcome.Err? { RestoreCapture(outcome.error); }
  }

  function TerminalBytes(t: Terminal): nat {
    if !t.Sent? then OWNED_SEND_FIXED_BYTES
    else
      var m := t.message;
      SatAdd(SatAdd(SatAdd(SatAdd(SatAdd(SatAdd(SatAdd(
        OWNED_SEND_FIXED_BYTES, |m.id|), |m.squad|), |m.sender|), |m.recipient|), |m.body|),
        Length(m.replyTo)), Length(m.correlation))
  }

  // For an admitted request: a failure is always retained, and an accepted response exactly when
  // the fields the relay adds fit in what the request was charged twice for.
  lemma RetentionRule(r: Request, squad: Text, outcome: Result<Message, ClientError>)
    requires RequestBytes(r) <= MAX_OWNED_SEND_BYTES
    ensures var t := OwnedTerminal(r, squad, outcome);
            TerminalBytes(t) <= RequestBytes(r) <==>
              (t.Sent? ==>
                 |t.message.id| + |squad| + |t.message.sender| <=
                   2 * |r.dedupe| + |r.recipient| + |r.body| + Length(r.replyTo) + Length(r.correlation))
  {
    var t := OwnedTerminal(r, squad, outcome);
    if t.Sent? {
      var m := t.message;
      var total := OWNED_SEND_FIXED_BYTES + |m.id| + |m.squad| + |m.sender| + |m.recipient| + |m.body|
                   + Length(m.replyTo) + Length(m.correlation);
      assert TerminalBytes(t) == if total <= USIZE_MAX then total else USIZE_MAX;
    }
  }

  // --- ledger state ------------------------------------------------------------------------

  type Key = Text

  // `id` stands for the shared entry object that the owner and all waiters hold.
  datatype Entry = Entry(id: nat, bytes: nat)

  datatype Issue = Issue(key: Key, bytes: nat)

  // `issued` remembers every entry ever created; `terminals` the terminal slots written so far.
  datatype Ledger = Ledger(
    retained: nat, inflight: nat, entries: map<Key, Entry>, fifo: seq<Key>,
    terminals: map<nat, Terminal>, issued: seq<Issue>)

  const EMPTY: Ledger := Ledger(0, 0, map[], [], map[], [])

  datatype Reservation = Existing(id: nat) | New(id: nat) | Refused

  predicate HasRoom(count: nat, retained: nat, bytes: nat) {
    count < MAX_OWNED_SENDS && SatAdd(retained, bytes) <= MAX_OWNED_SEND_BYTES
  }

  function EvictFront(l: Ledger): Ledger
    requires l.fifo != []
  {
    var key := l.fifo[0];
    if key in l.entries then
      l.(fifo := l.fifo[1..], entries := l.entries - {key}, retained := SatSub(l.retained, l.entries[key].bytes))
    else l.(fifo := l.fifo[1..])
  }

  function Evict(l: Ledger, bytes: nat): Ledger
    decreases |l.fifo|
  {
    if HasRoom(|l.entries|, l.retained, bytes) || l.fifo == [] then l else Evict(EvictFront(l), bytes)
  }

  function Insert(l: Ledger, key: Key, bytes: nat): Ledger {
    l.(retained := l.retained + bytes, inflight := l.inflight + 1,
       entries := l.entries[key := Entry(|l.issued|, bytes)], issued := l.issued + [Issue(key, bytes)])
  }

  function ReserveIn(l: Ledger, key: Key, bytes: nat): (Ledger, Reservation) {
    if key in l.entries then (l, Existing(l.entries[key].id))
    else
      var room := Evict(l, bytes);
      if !HasRoom(|room.entries|, room.retained, bytes) then (room, Refused)
      else (Insert(room, key, bytes), New(|room.issued|))
  }

  function FinishIn(l: Ledger, key: Key, entry: Entry, t: Terminal): Ledger {
    var written := l.(terminals := l.terminals[entry.id := t], inflight := SatSub(l.inflight, 1));
    if TerminalBytes(t) <= entry.bytes then written.(fifo := l.fifo + [key])
    else if key in l.entries then written.(entries := l.entries - {key}, retained := SatSub(l.retained, entry.bytes))
    else written
  }
}
