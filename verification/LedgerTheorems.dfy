/** Invariants of the send ledger over every sequence of reservations and completions, exactness of
    its eviction, and what deduplication promises.  */
module LedgerTheorems {
  import opened Wrappers
  import opened LedgerModel

  // --- sums over the entries ---------------------------------------------------------------

  ghost function Total(entries: map<Key, Entry>): nat {
    if entries == map[] then 0
    else
      var k :| k in entries;
      entries[k].bytes + Total(entries - {k})
  }

  lemma {:induction false} TotalRemove(entries: map<Key, Entry>, k: Key)
    requires k in entries
    ensures Total(entries) == entries[k].bytes + Total(entries - {k})
    decreases |entries|
  {
    var p :| p in entries && Total(entries) == entries[p].bytes + Total(entries - {p});
    if p != k {
      TotalRemove(entries - {p}, k);
      TotalRemove(entries - {k}, p);
      assert entries - {p} - {k} == entries - {k} - {p};
    }
  }

  lemma {:induction false} TotalInsert(entries: map<Key, Entry>, k: Key, e: Entry)
    requires k !in entries
    ensures Total(entries[k := e]) == Total(entries) + e.bytes
  {
    TotalRemove(entries[k := e], k);
    assert entries[k := e] - {k} == entries;
  }

  // --- the invariant -----------------------------------------------------------------------

  ghost predicate Distinct(s: seq<Key>) {
    forall i, j :: 0 <= i < j < |s| ==> s[i] != s[j]
  }

  ghost predicate Finished(l: Ledger, k: Key)
    requires k in l.entries
  {
    l.entries[k].id in l.terminals
  }

  ghost function InFlight(l: Ledger): set<Key> {
    set k | k in l.entries && !Finished(l, k)
  }

  ghost predicate Sums(l: Ledger) {
    l.retained == Total(l.entries) <= MAX_OWNED_SEND_BYTES && |l.entries| <= MAX_OWNED_SENDS
  }

  ghost predicate Counts(l: Ledger) {
    l.inflight == |InFlight(l)|
  }

  ghost predicate Queued(l: Ledger) {
    Distinct(l.fifo) && forall k :: k in l.fifo <==> k in l.entries && Finished(l, k)
  }

  // Entries are what was issued for their key; an unfinished issue is still the entry of its key;
  // of two issues of one key the earlier has finished.
  ghost predicate Owned(l: Ledger) {
    && (forall k :: k in l.entries ==>
          l.entries[k].id < |l.issued| && l.issued[l.entries[k].id] == Issue(k, l.entries[k].bytes))
    && (forall i :: 0 <= i < |l.issued| && i !in l.terminals ==> Holds(l, i))
    && (forall i :: i in l.terminals ==> i < |l.issued|)
    && (forall i, j :: 0 <= i < j < |l.issued| && l.issued[i].key == l.issued[j].key ==> i in l.terminals)
  }

  ghost predicate Holds(l: Ledger, i: nat)
    requires i < |l.issued|
  {
    var k := l.issued[i].key;
    k in l.entries && l.entries[k] == Entry(i, l.issued[i].bytes)
  }

  ghost predicate Valid(l: Ledger) {
    Sums(l) && Counts(l) && Queued(l) && Owned(l)
  }

  // --- eviction ----------------------------------------------------------------------------

  ghost function Elements(s: seq<Key>): set<Key> {
    set k | k in s
  }

  // The ledger after removing the first `n` finished entries, whatever removed them.
  ghost function Without(l: Ledger, n: nat): Ledger
    requires n <= |l.fifo|
  {
    var kept := l.entries - Elements(l.fifo[..n]);
    l.(fifo := l.fifo[n..], entries := kept, retained := Total(kept))
  }

  ghost predicate RoomAfter(l: Ledger, n: nat, bytes: nat)
    requires n <= |l.fifo|
  {
    var kept := l.entries - Elements(l.fifo[..n]);
    |kept| < MAX_OWNED_SENDS && Total(kept) + bytes <= MAX_OWNED_SEND_BYTES
  }

  lemma RemoveCount(m: map<Key, Entry>, k: Key)
    requires k in m
    ensures |m - {k}| == |m| - 1
  {
    assert (m - {k}).Keys == m.Keys - {k};
  }

  lemma {:induction false} FrontIsWithout(l: Ledger)
    requires l.fifo != [] && l.fifo[0] in l.entries && l.retained == Total(l.entries)
    ensures EvictFront(l) == Without(l, 1) && EvictFront(l).entries == l.entries - {l.fifo[0]}
  {
    TotalRemove(l.entries, l.fifo[0]);
    assert Elements(l.fifo[..1]) == {l.fifo[0]};
  }

  lemma SubtractTwice(m: map<Key, Entry>, a: set<Key>, b: set<Key>)
    ensures m - a - b == m - (a + b)
  {
  }

  lemma ElementsSplit(s: seq<Key>, n: nat)
    requires n < |s|
    ensures Elements(s[..n + 1]) == Elements(s[..1]) + Elements(s[1..][..n])
  {
    assert s[..n + 1] == s[..1] + s[1..][..n];
  }

  lemma WithoutShift(l: Ledger, n: nat)
    requires l.fifo != [] && n < |l.fifo|
    ensures Without(Without(l, 1), n) == Without(l, n + 1)
  {
    var rest := l.fifo[1..];
    ElementsSplit(l.fifo, n);
    SubtractTwice(l.entries, Elements(l.fifo[..1]), Elements(rest[..n]));
    assert Without(l, 1).fifo == rest && rest[n..] == l.fifo[n + 1..];
  }

  lemma {:induction false} WithoutNone(l: Ledger)
    requires l.retained == Total(l.entries)
    ensures Without(l, 0) == l
  {
    assert l.fifo[..0] == [] && l.fifo[0..] == l.fifo;
    assert l.entries - Elements([]) == l.entries;
  }

  // The queue's first `n` entries evicted one by one.
  function Drop(l: Ledger, n: nat): Ledger
    requires n <= |l.fifo|
    decreases n
  {
    if n == 0 then l else Drop(EvictFront(l), n - 1)
  }

  predicate Fits(l: Ledger, bytes: nat) { HasRoom(|l.entries|, l.retained, bytes) }

  lemma {:induction false} EvictIsDrop(l: Ledger, bytes: nat) returns (n: nat)
    ensures n <= |l.fifo| && Evict(l, bytes) == Drop(l, n)
    ensures forall m :: 0 <= m < n ==> !Fits(Drop(l, m), bytes)
    ensures n == |l.fifo| || Fits(Drop(l, n), bytes)
    decreases |l.fifo|
  {
    if Fits(l, bytes) || l.fifo == [] {
      n := 0;
    } else {
      var rest := EvictIsDrop(EvictFront(l), bytes);
      n := rest + 1;
      forall m | 0 <= m < n ensures !Fits(Drop(l, m), bytes) {
        if m > 0 { assert Drop(l, m) == Drop(EvictFront(l), m - 1); }
      }
    }
  }

  // What one eviction after the other needs of the ledger to be a plain removal.
  ghost predicate Evictable(l: Ledger) {
    l.retained == Total(l.entries) && Distinct(l.fifo) && forall i :: 0 <= i < |l.fifo| ==> l.fifo[i] in l.entries
  }

  lemma FrontEvictable(l: Ledger)
    requires Evictable(l) && l.fifo != []
    ensures Evictable(EvictFront(l)) && EvictFront(l) == Without(l, 1)
  {
    FrontIsWithout(l);
    var l' := EvictFront(l);
    forall i | 0 <= i < |l'.fifo| ensures l'.fifo[i] in l'.entries {
      assert l'.fifo[i] == l.fifo[i + 1] && l.fifo[0] != l.fifo[i + 1];
    }
    forall i, j | 0 <= i < j < |l'.fifo| ensures l'.fifo[i] != l'.fifo[j] {
      assert l.fifo[i + 1] != l.fifo[j + 1];
    }
  }

  lemma {:induction false} DropIsWithout(l: Ledger, n: nat)
    requires Evictable(l) && n <= |l.fifo|
    ensures Drop(l, n) == Without(l, n)
    decreases n
  {
    if n == 0 {
      WithoutNone(l);
    } else {
      FrontEvictable(l);
      calc {
        Drop(l, n);
        Drop(EvictFront(l), n - 1);
        { DropIsWithout(EvictFront(l), n - 1); }
        Without(EvictFront(l), n - 1);
        { FrontThenWithout(l, n); }
        Without(l, n);
      }
    }
  }

  lemma FrontThenWithout(l: Ledger, n: nat)
    requires 0 < n <= |l.fifo| && EvictFront(l) == Without(l, 1)
    ensures Without(EvictFront(l), n - 1) == Without(l, n)
  {
    WithoutShift(l, n - 1);
  }

  lemma ValidEvictable(l: Ledger)
    requires Sums(l) && Queued(l)
    ensures Evictable(l)
  {
    forall i | 0 <= i < |l.fifo| ensures l.fifo[i] in l.entries { assert l.fifo[i] in l.fifo; }
  }

  lemma {:induction false} FitsIsRoom(l: Ledger, n: nat, bytes: nat)
    requires Evictable(l) && n <= |l.fifo|
    ensures Fits(Drop(l, n), bytes) == RoomAfter(l, n, bytes)
  {
    DropIsWithout(l, n);
  }

  lemma WithoutSums(l: Ledger, n: nat)
    requires Sums(l) && n <= |l.fifo|
    ensures Sums(Without(l, n))
  {
    TotalMonotone(Without(l, n).entries, l.entries);
  }

  lemma WithoutCounts(l: Ledger, n: nat)
    requires Counts(l) && Queued(l) && n <= |l.fifo|
    ensures Counts(Without(l, n))
  {
    forall k | k in InFlight(l) ensures k !in Elements(l.fifo[..n]) { assert k !in l.fifo; }
    assert InFlight(Without(l, n)) == InFlight(l);
  }

  lemma WithoutQueued(l: Ledger, n: nat)
    requires Queued(l) && n <= |l.fifo|
    ensures Queued(Without(l, n))
  {
    var l' := Without(l, n);
    assert l.fifo == l.fifo[..n] + l.fifo[n..];
    forall k ensures k in l'.fifo <==> k in l'.entries && Finished(l', k) {
      assert k in l.fifo <==> k in l.fifo[..n] || k in l.fifo[n..];
      assert !(k in l.fifo[..n] && k in l.fifo[n..]);
    }
  }

  lemma WithoutOwned(l: Ledger, n: nat)
    requires Owned(l) && Queued(l) && n <= |l.fifo|
    ensures Owned(Without(l, n))
  {
    var l' := Without(l, n);
    forall i | 0 <= i < |l'.issued| && i !in l'.terminals ensures Holds(l', i) {
      assert Holds(l, i) && l.issued[i].key !in l.fifo;
    }
  }

  lemma WithoutValid(l: Ledger, n: nat)
    requires Valid(l) && n <= |l.fifo|
    ensures Valid(Without(l, n))
  {
    WithoutSums(l, n);
    WithoutCounts(l, n);
    WithoutQueued(l, n);
    WithoutOwned(l, n);
  }

  lemma {:induction false} EvictsPrefix(l: Ledger, bytes: nat) returns (n: nat)
    requires Evictable(l)
    ensures n <= |l.fifo| && Evict(l, bytes) == Without(l, n)
    ensures forall m :: 0 <= m < n ==> !RoomAfter(l, m, bytes)
    ensures n == |l.fifo| || RoomAfter(l, n, bytes)
    ensures Fits(Evict(l, bytes), bytes) == RoomAfter(l, n, bytes)
  {
    n := EvictIsDrop(l, bytes);
    DropIsWithout(l, n);
    FitsIsRoom(l, n, bytes);
    forall m | 0 <= m < n ensures !RoomAfter(l, m, bytes) { FitsIsRoom(l, m, bytes); }
  }

  // Eviction removes the shortest prefix of the finished entries that makes room, or all of them,
  // and keeps the invariant.
  lemma {:induction false} EvictsShortestPrefix(l: Ledger, bytes: nat) returns (n: nat)
    requires Valid(l)
    ensures Valid(Evict(l, bytes))
    ensures n <= |l.fifo| && Evict(l, bytes) == Without(l, n)
    ensures forall m :: 0 <= m < n ==> !RoomAfter(l, m, bytes)
    ensures n == |l.fifo| || RoomAfter(l, n, bytes)
  {
    ValidEvictable(l);
    n := EvictsPrefix(l, bytes);
    WithoutValid(l, n);
  }

  // Evicting everything that is finished leaves exactly the entries in flight.
  lemma AllEvicted(l: Ledger)
    requires Valid(l)
    ensures Without(l, |l.fifo|).entries == map k | k in InFlight(l) :: l.entries[k]
  {
    assert l.fifo[..|l.fifo|] == l.fifo;
    forall k | k in l.entries ensures k in Elements(l.fifo) <==> k !in InFlight(l) { }
  }

  // A new request is refused exactly when the entries in flight alone leave no room for it.
  lemma {:induction false} RefusedOnlyByInFlight(l: Ledger, key: Key, bytes: nat)
    requires Valid(l) && key !in l.entries
    ensures var flying := map k | k in InFlight(l) :: l.entries[k];
            ReserveIn(l, key, bytes).1 == Refused <==>
              |flying| >= MAX_OWNED_SENDS || Total(flying) + bytes > MAX_OWNED_SEND_BYTES
  {
    ValidEvictable(l);
    var n := RefusedAt(l, key, bytes);
    FlyingRoom(l, bytes);
    if n < |l.fifo| { RoomGrows(l, n, |l.fifo|, bytes); }
  }

  lemma RefusedAt(l: Ledger, key: Key, bytes: nat) returns (n: nat)
    requires Evictable(l) && key !in l.entries
    ensures n <= |l.fifo| && (n == |l.fifo| || RoomAfter(l, n, bytes))
    ensures ReserveIn(l, key, bytes).1 == Refused <==> !RoomAfter(l, n, bytes)
  {
    n := EvictsPrefix(l, bytes);
  }

  lemma {:induction false} FlyingRoom(l: Ledger, bytes: nat)
    requires Valid(l)
    ensures var flying := map k | k in InFlight(l) :: l.entries[k];
            RoomAfter(l, |l.fifo|, bytes) <==>
              |flying| < MAX_OWNED_SENDS && Total(flying) + bytes <= MAX_OWNED_SEND_BYTES
  {
    AllEvicted(l);
  }

  lemma RoomGrows(l: Ledger, m: nat, n: nat, bytes: nat)
    requires m <= n <= |l.fifo| && RoomAfter(l, m, bytes)
    ensures RoomAfter(l, n, bytes)
  {
    var a, b := l.entries - Elements(l.fifo[..m]), l.entries - Elements(l.fifo[..n]);
    assert forall k :: k in l.fifo[..m] ==> k in l.fifo[..n];
    TotalMonotone(b, a);
  }

  lemma {:induction false} TotalMonotone(small: map<Key, Entry>, big: map<Key, Entry>)
    requires small.Keys <= big.Keys && forall k :: k in small ==> small[k] == big[k]
    ensures Total(small) <= Total(big) && |small| <= |big|
    decreases |big|
  {
    if small == map[] {
    } else {
      var k :| k in small;
      TotalRemove(small, k);
      TotalRemove(big, k);
      assert |big - {k}| < |big| by { assert (big - {k}).Keys == big.Keys - {k}; }
      assert (small - {k}).Keys == small.Keys - {k};
      TotalMonotone(small - {k}, big - {k});
    }
  }

  // --- every operation keeps the invariant -------------------------------------------------

  lemma InsertSums(l: Ledger, key: Key, bytes: nat)
    requires Sums(l) && key !in l.entries && HasRoom(|l.entries|, l.retained, bytes)
    ensures Sums(Insert(l, key, bytes))
  {
    var e := Entry(|l.issued|, bytes);
    TotalInsert(l.entries, key, e);
    RemoveCount(l.entries[key := e], key);
    assert l.entries[key := e] - {key} == l.entries;
  }

  lemma InsertCounts(l: Ledger, key: Key, bytes: nat)
    requires Counts(l) && key !in l.entries && |l.issued| !in l.terminals
    ensures Counts(Insert(l, key, bytes))
  {
    assert InFlight(Insert(l, key, bytes)) == InFlight(l) + {key};
  }

  lemma InsertQueued(l: Ledger, key: Key, bytes: nat)
    requires Queued(l) && key !in l.entries && |l.issued| !in l.terminals
    ensures Queued(Insert(l, key, bytes))
  {
  }

  lemma InsertOwned(l: Ledger, key: Key, bytes: nat)
    requires Owned(l) && key !in l.entries
    ensures Owned(Insert(l, key, bytes))
  {
    var l' := Insert(l, key, bytes);
    forall i | 0 <= i < |l'.issued| && i !in l'.terminals ensures Holds(l', i) {
      if i < |l.issued| { assert Holds(l, i); }
    }
    forall i | 0 <= i < |l.issued| && i !in l.terminals ensures l.issued[i].key in l.entries { assert Holds(l, i); }
  }

  lemma ReserveValid(l: Ledger, key: Key, bytes: nat)
    requires Valid(l)
    ensures Valid(ReserveIn(l, key, bytes).0)
  {
    if key !in l.entries {
      var n := EvictsShortestPrefix(l, bytes);
      var room := Evict(l, bytes);
      if HasRoom(|room.entries|, room.retained, bytes) {
        InsertSums(room, key, bytes);
        InsertCounts(room, key, bytes);
        InsertQueued(room, key, bytes);
        InsertOwned(room, key, bytes);
      }
    }
  }

  // The finished entry is no longer in flight, whether it is kept or dropped.
  lemma FinishCounts(l: Ledger, id: nat, t: Terminal)
    requires Counts(l) && Owned(l) && id < |l.issued| && id !in l.terminals
    ensures Counts(FinishIn(l, l.issued[id].key, Entry(id, l.issued[id].bytes), t))
  {
    var key := l.issued[id].key;
    var l' := FinishIn(l, key, Entry(id, l.issued[id].bytes), t);
    assert Holds(l, id) && key in InFlight(l);
    forall k | k in l.entries && l.entries[k].id == id ensures k == key { }
    assert InFlight(l') == InFlight(l) - {key};
  }

  lemma FinishOwned(l: Ledger, id: nat, t: Terminal)
    requires Owned(l) && id < |l.issued| && id !in l.terminals
    ensures Owned(FinishIn(l, l.issued[id].key, Entry(id, l.issued[id].bytes), t))
  {
    var l' := FinishIn(l, l.issued[id].key, Entry(id, l.issued[id].bytes), t);
    assert Holds(l, id);
    forall i | 0 <= i < |l'.issued| && i !in l'.terminals ensures Holds(l', i) { assert Holds(l, i); }
  }

  lemma FinishSums(l: Ledger, id: nat, t: Terminal)
    requires Sums(l) && id < |l.issued| && Holds(l, id)
    ensures Sums(FinishIn(l, l.issued[id].key, Entry(id, l.issued[id].bytes), t))
  {
    TotalRemove(l.entries, l.issued[id].key);
    RemoveCount(l.entries, l.issued[id].key);
  }

  lemma FinishQueued(l: Ledger, id: nat, t: Terminal)
    requires Queued(l) && Owned(l) && id < |l.issued| && id !in l.terminals
    ensures Queued(FinishIn(l, l.issued[id].key, Entry(id, l.issued[id].bytes), t))
  {
    var key := l.issued[id].key;
    assert Holds(l, id) && key !in l.fifo;
    forall k | k in l.entries && l.entries[k].id == id ensures k == key { }
  }

  // The same, in the form a method that has no use for the invariant itself calls.
  lemma ReserveKeeps(l: Ledger, key: Key, bytes: nat)
    ensures Valid(l) ==> Valid(ReserveIn(l, key, bytes).0)
  {
    if Valid(l) { ReserveValid(l, key, bytes); }
  }

  lemma FinishKeeps(l: Ledger, id: nat, t: Terminal)
    requires id < |l.issued| && id !in l.terminals
    ensures Valid(l) ==> Valid(FinishIn(l, l.issued[id].key, Entry(id, l.issued[id].bytes), t))
  {
    if Valid(l) {
      assert Holds(l, id);
      FinishSums(l, id, t);
      FinishCounts(l, id, t);
      FinishQueued(l, id, t);
      FinishOwned(l, id, t);
    }
  }

  // --- runs --------------------------------------------------------------------------------

  // A reservation by anyone, or the completion of an entry by its owner, who finishes once.
  datatype Op = Reserve(key: Key, bytes: nat) | Finish(id: nat, terminal: Terminal)

  function Apply(l: Ledger, op: Op): Option<Ledger> {
    match op
    case Reserve(key, bytes) => Some(ReserveIn(l, key, bytes).0)
    case Finish(id, t) =>
      if id >= |l.issued| || id in l.terminals then None
      else Some(FinishIn(l, l.issued[id].key, Entry(id, l.issued[id].bytes), t))
  }

  function Run(l: Ledger, ops: seq<Op>): Option<Ledger>
    decreases |ops|
  {
    if ops == [] then Some(l)
    else if Apply(l, ops[0]).None? then None
    else Run(Apply(l, ops[0]).value, ops[1..])
  }

  // Nothing that was issued or written is ever taken back.
  ghost predicate Extends(l: Ledger, l': Ledger) {
    && l.issued <= l'.issued
    && (forall i :: i in l.terminals ==> i in l'.terminals && l'.terminals[i] == l.terminals[i])
  }

  lemma {:induction false} EvictExtends(l: Ledger, bytes: nat)
    ensures Evict(l, bytes).issued == l.issued && Evict(l, bytes).terminals == l.terminals
    decreases |l.fifo|
  {
    if !(HasRoom(|l.entries|, l.retained, bytes) || l.fifo == []) { EvictExtends(EvictFront(l), bytes); }
  }

  lemma ApplyExtends(l: Ledger, op: Op)
    requires Apply(l, op).Some?
    ensures Extends(l, Apply(l, op).value)
  {
    if op.Reserve? { EvictExtends(l, op.bytes); }
  }

  lemma ApplyValid(l: Ledger, op: Op)
    requires Valid(l) && Apply(l, op).Some?
    ensures Valid(Apply(l, op).value)
  {
    match op
    case Reserve(key, bytes) => ReserveValid(l, key, bytes);
    case Finish(id, t) => FinishKeeps(l, id, t);
  }

  // The accounting holds after every run, and a terminal, once written, is what every waiter of
  // that entry sees for ever.
  lemma {:induction false} RunValid(l: Ledger, ops: seq<Op>)
    requires Valid(l) && Run(l, ops).Some?
    ensures Valid(Run(l, ops).value) && Extends(l, Run(l, ops).value)
    decreases |ops|
  {
    if ops != [] {
      ApplyValid(l, ops[0]);
      ApplyExtends(l, ops[0]);
      RunValid(Apply(l, ops[0]).value, ops[1..]);
    }
  }

  lemma EmptyValid()
    ensures Valid(EMPTY)
  {
    assert InFlight(EMPTY) == {};
  }

  // One operation never has two dispatches at the same time: of two entries issued for one key in
  // any run, the earlier was finished before the later was issued.
  lemma {:induction false} DispatchesNeverOverlap(before: seq<Op>, after: seq<Op>, i: nat, j: nat)
    requires Run(EMPTY, before).Some? && Run(Run(EMPTY, before).value, after).Some?
    requires var l, l' := Run(EMPTY, before).value, Run(Run(EMPTY, before).value, after).value;
             i < |l.issued| <= j < |l'.issued| && l'.issued[j].key == l.issued[i].key
    ensures i in Run(Run(EMPTY, before).value, after).value.terminals
  {
    EmptyValid();
    RunValid(EMPTY, before);
    RunValid(Run(EMPTY, before).value, after);
  }

  // While an entry of the key is retained, whoever reserves that key shares it and the ledger does
  // not change; and no run takes an entry away before its terminal was written.
  lemma {:induction false} RetainedIsShared(before: seq<Op>, key: Key, bytes: nat, after: seq<Op>)
    requires Run(EMPTY, before).Some? && key in Run(EMPTY, before).value.entries
    requires Run(Run(EMPTY, before).value, after).Some?
    ensures var l := Run(EMPTY, before).value;
            var l' := Run(l, after).value;
            && ReserveIn(l, key, bytes) == (l, Existing(l.entries[key].id))
            && (l.entries[key].id !in l'.terminals ==> key in l'.entries && l'.entries[key] == l.entries[key])
  {
    var l := Run(EMPTY, before).value;
    EmptyValid();
    RunValid(EMPTY, before);
    RunValid(l, after);
    var l' := Run(l, after).value;
    var id := l.entries[key].id;
    if id !in l'.terminals { assert Holds(l', id); }
  }

  // --- what the two calls promise their callers --------------------------------------------

  // A fresh handle stands for the entry just inserted, which nobody has finished; a shared one for the
  // entry that is there; a refusal leaves no entry of the key.
  lemma {:induction false} ReserveMeans(l: Ledger, key: Key, bytes: nat)
    requires Valid(l)
    ensures var (l', r) := ReserveIn(l, key, bytes);
            && l'.terminals == l.terminals
            && (match r
                case Existing(id) => l' == l && key in l.entries && l.entries[key].id == id
                case New(id) =>
                  && key !in l.entries && id == |l.issued| && id !in l'.terminals
                  && l'.issued == l.issued + [Issue(key, bytes)]
                  && key in l'.entries && l'.entries[key] == Entry(id, bytes) && l'.inflight == l.inflight + 1
                case Refused => key !in l.entries && key !in l'.entries && l'.issued == l.issued && l'.inflight == l.inflight)
  {
    if key !in l.entries {
      EvictExtends(l, bytes);
      var n := EvictsShortestPrefix(l, bytes);
    }
  }

  // The owner's result is what is stored; the entry stays, last in the queue, exactly when the result
  // fits in what the request was charged, and else it goes.
  lemma {:induction false} FinishMeans(l: Ledger, id: nat, t: Terminal)
    requires Valid(l) && Apply(l, Finish(id, t)).Some?
    ensures var l' := Apply(l, Finish(id, t)).value;
            var key := l.issued[id].key;
            && l'.terminals == l.terminals[id := t] && l'.issued == l.issued && l'.inflight == l.inflight - 1
            && (if TerminalBytes(t) <= l.issued[id].bytes
                then l'.entries == l.entries && l'.fifo == l.fifo + [key] && l'.retained == l.retained && key in l'.entries
                else l'.entries == l.entries - {key} && l'.fifo == l.fifo && l'.retained == l.retained - l.issued[id].bytes)
  {
    assert Holds(l, id);
    var key := l.issued[id].key;
    TotalRemove(l.entries, key);
    assert key in InFlight(l);
  }

  // A failure always fits in what an admitted request was charged.
  lemma FailuresAreRetained(r: Request, t: Terminal)
    requires !t.Sent?
    ensures TerminalBytes(t) <= RequestBytes(r)
  {
  }

  lemma {:induction false} TerminalsFrom(l: Ledger, ops: seq<Op>, id: nat, t: Terminal)
    requires Run(l, ops).Some?
    ensures var l' := Run(l, ops).value;
            id in l'.terminals && l'.terminals[id] == t <==> (id in l.terminals && l.terminals[id] == t) || Finish(id, t) in ops
    decreases |ops|
  {
    if ops != [] {
      var next := Apply(l, ops[0]).value;
      TerminalsFrom(next, ops[1..], id, t);
      TerminalsStep(l, ops[0], id, t);
      if id in l.terminals { FinishedOnce(l, ops, id, t); }
      assert Finish(id, t) in ops <==> ops[0] == Finish(id, t) || Finish(id, t) in ops[1..];
    }
  }

  lemma TerminalsStep(l: Ledger, op: Op, id: nat, t: Terminal)
    requires Apply(l, op).Some?
    ensures var l' := Apply(l, op).value;
            id in l'.terminals && l'.terminals[id] == t <==> (id in l.terminals && l.terminals[id] == t) || op == Finish(id, t)
  {
    if op.Reserve? { EvictExtends(l, op.bytes); }
  }

  lemma {:induction false} FinishedOnce(l: Ledger, ops: seq<Op>, id: nat, t: Terminal)
    requires id in l.terminals && Run(l, ops).Some?
    ensures Finish(id, t) !in ops
    decreases |ops|
  {
    if ops != [] {
      ApplyExtends(l, ops[0]);
      FinishedOnce(Apply(l, ops[0]).value, ops[1..], id, t);
    }
  }

  // In every run, the owner and all waiters of an entry are told `t` exactly when its owner finished
  // it with `t`.
  lemma {:induction false} WaitersHearTheOwner(ops: seq<Op>, id: nat, t: Terminal)
    requires Run(EMPTY, ops).Some?
    ensures var l := Run(EMPTY, ops).value; id in l.terminals && l.terminals[id] == t <==> Finish(id, t) in ops
  {
    TerminalsFrom(EMPTY, ops, id, t);
  }
}
