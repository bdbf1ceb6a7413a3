/** The journal file on Unix: write a temporary, sync it, rename it over the target, sync the
    directory.  The file system is changed by system calls alone, and a crash may come between any
    two of them; what it leaves is decided by what was synced.  */
module JournalFile {
  import opened Wrappers
  import opened LeaveJournal

  const MAX_JOURNAL_BYTES: nat := 16 * 1024

  type Bytes = seq<bv8>

  // --- the directory -----------------------------------------------------------------------

  datatype File = File(content: Bytes, synced: bool)

  // `target` is the visible directory entry; `survivors` the entries a crash could bring back.
  datatype Directory = Directory(files: seq<File>, target: Option<nat>, survivors: set<Option<nat>>)

  datatype Syscall =
    | Create
    | Write(file: nat, content: Bytes)
    | SyncFile(file: nat)
    | Rename(file: nat)
    | Unlink
    | SyncDirectory
    | Crash(found: Option<nat>)   // and the entry that came back

  predicate Possible(d: Directory, call: Syscall) {
    match call
    case Write(f, _) => f < |d.files|
    case SyncFile(f) => f < |d.files|
    case Rename(f) => f < |d.files|
    case Crash(found) => found in d.survivors
    case Create | Unlink | SyncDirectory => true
  }

  function Effect(d: Directory, call: Syscall): Directory
    requires Possible(d, call)
  {
    match call
    case Create => d.(files := d.files + [File([], false)])
    case Write(f, content) => d.(files := d.files[f := File(content, false)])
    case SyncFile(f) => d.(files := d.files[f := File(d.files[f].content, true)])
    case Rename(f) => d.(target := Some(f), survivors := d.survivors + {Some(f)})
    case Unlink => d.(target := None, survivors := d.survivors + {None})
    case SyncDirectory => d.(survivors := {d.target})
    case Crash(found) => d.(target := found, survivors := {found})
  }

  // --- what a reader finds -----------------------------------------------------------------

  // The record encoding: whatever is encoded is decoded again, and nothing is decoded from nothing.
  datatype Codec = Codec(encode: Record -> Bytes, decode: Bytes -> Option<Record>)

  ghost predicate Faithful(codec: Codec) {
    codec.decode([]).None? && forall r :: codec.decode(codec.encode(r)) == Some(r)
  }

  // `load_record` on the entry a crash brought back; an unsynced file may hold anything.
  function Load(rules: Rules, codec: Codec, d: Directory, entry: Option<nat>): Result<Option<Record>, ()>
    requires entry.Some? ==> entry.value < |d.files|
  {
    if entry.None? then Ok(None)
    else
      var file := d.files[entry.value];
      if !file.synced || |file.content| == 0 || |file.content| > MAX_JOURNAL_BYTES then Err(())
      else match codec.decode(file.content)
        case None => Err(())
        case Some(r) => if ValidRecord(rules, r) then Ok(Some(r)) else Err(())
  }

  ghost predicate WellFormed(d: Directory) {
    && (d.target.Some? ==> d.target.value < |d.files|)
    && d.target in d.survivors
    && (forall e :: e in d.survivors && e.Some? ==> e.value < |d.files|)
  }

  // What readers can find after a crash.
  ghost function Found(rules: Rules, codec: Codec, d: Directory): set<Result<Option<Record>, ()>>
    requires WellFormed(d)
  {
    set e | e in d.survivors :: Load(rules, codec, d, e)
  }

  ghost function Visible(rules: Rules, codec: Codec, d: Directory): Result<Option<Record>, ()>
    requires WellFormed(d)
  {
    Load(rules, codec, d, d.target)
  }

  // No crash leaves anything but no record or a whole valid one.
  ghost predicate Sound(rules: Rules, codec: Codec, d: Directory) {
    WellFormed(d) && Err(()) !in Found(rules, codec, d)
  }

  // A call that touches no surviving entry changes nothing a reader can find.
  lemma Unseen(rules: Rules, codec: Codec, d: Directory, call: Syscall)
    requires WellFormed(d) && Possible(d, call) && (call.Create? || call.Write? || call.SyncFile?)
    requires !call.Create? ==> Some(call.file) !in d.survivors
    ensures WellFormed(Effect(d, call)) && Found(rules, codec, Effect(d, call)) == Found(rules, codec, d)
    ensures Visible(rules, codec, Effect(d, call)) == Visible(rules, codec, d)
    ensures Effect(d, call).survivors == d.survivors
  {
    assert forall e :: e in d.survivors ==> Load(rules, codec, Effect(d, call), e) == Load(rules, codec, d, e);
  }

  // A call that moves the target adds what the new entry holds to what may be found.
  lemma Moved(rules: Rules, codec: Codec, d: Directory, call: Syscall)
    requires WellFormed(d) && Possible(d, call) && (call.Rename? || call.Unlink?)
    ensures var d' := Effect(d, call);
            && WellFormed(d') && d'.target == (if call.Rename? then Some(call.file) else None)
            && Found(rules, codec, d') == Found(rules, codec, d) + {Load(rules, codec, d, d'.target)}
            && Visible(rules, codec, d') == Load(rules, codec, d, d'.target)
  {
    var d' := Effect(d, call);
    assert forall e :: e in d.survivors ==> Load(rules, codec, d', e) == Load(rules, codec, d, e);
    assert d'.target in d'.survivors;
  }

  // A directory sync, like a crash, leaves one entry only.
  lemma Settled(rules: Rules, codec: Codec, d: Directory, call: Syscall)
    requires WellFormed(d) && Possible(d, call) && (call.SyncDirectory? || call.Crash?)
    ensures var d' := Effect(d, call);
            && WellFormed(d') && Found(rules, codec, d') == {Visible(rules, codec, d')} <= Found(rules, codec, d)
            && (call.SyncDirectory? ==> Visible(rules, codec, d') == Visible(rules, codec, d))
  {
    var d' := Effect(d, call);
    assert Load(rules, codec, d', d'.target) == Load(rules, codec, d, d'.target);
  }

  // --- the journal -------------------------------------------------------------------------

  datatype Stage = TempName | CreateStage | WriteStage | FileSync | Replace | DirectorySync | UnlinkStage

  // An injected fault returns before its stage; a real error comes from the stage itself.
  datatype Failure = NoFailure | Before(stage: Stage) | During(stage: Stage)

  predicate Fails(failure: Failure, stage: Stage) { failure == Before(stage) || failure == During(stage) }

  datatype Operation = Storing(record: Record, partial: nat, failure: Failure) | Removing(failure: Failure)
                     | Crashing(found: Option<nat>)

  class Journal {
    const rules: Rules
    const codec: Codec
    var disk: Directory
    ghost var calls: seq<Syscall>       // every system call so far
    ghost var passed: seq<Directory>    // and every state between two of them

    // The states passed are the effects of the calls one by one, and a crash in any of them is safe.
    ghost predicate Valid()
      reads this
    {
      && Faithful(codec)
      && |passed| == |calls| + 1 && passed[|calls|] == disk
      && (forall i :: 0 <= i < |calls| ==> Possible(passed[i], calls[i]) && passed[i + 1] == Effect(passed[i], calls[i]))
      && (forall i :: 0 <= i < |passed| ==> Sound(rules, codec, passed[i]))
    }

    ghost function Finds(): set<Result<Option<Record>, ()>>
      reads this
      requires WellFormed(disk)
    {
      Found(rules, codec, disk)
    }

    ghost function Sees(): Result<Option<Record>, ()>
      reads this
      requires WellFormed(disk)
    {
      Visible(rules, codec, disk)
    }

    predicate Storable(record: Record) {
      ValidRecord(rules, record) && |codec.encode(record)| <= MAX_JOURNAL_BYTES
    }

    // Every state passed from the `from`th on finds one of these.
    ghost predicate Within(from: nat, allowed: set<Result<Option<Record>, ()>>)
      reads this
    {
      forall i :: from <= i < |passed| ==> WellFormed(passed[i]) && Found(rules, codec, passed[i]) <= allowed
    }

    constructor (rules: Rules, codec: Codec, disk: Directory)
      requires Faithful(codec) && Sound(rules, codec, disk)
      ensures Valid() && this.disk == disk && calls == [] && this.rules == rules && this.codec == codec
    {
      this.rules, this.codec, this.disk, calls, passed := rules, codec, disk, [], [disk];
    }

    method Issue(call: Syscall, ghost from: nat, ghost allowed: set<Result<Option<Record>, ()>>)
      requires Valid() && Possible(disk, call) && Sound(rules, codec, Effect(disk, call))
      requires Within(from, allowed) && Found(rules, codec, Effect(disk, call)) <= allowed
      modifies this
      ensures Valid() && disk == Effect(old(disk), call) && Within(from, allowed)
      ensures calls == old(calls) + [call] && passed == old(passed) + [disk]
    {
      disk := Effect(disk, call);
      calls, passed := calls + [call], passed + [disk];
    }

    // A call no reader can notice.
    method IssueUnseen(call: Syscall, ghost from: nat, ghost allowed: set<Result<Option<Record>, ()>>)
      requires Valid() && Possible(disk, call) && (call.Create? || call.Write? || call.SyncFile?)
      requires !call.Create? ==> Some(call.file) !in disk.survivors
      requires Within(from, allowed) && Finds() <= allowed
      modifies this
      ensures Valid() && disk == Effect(old(disk), call) && Within(from, allowed) && passed == old(passed) + [disk]
      ensures Finds() == old(Finds()) && Sees() == old(Sees()) && disk.survivors == old(disk.survivors)
    {
      Unseen(rules, codec, disk, call);
      Issue(call, from, allowed);
    }

    // The temporary file: created exclusively, written, synced.  No reader can find it.
    method WriteTemporary(bytes: Bytes, partial: nat, failure: Failure) returns (temp: Option<nat>)
      requires Valid() && partial <= |bytes|
      modifies this
      ensures Valid() && old(passed) <= passed && Within(|old(passed)|, old(Finds()))
      ensures temp.None? <==> failure != NoFailure && failure.stage in {TempName, CreateStage, WriteStage, FileSync}
      ensures Sees() == old(Sees()) && Finds() == old(Finds()) && disk.survivors == old(disk.survivors)
      ensures temp.Some? ==> temp.value < |disk.files| && disk.files[temp.value] == File(bytes, true)
    {
      ghost var from, allowed := |passed|, Finds();
      if Fails(failure, TempName) || Fails(failure, CreateStage) { return None; }
      var id := |disk.files|;
      IssueUnseen(Create, from, allowed);
      if failure == Before(WriteStage) { return None; }
      IssueUnseen(Write(id, if failure == During(WriteStage) then bytes[..partial] else bytes), from, allowed);
      if failure == During(WriteStage) || Fails(failure, FileSync) { return None; }
      IssueUnseen(SyncFile(id), from, allowed);
      return Some(id);
    }

    // The temporary file becomes the target, and then does so durably.
    method ReplaceTarget(temp: nat, record: Record, failure: Failure) returns (ok: bool)
      requires Valid() && temp < |disk.files| && Load(rules, codec, disk, Some(temp)) == Ok(Some(record))
      modifies this
      ensures Valid() && old(passed) <= passed && Within(|old(passed)|, old(Finds()) + {Ok(Some(record))})
      ensures ok <==> !Fails(failure, Replace) && !Fails(failure, DirectorySync)
      ensures ok ==> Sees() == Ok(Some(record)) && Finds() == {Ok(Some(record))}
      ensures !ok && !Fails(failure, DirectorySync) ==> disk == old(disk)
      ensures Fails(failure, DirectorySync) ==> Sees() == Ok(Some(record)) && Finds() == old(Finds()) + {Ok(Some(record))}
    {
      ghost var from, allowed := |passed|, Finds() + {Ok(Some(record))};
      if Fails(failure, Replace) { return false; }
      Moved(rules, codec, disk, Rename(temp));
      Issue(Rename(temp), from, allowed);
      if Fails(failure, DirectorySync) { return false; }
      Settled(rules, codec, disk, SyncDirectory);
      Issue(SyncDirectory, from, allowed);
      return true;
    }

    // `store_unix` of an encoded record.
    method StoreUnix(record: Record, bytes: Bytes, partial: nat, failure: Failure) returns (ok: bool)
      requires Valid() && partial <= |bytes| && bytes == codec.encode(record)
      requires ValidRecord(rules, record) && |bytes| <= MAX_JOURNAL_BYTES
      modifies this
      ensures Valid() && old(passed) <= passed
      ensures Within(|old(passed)|, old(Finds()) + {Ok(Some(record))})
      ensures ok <==> failure == NoFailure || failure.stage == UnlinkStage
      ensures ok ==> Sees() == Ok(Some(record)) && Finds() == {Ok(Some(record))}
      ensures !ok && failure.stage != DirectorySync ==> Sees() == old(Sees()) && Finds() == old(Finds())
      ensures !ok && failure.stage == DirectorySync ==>
                Sees() == Ok(Some(record)) && Finds() == old(Finds()) + {Ok(Some(record))}
    {
      var temp := WriteTemporary(bytes, partial, failure);
      if temp.None? { return false; }
      ok := ReplaceTarget(temp.value, record, failure);
    }

    // `store_with_fault`: nothing is touched for a record that does not validate or does not fit.
    method Store(record: Record, partial: nat, failure: Failure) returns (ok: bool)
      requires Valid()
      modifies this
      ensures Valid() && old(passed) <= passed
      ensures Within(|old(passed)|, old(Finds()) + {Ok(Some(record))})
      ensures ok <==> Storable(record) && (failure == NoFailure || failure.stage == UnlinkStage)
      ensures ok ==> Sees() == Ok(Some(record)) && Finds() == {Ok(Some(record))}
      ensures !ok ==> if Storable(record) && Fails(failure, DirectorySync)
                      then Sees() == Ok(Some(record)) && Finds() == old(Finds()) + {Ok(Some(record))}
                      else Sees() == old(Sees()) && Finds() == old(Finds())
      ensures !Storable(record) ==> passed == old(passed)
    {
      var bytes := codec.encode(record);
      if !Storable(record) { return false; }
      ok := StoreUnix(record, bytes, if partial <= |bytes| then partial else |bytes|, failure);
    }

    // `remove_with_fault`.
    method Remove(failure: Failure) returns (ok: bool)
      requires Valid()
      modifies this
      ensures Valid() && old(passed) <= passed && Within(|old(passed)|, old(Finds()) + {Ok(None)})
      ensures ok <==> (failure != Before(UnlinkStage) &&
                       (old(disk).target.None? || !(Fails(failure, UnlinkStage) || Fails(failure, DirectorySync))))
      ensures ok ==> Sees() == Ok(None)
      ensures !ok && !(old(disk).target.Some? && Fails(failure, DirectorySync)) ==> disk == old(disk)
      ensures old(disk).target.None? ==> disk == old(disk)
      ensures old(disk).target.Some? && Fails(failure, DirectorySync) ==>
                !ok && Sees() == Ok(None) && Finds() == old(Finds()) + {Ok(None)}
      // The removal an Ok reports is durable exactly when this call did it, or nothing was there to come back.
      ensures ok ==> (Finds() == {Ok(None)} <==> old(Sees()) != Ok(None) || old(Finds()) == {Ok(None)})
    {
      ghost var from, allowed := |passed|, Finds() + {Ok(None)};
      if failure == Before(UnlinkStage) { return false; }
      if disk.target.None? { return true; }
      if failure == During(UnlinkStage) { return false; }
      assert Sees() in Finds();
      Moved(rules, codec, disk, Unlink);
      Issue(Unlink, from, allowed);
      if Fails(failure, DirectorySync) { return false; }
      Settled(rules, codec, disk, SyncDirectory);
      Issue(SyncDirectory, from, allowed);
      return true;
    }

    // The machine stops and comes back with one of the surviving entries.
    method CrashTo(found: Option<nat>)
      requires Valid() && found in disk.survivors
      modifies this
      ensures Valid() && old(passed) <= passed && Finds() == {Sees()} <= old(Finds())
      ensures Within(|old(passed)|, old(Finds()))
    {
      ghost var from, allowed := |passed|, Finds();
      Settled(rules, codec, disk, Crash(found));
      Issue(Crash(found), from, allowed);
    }

    method StoreWithin(record: Record, partial: nat, failure: Failure, ghost allowed: set<Result<Option<Record>, ()>>)
      requires Valid() && Finds() <= allowed && Ok(Some(record)) in allowed
      modifies this
      ensures Valid() && old(passed) <= passed && Finds() <= allowed && Within(|old(passed)|, allowed)
    {
      var _ := Store(record, partial, failure);
    }

    method RemoveWithin(failure: Failure, ghost allowed: set<Result<Option<Record>, ()>>)
      requires Valid() && Finds() <= allowed && Ok(None) in allowed
      modifies this
      ensures Valid() && old(passed) <= passed && Finds() <= allowed && Within(|old(passed)|, allowed)
    {
      var _ := Remove(failure);
    }

    method Perform(operation: Operation, ghost allowed: set<Result<Option<Record>, ()>>)
      requires Valid() && Finds() <= allowed && Ok(None) in allowed
      requires operation.Storing? ==> Ok(Some(operation.record)) in allowed
      modifies this
      ensures Valid() && old(passed) <= passed && Finds() <= allowed && Within(|old(passed)|, allowed)
    {
      match operation {
        case Storing(record, partial, failure) => StoreWithin(record, partial, failure, allowed);
        case Removing(failure) => RemoveWithin(failure, allowed);
        case Crashing(found) => if found in disk.survivors { CrashTo(found); }
      }
    }

    // Any sequence of stores, removals and crashes, with a fault at any stage of any of them: in
    // every state passed, a crash leaves no record or a whole valid one, and only one that was
    // there at the beginning or was stored since.
    method PerformAll(operations: seq<Operation>)
      requires Valid()
      modifies this
      ensures Valid() && old(passed) <= passed
      ensures Within(|old(passed)|, old(Finds()) + {Ok(None)} + StoredBy(operations))
    {
      ghost var allowed := old(Finds()) + {Ok(None)} + StoredBy(operations);
      for k := 0 to |operations|
        invariant Valid() && old(passed) <= passed && Finds() <= allowed && Within(|old(passed)|, allowed)
      {
        ghost var before := |passed|;
        assert operations[k] in operations;
        Perform(operations[k], allowed);
        assert Within(before, allowed);
      }
    }
  }

  ghost function StoredBy(operations: seq<Operation>): set<Result<Option<Record>, ()>> {
    set o | o in operations && o.Storing? :: Ok(Some(o.record))
  }

  // What a sound directory shows never violates the record rules: in particular no stored
  // confirmation precedes its intent.
  lemma SoundRecords(rules: Rules, codec: Codec, d: Directory, entry: Option<nat>)
    requires Sound(rules, codec, d) && entry in d.survivors
    ensures Load(rules, codec, d, entry).Ok?
    ensures var found := Load(rules, codec, d, entry).value;
            && (found.None? <==> entry.None?)
            && (found.Some? ==> ValidRecord(rules, found.value)
                                && (found.value.phase == Confirmed ==> found.value.confirmedAt.value >= found.value.createdAt))
  {
    assert Load(rules, codec, d, entry) in Found(rules, codec, d);
  }

  // A removal whose directory sync failed, repeated without a fault: the second call finds no
  // entry, reports success, and a crash can still bring the record back.
  method RepeatedRemovalIsNotDurable(j: Journal, record: Record)
    requires j.Valid() && j.Sees() == Ok(Some(record))
    modifies j
    ensures j.Valid() && j.Sees() == Ok(None) && Ok(Some(record)) in j.Finds()
  {
    assert j.Sees() in j.Finds();
    var first := j.Remove(Before(DirectorySync));
    assert !first;
    var second := j.Remove(NoFailure);
    assert second;
  }
}
