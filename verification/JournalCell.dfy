/** The journal file as the journal cell of the session: what a reader sees and what a power loss may
    bring back move exactly as `SessionPower` says.  */
module JournalCell {
  import opened Wrappers
  import opened JournalFile
  import L = LeaveJournal
  import S = SessionState
  import P = SessionPower

  // The session's view of what a reader finds; `name` maps the bindings.
  function View(name: L.Binding -> S.Binding, found: Result<Option<L.Record>, ()>): S.Journal {
    match found
    case Err(_) => S.NoJournal
    case Ok(None) => S.NoJournal
    case Ok(Some(r)) => if r.phase == L.Confirmed then S.Confirmed(name(r.binding)) else S.Intent(name(r.binding))
  }

  ghost function Views(name: L.Binding -> S.Binding, found: set<Result<Option<L.Record>, ()>>): set<S.Journal> {
    set f | f in found :: View(name, f)
  }

  lemma ViewsAdd(name: L.Binding -> S.Binding, found: set<Result<Option<L.Record>, ()>>, f: Result<Option<L.Record>, ()>)
    ensures Views(name, found + {f}) == Views(name, found) + {View(name, f)}
    ensures Views(name, {f}) == {View(name, f)}
  {
    assert f in found + {f} && f in {f};
  }

  // The cell stands for the file.
  ghost predicate Stands(name: L.Binding -> S.Binding, j: Journal, disk: S.Disk, kept: P.Survivors)
    reads j
  {
    j.Valid() && disk.journal == View(name, j.Sees()) && kept.journal == Views(name, j.Finds())
  }

  // A store ends in one of the three ways the session knows, and then the cell after it stands for the
  // file after it.
  method StoreCell(name: L.Binding -> S.Binding, j: Journal, record: L.Record, partial: nat, failure: Failure,
                   ghost disk: S.Disk, ghost kept: P.Survivors) returns (io: S.Io)
    requires Stands(name, j, disk, kept)
    modifies j
    ensures io == if !j.Storable(record) then S.FailedBefore
                  else if failure == NoFailure || failure.stage == UnlinkStage then S.Done
                  else if Fails(failure, DirectorySync) then S.FailedAfter else S.FailedBefore
    ensures var after := if io == S.FailedBefore then disk else disk.(journal := View(name, Ok(Some(record))));
            Stands(name, j, after, P.Outlive(kept, disk, after, P.Write(P.JournalCell, io)))
  {
    ViewsAdd(name, j.Finds(), Ok(Some(record)));
    var ok := j.Store(record, partial, failure);
    io := if ok then S.Done else if j.Storable(record) && Fails(failure, DirectorySync) then S.FailedAfter else S.FailedBefore;
  }

  // So does a removal; removing what is not there reports success and syncs nothing.
  method RemoveCell(name: L.Binding -> S.Binding, j: Journal, failure: Failure, ghost disk: S.Disk, ghost kept: P.Survivors)
    returns (io: S.Io)
    requires Stands(name, j, disk, kept)
    modifies j
    ensures io == S.Done <==> (failure != Before(UnlinkStage) &&
                               (old(j.disk).target.None? || !(Fails(failure, UnlinkStage) || Fails(failure, DirectorySync))))
    ensures var after := if io == S.FailedBefore then disk else disk.(journal := S.NoJournal);
            Stands(name, j, after, P.Outlive(kept, disk, after, P.Write(P.JournalCell, io)))
  {
    ViewsAdd(name, j.Finds(), Ok(None));
    var absent := j.disk.target.None?;
    if !absent { SoundRecords(j.rules, j.codec, j.disk, j.disk.target); }
    var ok := j.Remove(failure);
    io := if ok then S.Done else if !absent && Fails(failure, DirectorySync) then S.FailedAfter else S.FailedBefore;
  }
}
