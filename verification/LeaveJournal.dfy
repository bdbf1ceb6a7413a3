/** Leave journal records: how they are built, confirmed and validated. */
module LeaveJournal {
  import opened Wrappers

  const VERSION: nat := 1

  datatype Phase = Intent | Confirmed

  datatype Binding = Binding(profile: string, origin: string, squadName: string, squadId: string, member: string)

  datatype Record = Record(
    version: nat, phase: Phase, binding: Binding, operation: string, createdAt: int, confirmedAt: Option<int>)

  // The identifier validators and the origin canonicaliser of the configuration layer.
  datatype Rules = Rules(canonical: string -> Option<string>, names: Binding -> bool)

  predicate OperationByte(c: char) {
    'a' <= c <= 'z' || 'A' <= c <= 'Z' || '0' <= c <= '9' || c == '-' || c == '_'
  }

  predicate ValidOperation(operation: string) {
    1 <= |operation| <= 128 && forall i :: 0 <= i < |operation| ==> OperationByte(operation[i])
  }

  predicate ValidBinding(rules: Rules, b: Binding) {
    rules.canonical(b.origin) == Some(b.origin) && rules.names(b)
  }

  // `ProfileBinding::new`: canonicalise the origin, then validate.
  function NewBinding(rules: Rules, b: Binding): Option<Binding> {
    match rules.canonical(b.origin)
    case None => None
    case Some(origin) => if ValidBinding(rules, b.(origin := origin)) then Some(b.(origin := origin)) else None
  }

  predicate ValidRecord(rules: Rules, r: Record) {
    && NewBinding(rules, r.binding).Some?
    && r.version == VERSION
    && NewBinding(rules, r.binding).value.origin == r.binding.origin
    && ValidOperation(r.operation)
    && (r.phase == Confirmed <==> r.confirmedAt.Some?)
    && (r.confirmedAt.Some? ==> r.confirmedAt.value >= r.createdAt)
  }

  predicate ValidFor(rules: Rules, r: Record, b: Binding) {
    ValidBinding(rules, b) && ValidRecord(rules, r) && r.binding == b
  }

  function NewIntent(rules: Rules, b: Binding, operation: string, now: int): Option<Record> {
    var r := Record(VERSION, Intent, b, operation, now, None);
    if ValidFor(rules, r, b) then Some(r) else None
  }

  function Confirm(r: Record, now: int): Option<Record> {
    if r.phase != Intent then None else Some(r.(phase := Confirmed, confirmedAt := Some(now)))
  }

  // What `load_for_profile_key` makes of a readable record.
  function LoadForKey(rules: Rules, stored: Option<Record>, origin: string, profile: string): Result<Option<Record>, ()> {
    match (rules.canonical(origin), stored)
    case (None, _) => Err(())
    case (Some(_), None) => Ok(None)
    case (Some(key), Some(r)) =>
      if !ValidRecord(rules, r) || r.binding.origin != key || r.binding.profile != profile then Err(())
      else if NewBinding(rules, r.binding).None? || !ValidFor(rules, r, NewBinding(rules, r.binding).value) then Err(())
      else Ok(Some(r))
  }

  // A record validates on its own exactly when it validates against the binding it names, and
  // against no other.
  lemma RecordNamesItsBinding(rules: Rules, r: Record, b: Binding)
    ensures ValidRecord(rules, r) <==> ValidFor(rules, r, r.binding)
    ensures ValidFor(rules, r, b) ==> b == r.binding
  {
    if ValidRecord(rules, r) {
      var n := NewBinding(rules, r.binding).value;
      assert n == r.binding;
    }
    if ValidFor(rules, r, r.binding) { assert NewBinding(rules, r.binding) == Some(r.binding); }
  }

  // An intent of this process confirms once; what is confirmed can be stored exactly when the
  // clock has not gone back, and then still names the same binding and operation.
  lemma ConfirmOnceForward(rules: Rules, b: Binding, operation: string, created: int, now: int, again: int)
    requires NewIntent(rules, b, operation, created).Some?
    ensures var r := NewIntent(rules, b, operation, created).value;
            && ValidFor(rules, r, b)
            && Confirm(r, now).Some?
            && (ValidRecord(rules, Confirm(r, now).value) <==> now >= created)
            && (now >= created ==> ValidFor(rules, Confirm(r, now).value, b))
            && Confirm(Confirm(r, now).value, again).None?
  {
    var r := NewIntent(rules, b, operation, created).value;
    assert NewBinding(rules, b) == Some(b);
    RecordNamesItsBinding(rules, Confirm(r, now).value, b);
  }

  // The orphan path accepts a stored record under its own key and under no other.
  lemma KeySelectsRecord(rules: Rules, r: Record, origin: string, profile: string)
    requires ValidRecord(rules, r)
    ensures LoadForKey(rules, Some(r), origin, profile) == Ok(Some(r)) <==>
              rules.canonical(origin) == Some(r.binding.origin) && profile == r.binding.profile
    ensures LoadForKey(rules, Some(r), origin, profile) != Ok(None)
  {
    RecordNamesItsBinding(rules, r, r.binding);
    var n := NewBinding(rules, r.binding).value;
    assert n == r.binding;
  }

  // A record that validates is of this version, names its operation in one to a hundred and
  // twenty-eight plain characters, and has a confirmation time exactly if it is confirmed, not before
  // its creation; whatever does not validate is refused under every key.
  lemma ValidRecordIs(rules: Rules, r: Record, origin: string, profile: string)
    ensures ValidRecord(rules, r) ==>
              && r.version == 1 && 1 <= |r.operation| <= 128
              && (forall i :: 0 <= i < |r.operation| ==>
                    var c := r.operation[i];
                    'a' <= c <= 'z' || 'A' <= c <= 'Z' || '0' <= c <= '9' || c == '-' || c == '_')
              && (r.phase == Confirmed <==> r.confirmedAt.Some?)
              && (r.phase == Confirmed ==> r.confirmedAt.value >= r.createdAt)
    ensures !ValidRecord(rules, r) ==> LoadForKey(rules, Some(r), origin, profile).Err?
    ensures LoadForKey(rules, None, origin, profile) == if rules.canonical(origin).Some? then Ok(None) else Err(())
  {
  }
}
