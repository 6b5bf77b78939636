/** Admission numbers: the configuration, the numerals a branch can issue and the allocation that
    runs inside the student transaction. */
module Admissions {
  import opened Common
  import opened Text

  const MAX_SAFE_INTEGER: int := 0x1F_FFFF_FFFF_FFFF
  const MAX_ATTEMPTS: int := 100_000

  datatype Mode = Manual | Automatic | AutomaticOrManual

  datatype Configuration = Configuration(mode: Mode, prefix: string, separator: string, padding: int, nextSequence: int)

  /** The stored JSON object; a missing or null field is None. */
  datatype RawConfiguration = RawConfiguration(
    mode: Option<string>, scope: Option<string>, prefix: Option<string>, separator: Option<string>,
    padding: Option<real>, nextSequence: Option<real>)

  datatype AdmissionError =
    | InvalidMode | UnsupportedScope | TextTooLong | BadPadding | BadNextSequence
    | MissingIdentifier | OtherScope | AutomaticOnly | ManualOnly | NumberTaken
    | UnsafeSequence | NoFreeNumber

  // ---------------------------------------------------------------- configuration

  function NormalizeNumber(up: CaseMap, value: string): string {
    Upper(up, Trim(value))
  }

  lemma NormalizeNumberStable(up: CaseMap, value: string)
    requires IsCaseTable(up)
    ensures Trimmed(NormalizeNumber(up, value))
    ensures Upper(up, NormalizeNumber(up, value)) == NormalizeNumber(up, value)
    ensures NormalizeNumber(up, value) == "" <==> Trim(value) == ""
  {
    TrimIsTrimmed(value);
    UpperKeepsTrimmed(up, Trim(value));
    UpperIdempotent(up, Trim(value));
  }

  function StringOr(value: Option<string>, fallback: string): string {
    if value.Some? then value.value else fallback
  }

  function NumberOr(value: Option<real>, fallback: real): real {
    if value.Some? then value.value else fallback
  }

  predicate IsInteger(x: real) {
    x.Floor as real == x
  }

  function ModeOf(name: string): Option<Mode> {
    if name == "manual" then Some(Manual)
    else if name == "automatic" then Some(Automatic)
    else if name == "automatic_or_manual" then Some(AutomaticOrManual)
    else None
  }

  function ModeName(mode: Mode): string {
    match mode
    case Manual => "manual"
    case Automatic => "automatic"
    case AutomaticOrManual => "automatic_or_manual"
  }

  lemma ModeNameRoundTrip(mode: Mode)
    ensures ModeOf(ModeName(mode)) == Some(mode)
  {
    assert ModeName(mode)[0] == 'm' || |ModeName(mode)| == 9 || |ModeName(mode)| == 19;
  }

  /** What every accepted configuration satisfies. */
  predicate ValidConfiguration(up: CaseMap, c: Configuration) {
    && Trimmed(c.prefix) && Upper(up, c.prefix) == c.prefix
    && Utf16Length(c.prefix) <= 32 && Utf16Length(c.separator) <= 5
    && 1 <= c.padding <= 12
    && 1 <= c.nextSequence <= MAX_SAFE_INTEGER
  }

  function NormalizeConfig(up: CaseMap, raw: RawConfiguration): (r: Result<Configuration, AdmissionError>)
    ensures r.Ok? ==> 1 <= r.value.padding <= 12 && 1 <= r.value.nextSequence <= MAX_SAFE_INTEGER
  {
    var mode := ModeOf(StringOr(raw.mode, "manual"));
    var prefix := NormalizeNumber(up, StringOr(raw.prefix, ""));
    var separator := StringOr(raw.separator, "-");
    var padding := NumberOr(raw.padding, 3.0);
    var nextSequence := NumberOr(raw.nextSequence, 1.0);
    if mode.None? then Err(InvalidMode)
    else if raw.scope.Some? && raw.scope.value != "branch" then Err(UnsupportedScope)
    else if Utf16Length(prefix) > 32 || Utf16Length(separator) > 5 then Err(TextTooLong)
    else if !IsInteger(padding) || padding < 1.0 || padding > 12.0 then Err(BadPadding)
    else if !IsInteger(nextSequence) || nextSequence > MAX_SAFE_INTEGER as real || nextSequence < 1.0 then Err(BadNextSequence)
    else Ok(Configuration(mode.value, prefix, separator, padding.Floor, nextSequence.Floor))
  }

  lemma NormalizeConfigValid(up: CaseMap, raw: RawConfiguration)
    requires IsCaseTable(up) && NormalizeConfig(up, raw).Ok?
    ensures ValidConfiguration(up, NormalizeConfig(up, raw).value)
  {
    NormalizeNumberStable(up, StringOr(raw.prefix, ""));
  }

  predicate WholeWithin(x: real, most: int) {
    x == x.Floor as real && 1 <= x.Floor <= most
  }

  /** Which stored objects are accepted, */
  lemma ConfigurationAccepted(up: CaseMap, raw: RawConfiguration)
    requires IsCaseTable(up)
    ensures NormalizeConfig(up, raw).Ok? <==>
            && (raw.mode.Some? ==> raw.mode.value in {"manual", "automatic", "automatic_or_manual"})
            && (raw.scope.Some? ==> raw.scope.value == "branch")
            && (raw.prefix.Some? ==> Utf16Length(Upper(up, Trim(raw.prefix.value))) <= 32)
            && (raw.separator.Some? ==> Utf16Length(raw.separator.value) <= 5)
            && (raw.padding.Some? ==> WholeWithin(raw.padding.value, 12))
            && (raw.nextSequence.Some? ==> WholeWithin(raw.nextSequence.value, MAX_SAFE_INTEGER))
  {
    assert Upper(up, Trim("")) == "";
    assert Utf16Length("-") == 1;
  }

  /** and what they mean: a missing mode is manual, a missing prefix empty, a missing separator "-", a
      missing width 3 and a missing start 1. */
  lemma ConfigurationRead(up: CaseMap, raw: RawConfiguration)
    requires NormalizeConfig(up, raw).Ok?
    ensures var c := NormalizeConfig(up, raw).value;
            && ModeName(c.mode) == (if raw.mode.Some? then raw.mode.value else "manual")
            && c.prefix == (if raw.prefix.Some? then Upper(up, Trim(raw.prefix.value)) else "")
            && c.separator == (if raw.separator.Some? then raw.separator.value else "-")
            && c.padding as real == (if raw.padding.Some? then raw.padding.value else 3.0)
            && c.nextSequence as real == (if raw.nextSequence.Some? then raw.nextSequence.value else 1.0)
  {
    assert Upper(up, Trim("")) == "";
  }

  function AsRaw(c: Configuration): RawConfiguration {
    RawConfiguration(Some(ModeName(c.mode)), Some("branch"), Some(c.prefix), Some(c.separator),
                     Some(c.padding as real), Some(c.nextSequence as real))
  }

  /** The allocator normalises a second time what the sync layer already normalised. A valid
      configuration survives that unchanged, and nothing else does. */
  lemma NormalizeConfigStable(up: CaseMap, c: Configuration)
    requires IsCaseTable(up)
    ensures NormalizeConfig(up, AsRaw(c)) == Ok(c) <==> ValidConfiguration(up, c)
  {
    if ValidConfiguration(up, c) {
      ValidConfigurationAccepted(up, c);
    } else if NormalizeConfig(up, AsRaw(c)) == Ok(c) {
      NormalizeConfigValid(up, AsRaw(c));
    }
  }

  lemma ValidConfigurationAccepted(up: CaseMap, c: Configuration)
    requires ValidConfiguration(up, c)
    ensures NormalizeConfig(up, AsRaw(c)) == Ok(c)
  {
    var raw := AsRaw(c);
    assert NormalizeNumber(up, StringOr(raw.prefix, "")) == c.prefix by { TrimFixes(c.prefix); }
    assert ModeOf(StringOr(raw.mode, "manual")) == Some(c.mode) by { ModeNameRoundTrip(c.mode); }
    assert StringOr(raw.separator, "-") == c.separator;
    assert IsInteger(NumberOr(raw.padding, 3.0)) && NumberOr(raw.padding, 3.0).Floor == c.padding by { WholeNumber(c.padding); }
    assert IsInteger(NumberOr(raw.nextSequence, 1.0)) && NumberOr(raw.nextSequence, 1.0).Floor == c.nextSequence by { WholeNumber(c.nextSequence); }
    var r := NormalizeConfig(up, raw);
    assert r.Ok?;
    assert r == Ok(c);
  }

  lemma WholeNumber(n: int)
    ensures IsInteger(n as real) && (n as real).Floor == n
  {
  }

  // ---------------------------------------------------------------- issued numbers

  function AdmissionNumber(c: Configuration, counter: nat): string
    requires c.padding >= 0
  {
    c.prefix + (if c.prefix != "" then c.separator else "") + PadStart(Decimal(counter), c.padding, '0')
  }

  function NormalizedCandidate(up: CaseMap, c: Configuration, counter: nat): string
    requires c.padding >= 0
  {
    NormalizeNumber(up, AdmissionNumber(c, counter))
  }

  /** The part of a normalised number that does not depend on the counter. */
  function Stem(up: CaseMap, c: Configuration): string {
    Upper(up, c.prefix + (if c.prefix != "" then c.separator else ""))
  }

  lemma EndsInDigits(prefix: string, separator: string, digits: string)
    requires Trimmed(prefix) && Digits(digits) && digits != "" && (prefix == "" ==> separator == "")
    ensures Trimmed(prefix + separator + digits)
  {
    var number := prefix + separator + digits;
    assert number[0] == if prefix != "" then prefix[0] else digits[0];
    assert number[|number| - 1] == digits[|digits| - 1];
  }

  /** A generated number has nothing to trim: it starts with the prefix or a digit and ends with a
      digit. */
  lemma CandidateTrimmed(c: Configuration, counter: nat)
    requires c.padding >= 0 && Trimmed(c.prefix)
    ensures Trim(AdmissionNumber(c, counter)) == AdmissionNumber(c, counter) != ""
  {
    var digits := PadStart(Decimal(counter), c.padding, '0');
    ParseOfPadded(counter, c.padding);
    EndsInDigits(c.prefix, if c.prefix != "" then c.separator else "", digits);
    TrimFixes(AdmissionNumber(c, counter));
  }

  lemma CandidateShape(up: CaseMap, c: Configuration, counter: nat)
    requires IsCaseTable(up)
    requires ValidConfiguration(up, c)
    ensures NormalizedCandidate(up, c, counter) == Stem(up, c) + PadStart(Decimal(counter), c.padding, '0')
    ensures NormalizedCandidate(up, c, counter) != ""
  {
    var digits := PadStart(Decimal(counter), c.padding, '0');
    CandidateTrimmed(c, counter);
    ParseOfPadded(counter, c.padding);
    UpperConcat(up, c.prefix + (if c.prefix != "" then c.separator else ""), digits);
    UpperFixesDigits(up, digits);
  }

  /** Reads the counter back from a normalised number. */
  function CounterOf(up: CaseMap, c: Configuration, number: string): nat
    requires |Stem(up, c)| <= |number| && Digits(number[|Stem(up, c)|..])
  {
    ParseDecimal(number[|Stem(up, c)|..])
  }

  lemma CounterRoundTrip(up: CaseMap, c: Configuration, counter: nat)
    requires IsCaseTable(up)
    requires ValidConfiguration(up, c)
    ensures var number := NormalizedCandidate(up, c, counter);
            && |Stem(up, c)| <= |number| && Digits(number[|Stem(up, c)|..])
            && CounterOf(up, c, number) == counter
  {
    CandidateShape(up, c, counter);
    ParseOfPadded(counter, c.padding);
    assert NormalizedCandidate(up, c, counter)[|Stem(up, c)|..] == PadStart(Decimal(counter), c.padding, '0');
  }

  // ---------------------------------------------------------------- the registry

  datatype Branch = Branch(accountId: string, schoolId: string, branchId: string)

  datatype StudentKey = StudentKey(accountId: string, studentId: string)

  datatype Identity = Identity(schoolId: string, branchId: string, admissionNumber: string, normalizedNumber: string)

  type Registry = map<StudentKey, Identity>

  predicate HoldsNumber(key: StudentKey, row: Identity, b: Branch, number: string) {
    key.accountId == b.accountId && row.schoolId == b.schoolId && row.branchId == b.branchId &&
    row.normalizedNumber == number
  }

  predicate NumberUsed(registry: Registry, b: Branch, number: string) {
    exists key :: key in registry && HoldsNumber(key, registry[key], b, number)
  }

  /** No two students of a branch hold the same normalised number. */
  ghost predicate UniqueNumbers(registry: Registry) {
    forall k1, k2 :: k1 in registry && k2 in registry && k1 != k2 && k1.accountId == k2.accountId &&
      registry[k1].schoolId == registry[k2].schoolId && registry[k1].branchId == registry[k2].branchId
      ==> registry[k1].normalizedNumber != registry[k2].normalizedNumber
  }

  /** The normalised numbers a branch has handed out. */
  ghost function Numbers(registry: Registry, b: Branch): set<string> {
    set key | key in registry && HoldsNumber(key, registry[key], b, registry[key].normalizedNumber)
      :: registry[key].normalizedNumber
  }

  lemma {:induction false} Pigeonhole(up: CaseMap, c: Configuration, start: nat, count: nat, used: set<string>)
    requires IsCaseTable(up)
    requires ValidConfiguration(up, c)
    requires forall k: nat :: start <= k < start + count ==> NormalizedCandidate(up, c, k) in used
    ensures count <= |used|
  {
    if count > 0 {
      var last := start + count - 1;
      var number := NormalizedCandidate(up, c, last);
      forall k: nat | start <= k < last ensures NormalizedCandidate(up, c, k) in used - {number} {
        CounterRoundTrip(up, c, k);
        CounterRoundTrip(up, c, last);
      }
      Pigeonhole(up, c, start, count - 1, used - {number});
    }
  }

  // ---------------------------------------------------------------- allocation

  datatype Request = Request(
    accountId: string, schoolId: string, branchId: string, studentId: string,
    supplied: Option<string>, provisionalAutomatic: bool, config: Configuration)
  {
    function Scope(): Branch { Branch(Trim(accountId), Trim(schoolId), Trim(branchId)) }
    function Key(): StudentKey { StudentKey(Trim(accountId), Trim(studentId)) }
    function Supplied(): string { Trim(StringOr(supplied, "")) }
  }

  datatype Assignment = Assignment(admissionNumber: string, normalizedNumber: string, assignedAutomatically: bool)

  type Answer = Result<Option<Assignment>, AdmissionError>

  datatype Tables = Tables(registry: Registry, sequences: map<Branch, nat>)

  /** The counter from which the search for a branch starts: the stored one, else the seed. */
  function SearchStart(t: Tables, b: Branch, c: Configuration): nat
    requires c.nextSequence >= 0
  {
    if b in t.sequences then t.sequences[b] else c.nextSequence
  }

  ghost predicate AllUsed(up: CaseMap, registry: Registry, b: Branch, c: Configuration, lo: nat, hi: nat)
    requires c.padding >= 0
  {
    forall k: nat :: lo <= k < hi ==> NumberUsed(registry, b, NormalizedCandidate(up, c, k))
  }

  /** counter is the least free counter at or above start, within reach of the search. */
  ghost predicate LeastFree(up: CaseMap, registry: Registry, b: Branch, c: Configuration, start: nat, counter: nat)
    requires c.padding >= 0
  {
    && start <= counter < start + MAX_ATTEMPTS && counter <= MAX_SAFE_INTEGER
    && !NumberUsed(registry, b, NormalizedCandidate(up, c, counter))
    && AllUsed(up, registry, b, c, start, counter)
  }

  function Issued(up: CaseMap, c: Configuration, b: Branch, counter: nat): Identity
    requires c.padding >= 0
  {
    Identity(b.schoolId, b.branchId, AdmissionNumber(c, counter), NormalizedCandidate(up, c, counter))
  }

  /** The answer and the tables once this counter value has been issued. */
  ghost predicate IssuedAt(up: CaseMap, before: Tables, q: Request, c: Configuration, counter: nat, a: Assignment, after: Tables)
    requires c.padding >= 0
  {
    var b := q.Scope();
    && a == Assignment(AdmissionNumber(c, counter), NormalizedCandidate(up, c, counter), true)
    && after == Tables(before.registry[q.Key() := Issued(up, c, b, counter)], before.sequences[b := counter + 1])
  }

  /** What an automatic allocation answers and leaves behind. */
  ghost predicate AutomaticOutcome(up: CaseMap, before: Tables, q: Request, c: Configuration, answer: Answer, after: Tables)
    requires c.padding >= 1 && c.nextSequence >= 1
  {
    var b := q.Scope();
    var start := SearchStart(before, b, c);
    match answer
    case Ok(None) => false
    case Ok(Some(a)) =>
      exists counter: nat :: LeastFree(up, before.registry, b, c, start, counter) && IssuedAt(up, before, q, c, counter, a, after)
    case Err(UnsafeSequence) =>
      && after == Tables(before.registry, before.sequences[b := start])
      && MAX_SAFE_INTEGER + 1 < start + MAX_ATTEMPTS
      && AllUsed(up, before.registry, b, c, start, MAX_SAFE_INTEGER + 1)
    case Err(NoFreeNumber) =>
      && after == Tables(before.registry, before.sequences[b := start])
      && start + MAX_ATTEMPTS <= MAX_SAFE_INTEGER + 1
      && AllUsed(up, before.registry, b, c, start, start + MAX_ATTEMPTS)
    case Err(_) => false
  }

  /** The outcome of a request whose identifiers are present, under configuration c. */
  ghost predicate AllocatedUnder(up: CaseMap, before: Tables, q: Request, c: Configuration, answer: Answer, after: Tables)
    requires c.padding >= 1 && c.nextSequence >= 1
  {
    var b, key, supplied := q.Scope(), q.Key(), q.Supplied();
    var number := NormalizeNumber(up, supplied);
    if key in before.registry then
      var row := before.registry[key];
      && after == before
      && answer == if row.schoolId != b.schoolId || row.branchId != b.branchId then Err(OtherScope)
                   else Ok(Some(Assignment(row.admissionNumber, row.normalizedNumber, false)))
    else if number != "" && !q.provisionalAutomatic then
      if c.mode == Automatic then answer == Err(AutomaticOnly) && after == before
      else if NumberUsed(before.registry, b, number) then answer == Err(NumberTaken) && after == before
      else
        && answer == Ok(Some(Assignment(supplied, number, false)))
        && after == before.(registry := before.registry[key := Identity(b.schoolId, b.branchId, supplied, number)])
    else if c.mode == Manual then
      after == before && answer == if q.provisionalAutomatic then Err(ManualOnly) else Ok(None)
    else AutomaticOutcome(up, before, q, c, answer, after)
  }

  /** The complete outcome of one allocation request. */
  ghost predicate Allocated(up: CaseMap, before: Tables, q: Request, answer: Answer, after: Tables) {
    var b, key := q.Scope(), q.Key();
    if b.accountId == "" || b.schoolId == "" || b.branchId == "" || key.studentId == "" then
      answer == Err(MissingIdentifier) && after == before
    else match NormalizeConfig(up, AsRaw(q.config))
      case Err(e) => answer == Err(e) && after == before
      case Ok(c) => AllocatedUnder(up, before, q, c, answer, after)
  }

  /** The registry and counter tables with the allocator that works on them inside a transaction. */
  class AdmissionNumberService {
    const up: CaseMap
    var registry: Registry
    var sequences: map<Branch, nat>

    constructor (up: CaseMap)
      ensures this.up == up && View() == Tables(map[], map[])
    {
      this.up := up;
      registry, sequences := map[], map[];
    }

    function View(): Tables
      reads this
    {
      Tables(registry, sequences)
    }

    /** Inserts a row unless one of the two unique constraints of the table forbids it. */
    method Create(key: StudentKey, row: Identity) returns (created: bool)
      modifies this`registry
      ensures created == (key !in old(registry) &&
        !NumberUsed(old(registry), Branch(key.accountId, row.schoolId, row.branchId), row.normalizedNumber))
      ensures registry == if created then old(registry)[key := row] else old(registry)
    {
      created := key !in registry &&
        !NumberUsed(registry, Branch(key.accountId, row.schoolId, row.branchId), row.normalizedNumber);
      if created {
        registry := registry[key := row];
      }
    }

    method AssignInTransaction(q: Request) returns (answer: Answer)
      modifies this
      ensures Allocated(up, old(View()), q, answer, View())
    {
      var b, key, supplied := q.Scope(), q.Key(), q.Supplied();
      if b.accountId == "" || b.schoolId == "" || b.branchId == "" || key.studentId == "" {
        return Err(MissingIdentifier);
      }
      var normalized := NormalizeConfig(up, AsRaw(q.config));
      if normalized.Err? {
        return Err(normalized.error);
      }
      var config := normalized.value;
      var normalizedSupplied := NormalizeNumber(up, supplied);
      if key in registry {
        var row := registry[key];
        if row.schoolId != b.schoolId || row.branchId != b.branchId {
          return Err(OtherScope);
        }
        return Ok(Some(Assignment(row.admissionNumber, row.normalizedNumber, false)));
      }
      if normalizedSupplied != "" && !q.provisionalAutomatic {
        if config.mode == Automatic {
          return Err(AutomaticOnly);
        }
        var created := Create(key, Identity(b.schoolId, b.branchId, supplied, normalizedSupplied));
        if !created {
          return Err(NumberTaken);
        }
        return Ok(Some(Assignment(supplied, normalizedSupplied, false)));
      }
      if config.mode == Manual {
        return if q.provisionalAutomatic then Err(ManualOnly) else Ok(None);
      }
      answer := AllocateAutomatically(q, config);
    }

    /** The search loop: the first free counter from start on. */
    method FindFree(b: Branch, config: Configuration, start: nat) returns (found: Result<nat, AdmissionError>)
      requires config.padding >= 1
      ensures found.Ok? ==> LeastFree(up, registry, b, config, start, found.value)
      ensures found.Err? ==> found.error == UnsafeSequence || found.error == NoFreeNumber
      ensures found == Err(UnsafeSequence) ==>
        (MAX_SAFE_INTEGER + 1 < start + MAX_ATTEMPTS && AllUsed(up, registry, b, config, start, MAX_SAFE_INTEGER + 1))
      ensures found == Err(NoFreeNumber) ==>
        (start + MAX_ATTEMPTS <= MAX_SAFE_INTEGER + 1 && AllUsed(up, registry, b, config, start, start + MAX_ATTEMPTS))
    {
      var candidate, attempts := start, 0;
      while attempts < MAX_ATTEMPTS
        invariant 0 <= attempts <= MAX_ATTEMPTS && candidate == start + attempts
        invariant attempts > 0 ==> candidate <= MAX_SAFE_INTEGER + 1
        invariant AllUsed(up, registry, b, config, start, candidate)
      {
        if candidate > MAX_SAFE_INTEGER {
          return Err(UnsafeSequence);
        }
        // CandidateShape shows that a candidate is never empty, so that check cannot throw.
        if !NumberUsed(registry, b, NormalizeNumber(up, AdmissionNumber(config, candidate))) {
          return Ok(candidate);
        }
        attempts, candidate := attempts + 1, candidate + 1;
      }
      return Err(NoFreeNumber);
    }

    method AllocateAutomatically(q: Request, config: Configuration) returns (answer: Answer)
      requires config.padding >= 1 && config.nextSequence >= 1 && q.Key() !in registry
      modifies this
      ensures AutomaticOutcome(up, old(View()), q, config, answer, View())
    {
      var b := q.Scope();
      if b !in sequences {
        sequences := sequences[b := config.nextSequence];
      }
      var found := FindFree(b, config, sequences[b]);
      if found.Err? {
        return Err(found.error);
      }
      var row := Issued(up, config, b, found.value);
      var created := Create(q.Key(), row);
      assert created;
      sequences := sequences[b := found.value + 1];
      var assignment := Assignment(row.admissionNumber, row.normalizedNumber, true);
      assert sequences == old(sequences)[b := found.value + 1];
      assert IssuedAt(up, old(View()), q, config, found.value, assignment, View());
      answer := Ok(Some(assignment));
    }
  }

  // ---------------------------------------------------------------- consequences

  /** An automatic allocation succeeds whenever the branch holds fewer numbers than the search may
      try and the counter has room for them, and then within one attempt more than numbers held. */
  lemma AllocationSucceeds(up: CaseMap, before: Tables, q: Request, c: Configuration, answer: Answer, after: Tables)
    requires IsCaseTable(up)
    requires ValidConfiguration(up, c) && AutomaticOutcome(up, before, q, c, answer, after)
    requires var held := |Numbers(before.registry, q.Scope())|;
             held < MAX_ATTEMPTS && SearchStart(before, q.Scope(), c) + held <= MAX_SAFE_INTEGER
    ensures answer.Ok? && answer.value.Some?
    ensures var start, held := SearchStart(before, q.Scope(), c), |Numbers(before.registry, q.Scope())|;
            exists counter: nat :: LeastFree(up, before.registry, q.Scope(), c, start, counter)
              && counter <= start + held && after.sequences[q.Scope()] == counter + 1
              && after.registry[q.Key()] == Issued(up, c, q.Scope(), counter)
  {
    var b := q.Scope();
    var start, held := SearchStart(before, b, c), |Numbers(before.registry, b)|;
    if AllUsed(up, before.registry, b, c, start, start + held + 1) {
      UsedNumbersListed(up, before.registry, b, c, start, held + 1);
      Pigeonhole(up, c, start, held + 1, Numbers(before.registry, b));
    }
  }

  lemma UsedNumbersListed(up: CaseMap, registry: Registry, b: Branch, c: Configuration, start: nat, count: nat)
    requires c.padding >= 0 && AllUsed(up, registry, b, c, start, start + count)
    ensures forall k: nat :: start <= k < start + count ==> NormalizedCandidate(up, c, k) in Numbers(registry, b)
  {
    forall k: nat | start <= k < start + count ensures NormalizedCandidate(up, c, k) in Numbers(registry, b) {
      var number := NormalizedCandidate(up, c, k);
      assert NumberUsed(registry, b, number);
      var key :| key in registry && HoldsNumber(key, registry[key], b, number);
    }
  }

  /** The identifiers of a request, and what it supplies. */
  predicate Complete(q: Request) {
    "" !in {Trim(q.accountId), Trim(q.schoolId), Trim(q.branchId), Trim(q.studentId)}
  }

  predicate Typed(q: Request) {
    q.supplied.Some? && Trim(q.supplied.value) != "" && !q.provisionalAutomatic
  }

  lemma TypedNumber(up: CaseMap, q: Request)
    requires IsCaseTable(up)
    ensures Typed(q) <==> NormalizeNumber(up, q.Supplied()) != "" && !q.provisionalAutomatic
    ensures q.supplied.Some? ==> NormalizeNumber(up, q.Supplied()) == NormalizeNumber(up, q.supplied.value)
  {
    NormalizeNumberStable(up, q.Supplied());
    TrimIdempotent(StringOr(q.supplied, ""));
    assert Trim("") == "";
  }

  /** Some student of the branch has the normalised number. */
  predicate HeldInBranch(registry: Registry, accountId: string, schoolId: string, branchId: string, number: string) {
    exists key :: && key in registry && key.accountId == accountId && registry[key].schoolId == schoolId
                  && registry[key].branchId == branchId && registry[key].normalizedNumber == number
  }

  lemma HeldIsUsed(registry: Registry, b: Branch, number: string)
    ensures NumberUsed(registry, b, number) <==> HeldInBranch(registry, b.accountId, b.schoolId, b.branchId, number)
  {
    if HeldInBranch(registry, b.accountId, b.schoolId, b.branchId, number) {
      var key :| && key in registry && key.accountId == b.accountId && registry[key].schoolId == b.schoolId
                 && registry[key].branchId == b.branchId && registry[key].normalizedNumber == number;
      assert HoldsNumber(key, registry[key], b, number);
    }
  }

  /** When a new student's request registers nothing: a number typed where numbers are drawn or
      already taken, a draw where they are typed, and no number at all where they are typed. */
  lemma NewRequestRefused(up: CaseMap, before: Tables, q: Request, answer: Answer, after: Tables)
    requires IsCaseTable(up) && ValidConfiguration(up, q.config) && Allocated(up, before, q, answer, after)
    requires Complete(q) && StudentKey(Trim(q.accountId), Trim(q.studentId)) !in before.registry
    ensures answer == Err(AutomaticOnly) <==> Typed(q) && q.config.mode == Automatic
    ensures answer == Err(NumberTaken) <==>
            && Typed(q) && q.config.mode != Automatic
            && HeldInBranch(before.registry, Trim(q.accountId), Trim(q.schoolId), Trim(q.branchId), NormalizeNumber(up, q.supplied.value))
    ensures answer == Err(ManualOnly) <==> q.provisionalAutomatic && q.config.mode == Manual
    ensures answer == Ok(None) <==> !Typed(q) && !q.provisionalAutomatic && q.config.mode == Manual
    ensures answer in {Err(AutomaticOnly), Err(NumberTaken), Err(ManualOnly), Ok(None)} ==> after == before
  {
    NormalizeConfigStable(up, q.config);
    TypedNumber(up, q);
    HeldIsUsed(before.registry, q.Scope(), NormalizeNumber(up, q.Supplied()));
  }

  /** A typed number that is not refused is registered, trimmed and with its normal form, and no counter moves. */
  lemma TypedNumberRegistered(up: CaseMap, before: Tables, q: Request, answer: Answer, after: Tables)
    requires IsCaseTable(up) && ValidConfiguration(up, q.config) && Allocated(up, before, q, answer, after)
    requires Complete(q) && StudentKey(Trim(q.accountId), Trim(q.studentId)) !in before.registry && Typed(q) && answer.Ok?
    ensures var number := Trim(q.supplied.value);
            && answer == Ok(Some(Assignment(number, NormalizeNumber(up, number), false)))
            && after == Tables(before.registry[StudentKey(Trim(q.accountId), Trim(q.studentId)) :=
                                 Identity(Trim(q.schoolId), Trim(q.branchId), number, NormalizeNumber(up, number))],
                               before.sequences)
  {
    NormalizeConfigStable(up, q.config);
    TypedNumber(up, q);
  }

  /** A request under a configuration that is not accepted is refused for that. */
  lemma InvalidConfigurationRefused(up: CaseMap, before: Tables, q: Request, answer: Answer, after: Tables)
    requires Allocated(up, before, q, answer, after) && Complete(q) && NormalizeConfig(up, AsRaw(q.config)).Err?
    ensures answer == Err(NormalizeConfig(up, AsRaw(q.config)).error) && after == before
  {
  }

  /** The number of this counter is free in the branch, and a search from start may try it. */
  ghost predicate Reachable(up: CaseMap, registry: Registry, b: Branch, c: Configuration, start: nat, counter: nat)
    requires c.padding >= 0
  {
    && start <= counter < start + 100_000 && counter <= 0x1F_FFFF_FFFF_FFFF
    && !HeldInBranch(registry, b.accountId, b.schoolId, b.branchId, NormalizeNumber(up, AdmissionNumber(c, counter)))
  }

  lemma AllUsedIsHeld(up: CaseMap, registry: Registry, b: Branch, c: Configuration, lo: nat, hi: nat, k: nat)
    requires c.padding >= 0 && AllUsed(up, registry, b, c, lo, hi) && lo <= k < hi
    ensures HeldInBranch(registry, b.accountId, b.schoolId, b.branchId, NormalizeNumber(up, AdmissionNumber(c, k)))
  {
    HeldIsUsed(registry, b, NormalizedCandidate(up, c, k));
  }

  /** What an automatic allocation does, exactly: it issues the least number that is free among the next
      100,000 safe counters and moves the counter past it, or fails with the counter where it was. */
  lemma DrawExactly(up: CaseMap, before: Tables, q: Request, c: Configuration, answer: Answer, after: Tables)
    requires ValidConfiguration(up, c) && AutomaticOutcome(up, before, q, c, answer, after)
    ensures var b := q.Scope();
            var start := if b in before.sequences then before.sequences[b] else c.nextSequence;
            if answer.Ok? then
              answer.value.Some? && exists counter: nat ::
                && Reachable(up, before.registry, b, c, start, counter)
                && (forall k: nat :: k < counter ==> !Reachable(up, before.registry, b, c, start, k))
                && after.sequences == before.sequences[b := counter + 1]
                && (var number := AdmissionNumber(c, counter);
                    && answer.value.value == Assignment(number, NormalizeNumber(up, number), true)
                    && after.registry == before.registry[q.Key() := Identity(b.schoolId, b.branchId, number, NormalizeNumber(up, number))])
            else
              && (forall k: nat :: !Reachable(up, before.registry, b, c, start, k))
              && after == Tables(before.registry, before.sequences[b := start])
              && answer.error == if start + 100_000 <= 0x1F_FFFF_FFFF_FFFF + 1 then NoFreeNumber else UnsafeSequence
  {
    var b := q.Scope();
    var start := SearchStart(before, b, c);
    if answer.Ok? {
      var counter: nat :| LeastFree(up, before.registry, b, c, start, counter) && IssuedAt(up, before, q, c, counter, answer.value.value, after);
      HeldIsUsed(before.registry, b, NormalizedCandidate(up, c, counter));
      forall k: nat | k < counter ensures !Reachable(up, before.registry, b, c, start, k) {
        if start <= k {
          AllUsedIsHeld(up, before.registry, b, c, start, counter, k);
        }
      }
      assert Reachable(up, before.registry, b, c, start, counter);
    } else {
      var end := if answer.error == NoFreeNumber then start + MAX_ATTEMPTS else MAX_SAFE_INTEGER + 1;
      forall k: nat ensures !Reachable(up, before.registry, b, c, start, k) {
        if start <= k < end {
          AllUsedIsHeld(up, before.registry, b, c, start, end, k);
        }
      }
    }
  }

  lemma NothingMissing(up: CaseMap, before: Tables, q: Request, c: Configuration, answer: Answer, after: Tables)
    requires c.padding >= 1 && c.nextSequence >= 1 && AllocatedUnder(up, before, q, c, answer, after)
    ensures answer != Err(MissingIdentifier)
  {
  }

  /** A request without an identifier is refused, and nothing else is refused for that. */
  lemma IncompleteRefused(up: CaseMap, before: Tables, q: Request, answer: Answer, after: Tables)
    requires ValidConfiguration(up, q.config) && IsCaseTable(up) && Allocated(up, before, q, answer, after)
    ensures answer == Err(MissingIdentifier) <==> !Complete(q)
    ensures !Complete(q) ==> after == before
  {
    NormalizeConfigStable(up, q.config);
    if Complete(q) {
      NothingMissing(up, before, q, q.config, answer, after);
    }
  }

  /** A registered student's request answers with the registered number, or is refused because the
      student belongs to another branch. */
  lemma KnownRequestAnswered(up: CaseMap, before: Tables, q: Request, answer: Answer, after: Tables)
    requires ValidConfiguration(up, q.config) && IsCaseTable(up) && Allocated(up, before, q, answer, after) && Complete(q)
    requires StudentKey(Trim(q.accountId), Trim(q.studentId)) in before.registry
    ensures var row := before.registry[StudentKey(Trim(q.accountId), Trim(q.studentId))];
            answer == if row.schoolId == Trim(q.schoolId) && row.branchId == Trim(q.branchId)
                      then Ok(Some(Assignment(row.admissionNumber, row.normalizedNumber, false))) else Err(OtherScope)
    ensures after == before
  {
    NormalizeConfigStable(up, q.config);
  }

  /** Every allocation keeps numbers unique in each branch, never changes or drops a registered
      identity, and never lowers a counter. */
  lemma AllocationKeepsRegistry(up: CaseMap, before: Tables, q: Request, answer: Answer, after: Tables)
    requires Allocated(up, before, q, answer, after) && UniqueNumbers(before.registry)
    ensures UniqueNumbers(after.registry)
    ensures forall key :: key in before.registry ==> key in after.registry && after.registry[key] == before.registry[key]
    ensures forall b :: b in before.sequences ==> b in after.sequences && before.sequences[b] <= after.sequences[b]
    ensures forall key :: key in after.registry && key !in before.registry ==> key == q.Key()
  {
    var b := q.Scope();
    if after.registry != before.registry {
      var c := NormalizeConfig(up, AsRaw(q.config)).value;
      assert AllocatedUnder(up, before, q, c, answer, after);
      if after.sequences == before.sequences && answer.value.value.assignedAutomatically == false {
        assert after.registry == before.registry[q.Key() := after.registry[q.Key()]];
      } else {
        var counter: nat :| LeastFree(up, before.registry, b, c, SearchStart(before, b, c), counter)
          && after == Tables(before.registry[q.Key() := Issued(up, c, b, counter)], before.sequences[b := counter + 1]);
      }
      NewNumberKeepsUnique(before.registry, q.Key(), after.registry[q.Key()]);
    }
  }

  lemma NewNumberKeepsUnique(registry: Registry, key: StudentKey, row: Identity)
    requires UniqueNumbers(registry) && key !in registry
    requires !NumberUsed(registry, Branch(key.accountId, row.schoolId, row.branchId), row.normalizedNumber)
    ensures UniqueNumbers(registry[key := row])
  {
    var b := Branch(key.accountId, row.schoolId, row.branchId);
    forall other | other in registry && other.accountId == b.accountId && registry[other].schoolId == b.schoolId &&
      registry[other].branchId == b.branchId
      ensures registry[other].normalizedNumber != row.normalizedNumber
    {
      assert !HoldsNumber(other, registry[other], b, row.normalizedNumber);
    }
  }

  lemma OnlyAutomaticMoves(up: CaseMap, before: Tables, q: Request, c: Configuration, answer: Answer, after: Tables)
    requires c.padding >= 1 && c.nextSequence >= 1
    requires AllocatedUnder(up, before, q, c, answer, after) && answer.Ok? && after.sequences != before.sequences
    ensures q.Key() !in before.registry && AutomaticOutcome(up, before, q, c, answer, after)
  {
  }

  lemma AutomaticIssue(up: CaseMap, before: Tables, q: Request, c: Configuration, answer: Answer, after: Tables) returns (n: nat)
    requires c.padding >= 1 && c.nextSequence >= 1
    requires AutomaticOutcome(up, before, q, c, answer, after) && answer.Ok?
    ensures answer.value.Some? && IssuedAt(up, before, q, c, n, answer.value.value, after)
  {
    n :| LeastFree(up, before.registry, q.Scope(), c, SearchStart(before, q.Scope(), c), n)
      && IssuedAt(up, before, q, c, n, answer.value.value, after);
  }

  /** Only an automatic allocation moves a counter, and it registers the number of the value drawn. */
  lemma MovedCounterIsIssued(up: CaseMap, before: Tables, q: Request, answer: Answer, after: Tables, b: Branch, counter: nat)
    requires Allocated(up, before, q, answer, after) && answer.Ok?
    requires b in after.sequences && after.sequences[b] == counter + 1
    requires b in before.sequences ==> before.sequences[b] != counter + 1
    ensures NormalizeConfig(up, AsRaw(q.config)).Ok? && q.Key() !in before.registry && q.Key() in after.registry
    ensures after.registry[q.Key()] == Issued(up, NormalizeConfig(up, AsRaw(q.config)).value, b, counter)
  {
    var c := NormalizeConfig(up, AsRaw(q.config)).value;
    assert after.sequences != before.sequences;
    OnlyAutomaticMoves(up, before, q, c, answer, after);
    var n := AutomaticIssue(up, before, q, c, answer, after);
  }
}
