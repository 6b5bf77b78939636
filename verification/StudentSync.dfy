/** Student pushes: the transaction that stores a student row together with its admission number,
    its retry loop, and what every run of pushes keeps. */
module StudentSync {
  import opened Common
  import opened Text
  import opened Admissions

  /** The student fields the write path looks at. An absent or null string is "". */
  datatype Payload = Payload(
    id: string, schoolId: string, branchId: string, cloudId: string,
    admissionNumber: string, provisional: bool, confirmed: bool, rest: string)

  datatype Row = Row(localId: string, deviceId: string, version: int, updatedAt: int, isDeleted: bool, payload: Payload)

  /** A pushed record, the stored settings of its branch and the id a new row would get. */
  datatype Push = Push(
    localId: string, cloudId: string, deviceId: string, version: int, updatedAt: int, isDeleted: bool,
    payload: Payload, settings: RawConfiguration, newRowId: string)
  {
    function StudentId(): string { Trim(localId) }
    function SchoolId(): string { Trim(payload.schoolId) }
    function BranchId(): string { Trim(payload.branchId) }
    function Number(): string { Trim(payload.admissionNumber) }
  }

  datatype QuotaMode = Off | Observe | Enforce

  /** The quota switch, whether the entitlement is current, and its student limit. */
  datatype Quota = Quota(mode: QuotaMode, entitled: bool, maxStudents: Option<nat>)

  datatype PushError =
    | InvalidLocalId | MissingScope | CloudMismatch | TransferRequired | CapacityRefused
    | UniqueViolation | SerializationFailure | HistoricalConflict | RegistryConflict
    | BadSettings(settings: AdmissionError) | AllocationFailed(allocation: AdmissionError)

  datatype Outcome = Saved(rowId: string) | Stale(rowId: string) | Rejected(error: PushError)

  datatype Store = Store(rows: map<string, Row>, tables: Tables)

  // ---------------------------------------------------------------- invariant

  predicate HasRow(rows: map<string, Row>, studentId: string) {
    exists id :: id in rows && rows[id].localId == studentId
  }

  ghost function LiveStudents(rows: map<string, Row>): set<string> {
    set id | id in rows && !rows[id].isDeleted :: rows[id].localId
  }

  /** A row agrees with the registry entry of its student. */
  predicate Agrees(up: CaseMap, row: Row, identity: Identity) {
    && identity.schoolId == Trim(row.payload.schoolId) && identity.branchId == Trim(row.payload.branchId)
    && (Trim(row.payload.admissionNumber) != "" ==>
          NormalizeNumber(up, row.payload.admissionNumber) == identity.normalizedNumber)
  }

  /** A live row is confirmed exactly when its student is registered, and then carries that number. */
  predicate Confirmed(row: Row, key: StudentKey, registry: Registry) {
    && row.payload.id == row.localId
    && row.payload.confirmed == (key in registry)
    && row.payload.admissionNumber == if key in registry then registry[key].admissionNumber else ""
  }

  predicate WellFormedIdentity(up: CaseMap, row: Identity) {
    && Trim(row.admissionNumber) == row.admissionNumber != ""
    && row.normalizedNumber == NormalizeNumber(up, row.admissionNumber)
  }

  ghost predicate Inv(up: CaseMap, accountId: string, s: Store) {
    && UniqueNumbers(s.tables.registry)
    && (forall key :: key in s.tables.registry ==>
          key.accountId == accountId && HasRow(s.rows, key.studentId) && WellFormedIdentity(up, s.tables.registry[key]))
    && (forall a, b :: a in s.rows && b in s.rows && s.rows[a].localId == s.rows[b].localId ==> a == b)
    && (forall id :: id in s.rows ==> RowInv(up, accountId, s.rows[id], s.tables.registry))
  }

  ghost predicate RowInv(up: CaseMap, accountId: string, row: Row, registry: Registry) {
    var key := StudentKey(accountId, row.localId);
    && IsUuid(row.localId) && Trim(row.localId) == row.localId
    && Trim(row.payload.schoolId) != "" && Trim(row.payload.branchId) != ""
    && (key in registry ==> Agrees(up, row, registry[key]))
    && (!row.isDeleted ==> Confirmed(row, key, registry))
  }

  // ---------------------------------------------------------------- one push

  /** An existing row refuses the push without any write: another number, or an older edit. */
  predicate IsStale(up: CaseMap, accountId: string, row: Row, registry: Registry, p: Push) {
    var key := StudentKey(accountId, p.StudentId());
    var known := Trim(if key in registry then registry[key].admissionNumber else row.payload.admissionNumber);
    || (known != "" && p.Number() != "" && NormalizeNumber(up, p.Number()) != NormalizeNumber(up, known))
    || !(p.version > row.version || p.updatedAt >= row.updatedAt)
  }

  /** The answer of the capacity check, which is asked only for students who are not live. */
  ghost predicate CapacityRefuses(rows: map<string, Row>, p: Push, quota: Quota) {
    var live := LiveStudents(rows);
    && quota.mode == Enforce
    && (!quota.entitled || (p.StudentId() !in live && quota.maxStudents.Some? && |live| >= quota.maxStudents.value))
  }

  function Tombstone(p: Push, rowId: string, rows: map<string, Row>): Row {
    var deviceId := if p.deviceId == "" && rowId in rows then rows[rowId].deviceId else p.deviceId;
    var payload := if rowId in rows then p.payload.(cloudId := rowId) else p.payload;
    Row(p.StudentId(), deviceId, p.version, p.updatedAt, true, payload)
  }

  /** The number the stored row brings into the transaction. */
  function OldNumber(rows: map<string, Row>, rowId: string): string {
    if rowId in rows then Trim(rows[rowId].payload.admissionNumber) else ""
  }

  function Supplied(p: Push, oldNumber: string): string {
    Trim(if p.payload.admissionNumber != "" then p.payload.admissionNumber else oldNumber)
  }

  function LiveRow(p: Push, rowId: string, rows: map<string, Row>, a: Option<Assignment>): Row {
    var number := if a.Some? then a.value.admissionNumber else Supplied(p, OldNumber(rows, rowId));
    var deviceId := if p.deviceId == "" && rowId in rows then rows[rowId].deviceId else p.deviceId;
    Row(p.StudentId(), deviceId, p.version, p.updatedAt, false,
        p.payload.(id := p.StudentId(), cloudId := rowId, admissionNumber := number,
                   provisional := false, confirmed := a.Some?))
  }

  function AllocationRequest(accountId: string, p: Push, oldNumber: string, c: Configuration): Request {
    var provisional := c.mode == Automatic || (c.mode == AutomaticOrManual && p.payload.provisional);
    Request(accountId, p.SchoolId(), p.BranchId(), p.StudentId(), Some(Supplied(p, oldNumber)),
            provisional && oldNumber == "", c)
  }

  /** The registry after the number of the stored row has been protected as legacy data. */
  function WithLegacy(up: CaseMap, accountId: string, t: Tables, p: Push, oldNumber: string): Tables {
    var key := StudentKey(accountId, p.StudentId());
    if oldNumber == "" || key in t.registry then t
    else t.(registry := t.registry[key :=
              Identity(p.SchoolId(), p.BranchId(), oldNumber, NormalizeNumber(up, oldNumber))])
  }

  /** No other student of the branch holds the number of the stored row. */
  predicate LegacyFree(up: CaseMap, accountId: string, t: Tables, p: Push, oldNumber: string) {
    oldNumber == "" || StudentKey(accountId, p.StudentId()) in t.registry ||
    !NumberUsed(t.registry, Branch(accountId, p.SchoolId(), p.BranchId()), NormalizeNumber(up, oldNumber))
  }

  /** rowId is the student's row, or the id of the row to be created when there is none. */
  predicate TargetRow(rows: map<string, Row>, p: Push, rowId: string) {
    if rowId in rows then rows[rowId].localId == p.StudentId()
    else rowId == p.newRowId && !HasRow(rows, p.StudentId())
  }

  predicate CloudAgrees(rows: map<string, Row>, p: Push) {
    p.cloudId != "" && p.cloudId in rows ==> rows[p.cloudId].localId == p.StudentId()
  }

  predicate SameScope(rows: map<string, Row>, p: Push, rowId: string) {
    rowId in rows ==>
      Trim(rows[rowId].payload.schoolId) == p.SchoolId() && Trim(rows[rowId].payload.branchId) == p.BranchId()
  }

  /** What a push may answer and leave behind; a rejection leaves everything as it was. */
  ghost predicate Pushed(up: CaseMap, accountId: string, before: Store, p: Push, quota: Quota, o: Outcome, after: Store) {
    var student, registry := p.StudentId(), before.tables.registry;
    match o
    case Rejected(e) => after == before && Reason(up, accountId, before, p, quota, e)
    case Stale(id) =>
      && after == before && CloudAgrees(before.rows, p) && id in before.rows && before.rows[id].localId == student
      && SameScope(before.rows, p, id) && IsStale(up, accountId, before.rows[id], registry, p)
    case Saved(id) =>
      && CloudAgrees(before.rows, p) && IsUuid(student) && p.SchoolId() != "" && p.BranchId() != ""
      && TargetRow(before.rows, p, id) && SameScope(before.rows, p, id)
      && (id in before.rows ==> !IsStale(up, accountId, before.rows[id], registry, p))
      && if p.isDeleted then after == before.(rows := before.rows[id := Tombstone(p, id, before.rows)])
         else
           && (student !in LiveStudents(before.rows) ==> !CapacityRefuses(before.rows, p, quota))
           && NormalizeConfig(up, p.settings).Ok?
           && exists a :: SavedLive(up, accountId, before, p, id, NormalizeConfig(up, p.settings).value, a, after)
  }

  ghost predicate SavedLive(up: CaseMap, accountId: string, before: Store, p: Push, id: string, c: Configuration,
                            a: Option<Assignment>, after: Store)
  {
    var oldNumber := OldNumber(before.rows, id);
    && Allocated(up, WithLegacy(up, accountId, before.tables, p, oldNumber),
                 AllocationRequest(accountId, p, oldNumber, c), Ok(a), after.tables)
    && LegacyFree(up, accountId, before.tables, p, oldNumber)
    && after.rows == before.rows[id := LiveRow(p, id, before.rows, a)]
  }

  /** The allocation for the student's row fails, and would have left these tables. */
  ghost predicate AllocationRefuses(up: CaseMap, accountId: string, s: Store, p: Push, id: string, c: Configuration,
                                    e: AdmissionError, tables: Tables)
  {
    && TargetRow(s.rows, p, id) && SameScope(s.rows, p, id)
    && Allocated(up, WithLegacy(up, accountId, s.tables, p, OldNumber(s.rows, id)),
                 AllocationRequest(accountId, p, OldNumber(s.rows, id), c), Err(e), tables)
  }

  /** What the live branch of a push may answer and leave behind. */
  ghost predicate LiveOutcome(up: CaseMap, accountId: string, before: Store, p: Push, id: string, c: Configuration,
                              o: Outcome, after: Store)
  {
    var carried := OldNumber(before.rows, id);
    match o
    case Saved(rowId) => rowId == id && exists a :: SavedLive(up, accountId, before, p, id, c, a, after)
    case Rejected(UniqueViolation) => !LegacyFree(up, accountId, before.tables, p, carried)
    case Rejected(AllocationFailed(e)) =>
      exists tables :: AllocationRefuses(up, accountId, before, p, id, c, e, tables)
    case _ => false
  }

  /** Why a push is rejected. */
  ghost predicate Reason(up: CaseMap, accountId: string, s: Store, p: Push, quota: Quota, e: PushError) {
    var student, registry := p.StudentId(), s.tables.registry;
    match e
    case InvalidLocalId => !IsUuid(student)
    case MissingScope => p.SchoolId() == "" || p.BranchId() == ""
    case CloudMismatch => !CloudAgrees(s.rows, p)
    case TransferRequired => exists id :: id in s.rows && s.rows[id].localId == student && !SameScope(s.rows, p, id)
    case CapacityRefused => !p.isDeleted && student !in LiveStudents(s.rows) && CapacityRefuses(s.rows, p, quota)
    case BadSettings(ce) => !p.isDeleted && NormalizeConfig(up, p.settings) == Err(ce)
    case UniqueViolation =>
      !p.isDeleted && exists id :: TargetRow(s.rows, p, id) && SameScope(s.rows, p, id) &&
                                   !LegacyFree(up, accountId, s.tables, p, OldNumber(s.rows, id))
    case AllocationFailed(ae) =>
      !p.isDeleted && NormalizeConfig(up, p.settings).Ok? && exists id, tables ::
        AllocationRefuses(up, accountId, s, p, id, NormalizeConfig(up, p.settings).value, ae, tables)
    case SerializationFailure => true
    case HistoricalConflict => false
    case RegistryConflict => false
  }

  // ---------------------------------------------------------------- every push keeps the invariant

  lemma PushKeepsInv(up: CaseMap, accountId: string, before: Store, p: Push, quota: Quota, o: Outcome, after: Store)
    requires IsCaseTable(up) && Trim(accountId) == accountId
    requires Inv(up, accountId, before) && Pushed(up, accountId, before, p, quota, o, after)
    ensures Inv(up, accountId, after)
    ensures RegistryGrows(before.tables, after.tables)
  {
    if o.Saved? {
      var id := o.rowId;
      TrimIdempotent(p.localId);
      TrimIdempotent(p.payload.schoolId);
      TrimIdempotent(p.payload.branchId);
      if p.isDeleted {
        TombstoneKeepsInv(up, accountId, before, p, id, after);
      } else {
        var c := NormalizeConfig(up, p.settings).value;
        var a :| SavedLive(up, accountId, before, p, id, c, a, after);
        SavedLiveKeepsInv(up, accountId, before, p, id, c, a, after);
      }
    }
  }

  /** Registered identities never change or disappear and counters never go down. */
  ghost predicate RegistryGrows(before: Tables, after: Tables) {
    && (forall key :: key in before.registry ==> key in after.registry && after.registry[key] == before.registry[key])
    && (forall b :: b in before.sequences ==> b in after.sequences && before.sequences[b] <= after.sequences[b])
  }

  lemma TombstoneKeepsInv(up: CaseMap, accountId: string, before: Store, p: Push, id: string, after: Store)
    requires Inv(up, accountId, before) && IsUuid(p.StudentId()) && Trim(p.StudentId()) == p.StudentId()
    requires p.SchoolId() != "" && p.BranchId() != ""
    requires TargetRow(before.rows, p, id) && SameScope(before.rows, p, id)
    requires id in before.rows ==> !IsStale(up, accountId, before.rows[id], before.tables.registry, p)
    requires after == before.(rows := before.rows[id := Tombstone(p, id, before.rows)])
    ensures Inv(up, accountId, after)
  {
    var key, row := StudentKey(accountId, p.StudentId()), after.rows[id];
    if key in before.tables.registry {
      assert id in before.rows;
      assert RowInv(up, accountId, before.rows[id], before.tables.registry);
      assert Agrees(up, before.rows[id], before.tables.registry[key]);
      TrimmedNumberNormalizes(up, row.payload.admissionNumber);
      assert Agrees(up, row, before.tables.registry[key]);
    }
    RowReplaced(up, accountId, before, after, id, p.StudentId());
  }

  lemma TrimmedNumberNormalizes(up: CaseMap, number: string)
    ensures NormalizeNumber(up, Trim(number)) == NormalizeNumber(up, number)
  {
    TrimIdempotent(number);
  }

  lemma IdentitiesKeepRows(up: CaseMap, accountId: string, before: Store, after: Store, id: string, studentId: string)
    requires Inv(up, accountId, before)
    requires id in after.rows && after.rows == before.rows[id := after.rows[id]] && after.rows[id].localId == studentId
    requires id in before.rows ==> before.rows[id].localId == studentId
    requires forall key :: key in before.tables.registry ==>
      key in after.tables.registry && after.tables.registry[key] == before.tables.registry[key]
    requires forall key :: key in after.tables.registry && key !in before.tables.registry ==>
      key == StudentKey(accountId, studentId) && WellFormedIdentity(up, after.tables.registry[key])
    ensures forall key :: key in after.tables.registry ==>
      key.accountId == accountId && HasRow(after.rows, key.studentId) && WellFormedIdentity(up, after.tables.registry[key])
  {
    forall key | key in after.tables.registry
      ensures key.accountId == accountId && HasRow(after.rows, key.studentId) && WellFormedIdentity(up, after.tables.registry[key])
    {
      if key in before.tables.registry {
        var other :| other in before.rows && before.rows[other].localId == key.studentId;
        assert other in after.rows && after.rows[other].localId == key.studentId;
      } else {
        assert after.rows[id].localId == key.studentId;
      }
    }
  }

  /** Writing one student's row and at most that student's identity keeps the invariant, given that
      the new row agrees with the new registry. */
  lemma RowReplaced(up: CaseMap, accountId: string, before: Store, after: Store, id: string, studentId: string)
    requires Inv(up, accountId, before)
    requires id in after.rows && after.rows == before.rows[id := after.rows[id]] && after.rows[id].localId == studentId
    requires if id in before.rows then before.rows[id].localId == studentId else !HasRow(before.rows, studentId)
    requires UniqueNumbers(after.tables.registry)
    requires RowInv(up, accountId, after.rows[id], after.tables.registry)
    requires forall key :: key in before.tables.registry ==>
      key in after.tables.registry && after.tables.registry[key] == before.tables.registry[key]
    requires forall key :: key in after.tables.registry && key !in before.tables.registry ==>
      key == StudentKey(accountId, studentId) && WellFormedIdentity(up, after.tables.registry[key])
    ensures Inv(up, accountId, after)
  {
    IdentitiesKeepRows(up, accountId, before, after, id, studentId);
    forall other | other in after.rows && other != id
      ensures RowInv(up, accountId, after.rows[other], after.tables.registry) && after.rows[other].localId != studentId
    {
      assert after.rows[other] == before.rows[other];
      assert RowInv(up, accountId, before.rows[other], before.tables.registry);
    }
  }

  /** What a successful allocation says about the registry entry of its student. */
  lemma AllocatedIdentity(up: CaseMap, t: Tables, q: Request, c: Configuration, a: Option<Assignment>, after: Tables)
    requires IsCaseTable(up) && ValidConfiguration(up, c) && AllocatedUnder(up, t, q, c, Ok(a), after)
    requires q.Key() in t.registry ==> WellFormedIdentity(up, t.registry[q.Key()])
    ensures a.Some? <==> q.Key() in after.registry
    ensures a.Some? ==>
      var row := after.registry[q.Key()];
      && WellFormedIdentity(up, row) && row.schoolId == q.Scope().schoolId && row.branchId == q.Scope().branchId
      && row.admissionNumber == a.value.admissionNumber
    ensures a.None? ==> after == t && NormalizeNumber(up, q.Supplied()) == "" && !q.provisionalAutomatic
  {
    if q.Key() in t.registry {
    } else if NormalizeNumber(up, q.Supplied()) != "" && !q.provisionalAutomatic {
      NormalizeNumberStable(up, q.Supplied());
      TrimIdempotent(StringOr(q.supplied, ""));
    } else if c.mode != Manual {
      var counter := AutomaticIssue(up, t, q, c, Ok(a), after);
      CandidateTrimmed(c, counter);
    }
  }

  lemma SavedLiveKeepsInv(up: CaseMap, accountId: string, before: Store, p: Push, id: string, c: Configuration,
                          a: Option<Assignment>, after: Store)
    requires IsCaseTable(up) && Trim(accountId) == accountId
    requires Inv(up, accountId, before) && IsUuid(p.StudentId()) && Trim(p.StudentId()) == p.StudentId()
    requires Trim(p.SchoolId()) == p.SchoolId() != "" && Trim(p.BranchId()) == p.BranchId() != ""
    requires TargetRow(before.rows, p, id) && SameScope(before.rows, p, id)
    requires id in before.rows ==> !IsStale(up, accountId, before.rows[id], before.tables.registry, p)
    requires SavedLive(up, accountId, before, p, id, c, a, after)
    ensures Inv(up, accountId, after) && RegistryGrows(before.tables, after.tables)
  {
    var key, carried := StudentKey(accountId, p.StudentId()), OldNumber(before.rows, id);
    var t, q := WithLegacy(up, accountId, before.tables, p, carried), AllocationRequest(accountId, p, carried, c);
    LegacyKeepsRegistry(up, accountId, before, p, id);
    AllocationKeepsRegistry(up, t, q, Ok(a), after.tables);
    var used := NormalizeConfig(up, AsRaw(c)).value;
    NormalizeConfigValid(up, AsRaw(c));
    AllocatedIdentity(up, t, q, used, a, after.tables);
    assert q.Key() == key && q.Scope() == Branch(accountId, p.SchoolId(), p.BranchId());
    var row := after.rows[id];
    if a.Some? {
      assert row.payload.admissionNumber == after.tables.registry[key].admissionNumber;
    } else {
      TrimIdempotent(if p.payload.admissionNumber != "" then p.payload.admissionNumber else carried);
      NormalizeNumberStable(up, q.Supplied());
    }
    assert RowInv(up, accountId, row, after.tables.registry);
    RowReplaced(up, accountId, before, after, id, p.StudentId());
  }

  /** Registering the number of the stored row first keeps the registry well formed. */
  lemma LegacyKeepsRegistry(up: CaseMap, accountId: string, before: Store, p: Push, id: string)
    requires IsCaseTable(up) && Inv(up, accountId, before)
    requires LegacyFree(up, accountId, before.tables, p, OldNumber(before.rows, id))
    ensures var t := WithLegacy(up, accountId, before.tables, p, OldNumber(before.rows, id));
            && UniqueNumbers(t.registry) && t.sequences == before.tables.sequences
            && (forall key :: key in before.tables.registry ==>
                  key in t.registry && t.registry[key] == before.tables.registry[key])
            && (forall key :: key in t.registry && key !in before.tables.registry ==>
                  key == StudentKey(accountId, p.StudentId()) && WellFormedIdentity(up, t.registry[key]))
  {
    var key, carried := StudentKey(accountId, p.StudentId()), OldNumber(before.rows, id);
    if carried != "" && key !in before.tables.registry {
      TrimIdempotent(before.rows[id].payload.admissionNumber);
      NewNumberKeepsUnique(before.tables.registry, key,
                           Identity(p.SchoolId(), p.BranchId(), carried, NormalizeNumber(up, carried)));
    }
  }

  // ---------------------------------------------------------------- runs

  datatype Step = Step(push: Push, quota: Quota, outcome: Outcome)

  const EMPTY: Store := Store(map[], Tables(map[], map[]))

  ghost predicate Next(up: CaseMap, accountId: string, before: Store, step: Step, after: Store) {
    Pushed(up, accountId, before, step.push, step.quota, step.outcome, after)
  }

  /** A run of pushes from an empty account, with the store before and after every push. */
  ghost predicate Run(up: CaseMap, accountId: string, states: seq<Store>, steps: seq<Step>) {
    && |states| == |steps| + 1 && states[0] == EMPTY
    && forall i {:trigger steps[i]} :: 0 <= i < |steps| ==> Next(up, accountId, states[i], steps[i], states[i + 1])
  }

  lemma StepOfRun(up: CaseMap, accountId: string, states: seq<Store>, steps: seq<Step>, i: nat)
    requires Run(up, accountId, states, steps) && i < |steps|
    ensures Next(up, accountId, states[i], steps[i], states[i + 1])
  {
    var step := steps[i];
  }

  lemma StepKeepsInv(up: CaseMap, accountId: string, before: Store, step: Step, after: Store)
    requires IsCaseTable(up) && Trim(accountId) == accountId && Inv(up, accountId, before)
    requires Next(up, accountId, before, step, after)
    ensures Inv(up, accountId, after) && RegistryGrows(before.tables, after.tables)
  {
    PushKeepsInv(up, accountId, before, step.push, step.quota, step.outcome, after);
  }

  lemma {:induction false} RunKeepsInv(up: CaseMap, accountId: string, states: seq<Store>, steps: seq<Step>, i: nat)
    requires IsCaseTable(up) && Trim(accountId) == accountId && Run(up, accountId, states, steps) && i < |states|
    ensures Inv(up, accountId, states[i])
  {
    if i > 0 {
      RunKeepsInv(up, accountId, states, steps, i - 1);
      StepOfRun(up, accountId, states, steps, i - 1);
      StepKeepsInv(up, accountId, states[i - 1], steps[i - 1], states[i]);
    }
  }

  lemma GrowsOn(a: Tables, b: Tables, c: Tables)
    requires RegistryGrows(a, b) && RegistryGrows(b, c)
    ensures RegistryGrows(a, c)
  {
  }

  lemma StepGrows(up: CaseMap, accountId: string, states: seq<Store>, steps: seq<Step>, i: nat)
    requires IsCaseTable(up) && Trim(accountId) == accountId && Run(up, accountId, states, steps) && i < |steps|
    ensures RegistryGrows(states[i].tables, states[i + 1].tables)
  {
    RunKeepsInv(up, accountId, states, steps, i);
    StepOfRun(up, accountId, states, steps, i);
    StepKeepsInv(up, accountId, states[i], steps[i], states[i + 1]);
  }

  /** Registered numbers are permanent and counters never go down, between any two points of a run. */
  lemma {:induction false} RunGrows(up: CaseMap, accountId: string, states: seq<Store>, steps: seq<Step>, i: nat, j: nat)
    requires IsCaseTable(up) && Trim(accountId) == accountId && Run(up, accountId, states, steps)
    requires i <= j < |states|
    ensures RegistryGrows(states[i].tables, states[j].tables)
    decreases j
  {
    if i < j {
      RunGrows(up, accountId, states, steps, i, j - 1);
      StepGrows(up, accountId, states, steps, j - 1);
      GrowsOn(states[i].tables, states[j - 1].tables, states[j].tables);
    }
  }

  /** At every point of a run a live student row is marked confirmed exactly when the registry holds
      its student, and then shows the registered number. */
  lemma RunConfirms(up: CaseMap, accountId: string, states: seq<Store>, steps: seq<Step>, i: nat, a: string)
    requires IsCaseTable(up) && Trim(accountId) == accountId && Run(up, accountId, states, steps) && i < |states|
    requires a in states[i].rows && !states[i].rows[a].isDeleted
    ensures var row, key := states[i].rows[a], StudentKey(accountId, states[i].rows[a].localId);
            && row.payload.confirmed == (key in states[i].tables.registry)
            && row.payload.admissionNumber ==
                 (if row.payload.confirmed then states[i].tables.registry[key].admissionNumber else "")
  {
    RunKeepsInv(up, accountId, states, steps, i);
    assert RowInv(up, accountId, states[i].rows[a], states[i].tables.registry);
  }

  /** At every point of a run no two live rows of a branch, however often they were deleted and
      restored, show the same normalised number. */
  lemma RunKeepsNumbersApart(up: CaseMap, accountId: string, states: seq<Store>, steps: seq<Step>, i: nat, a: string, b: string)
    requires IsCaseTable(up) && Trim(accountId) == accountId && Run(up, accountId, states, steps) && i < |states|
    requires a in states[i].rows && !states[i].rows[a].isDeleted
    requires b in states[i].rows && !states[i].rows[b].isDeleted && a != b
    ensures var x, y := states[i].rows[a].payload, states[i].rows[b].payload;
            x.confirmed && Trim(x.schoolId) == Trim(y.schoolId) && Trim(x.branchId) == Trim(y.branchId)
            ==> NormalizeNumber(up, x.admissionNumber) != NormalizeNumber(up, y.admissionNumber)
  {
    RunKeepsInv(up, accountId, states, steps, i);
    var registry := states[i].tables.registry;
    var ra, rb := states[i].rows[a], states[i].rows[b];
    var ka, kb := StudentKey(accountId, ra.localId), StudentKey(accountId, rb.localId);
    assert RowInv(up, accountId, ra, registry) && RowInv(up, accountId, rb, registry);
    if ka in registry {
      NormalizeNumberStable(up, ra.payload.admissionNumber);
      NormalizeNumberStable(up, rb.payload.admissionNumber);
      assert WellFormedIdentity(up, registry[ka]);
      assert kb in registry ==> WellFormedIdentity(up, registry[kb]);
    }
  }

  /** The push took counter from the sequence of b. */
  ghost predicate Draws(before: Store, after: Store, b: Branch, counter: nat) {
    && b in after.tables.sequences && after.tables.sequences[b] == counter + 1
    && (b in before.tables.sequences ==> before.tables.sequences[b] != counter + 1)
  }

  ghost predicate IssuedTo(up: CaseMap, before: Registry, after: Registry, b: Branch, counter: nat, key: StudentKey, c: Configuration) {
    key !in before && key in after && ValidConfiguration(up, c) && after[key] == Issued(up, c, b, counter)
  }

  /** Some student was newly registered with a number formatted from counter. */
  ghost predicate RegistersDraw(up: CaseMap, before: Registry, after: Registry, b: Branch, counter: nat) {
    exists key, c :: IssuedTo(up, before, after, b, counter, key, c)
  }

  /** Counter values drawn automatically strictly increase, whatever seeds the branch settings carry. */
  lemma DrawsIncrease(up: CaseMap, accountId: string, states: seq<Store>, steps: seq<Step>,
                      i: nat, j: nat, b: Branch, first: nat, second: nat)
    requires IsCaseTable(up) && Trim(accountId) == accountId && Run(up, accountId, states, steps)
    requires i < j < |steps| && Draws(states[i], states[i + 1], b, first) && Draws(states[j], states[j + 1], b, second)
    ensures first < second
  {
    RunGrows(up, accountId, states, steps, i + 1, j);
    RunGrows(up, accountId, states, steps, j, j + 1);
  }

  /** A push that draws a counter value registers a number formatted from it. */
  lemma DrawRegisters(up: CaseMap, accountId: string, before: Store, p: Push, quota: Quota, o: Outcome, after: Store,
                      b: Branch, counter: nat)
    requires IsCaseTable(up) && Pushed(up, accountId, before, p, quota, o, after) && Draws(before, after, b, counter)
    ensures RegistersDraw(up, before.tables.registry, after.tables.registry, b, counter)
  {
    var id, c := o.rowId, NormalizeConfig(up, p.settings).value;
    var a :| SavedLive(up, accountId, before, p, id, c, a, after);
    var carried := OldNumber(before.rows, id);
    var q := AllocationRequest(accountId, p, carried, c);
    MovedCounterIsIssued(up, WithLegacy(up, accountId, before.tables, p, carried), q, Ok(a), after.tables, b, counter);
    var used := NormalizeConfig(up, AsRaw(c)).value;
    NormalizeConfigValid(up, AsRaw(c));
    assert IssuedTo(up, before.tables.registry, after.tables.registry, b, counter, q.Key(), used);
  }

  /** Under an enforced limit one push keeps the number of distinct live students within it, and
      neither a deletion nor an edit of a live student is refused for capacity. */
  lemma PushKeepsQuota(up: CaseMap, accountId: string, before: Store, p: Push, quota: Quota, o: Outcome, after: Store)
    requires Pushed(up, accountId, before, p, quota, o, after)
    ensures quota.mode == Enforce && quota.maxStudents.Some? && |LiveStudents(before.rows)| <= quota.maxStudents.value
            ==> |LiveStudents(after.rows)| <= quota.maxStudents.value
    ensures p.isDeleted || p.StudentId() in LiveStudents(before.rows) ==> o != Rejected(CapacityRefused)
  {
    if o.Saved? {
      var live, student := LiveStudents(before.rows), p.StudentId();
      SavedLiveStudents(up, accountId, before, p, quota, o, after);
      SubsetSize(LiveStudents(after.rows), if p.isDeleted || student in live then live else live + {student});
    }
  }

  /** A saved push makes at most its own student live, and a deletion none. */
  lemma SavedLiveStudents(up: CaseMap, accountId: string, before: Store, p: Push, quota: Quota, o: Outcome, after: Store)
    requires Pushed(up, accountId, before, p, quota, o, after) && o.Saved?
    ensures LiveStudents(after.rows) <= LiveStudents(before.rows) + {p.StudentId()}
    ensures p.isDeleted || p.StudentId() in LiveStudents(before.rows) ==> LiveStudents(after.rows) <= LiveStudents(before.rows)
  {
  }

  lemma {:induction false} SubsetSize<T>(a: set<T>, b: set<T>)
    requires a <= b
    ensures |a| <= |b|
  {
    if a != {} {
      var x :| x in a;
      SubsetSize(a - {x}, b - {x});
    }
  }

  lemma StepKeepsQuota(up: CaseMap, accountId: string, before: Store, step: Step, after: Store, limit: nat)
    requires step.quota.mode == Enforce && step.quota.maxStudents == Some(limit) && |LiveStudents(before.rows)| <= limit
    ensures Next(up, accountId, before, step, after) ==> |LiveStudents(after.rows)| <= limit
  {
    if Next(up, accountId, before, step, after) {
      PushKeepsQuota(up, accountId, before, step.push, step.quota, step.outcome, after);
    }
  }

  /** The same limit is enforced at every step. */
  ghost predicate Enforced(steps: seq<Step>, limit: nat) {
    forall k :: 0 <= k < |steps| ==> steps[k].quota.mode == Enforce && steps[k].quota.maxStudents == Some(limit)
  }

  lemma EmptyWithinQuota()
    ensures |LiveStudents(EMPTY.rows)| == 0
  {
  }

  lemma RunStepKeepsQuota(up: CaseMap, accountId: string, states: seq<Store>, steps: seq<Step>, i: nat, limit: nat)
    requires Run(up, accountId, states, steps) && Enforced(steps, limit) && i < |steps|
    requires |LiveStudents(states[i].rows)| <= limit
    ensures |LiveStudents(states[i + 1].rows)| <= limit
  {
    StepOfRun(up, accountId, states, steps, i);
    StepKeepsQuota(up, accountId, states[i], steps[i], states[i + 1], limit);
  }

  /** No run of pushes, deletions and restorations under a fixed enforced limit exceeds it. */
  lemma {:induction false} RunKeepsQuota(up: CaseMap, accountId: string, states: seq<Store>, steps: seq<Step>, i: nat, limit: nat)
    requires Run(up, accountId, states, steps) && Enforced(steps, limit) && i < |states|
    ensures |LiveStudents(states[i].rows)| <= limit
  {
    if i == 0 {
      EmptyWithinQuota();
    } else {
      RunKeepsQuota(up, accountId, states, steps, i - 1, limit);
      RunStepKeepsQuota(up, accountId, states, steps, i - 1, limit);
    }
  }

  // ---------------------------------------------------------------- which number a push leads to

  ghost predicate LivePush(up: CaseMap, accountId: string, before: Store, p: Push, quota: Quota, o: Outcome, after: Store) {
    && IsCaseTable(up) && Trim(accountId) == accountId != "" && !p.isDeleted
    && p.StudentId() != "" && p.SchoolId() != "" && p.BranchId() != ""
    && Pushed(up, accountId, before, p, quota, o, after)
  }

  predicate Registered(accountId: string, s: Store, p: Push) {
    StudentKey(accountId, p.StudentId()) in s.tables.registry
  }

  /** No stored row of the student shows a number. */
  predicate NoStoredNumber(s: Store, p: Push) {
    forall id :: id in s.rows && s.rows[id].localId == p.StudentId() ==> Trim(s.rows[id].payload.admissionNumber) == ""
  }

  function BranchOf(accountId: string, p: Push): Branch {
    Branch(accountId, p.SchoolId(), p.BranchId())
  }

  /** The saved row shows this number, and the registry has it for the student. */
  predicate Shows(up: CaseMap, accountId: string, p: Push, o: Outcome, after: Store, number: string) {
    && o.Saved? && o.rowId in after.rows && Registered(accountId, after, p)
    && after.rows[o.rowId].payload.admissionNumber == number && after.rows[o.rowId].payload.confirmed
    && after.tables.registry[StudentKey(accountId, p.StudentId())] ==
       Identity(p.SchoolId(), p.BranchId(), number, NormalizeNumber(up, number))
  }

  /** The saved row shows the least free number of its branch, whose counter moves past it. */
  ghost predicate ShowsDrawn(up: CaseMap, accountId: string, before: Store, p: Push, o: Outcome, c: Configuration, after: Store)
    requires c.padding >= 0 && c.nextSequence >= 0
  {
    var b := BranchOf(accountId, p);
    exists counter: nat ::
      && LeastFree(up, before.tables.registry, b, c, if b in before.tables.sequences then before.tables.sequences[b] else c.nextSequence, counter)
      && Shows(up, accountId, p, o, after, AdmissionNumber(c, counter))
      && after.tables.sequences == before.tables.sequences[b := counter + 1]
  }

  lemma RequestNames(up: CaseMap, accountId: string, p: Push, oldNumber: string, c: Configuration)
    requires IsCaseTable(up) && Trim(accountId) == accountId && NormalizeConfig(up, p.settings) == Ok(c)
    ensures NormalizeConfig(up, AsRaw(c)) == Ok(c)
    ensures var q := AllocationRequest(accountId, p, oldNumber, c);
            q.Key() == StudentKey(accountId, p.StudentId()) && q.Scope() == BranchOf(accountId, p) && q.config == c
  {
    NormalizeConfigValid(up, p.settings);
    NormalizeConfigStable(up, c);
    TrimIdempotent(p.localId);
    TrimIdempotent(p.payload.schoolId);
    TrimIdempotent(p.payload.branchId);
  }

  /** A push for a student without a number reaches the allocator as it is. */
  lemma RequestAsIs(up: CaseMap, accountId: string, p: Push, c: Configuration)
    requires IsCaseTable(up) && Trim(accountId) == accountId && NormalizeConfig(up, p.settings) == Ok(c)
    ensures NormalizeConfig(up, AsRaw(c)) == Ok(c)
    ensures var q := AllocationRequest(accountId, p, "", c);
            && q.Key() == StudentKey(accountId, p.StudentId()) && q.Scope() == BranchOf(accountId, p) && q.config == c
            && q.Supplied() == p.Number()
            && q.provisionalAutomatic == (c.mode == Automatic || (c.mode == AutomaticOrManual && p.payload.provisional))
  {
    RequestNames(up, accountId, p, "", c);
    TrimIdempotent(p.payload.admissionNumber);
  }

  lemma NothingCarried(up: CaseMap, accountId: string, before: Store, p: Push, id: string)
    requires TargetRow(before.rows, p, id) && NoStoredNumber(before, p)
    ensures OldNumber(before.rows, id) == "" && WithLegacy(up, accountId, before.tables, p, "") == before.tables
  {
  }

  lemma AllocationOf(up: CaseMap, accountId: string, before: Store, p: Push, quota: Quota, o: Outcome, after: Store)
    returns (c: Configuration, a: Option<Assignment>)
    requires LivePush(up, accountId, before, p, quota, o, after) && o.Saved?
    ensures NormalizeConfig(up, p.settings) == Ok(c) && TargetRow(before.rows, p, o.rowId) && SameScope(before.rows, p, o.rowId)
    ensures SavedLive(up, accountId, before, p, o.rowId, c, a, after)
  {
    c := NormalizeConfig(up, p.settings).value;
    a :| SavedLive(up, accountId, before, p, o.rowId, c, a, after);
  }

  lemma RejectionReason(up: CaseMap, accountId: string, before: Store, p: Push, quota: Quota, o: Outcome, after: Store)
    requires Pushed(up, accountId, before, p, quota, o, after) && o.Rejected?
    ensures Reason(up, accountId, before, p, quota, o.error)
  {
  }

  lemma FailureOf(up: CaseMap, accountId: string, s: Store, p: Push, quota: Quota, e: AdmissionError)
    returns (c: Configuration, id: string, tables: Tables)
    requires Reason(up, accountId, s, p, quota, AllocationFailed(e))
    ensures NormalizeConfig(up, p.settings) == Ok(c) && AllocationRefuses(up, accountId, s, p, id, c, e, tables)
  {
    c := NormalizeConfig(up, p.settings).value;
    id, tables :| AllocationRefuses(up, accountId, s, p, id, c, e, tables);
  }

  /** The allocation behind a saved row, */
  ghost predicate SavedAs(up: CaseMap, accountId: string, before: Store, p: Push, id: string, c: Configuration, after: Store)
    requires c.padding >= 1 && c.nextSequence >= 1
  {
    exists a :: && AllocatedUnder(up, before.tables, AllocationRequest(accountId, p, "", c), c, Ok(a), after.tables)
                && id in after.rows && after.rows[id] == LiveRow(p, id, before.rows, a)
  }

  /** or behind a failure. */
  ghost predicate FailedAs(up: CaseMap, accountId: string, before: Store, p: Push, c: Configuration, e: AdmissionError)
    requires c.padding >= 1 && c.nextSequence >= 1
  {
    exists tables :: AllocatedUnder(up, before.tables, AllocationRequest(accountId, p, "", c), c, Err(e), tables)
  }

  lemma SavedFresh(up: CaseMap, accountId: string, before: Store, p: Push, quota: Quota, o: Outcome, after: Store, c: Configuration)
    requires LivePush(up, accountId, before, p, quota, o, after) && o.Saved?
    requires NoStoredNumber(before, p) && NormalizeConfig(up, p.settings) == Ok(c)
    ensures SavedAs(up, accountId, before, p, o.rowId, c, after)
  {
    NothingCarried(up, accountId, before, p, o.rowId);
    RequestAsIs(up, accountId, p, c);
    var _, a := AllocationOf(up, accountId, before, p, quota, o, after);
    assert AllocatedUnder(up, before.tables, AllocationRequest(accountId, p, "", c), c, Ok(a), after.tables);
  }

  lemma FailedFresh(up: CaseMap, accountId: string, before: Store, p: Push, quota: Quota, o: Outcome, after: Store, c: Configuration)
    requires LivePush(up, accountId, before, p, quota, o, after) && o.Rejected? && o.error.AllocationFailed?
    requires NoStoredNumber(before, p) && NormalizeConfig(up, p.settings) == Ok(c)
    ensures FailedAs(up, accountId, before, p, c, o.error.allocation)
  {
    RejectionReason(up, accountId, before, p, quota, o, after);
    var _, id, tables := FailureOf(up, accountId, before, p, quota, o.error.allocation);
    NothingCarried(up, accountId, before, p, id);
    RequestAsIs(up, accountId, p, c);
    assert AllocatedUnder(up, before.tables, AllocationRequest(accountId, p, "", c), c, Err(o.error.allocation), tables);
  }

  /** In automatic mode always, and in mixed mode for a push that is marked provisional or carries no
      number, a new number is drawn: whatever number a device assigned, the push is never refused
      for it. */
  lemma NumberIsDrawn(up: CaseMap, accountId: string, before: Store, p: Push, quota: Quota, o: Outcome, after: Store, c: Configuration)
    requires LivePush(up, accountId, before, p, quota, o, after)
    requires !Registered(accountId, before, p) && NoStoredNumber(before, p) && NormalizeConfig(up, p.settings) == Ok(c)
    requires c.mode == Automatic || (c.mode == AutomaticOrManual && (p.payload.provisional || p.Number() == ""))
    ensures o.Saved? ==> ShowsDrawn(up, accountId, before, p, o, c, after)
    ensures o.Rejected? && o.error.AllocationFailed? ==> o.error.allocation in {UnsafeSequence, NoFreeNumber}
  {
    RequestAsIs(up, accountId, p, c);
    if o.Saved? {
      SavedFresh(up, accountId, before, p, quota, o, after, c);
      DrawnFor(up, accountId, before, p, o, c, after);
    } else if o.Rejected? && o.error.AllocationFailed? {
      FailedFresh(up, accountId, before, p, quota, o, after, c);
      var q := AllocationRequest(accountId, p, "", c);
      var tables :| AllocatedUnder(up, before.tables, q, c, Err(o.error.allocation), tables);
      DrawRefused(up, before.tables, q, c, o.error.allocation, tables);
    }
  }

  /** A request that asks for a number to be drawn. */
  predicate AsksDraw(t: Tables, q: Request, c: Configuration) {
    q.Key() !in t.registry && c.mode != Manual && (q.provisionalAutomatic || q.Supplied() == "")
  }

  lemma DrawRefused(up: CaseMap, t: Tables, q: Request, c: Configuration, e: AdmissionError, after: Tables)
    requires IsCaseTable(up) && c.padding >= 1 && c.nextSequence >= 1 && AsksDraw(t, q, c)
    requires AllocatedUnder(up, t, q, c, Err(e), after)
    ensures e in {UnsafeSequence, NoFreeNumber}
  {
    FreshNumber(up, StringOr(q.supplied, ""));
    FreshNumber(up, q.Supplied());
  }

  lemma DrawAnswered(up: CaseMap, t: Tables, q: Request, c: Configuration, a: Option<Assignment>, after: Tables) returns (counter: nat)
    requires IsCaseTable(up) && c.padding >= 1 && c.nextSequence >= 1 && AsksDraw(t, q, c)
    requires AllocatedUnder(up, t, q, c, Ok(a), after)
    ensures a.Some? && LeastFree(up, t.registry, q.Scope(), c, SearchStart(t, q.Scope(), c), counter)
    ensures IssuedAt(up, t, q, c, counter, a.value, after)
  {
    FreshNumber(up, StringOr(q.supplied, ""));
    FreshNumber(up, q.Supplied());
    counter :| LeastFree(up, t.registry, q.Scope(), c, SearchStart(t, q.Scope(), c), counter)
      && IssuedAt(up, t, q, c, counter, a.value, after);
  }

  lemma DrawnFor(up: CaseMap, accountId: string, before: Store, p: Push, o: Outcome, c: Configuration, after: Store)
    requires IsCaseTable(up) && c.padding >= 1 && c.nextSequence >= 1 && o.Saved? && SavedAs(up, accountId, before, p, o.rowId, c, after)
    requires var q := AllocationRequest(accountId, p, "", c);
             && AsksDraw(before.tables, q, c) && q.Scope() == BranchOf(accountId, p) && q.Key() == StudentKey(accountId, p.StudentId())
    ensures ShowsDrawn(up, accountId, before, p, o, c, after)
  {
    var q := AllocationRequest(accountId, p, "", c);
    var a :| AllocatedUnder(up, before.tables, q, c, Ok(a), after.tables) && o.rowId in after.rows &&
             after.rows[o.rowId] == LiveRow(p, o.rowId, before.rows, a);
    var counter := DrawAnswered(up, before.tables, q, c, a, after.tables);
    assert Shows(up, accountId, p, o, after, AdmissionNumber(c, counter));
  }

  lemma FreshNumber(up: CaseMap, number: string)
    requires IsCaseTable(up)
    ensures NormalizeNumber(up, number) == "" <==> Trim(number) == ""
    ensures Trim(Trim(number)) == Trim(number)
  {
    NormalizeNumberStable(up, number);
    TrimIdempotent(number);
  }

  /** A number typed in manual mode, or in mixed mode without the provisional mark, is the number
      shown, trimmed; it is refused exactly for being taken in the branch. */
  lemma TypedNumberIsKept(up: CaseMap, accountId: string, before: Store, p: Push, quota: Quota, o: Outcome, after: Store, c: Configuration)
    requires LivePush(up, accountId, before, p, quota, o, after)
    requires !Registered(accountId, before, p) && NoStoredNumber(before, p) && NormalizeConfig(up, p.settings) == Ok(c)
    requires p.Number() != "" && (c.mode == Manual || (c.mode == AutomaticOrManual && !p.payload.provisional))
    ensures var taken := NumberUsed(before.tables.registry, BranchOf(accountId, p), NormalizeNumber(up, p.Number()));
            && (o.Saved? ==> !taken && Shows(up, accountId, p, o, after, p.Number()) && after.tables.sequences == before.tables.sequences)
            && (o.Rejected? && o.error.AllocationFailed? ==> taken && o.error.allocation == NumberTaken)
  {
    RequestAsIs(up, accountId, p, c);
    FreshNumber(up, p.payload.admissionNumber);
    FreshNumber(up, p.Number());
    var q := AllocationRequest(accountId, p, "", c);
    if o.Saved? {
      SavedFresh(up, accountId, before, p, quota, o, after, c);
      var a :| && AllocatedUnder(up, before.tables, q, c, Ok(a), after.tables)
               && after.rows[o.rowId] == LiveRow(p, o.rowId, before.rows, a);
    } else if o.Rejected? && o.error.AllocationFailed? {
      FailedFresh(up, accountId, before, p, quota, o, after, c);
      var tables :| AllocatedUnder(up, before.tables, q, c, Err(o.error.allocation), tables);
    }
  }

  /** Without a number a student of a branch in manual mode is stored without one, and registers none. */
  lemma NoNumberInManualMode(up: CaseMap, accountId: string, before: Store, p: Push, quota: Quota, o: Outcome, after: Store, c: Configuration)
    requires LivePush(up, accountId, before, p, quota, o, after)
    requires !Registered(accountId, before, p) && NoStoredNumber(before, p) && NormalizeConfig(up, p.settings) == Ok(c)
    requires p.Number() == "" && c.mode == Manual
    ensures o.Saved? ==>
              && o.rowId in after.rows && after.rows[o.rowId].payload.admissionNumber == "" && !after.rows[o.rowId].payload.confirmed
              && after.tables == before.tables
    ensures !(o.Rejected? && o.error.AllocationFailed?)
  {
    RequestAsIs(up, accountId, p, c);
    FreshNumber(up, p.payload.admissionNumber);
    var q := AllocationRequest(accountId, p, "", c);
    if o.Saved? {
      NothingCarried(up, accountId, before, p, o.rowId);
      SavedFresh(up, accountId, before, p, quota, o, after, c);
      var a :| && AllocatedUnder(up, before.tables, q, c, Ok(a), after.tables)
               && after.rows[o.rowId] == LiveRow(p, o.rowId, before.rows, a);
    } else if o.Rejected? && o.error.AllocationFailed? {
      FailedFresh(up, accountId, before, p, quota, o, after, c);
    }
  }

  /** The registry's answer for a student whom it knows in the request's branch. */
  lemma Protected(up: CaseMap, t: Tables, q: Request, answer: Answer, after: Tables)
    requires IsCaseTable(up) && NormalizeConfig(up, AsRaw(q.config)).Ok? && Allocated(up, t, q, answer, after)
    requires "" !in {q.Scope().accountId, q.Scope().schoolId, q.Scope().branchId, q.Key().studentId} && q.Key() in t.registry
    requires t.registry[q.Key()].schoolId == q.Scope().schoolId && t.registry[q.Key()].branchId == q.Scope().branchId
    ensures answer.Ok? && answer.value.Some? && answer.value.value.admissionNumber == t.registry[q.Key()].admissionNumber
    ensures after == t
  {
  }

  lemma RegisteredHere(up: CaseMap, accountId: string, s: Store, p: Push, id: string)
    requires Inv(up, accountId, s) && Registered(accountId, s, p) && TargetRow(s.rows, p, id) && SameScope(s.rows, p, id)
    ensures var row := s.tables.registry[StudentKey(accountId, p.StudentId())];
            row == Identity(p.SchoolId(), p.BranchId(), row.admissionNumber, NormalizeNumber(up, row.admissionNumber))
  {
    assert RowInv(up, accountId, s.rows[id], s.tables.registry);
  }

  lemma RegisteredNotRefused(up: CaseMap, accountId: string, before: Store, p: Push, id: string, c: Configuration,
                             e: AdmissionError, tables: Tables)
    requires IsCaseTable(up) && Trim(accountId) == accountId != "" && "" !in {p.StudentId(), p.SchoolId(), p.BranchId()}
    requires Registered(accountId, before, p) && Inv(up, accountId, before) && NormalizeConfig(up, p.settings) == Ok(c)
    ensures !AllocationRefuses(up, accountId, before, p, id, c, e, tables)
  {
    if AllocationRefuses(up, accountId, before, p, id, c, e, tables) {
      RequestNames(up, accountId, p, OldNumber(before.rows, id), c);
      RegisteredHere(up, accountId, before, p, id);
      Protected(up, before.tables, AllocationRequest(accountId, p, OldNumber(before.rows, id), c), Err(e), tables);
    }
  }

  lemma RegisteredSaved(up: CaseMap, accountId: string, before: Store, p: Push, id: string, c: Configuration,
                        a: Option<Assignment>, after: Store)
    requires IsCaseTable(up) && Trim(accountId) == accountId != "" && "" !in {p.StudentId(), p.SchoolId(), p.BranchId()}
    requires Registered(accountId, before, p) && Inv(up, accountId, before) && NormalizeConfig(up, p.settings) == Ok(c)
    requires TargetRow(before.rows, p, id) && SameScope(before.rows, p, id) && SavedLive(up, accountId, before, p, id, c, a, after)
    ensures Shows(up, accountId, p, Saved(id), after, before.tables.registry[StudentKey(accountId, p.StudentId())].admissionNumber)
    ensures after.tables == before.tables
  {
    RequestNames(up, accountId, p, OldNumber(before.rows, id), c);
    RegisteredHere(up, accountId, before, p, id);
    Protected(up, before.tables, AllocationRequest(accountId, p, OldNumber(before.rows, id), c), Ok(a), after.tables);
  }

  /** A registered student keeps the registered number, whatever the push says and however often the
      student is deleted and restored, */
  lemma RegisteredNumberIsKept(up: CaseMap, accountId: string, before: Store, p: Push, quota: Quota, o: Outcome, after: Store)
    requires LivePush(up, accountId, before, p, quota, o, after)
    requires Registered(accountId, before, p) && Inv(up, accountId, before) && o.Saved?
    ensures Shows(up, accountId, p, o, after, before.tables.registry[StudentKey(accountId, p.StudentId())].admissionNumber)
    ensures after.tables == before.tables
  {
    var c, a := AllocationOf(up, accountId, before, p, quota, o, after);
    RegisteredSaved(up, accountId, before, p, o.rowId, c, a, after);
  }

  lemma RegisteredHasNoReason(up: CaseMap, accountId: string, s: Store, p: Push, quota: Quota, e: PushError)
    requires IsCaseTable(up) && Trim(accountId) == accountId != "" && "" !in {p.StudentId(), p.SchoolId(), p.BranchId()}
    requires Registered(accountId, s, p) && Inv(up, accountId, s) && Reason(up, accountId, s, p, quota, e)
    ensures !e.AllocationFailed? && !e.UniqueViolation?
  {
    if e.AllocationFailed? {
      var c, id, tables := FailureOf(up, accountId, s, p, quota, e.allocation);
      RegisteredNotRefused(up, accountId, s, p, id, c, e.allocation, tables);
    }
  }

  /** and is never refused for a number. */
  lemma RegisteredNeverRefused(up: CaseMap, accountId: string, before: Store, p: Push, quota: Quota, o: Outcome, after: Store)
    requires LivePush(up, accountId, before, p, quota, o, after)
    requires Registered(accountId, before, p) && Inv(up, accountId, before) && o.Rejected?
    ensures !o.error.AllocationFailed? && !o.error.UniqueViolation?
  {
    RejectionReason(up, accountId, before, p, quota, o, after);
    RegisteredHasNoReason(up, accountId, before, p, quota, o.error);
  }

  lemma CarriedNotRefused(up: CaseMap, accountId: string, before: Store, p: Push, id: string, c: Configuration,
                          e: AdmissionError, tables: Tables)
    requires IsCaseTable(up) && Trim(accountId) == accountId != "" && "" !in {p.StudentId(), p.SchoolId(), p.BranchId()}
    requires NormalizeConfig(up, p.settings) == Ok(c) && !Registered(accountId, before, p) && OldNumber(before.rows, id) != ""
    ensures !AllocationRefuses(up, accountId, before, p, id, c, e, tables)
  {
    var carried := OldNumber(before.rows, id);
    if AllocationRefuses(up, accountId, before, p, id, c, e, tables) {
      RequestNames(up, accountId, p, carried, c);
      Protected(up, WithLegacy(up, accountId, before.tables, p, carried), AllocationRequest(accountId, p, carried, c), Err(e), tables);
    }
  }

  lemma CarriedSaved(up: CaseMap, accountId: string, before: Store, p: Push, id: string, c: Configuration,
                     a: Option<Assignment>, after: Store)
    requires IsCaseTable(up) && Trim(accountId) == accountId != "" && "" !in {p.StudentId(), p.SchoolId(), p.BranchId()}
    requires NormalizeConfig(up, p.settings) == Ok(c) && !Registered(accountId, before, p) && OldNumber(before.rows, id) != ""
    requires TargetRow(before.rows, p, id) && SameScope(before.rows, p, id) && SavedLive(up, accountId, before, p, id, c, a, after)
    ensures !NumberUsed(before.tables.registry, BranchOf(accountId, p), NormalizeNumber(up, OldNumber(before.rows, id)))
    ensures Shows(up, accountId, p, Saved(id), after, OldNumber(before.rows, id)) && after.tables.sequences == before.tables.sequences
  {
    var carried := OldNumber(before.rows, id);
    RequestNames(up, accountId, p, carried, c);
    Protected(up, WithLegacy(up, accountId, before.tables, p, carried), AllocationRequest(accountId, p, carried, c), Ok(a), after.tables);
  }

  /** The student is not registered, but this row brings a number along. */
  predicate Carries(accountId: string, s: Store, p: Push, row: string) {
    && !Registered(accountId, s, p) && row in s.rows && s.rows[row].localId == p.StudentId()
    && Trim(s.rows[row].payload.admissionNumber) != ""
  }

  /** That number is registered and kept, in any mode, unless another student of the branch holds it; */
  lemma CarriedNumberIsKept(up: CaseMap, accountId: string, before: Store, p: Push, quota: Quota, o: Outcome, after: Store, row: string)
    requires LivePush(up, accountId, before, p, quota, o, after)
    requires Carries(accountId, before, p, row) && Inv(up, accountId, before) && o.Saved?
    ensures var carried := Trim(before.rows[row].payload.admissionNumber);
            && !NumberUsed(before.tables.registry, BranchOf(accountId, p), NormalizeNumber(up, carried))
            && Shows(up, accountId, p, o, after, carried) && after.tables.sequences == before.tables.sequences
  {
    var c, a := AllocationOf(up, accountId, before, p, quota, o, after);
    assert o.rowId == row;
    CarriedSaved(up, accountId, before, p, row, c, a, after);
  }

  lemma CarriedReasons(up: CaseMap, accountId: string, s: Store, p: Push, quota: Quota, e: PushError, row: string)
    requires IsCaseTable(up) && Trim(accountId) == accountId != "" && "" !in {p.StudentId(), p.SchoolId(), p.BranchId()}
    requires Carries(accountId, s, p, row) && Inv(up, accountId, s) && Reason(up, accountId, s, p, quota, e)
    ensures e.UniqueViolation? ==>
              NumberUsed(s.tables.registry, BranchOf(accountId, p), NormalizeNumber(up, Trim(s.rows[row].payload.admissionNumber)))
    ensures !e.AllocationFailed?
  {
    if e.AllocationFailed? {
      var c, id, tables := FailureOf(up, accountId, s, p, quota, e.allocation);
      CarriedNotRefused(up, accountId, s, p, id, c, e.allocation, tables);
    }
  }

  /** then, and for no other number's sake, the push is refused. */
  lemma CarriedNumberRefused(up: CaseMap, accountId: string, before: Store, p: Push, quota: Quota, o: Outcome, after: Store, row: string)
    requires LivePush(up, accountId, before, p, quota, o, after)
    requires Carries(accountId, before, p, row) && Inv(up, accountId, before) && o.Rejected?
    ensures o.error.UniqueViolation? ==>
              NumberUsed(before.tables.registry, BranchOf(accountId, p), NormalizeNumber(up, Trim(before.rows[row].payload.admissionNumber)))
    ensures !o.error.AllocationFailed?
  {
    RejectionReason(up, accountId, before, p, quota, o, after);
    CarriedReasons(up, accountId, before, p, quota, o.error, row);
  }

  // ---------------------------------------------------------------- what a push leaves and why it fails

  /** The row a saved push leaves is the pushed one; every other row is as it was. */
  lemma SavedRowIsPushed(up: CaseMap, accountId: string, before: Store, p: Push, quota: Quota, o: Outcome, after: Store)
    requires Pushed(up, accountId, before, p, quota, o, after) && o.Saved?
    ensures o.rowId in after.rows && after.rows == before.rows[o.rowId := after.rows[o.rowId]]
    ensures var row, existed := after.rows[o.rowId], o.rowId in before.rows;
            && row.localId == p.StudentId() && row.version == p.version && row.updatedAt == p.updatedAt && row.isDeleted == p.isDeleted
            && row.deviceId == (if p.deviceId == "" && existed then before.rows[o.rowId].deviceId else p.deviceId)
            && row.payload.schoolId == p.payload.schoolId && row.payload.branchId == p.payload.branchId && row.payload.rest == p.payload.rest
            && (p.isDeleted ==> row.payload == p.payload.(cloudId := row.payload.cloudId))
            && (!p.isDeleted ==> row.payload.id == p.StudentId() && !row.payload.provisional)
            && row.payload.cloudId == if existed || !p.isDeleted then o.rowId else p.payload.cloudId
    ensures p.isDeleted ==> after.tables == before.tables
  {
  }

  /** A saved or stale push names the student's own row, in the branch where it is, and a saved one may
      add a first one; its cloud id names no other student. */
  lemma SavedRowIsTheStudents(up: CaseMap, accountId: string, before: Store, p: Push, quota: Quota, o: Outcome, after: Store)
    requires Pushed(up, accountId, before, p, quota, o, after) && !o.Rejected?
    ensures if o.rowId in before.rows then
              && before.rows[o.rowId].localId == p.StudentId()
              && Trim(before.rows[o.rowId].payload.schoolId) == p.SchoolId() && Trim(before.rows[o.rowId].payload.branchId) == p.BranchId()
            else o == Saved(p.newRowId) && forall id :: id in before.rows ==> before.rows[id].localId != p.StudentId()
    ensures p.cloudId != "" && p.cloudId in before.rows ==> before.rows[p.cloudId].localId == p.StudentId()
    ensures o.Saved? ==> IsUuid(p.StudentId()) && p.SchoolId() != "" && p.BranchId() != ""
  {
  }

  /** The number that counts as the student's: the registered one, else the stored one. */
  function KnownNumber(accountId: string, s: Store, row: Row): string {
    var key := StudentKey(accountId, row.localId);
    Trim(if key in s.tables.registry then s.tables.registry[key].admissionNumber else row.payload.admissionNumber)
  }

  /** Exactly which pushes a stored row turns away as stale: those with another number, and those that
      are both at no higher version and older. A stale push changes nothing. */
  lemma StaleExactly(up: CaseMap, accountId: string, before: Store, p: Push, quota: Quota, o: Outcome, after: Store)
    requires Pushed(up, accountId, before, p, quota, o, after) && (o.Stale? || (o.Saved? && o.rowId in before.rows))
    ensures var row := before.rows[o.rowId];
            var other := && KnownNumber(accountId, before, row) != "" && p.Number() != ""
                         && NormalizeNumber(up, KnownNumber(accountId, before, row)) != NormalizeNumber(up, p.Number());
            o.Stale? <==> other || (p.version <= row.version && p.updatedAt < row.updatedAt)
    ensures o.Stale? ==> after == before
  {
  }

  /** No step of a run replaces a row by one that is both at no higher version and older. */
  lemma RunNeverGoesBack(up: CaseMap, accountId: string, states: seq<Store>, steps: seq<Step>, i: nat, id: string)
    requires Run(up, accountId, states, steps) && i < |steps| && id in states[i].rows
    ensures id in states[i + 1].rows
    ensures var row, next := states[i].rows[id], states[i + 1].rows[id];
            next == row || (next.localId == row.localId && (next.version > row.version || next.updatedAt >= row.updatedAt))
  {
    StepOfRun(up, accountId, states, steps, i);
    var step := steps[i];
    if step.outcome.Saved? && step.outcome.rowId == id {
      SavedRowIsPushed(up, accountId, states[i], step.push, step.quota, step.outcome, states[i + 1]);
      SavedRowIsTheStudents(up, accountId, states[i], step.push, step.quota, step.outcome, states[i + 1]);
      StaleExactly(up, accountId, states[i], step.push, step.quota, step.outcome, states[i + 1]);
    }
  }

  /** Exactly whom an enforced quota keeps out: a student who is not live, when the account is not
      entitled or its live students have reached the limit. */
  lemma CapacityExactly(up: CaseMap, accountId: string, before: Store, p: Push, quota: Quota, o: Outcome, after: Store)
    requires Pushed(up, accountId, before, p, quota, o, after)
    requires o == Rejected(CapacityRefused) || (o.Saved? && !p.isDeleted)
    ensures var live := set id | id in before.rows && !before.rows[id].isDeleted :: before.rows[id].localId;
            o == Rejected(CapacityRefused) <==>
            && quota.mode == Enforce && p.StudentId() !in live
            && (!quota.entitled || (quota.maxStudents.Some? && |live| >= quota.maxStudents.value))
    ensures o == Rejected(CapacityRefused) ==> !p.isDeleted && after == before
  {
    assert (set id | id in before.rows && !before.rows[id].isDeleted :: before.rows[id].localId) == LiveStudents(before.rows);
  }

  /** Every other rejection has its cause in the push or in the stored rows, and changes nothing. */
  lemma RejectionHasCause(up: CaseMap, accountId: string, before: Store, p: Push, quota: Quota, o: Outcome, after: Store)
    requires Pushed(up, accountId, before, p, quota, o, after) && o.Rejected?
    ensures after == before && !o.error.HistoricalConflict? && !o.error.RegistryConflict?
    ensures o.error.InvalidLocalId? ==> !IsUuid(p.StudentId())
    ensures o.error.MissingScope? ==> p.SchoolId() == "" || p.BranchId() == ""
    ensures o.error.CloudMismatch? ==> p.cloudId in before.rows && before.rows[p.cloudId].localId != p.StudentId()
    ensures o.error.TransferRequired? ==>
              exists id :: && id in before.rows && before.rows[id].localId == p.StudentId()
                           && (Trim(before.rows[id].payload.schoolId) != p.SchoolId() || Trim(before.rows[id].payload.branchId) != p.BranchId())
    ensures o.error.BadSettings? ==> !p.isDeleted && NormalizeConfig(up, p.settings) == Err(o.error.settings)
  {
  }

  // ---------------------------------------------------------------- the write path

  class StudentSyncService {
    const accountId: string
    const admissions: AdmissionNumberService
    var rows: map<string, Row>

    constructor (accountId: string, up: CaseMap)
      requires IsCaseTable(up) && Trim(accountId) == accountId != ""
      ensures Valid() && View() == Store(map[], Tables(map[], map[])) && fresh(admissions)
      ensures this.accountId == accountId && admissions.up == up
    {
      this.accountId := accountId;
      admissions := new AdmissionNumberService(up);
      rows := map[];
    }

    function View(): Store
      reads this, admissions
    {
      Store(rows, admissions.View())
    }

    ghost predicate Valid()
      reads this, admissions
    {
      && IsCaseTable(admissions.up) && Trim(accountId) == accountId != ""
      && Inv(admissions.up, accountId, View())
    }

    predicate InBranch(row: Row, schoolId: string, branchId: string) {
      !row.isDeleted && Trim(row.payload.schoolId) == schoolId && Trim(row.payload.branchId) == branchId
    }

    function RowStudent(row: Row): string {
      Trim(if row.payload.id != "" then row.payload.id else row.localId)
    }

    /** The first payload found for every live student of a branch. */
    method Deduplicate(schoolId: string, branchId: string) returns (deduped: map<string, Payload>)
      ensures forall id :: id in deduped ==>
        exists r :: r in rows && InBranch(rows[r], schoolId, branchId) && RowStudent(rows[r]) == id && rows[r].payload == deduped[id]
    {
      deduped := map[];
      var todo := rows.Keys;
      while todo != {}
        invariant todo <= rows.Keys
        invariant forall id :: id in deduped ==>
          exists r :: r in rows && InBranch(rows[r], schoolId, branchId) && RowStudent(rows[r]) == id && rows[r].payload == deduped[id]
        decreases |todo|
      {
        var r :| r in todo;
        todo := todo - {r};
        var id := RowStudent(rows[r]);
        if InBranch(rows[r], schoolId, branchId) && id != "" && id !in deduped {
          deduped := deduped[id := rows[r].payload];
        }
      }
    }

    /** Registers the numbers of unregistered live students. In a valid store there are none, so the
        whole step reads and changes nothing. */
    method BackfillBranch(studentId: string, schoolId: string, branchId: string) returns (failure: Option<PushError>)
      modifies admissions
      ensures admissions.sequences == old(admissions.sequences)
      ensures failure.Some? ==> failure.value in {HistoricalConflict, UniqueViolation}
      ensures old(Valid()) ==> failure == None && View() == old(View())
    {
      var deduped := Deduplicate(schoolId, branchId);
      var todo := deduped.Keys;
      while todo != {}
        invariant todo <= deduped.Keys && admissions.sequences == old(admissions.sequences)
        invariant old(Valid()) ==> admissions.registry == old(admissions.registry)
        decreases |todo|
      {
        var id :| id in todo;
        todo := todo - {id};
        var raw := Trim(deduped[id].admissionNumber);
        if id == studentId || raw == "" {
          continue;
        }
        var key, norm := StudentKey(accountId, id), NormalizeNumber(admissions.up, raw);
        if old(Valid()) {
          BackfilledAlready(id, schoolId, branchId, deduped[id]);
        }
        if key in admissions.registry {
          var matched := admissions.registry[key];
          if matched.schoolId != schoolId || matched.branchId != branchId || matched.normalizedNumber != norm {
            return Some(HistoricalConflict);
          }
        } else {
          var created := admissions.Create(key, Identity(schoolId, branchId, raw, norm));
          if !created {
            return Some(UniqueViolation);
          }
        }
      }
      return None;
    }

    lemma BackfilledAlready(id: string, schoolId: string, branchId: string, payload: Payload)
      requires Valid() && Trim(payload.admissionNumber) != ""
      requires exists r :: r in rows && InBranch(rows[r], schoolId, branchId) && RowStudent(rows[r]) == id && rows[r].payload == payload
      ensures var key := StudentKey(accountId, id);
              && key in admissions.registry
              && admissions.registry[key].schoolId == schoolId && admissions.registry[key].branchId == branchId
              && admissions.registry[key].normalizedNumber == NormalizeNumber(admissions.up, Trim(payload.admissionNumber))
    {
      var r :| r in rows && InBranch(rows[r], schoolId, branchId) && RowStudent(rows[r]) == id && rows[r].payload == payload;
      assert RowInv(admissions.up, accountId, rows[r], admissions.registry);
      TrimmedNumberNormalizes(admissions.up, payload.admissionNumber);
    }

    /** The distinct identities of the live rows. */
    method CollectLive() returns (ids: set<string>)
      ensures ids == set r | r in rows && !rows[r].isDeleted && RowStudent(rows[r]) != "" :: RowStudent(rows[r])
    {
      ids := {};
      var todo := rows.Keys;
      while todo != {}
        invariant todo <= rows.Keys
        invariant ids == set r | r in rows.Keys - todo && !rows[r].isDeleted && RowStudent(rows[r]) != "" :: RowStudent(rows[r])
        decreases |todo|
      {
        var r :| r in todo;
        if !rows[r].isDeleted && RowStudent(rows[r]) != "" {
          ids := ids + {RowStudent(rows[r])};
        }
        todo := todo - {r};
      }
    }

    lemma CollectedAreLive()
      requires Valid()
      ensures LiveStudents(rows) == set r | r in rows && !rows[r].isDeleted && RowStudent(rows[r]) != "" :: RowStudent(rows[r])
    {
      forall r | r in rows && !rows[r].isDeleted ensures RowStudent(rows[r]) == rows[r].localId != "" {
        assert RowInv(admissions.up, accountId, rows[r], admissions.registry);
      }
    }

    /** Counts distinct live students and decides whether one more may be admitted. */
    method AssertCapacity(p: Push, quota: Quota) returns (refused: bool)
      ensures Valid() ==> refused == CapacityRefuses(rows, p, quota)
    {
      if quota.mode == Off {
        return false;
      }
      var ids := CollectLive();
      if Valid() {
        CollectedAreLive();
      }
      var overLimit := p.StudentId() !in ids && quota.maxStudents.Some? && |ids| >= quota.maxStudents.value;
      if quota.entitled && !overLimit {
        return false;
      }
      return quota.mode == Enforce;
    }

    /** Protects the number of the stored row, allocates or keeps a number, and stores the live row. */
    method SaveLive(p: Push, rowId: string, c: Configuration) returns (o: Outcome)
      requires TargetRow(rows, p, rowId) && SameScope(rows, p, rowId)
      modifies this`rows, admissions
      ensures o.Rejected? ==> o.error != SerializationFailure
      ensures old(Valid()) ==> LiveOutcome(admissions.up, accountId, old(View()), p, rowId, c, o, View())
    {
      var carried, key := OldNumber(rows, rowId), StudentKey(accountId, p.StudentId());
      if carried != "" {
        var norm := NormalizeNumber(admissions.up, carried);
        if key in admissions.registry {
          var registered := admissions.registry[key];
          if registered.normalizedNumber != norm || registered.schoolId != p.SchoolId() || registered.branchId != p.BranchId() {
            if old(Valid()) {
              CarriedAgrees(p, rowId);
            }
            return Rejected(RegistryConflict);
          }
        } else {
          var created := admissions.Create(key, Identity(p.SchoolId(), p.BranchId(), carried, norm));
          if !created {
            return Rejected(UniqueViolation);
          }
        }
      }
      assert admissions.View() == WithLegacy(admissions.up, accountId, old(View()).tables, p, carried);
      var answer := admissions.AssignInTransaction(AllocationRequest(accountId, p, carried, c));
      if answer.Err? {
        assert AllocationRefuses(admissions.up, accountId, old(View()), p, rowId, c, answer.error, admissions.View());
        return Rejected(AllocationFailed(answer.error));
      }
      rows := rows[rowId := LiveRow(p, rowId, rows, answer.value)];
      assert SavedLive(admissions.up, accountId, old(View()), p, rowId, c, answer.value, View());
      return Saved(rowId);
    }

    lemma CarriedAgrees(p: Push, rowId: string)
      requires Valid() && TargetRow(rows, p, rowId) && SameScope(rows, p, rowId)
      requires OldNumber(rows, rowId) != "" && StudentKey(accountId, p.StudentId()) in admissions.registry
      ensures var row := admissions.registry[StudentKey(accountId, p.StudentId())];
              && row.normalizedNumber == NormalizeNumber(admissions.up, OldNumber(rows, rowId))
              && row.schoolId == p.SchoolId() && row.branchId == p.BranchId()
    {
      assert RowInv(admissions.up, accountId, rows[rowId], admissions.registry);
      TrimmedNumberNormalizes(admissions.up, rows[rowId].payload.admissionNumber);
    }

    /** The reads that come first: the student's row, and the answers that need no write. */
    method FindTarget(p: Push) returns (rowId: string, early: Option<Outcome>)
      requires p.newRowId !in rows
      ensures TargetRow(rows, p, rowId)
      ensures early == None ==> CloudAgrees(rows, p) && SameScope(rows, p, rowId)
      ensures early == None && rowId in rows ==> !IsStale(admissions.up, accountId, rows[rowId], admissions.registry, p)
      ensures early.Some? ==> match early.value
        case Saved(_) => false
        case Stale(id) => id == rowId && id in rows && CloudAgrees(rows, p) && SameScope(rows, p, id) &&
          IsStale(admissions.up, accountId, rows[id], admissions.registry, p)
        case Rejected(e) =>
          (e == CloudMismatch && !CloudAgrees(rows, p)) || (e == TransferRequired && rowId in rows && !SameScope(rows, p, rowId))
    {
      rowId, early := p.newRowId, None;
      if HasRow(rows, p.StudentId()) {
        rowId :| rowId in rows && rows[rowId].localId == p.StudentId();
      }
      if !CloudAgrees(rows, p) {
        early := Some(Rejected(CloudMismatch));
      } else if rowId in rows {
        if !SameScope(rows, p, rowId) {
          early := Some(Rejected(TransferRequired));
        } else if IsStale(admissions.up, accountId, rows[rowId], admissions.registry, p) {
          early := Some(Stale(rowId));
        }
      }
    }

    /** The student is not live exactly when the target row is missing or deleted. */
    lemma TargetLive(p: Push, rowId: string)
      requires Valid() && TargetRow(rows, p, rowId)
      ensures p.StudentId() in LiveStudents(rows) <==> rowId in rows && !rows[rowId].isDeleted
    {
    }

    /** The part of the transaction that writes. */
    method Write(p: Push, rowId: string, quota: Quota) returns (o: Outcome)
      requires IsUuid(p.StudentId()) && p.SchoolId() != "" && p.BranchId() != ""
      requires TargetRow(rows, p, rowId) && CloudAgrees(rows, p) && SameScope(rows, p, rowId)
      requires rowId in rows ==> !IsStale(admissions.up, accountId, rows[rowId], admissions.registry, p)
      modifies this`rows, admissions
      ensures old(Valid()) && o.Rejected? ==> Reason(admissions.up, accountId, old(View()), p, quota, o.error)
      ensures old(Valid()) && !o.Rejected? ==> Pushed(admissions.up, accountId, old(View()), p, quota, o, View())
      ensures o != Rejected(SerializationFailure)
    {
      var failure := BackfillBranch(p.StudentId(), p.SchoolId(), p.BranchId());
      if failure.Some? {
        return Rejected(failure.value);
      }
      if p.isDeleted {
        rows := rows[rowId := Tombstone(p, rowId, rows)];
        return Saved(rowId);
      }
      if old(Valid()) {
        TargetLive(p, rowId);
      }
      if rowId !in rows || rows[rowId].isDeleted {
        var refused := AssertCapacity(p, quota);
        if refused {
          return Rejected(CapacityRefused);
        }
      }
      var config := NormalizeConfig(admissions.up, p.settings);
      if config.Err? {
        return Rejected(BadSettings(config.error));
      }
      o := SaveLive(p, rowId, config.value);
    }

    /** Everything that runs inside the serializable transaction. A rejection may leave partial
        writes; the transaction owner discards them. */
    method TransactionBody(p: Push, quota: Quota) returns (o: Outcome)
      requires p.newRowId !in rows && IsUuid(p.StudentId()) && p.SchoolId() != "" && p.BranchId() != ""
      modifies this`rows, admissions
      ensures old(Valid()) && o.Rejected? ==> Reason(admissions.up, accountId, old(View()), p, quota, o.error)
      ensures old(Valid()) && !o.Rejected? ==> Pushed(admissions.up, accountId, old(View()), p, quota, o, View())
      ensures o != Rejected(SerializationFailure)
    {
      var rowId, early := FindTarget(p);
      if early.Some? {
        return early.value;
      }
      o := Write(p, rowId, quota);
    }

    /** One attempt: a serialization conflict or a rejection rolls every write back. */
    method Transaction(p: Push, quota: Quota, conflict: bool) returns (o: Outcome)
      requires p.newRowId !in rows && IsUuid(p.StudentId()) && p.SchoolId() != "" && p.BranchId() != "" && Valid()
      modifies this`rows, admissions
      ensures Valid() && Pushed(admissions.up, accountId, old(View()), p, quota, o, View())
      ensures conflict <==> o == Rejected(SerializationFailure)
    {
      var rows0, registry0, sequences0 := rows, admissions.registry, admissions.sequences;
      o := TransactionBody(p, quota);
      if conflict {
        o := Rejected(SerializationFailure);
      }
      if o.Rejected? {
        rows, admissions.registry, admissions.sequences := rows0, registry0, sequences0;
      }
      assert Pushed(admissions.up, accountId, old(View()), p, quota, o, View());
      PushKeepsInv(admissions.up, accountId, old(View()), p, quota, o, View());
    }

    /** The write path of the sync service: up to four attempts, repeated after a serialization
        conflict or a uniqueness violation. */
    method UpsertStudentWithAdmission(p: Push, quota: Quota, conflicts: seq<bool>) returns (o: Outcome)
      requires Valid() && p.newRowId !in rows && |conflicts| == 4
      modifies this`rows, admissions
      ensures Valid() && Pushed(admissions.up, accountId, old(View()), p, quota, o, View())
      ensures o == Rejected(SerializationFailure) ==> conflicts[3]
    {
      if !IsUuid(p.StudentId()) {
        return Rejected(InvalidLocalId);
      }
      if p.SchoolId() == "" || p.BranchId() == "" {
        return Rejected(MissingScope);
      }
      var attempt := 0;
      while true
        invariant 0 <= attempt < 4 && View() == old(View()) && Valid()
        decreases 4 - attempt
      {
        o := Transaction(p, quota, conflicts[attempt]);
        if !(o.Rejected? && o.error in {SerializationFailure, UniqueViolation} && attempt < 3) {
          return;
        }
        attempt := attempt + 1;
      }
    }
  }
}
