/** Which synchronised records a workspace membership may see: the multi-pass filter over all
    records, and the relational join it computes. */
module WorkspaceFilter {
  import opened Common
  import opened Text

  // ---------------------------------------------------------------- records

  /** The JSON scalars a payload field can hold; an absent field is Null. */
  datatype Json = Null | Bool(b: bool) | Num(n: int) | Str(s: string)

  datatype Record = Record(id: string, tableName: string, localId: Json, updatedAt: int, version: int, isDeleted: bool,
                           payload: map<string, Json>)

  datatype Role = Student | Parent | Teacher | Staff

  datatype Scope = Scope(role: Role, schoolId: Option<string>, branchId: Option<string>, teacherId: Option<string>,
                         studentId: Option<string>, parentId: Option<string>)

  /** The registry's table sets and the platform's lower-case function. */
  datatype Platform = Platform(branchRequired: set<string>, schoolRequired: set<string>, lower: string -> string)

  predicate Truthy(v: Json) {
    match v
    case Null => false
    case Bool(b) => b
    case Num(n) => n != 0
    case Str(s) => s != ""
  }

  function OrElse(v: Json, w: Json): Json {
    if Truthy(v) then v else w
  }

  /** String(value || ""). */
  function Shown(v: Json): string {
    match v
    case Null => ""
    case Bool(b) => if b then "true" else ""
    case Num(n) => if n == 0 then "" else if n < 0 then "-" + Decimal(-n) else Decimal(n)
    case Str(s) => s
  }

  function CleanId(v: Json): Option<string> {
    var s := Trim(Shown(v)); if s == "" then None else Some(s)
  }

  function Field(r: Record, name: string): Json {
    if name in r.payload then r.payload[name] else Null
  }

  function RecordId(r: Record): Option<string> {
    CleanId(OrElse(Field(r, "id"), r.localId))
  }

  predicate Given(id: Option<string>) {
    id.Some? && id.value != ""
  }

  /** How a field reads as an identifier: text trimmed and true as a word; blank text, 0, false and an
      absent field give none. */
  lemma IdentifierText(s: string)
    ensures CleanId(Str(s)) == if Trim(s) == "" then None else Some(Trim(s))
    ensures CleanId(Bool(true)) == Some("true") && CleanId(Null) == CleanId(Bool(false)) == CleanId(Num(0)) == None
  {
    TrimFixes("true");
  }

  /** A number reads as its numeral, with a sign in front of it if it is below zero. */
  lemma IdentifierNumber(n: nat) returns (numeral: string)
    requires n > 0
    ensures Digits(numeral) && ParseDecimal(numeral) == n
    ensures CleanId(Num(n)) == Some(numeral) && CleanId(Num(-(n as int))) == Some("-" + numeral)
  {
    numeral := Decimal(n);
    ParseOfDecimal(n);
    TrimFixes(numeral);
    TrimFixes("-" + numeral);
  }

  // ---------------------------------------------------------------- tenant and liveness

  predicate TenantMatches(pf: Platform, scope: Scope, r: Record) {
    var own := OrElse(Field(r, "id"), r.localId);
    var school := CleanId(OrElse(Field(r, "schoolId"), if r.tableName == "schools" then own else Null));
    var branch := CleanId(OrElse(Field(r, "branchId"), if r.tableName == "branches" then own else Null));
    && !(Given(scope.schoolId) && school.Some? && school != scope.schoolId)
    && !(Given(scope.branchId) && branch.Some? && branch != scope.branchId)
    && !(r.tableName in pf.branchRequired && Given(scope.branchId) && branch != scope.branchId)
    && !(r.tableName in pf.schoolRequired && Given(scope.schoolId) && school != scope.schoolId)
  }

  predicate Live(pf: Platform, scope: Scope, r: Record) {
    !r.isDeleted && Field(r, "isDeleted") != Bool(true) && Field(r, "active") != Bool(false) && TenantMatches(pf, scope, r)
  }

  // ---------------------------------------------------------------- evidence

  predicate Among(id: Option<string>, ids: set<string>) {
    id.Some? && id.value in ids
  }

  function ClassOf(r: Record): Option<string> {
    CleanId(Field(r, "classId"))
  }

  predicate IsAssignment(pf: Platform, scope: Scope, r: Record) {
    Live(pf, scope, r) && (r.tableName == "classTeachers" || r.tableName == "classSubjects")
  }

  /** The class that r assigns to the logged-in teacher. */
  function AssignedClass(pf: Platform, scope: Scope, r: Record): Option<string> {
    if IsAssignment(pf, scope, r) && CleanId(Field(r, "teacherId")) == scope.teacherId then ClassOf(r) else None
  }

  function ColleagueIn(pf: Platform, scope: Scope, classes: set<string>, r: Record): Option<string> {
    if IsAssignment(pf, scope, r) && Among(ClassOf(r), classes) then CleanId(Field(r, "teacherId")) else None
  }

  function ClassSubjectIn(pf: Platform, scope: Scope, classes: set<string>, r: Record): Option<string> {
    if Live(pf, scope, r) && r.tableName == "classSubjects" && Among(ClassOf(r), classes) then RecordId(r) else None
  }

  function StudentIn(pf: Platform, scope: Scope, classes: set<string>, r: Record): Option<string> {
    if Live(pf, scope, r) && r.tableName == "studentEnrollments" && Among(ClassOf(r), classes) &&
       Field(r, "status") == Str("active")
    then CleanId(Field(r, "studentId")) else None
  }

  predicate ByClassOrStudent(r: Record, classes: set<string>, students: set<string>) {
    || Among(ClassOf(r), classes)
    || (Among(CleanId(Field(r, "studentId")), students) && (ClassOf(r).None? || ClassOf(r).value in classes))
  }

  function ReportCardIn(pf: Platform, scope: Scope, classes: set<string>, students: set<string>, r: Record): Option<string> {
    if Live(pf, scope, r) && r.tableName == "reportCards" && ByClassOrStudent(r, classes, students) then RecordId(r) else None
  }

  /** The child that a live link gives the logged-in parent. */
  function ChildOf(pf: Platform, scope: Scope, r: Record): Option<string> {
    if r.tableName == "studentParents" && Live(pf, scope, r) && CleanId(Field(r, "parentId")) == scope.parentId
    then CleanId(Field(r, "studentId")) else None
  }

  /** The identifiers that the passes over the records collect. */
  datatype Access = Access(classes: set<string>, students: set<string>, classSubjects: set<string>,
                           teachers: set<string>, reportCards: set<string>, children: set<string>)

  ghost function Picked(records: seq<Record>, pick: Record -> Option<string>): set<string> {
    set r | r in records && pick(r).Some? :: pick(r).value
  }

  ghost function Classes(pf: Platform, scope: Scope, records: seq<Record>): set<string> {
    Picked(records, r => AssignedClass(pf, scope, r))
  }

  ghost function Colleagues(pf: Platform, scope: Scope, classes: set<string>, records: seq<Record>): set<string> {
    Picked(records, r => ColleagueIn(pf, scope, classes, r))
  }

  ghost function ClassSubjects(pf: Platform, scope: Scope, classes: set<string>, records: seq<Record>): set<string> {
    Picked(records, r => ClassSubjectIn(pf, scope, classes, r))
  }

  ghost function Students(pf: Platform, scope: Scope, classes: set<string>, records: seq<Record>): set<string> {
    Picked(records, r => StudentIn(pf, scope, classes, r))
  }

  ghost function ReportCards(pf: Platform, scope: Scope, classes: set<string>, students: set<string>, records: seq<Record>): set<string> {
    Picked(records, r => ReportCardIn(pf, scope, classes, students, r))
  }

  ghost function Children(pf: Platform, scope: Scope, records: seq<Record>): set<string> {
    Picked(records, r => ChildOf(pf, scope, r))
  }

  const NO_ACCESS: Access := Access({}, {}, {}, {}, {}, {})

  ghost function TeacherAccess(pf: Platform, scope: Scope, records: seq<Record>): Access
    requires Given(scope.teacherId)
  {
    var classes := Classes(pf, scope, records);
    var students := Students(pf, scope, classes, records);
    Access(classes, students, ClassSubjects(pf, scope, classes, records),
           Colleagues(pf, scope, classes, records) + {scope.teacherId.value},
           ReportCards(pf, scope, classes, students, records), {})
  }

  ghost function AccessOf(pf: Platform, scope: Scope, records: seq<Record>): Access {
    if scope.role == Parent && Given(scope.parentId) then NO_ACCESS.(children := Children(pf, scope, records))
    else if scope.role == Teacher && Given(scope.teacherId) then TeacherAccess(pf, scope, records)
    else NO_ACCESS
  }

  // ---------------------------------------------------------------- record rules per role

  const STUDENT_SHARED: set<string> := {
    "schools", "branches", "schoolBranchSettings", "identityCredentialDesignSettings", "academicPeriods", "classes",
    "subjects", "classSubjects", "announcements", "identityDevices", "identityAccessPoints", "schoolVehicles",
    "transportRoutes", "transportStops", "transportJourneys", "emergencyRollCallSessions"}

  const PARENT_SHARED: set<string> := STUDENT_SHARED - {"subjects", "classSubjects"}

  const TEACHER_SHARED: set<string> := {
    "schools", "branches", "schoolBranchSettings", "academicPeriods", "subjects", "academicStructures",
    "gradingStructures", "gradeRules", "reportCardTemplates", "reportCardTemplateSettings",
    "reportCardTemplateAssignments", "assessmentStructures", "assessmentStructureItems", "identityDevices",
    "identityAccessPoints", "emergencyRollCallSessions"}

  const SCORE_TABLES: set<string> := {
    "assessmentEntries", "computedResults", "assessmentComponents", "attendance", "studentAttendanceSummaries"}

  function SubjectId(r: Record): Option<string> {
    CleanId(OrElse(Field(r, "subjectId"), Field(r, "personId")))
  }

  function SubjectType(pf: Platform, r: Record): string {
    pf.lower(Shown(OrElse(Field(r, "subjectType"), Field(r, "personType"))))
  }

  /** The student a record belongs to; for the students table its own identity counts. */
  function StudentOf(r: Record): Option<string> {
    CleanId(OrElse(Field(r, "studentId"), if r.tableName == "students" then OrElse(Field(r, "id"), r.localId) else Null))
  }

  function ParentOf(r: Record): Option<string> {
    CleanId(OrElse(Field(r, "parentId"), if r.tableName == "parents" then OrElse(Field(r, "id"), r.localId) else Null))
  }

  predicate StudentRule(pf: Platform, r: Record, studentId: string) {
    || r.tableName in STUDENT_SHARED
    || StudentOf(r) == Some(studentId)
    || (SubjectId(r) == Some(studentId) && SubjectType(pf, r) == "student")
  }

  predicate ParentRule(pf: Platform, r: Record, parentId: string, children: set<string>) {
    || r.tableName in PARENT_SHARED
    || ParentOf(r) == Some(parentId)
    || Among(StudentOf(r), children)
    || (SubjectType(pf, r) == "parent" && SubjectId(r) == Some(parentId))
    || (SubjectType(pf, r) == "student" && Among(SubjectId(r), children))
    || CleanId(OrElse(Field(r, "authorizedPersonId"), Field(r, "collectorSubjectId"))) == Some(parentId)
  }

  /** Every class, student or class subject that the record names is within reach. */
  predicate LinksWithin(r: Record, a: Access, withStudent: bool) {
    var classId, studentId, subject := CleanId(Field(r, "classId")), CleanId(Field(r, "studentId")), CleanId(Field(r, "classSubjectId"));
    && (classId.Some? ==> classId.value in a.classes)
    && (withStudent && studentId.Some? ==> studentId.value in a.students)
    && (subject.Some? ==> subject.value in a.classSubjects)
  }

  predicate TeacherRule(pf: Platform, r: Record, teacherId: string, a: Access) {
    var t, id := r.tableName, RecordId(r);
    var classId, studentId, subject := CleanId(Field(r, "classId")), CleanId(Field(r, "studentId")), CleanId(Field(r, "classSubjectId"));
    if t == "teachers" then Among(id, a.teachers)
    else if t == "classes" then Among(id, a.classes)
    else if t == "classTeachers" || t == "classSubjects" then Among(classId, a.classes)
    else if t == "students" then Among(id, a.students)
    else if t == "studentEnrollments" then Among(classId, a.classes)
    else if t == "reportCards" then Among(id, a.reportCards)
    else if t == "reportCardItems" then
      var card := CleanId(Field(r, "reportCardId"));
      if card.Some? then card.value in a.reportCards else ByClassOrStudent(r, a.classes, a.students)
    else if t in SCORE_TABLES then LinksWithin(r, a, true) && (classId.Some? || studentId.Some? || subject.Some?)
    else if t == "assessmentApplicabilities" then LinksWithin(r, a, false)
    else if t == "teacherAttendance" then CleanId(Field(r, "teacherId")) == Some(teacherId)
    else
      || t in TEACHER_SHARED
      || (LinksWithin(r, a, true) &&
          (CleanId(Field(r, "teacherId")) == Some(teacherId) ||
           (SubjectId(r) == Some(teacherId) && SubjectType(pf, r) in {"teacher", "staff"})))
  }

  // ---------------------------------------------------------------- visibility

  predicate Authorized(pf: Platform, scope: Scope, a: Access, r: Record) {
    && r.tableName != "mediaAssets"
    && TenantMatches(pf, scope, r)
    && match scope.role
       case Student => Given(scope.studentId) ==> StudentRule(pf, r, scope.studentId.value)
       case Parent => Given(scope.parentId) ==> ParentRule(pf, r, scope.parentId.value, a.children)
       case Teacher => Given(scope.teacherId) && TeacherRule(pf, r, scope.teacherId.value, a)
       case Staff => true
  }

  /** The record owns the media of ownerTable and ownerId. */
  predicate Owns(r: Record, ownerTable: Option<string>, ownerId: Option<string>) {
    ownerTable == Some(r.tableName) && ownerId.Some? && RecordId(r) == ownerId
  }

  /** The part of the media rule that does not look at other records. */
  predicate MediaCandidate(pf: Platform, scope: Scope, r: Record) {
    var ownerTable, ownerId := CleanId(Field(r, "ownerTable")), CleanId(Field(r, "ownerId"));
    && r.tableName == "mediaAssets" && TenantMatches(pf, scope, r)
    && !(scope.role == Teacher && ownerTable == Some("teachers") && ownerId != scope.teacherId)
  }

  ghost predicate Visible(pf: Platform, scope: Scope, records: seq<Record>, r: Record) {
    var a := AccessOf(pf, scope, records);
    var ownerTable, ownerId := CleanId(Field(r, "ownerTable")), CleanId(Field(r, "ownerId"));
    || Authorized(pf, scope, a, r)
    || (MediaCandidate(pf, scope, r) &&
        if ownerTable.Some? && ownerId.Some? then
          exists o :: o in records && Authorized(pf, scope, a, o) && Owns(o, ownerTable, ownerId)
        else scope.role == Staff)
  }

  /** The visible records of part, judged against all, in their order. */
  ghost function Select(pf: Platform, scope: Scope, all: seq<Record>, part: seq<Record>): seq<Record> {
    if part == [] then []
    else
      var n := |part| - 1;
      Select(pf, scope, all, part[..n]) + (if Visible(pf, scope, all, part[n]) then [part[n]] else [])
  }

  ghost function Filter(pf: Platform, scope: Scope, records: seq<Record>): seq<Record> {
    Select(pf, scope, records, records)
  }

  lemma {:induction false} SelectMembers(pf: Platform, scope: Scope, all: seq<Record>, part: seq<Record>)
    ensures forall r :: r in Select(pf, scope, all, part) <==> r in part && Visible(pf, scope, all, r)
  {
    if part != [] {
      var n := |part| - 1;
      SelectMembers(pf, scope, all, part[..n]);
      assert part == part[..n] + [part[n]];
    }
  }

  // ---------------------------------------------------------------- monotone

  ghost predicate Within(a: Access, b: Access) {
    a.classes <= b.classes && a.students <= b.students && a.classSubjects <= b.classSubjects && a.teachers <= b.teachers &&
    a.reportCards <= b.reportCards && a.children <= b.children
  }

  lemma PickedGrows(records: seq<Record>, more: seq<Record>, pick: Record -> Option<string>, wider: Record -> Option<string>)
    requires forall r :: r in records && pick(r).Some? ==> r in more && wider(r) == pick(r)
    ensures Picked(records, pick) <= Picked(more, wider)
  {
  }

  lemma TeacherAccessGrows(pf: Platform, scope: Scope, records: seq<Record>, more: seq<Record>)
    requires Given(scope.teacherId)
    requires forall r :: r in records ==> r in more
    ensures Within(TeacherAccess(pf, scope, records), TeacherAccess(pf, scope, more))
  {
    var a, b := TeacherAccess(pf, scope, records), TeacherAccess(pf, scope, more);
    PickedGrows(records, more, r => AssignedClass(pf, scope, r), r => AssignedClass(pf, scope, r));
    assert a.classes <= b.classes;
    PickedGrows(records, more, r => StudentIn(pf, scope, a.classes, r), r => StudentIn(pf, scope, b.classes, r));
    PickedGrows(records, more, r => ColleagueIn(pf, scope, a.classes, r), r => ColleagueIn(pf, scope, b.classes, r));
    PickedGrows(records, more, r => ClassSubjectIn(pf, scope, a.classes, r), r => ClassSubjectIn(pf, scope, b.classes, r));
    assert a.students <= b.students;
    PickedGrows(records, more, r => ReportCardIn(pf, scope, a.classes, a.students, r),
                r => ReportCardIn(pf, scope, b.classes, b.students, r));
  }

  lemma AccessGrows(pf: Platform, scope: Scope, records: seq<Record>, more: seq<Record>)
    requires forall r :: r in records ==> r in more
    ensures Within(AccessOf(pf, scope, records), AccessOf(pf, scope, more))
  {
    if scope.role == Teacher && Given(scope.teacherId) {
      TeacherAccessGrows(pf, scope, records, more);
    } else if scope.role == Parent && Given(scope.parentId) {
      PickedGrows(records, more, r => ChildOf(pf, scope, r), r => ChildOf(pf, scope, r));
    }
  }

  lemma TeacherRuleGrows(pf: Platform, r: Record, teacherId: string, a: Access, b: Access)
    requires Within(a, b) && TeacherRule(pf, r, teacherId, a)
    ensures TeacherRule(pf, r, teacherId, b)
  {
  }

  lemma AuthorizedGrows(pf: Platform, scope: Scope, a: Access, b: Access, r: Record)
    requires Within(a, b) && Authorized(pf, scope, a, r)
    ensures Authorized(pf, scope, b, r)
  {
    if scope.role == Teacher {
      TeacherRuleGrows(pf, r, scope.teacherId.value, a, b);
    }
  }

  /** Adding records never hides a record that was visible. */
  lemma FilterMonotone(pf: Platform, scope: Scope, records: seq<Record>, more: seq<Record>, r: Record)
    requires forall x :: x in records ==> x in more
    requires Visible(pf, scope, records, r)
    ensures Visible(pf, scope, more, r)
  {
    var a, b := AccessOf(pf, scope, records), AccessOf(pf, scope, more);
    AccessGrows(pf, scope, records, more);
    if Authorized(pf, scope, a, r) {
      AuthorizedGrows(pf, scope, a, b, r);
    } else if o :| o in records && Authorized(pf, scope, a, o) && Owns(o, CleanId(Field(r, "ownerTable")), CleanId(Field(r, "ownerId"))) {
      AuthorizedGrows(pf, scope, a, b, o);
    }
  }

  // ---------------------------------------------------------------- idempotent

  /** Every record that the passes use as evidence is itself authorized. */
  lemma TeacherEvidenceAuthorized(pf: Platform, scope: Scope, a: Access, r: Record)
    requires scope.role == Teacher && Given(scope.teacherId)
    requires || (AssignedClass(pf, scope, r).Some? && AssignedClass(pf, scope, r).value in a.classes)
             || ColleagueIn(pf, scope, a.classes, r).Some?
             || ClassSubjectIn(pf, scope, a.classes, r).Some?
             || StudentIn(pf, scope, a.classes, r).Some?
             || Among(ReportCardIn(pf, scope, a.classes, a.students, r), a.reportCards)
    ensures Authorized(pf, scope, a, r)
  {
  }

  lemma ChildEvidenceAuthorized(pf: Platform, scope: Scope, a: Access, r: Record)
    requires scope.role == Parent && Given(scope.parentId) && ChildOf(pf, scope, r).Some?
    ensures Authorized(pf, scope, a, r)
  {
    assert ParentOf(r) == scope.parentId;
  }

  /** Any part of the records that holds all the authorized ones gives the same access. */
  lemma AccessKept(pf: Platform, scope: Scope, records: seq<Record>, kept: seq<Record>)
    requires forall r :: r in kept ==> r in records
    requires forall r :: r in records && Authorized(pf, scope, AccessOf(pf, scope, records), r) ==> r in kept
    ensures AccessOf(pf, scope, kept) == AccessOf(pf, scope, records)
  {
    AccessGrows(pf, scope, kept, records);
    var a := AccessOf(pf, scope, records);
    if scope.role == Teacher && Given(scope.teacherId) {
      TeacherAccessKept(pf, scope, records, kept, a);
    } else if scope.role == Parent && Given(scope.parentId) {
      forall r | r in records && ChildOf(pf, scope, r).Some? ensures r in kept {
        ChildEvidenceAuthorized(pf, scope, a, r);
      }
      PickedGrows(records, kept, r => ChildOf(pf, scope, r), r => ChildOf(pf, scope, r));
    }
  }

  lemma TeacherAccessKept(pf: Platform, scope: Scope, records: seq<Record>, kept: seq<Record>, a: Access)
    requires scope.role == Teacher && Given(scope.teacherId) && a == TeacherAccess(pf, scope, records)
    requires forall r :: r in kept ==> r in records
    requires forall r :: r in records && Authorized(pf, scope, a, r) ==> r in kept
    ensures Within(a, TeacherAccess(pf, scope, kept))
  {
    var b := TeacherAccess(pf, scope, kept);
    TeacherAccessGrows(pf, scope, kept, records);
    forall r | r in records && AssignedClass(pf, scope, r).Some? ensures r in kept {
      PickedMember(records, r => AssignedClass(pf, scope, r), r);
      TeacherEvidenceAuthorized(pf, scope, a, r);
    }
    PickedGrows(records, kept, r => AssignedClass(pf, scope, r), r => AssignedClass(pf, scope, r));
    assert a.classes == b.classes;
    forall r | r in records && ColleagueIn(pf, scope, a.classes, r).Some? ensures r in kept {
      TeacherEvidenceAuthorized(pf, scope, a, r);
    }
    PickedGrows(records, kept, r => ColleagueIn(pf, scope, a.classes, r), r => ColleagueIn(pf, scope, b.classes, r));
    forall r | r in records && ClassSubjectIn(pf, scope, a.classes, r).Some? ensures r in kept {
      TeacherEvidenceAuthorized(pf, scope, a, r);
    }
    PickedGrows(records, kept, r => ClassSubjectIn(pf, scope, a.classes, r), r => ClassSubjectIn(pf, scope, b.classes, r));
    forall r | r in records && StudentIn(pf, scope, a.classes, r).Some? ensures r in kept {
      TeacherEvidenceAuthorized(pf, scope, a, r);
    }
    PickedGrows(records, kept, r => StudentIn(pf, scope, a.classes, r), r => StudentIn(pf, scope, b.classes, r));
    assert a.students == b.students;
    forall r | r in records && ReportCardIn(pf, scope, a.classes, a.students, r).Some? ensures r in kept {
      PickedMember(records, r => ReportCardIn(pf, scope, a.classes, a.students, r), r);
      TeacherEvidenceAuthorized(pf, scope, a, r);
    }
    PickedGrows(records, kept, r => ReportCardIn(pf, scope, a.classes, a.students, r),
                r => ReportCardIn(pf, scope, b.classes, b.students, r));
  }

  lemma PickedMember(records: seq<Record>, pick: Record -> Option<string>, r: Record)
    requires r in records && pick(r).Some?
    ensures pick(r).value in Picked(records, pick)
  {
  }

  lemma FilterMembers(pf: Platform, scope: Scope, records: seq<Record>)
    ensures forall r :: r in Filter(pf, scope, records) <==> r in records && Visible(pf, scope, records, r)
  {
    SelectMembers(pf, scope, records, records);
  }

  /** Judged against the filter's own output, the same records are visible. */
  lemma VisibleInOutput(pf: Platform, scope: Scope, records: seq<Record>, r: Record)
    ensures Visible(pf, scope, Filter(pf, scope, records), r) <==> Visible(pf, scope, records, r)
  {
    var kept := Filter(pf, scope, records);
    var a := AccessOf(pf, scope, records);
    FilterMembers(pf, scope, records);
    AccessKept(pf, scope, records, kept);
    assert forall o :: o in records && Authorized(pf, scope, a, o) ==> o in kept;
  }

  lemma {:induction false} SelectAll(pf: Platform, scope: Scope, all: seq<Record>, part: seq<Record>)
    requires forall r :: r in part ==> Visible(pf, scope, all, r)
    ensures Select(pf, scope, all, part) == part
  {
    if part != [] {
      var n := |part| - 1;
      assert part == part[..n] + [part[n]];
      SelectAll(pf, scope, all, part[..n]);
    }
  }

  /** Filtering the output again changes nothing. */
  lemma FilterIdempotent(pf: Platform, scope: Scope, records: seq<Record>)
    ensures Filter(pf, scope, Filter(pf, scope, records)) == Filter(pf, scope, records)
  {
    var kept := Filter(pf, scope, records);
    FilterMembers(pf, scope, records);
    forall r | r in kept ensures Visible(pf, scope, kept, r) {
      VisibleInOutput(pf, scope, records, r);
    }
    SelectAll(pf, scope, kept, kept);
  }

  // ---------------------------------------------------------------- order

  /** The positions of the visible records, in increasing order. */
  ghost function VisibleAt(pf: Platform, scope: Scope, all: seq<Record>, part: seq<Record>): seq<nat> {
    if part == [] then []
    else
      var n := |part| - 1;
      VisibleAt(pf, scope, all, part[..n]) + (if Visible(pf, scope, all, part[n]) then [n] else [])
  }

  /** at lists the visible positions of part in increasing order, and out the records there. */
  ghost predicate Lists(pf: Platform, scope: Scope, all: seq<Record>, part: seq<Record>, at: seq<nat>, out: seq<Record>) {
    && (forall j, k :: 0 <= j < k < |at| ==> at[j] < at[k])
    && (forall i :: i in at ==> i < |part| && Visible(pf, scope, all, part[i]))
    && (forall i :: 0 <= i < |part| && Visible(pf, scope, all, part[i]) ==> i in at)
    && |out| == |at| && forall k :: 0 <= k < |at| ==> at[k] < |part| && out[k] == part[at[k]]
  }

  lemma ListsNext(pf: Platform, scope: Scope, all: seq<Record>, part: seq<Record>, r: Record, at: seq<nat>, out: seq<Record>)
    requires Lists(pf, scope, all, part, at, out)
    ensures Visible(pf, scope, all, r) ==> Lists(pf, scope, all, part + [r], at + [|part|], out + [r])
    ensures !Visible(pf, scope, all, r) ==> Lists(pf, scope, all, part + [r], at, out)
  {
    var longer, visible := part + [r], Visible(pf, scope, all, r);
    forall i | 0 <= i < |longer| && Visible(pf, scope, all, longer[i]) ensures i in at || (visible && i == |part|) {
      if i < |part| {
        assert longer[i] == part[i];
      }
    }
  }

  lemma {:induction false} PositionsOf(pf: Platform, scope: Scope, all: seq<Record>, part: seq<Record>)
    ensures Lists(pf, scope, all, part, VisibleAt(pf, scope, all, part), Select(pf, scope, all, part))
  {
    if part != [] {
      var n := |part| - 1;
      var front, r := part[..n], part[n];
      var at, out := VisibleAt(pf, scope, all, front), Select(pf, scope, all, front);
      PositionsOf(pf, scope, all, front);
      ListsNext(pf, scope, all, front, r, at, out);
      assert part == front + [r];
      if Visible(pf, scope, all, r) {
        assert VisibleAt(pf, scope, all, part) == at + [n] && Select(pf, scope, all, part) == out + [r];
      } else {
        assert VisibleAt(pf, scope, all, part) == at && Select(pf, scope, all, part) == out;
      }
    }
  }

  /** The output lists the visible positions of the input, each once and in their order. */
  lemma FilterKeepsOrder(pf: Platform, scope: Scope, records: seq<Record>) returns (at: seq<nat>)
    ensures forall j, k :: 0 <= j < k < |at| ==> at[j] < at[k]
    ensures forall i :: i in at <==> 0 <= i < |records| && Visible(pf, scope, records, records[i])
    ensures |Filter(pf, scope, records)| == |at|
    ensures forall k :: 0 <= k < |at| ==> at[k] < |records| && Filter(pf, scope, records)[k] == records[at[k]]
  {
    at := VisibleAt(pf, scope, records, records);
    PositionsOf(pf, scope, records, records);
  }

  // ---------------------------------------------------------------- tenants

  /** The identifier in a field; in the table's own records without that field, the record's own. */
  function Named(r: Record, field: string, table: string): Option<string> {
    if Truthy(Field(r, field)) then CleanId(Field(r, field)) else if r.tableName == table then RecordId(r) else None
  }

  /** The record names the scope's tenant, or names none in a table that need not. */
  predicate OfTenant(own: Option<string>, named: Option<string>, required: bool) {
    own in {None, Some("")} || named == own || (named.None? && !required)
  }

  predicate InTenant(pf: Platform, scope: Scope, r: Record) {
    && OfTenant(scope.schoolId, Named(r, "schoolId", "schools"), r.tableName in pf.schoolRequired)
    && OfTenant(scope.branchId, Named(r, "branchId", "branches"), r.tableName in pf.branchRequired)
  }

  lemma TenantJoin(pf: Platform, scope: Scope, r: Record)
    ensures TenantMatches(pf, scope, r) <==> InTenant(pf, scope, r)
  {
    assert CleanId(Null).None?;
  }

  /** No role sees a record, media included, that names another school or branch. */
  lemma VisibleIsInTenant(pf: Platform, scope: Scope, records: seq<Record>, r: Record)
    requires Visible(pf, scope, records, r)
    ensures InTenant(pf, scope, r)
    ensures Given(scope.schoolId) && Named(r, "schoolId", "schools").Some? ==> Named(r, "schoolId", "schools") == scope.schoolId
    ensures Given(scope.branchId) && Named(r, "branchId", "branches").Some? ==> Named(r, "branchId", "branches") == scope.branchId
  {
    TenantJoin(pf, scope, r);
  }

  /** Staff, and students and parents whose membership names no person, see their whole tenant; a
      teacher's membership that names none sees no record but media. */
  lemma WholeTenant(pf: Platform, scope: Scope, records: seq<Record>, r: Record)
    requires r.tableName != "mediaAssets"
    ensures match scope.role
            case Staff => Visible(pf, scope, records, r) <==> InTenant(pf, scope, r)
            case Student => scope.studentId in {None, Some("")} ==> (Visible(pf, scope, records, r) <==> InTenant(pf, scope, r))
            case Parent => scope.parentId in {None, Some("")} ==> (Visible(pf, scope, records, r) <==> InTenant(pf, scope, r))
            case Teacher => scope.teacherId in {None, Some("")} ==> !Visible(pf, scope, records, r)
  {
    TenantJoin(pf, scope, r);
  }

  // ---------------------------------------------------------------- the join

  /** A record that gives access: in the tenant, neither deleted nor switched off. */
  predicate GivesAccess(pf: Platform, scope: Scope, r: Record) {
    InTenant(pf, scope, r) && !r.isDeleted && Field(r, "isDeleted") != Bool(true) && Field(r, "active") != Bool(false)
  }

  predicate Assigns(pf: Platform, scope: Scope, r: Record) {
    GivesAccess(pf, scope, r) && r.tableName in {"classTeachers", "classSubjects"}
  }

  predicate AssignsTeacher(pf: Platform, scope: Scope, r: Record) {
    Assigns(pf, scope, r) && CleanId(Field(r, "teacherId")) == scope.teacherId
  }

  predicate IsEnrolment(pf: Platform, scope: Scope, r: Record) {
    GivesAccess(pf, scope, r) && r.tableName == "studentEnrollments" && Field(r, "status") == Str("active")
  }

  /** The class has a live assignment of the logged-in teacher. */
  ghost predicate Taught(pf: Platform, scope: Scope, records: seq<Record>, classId: Option<string>) {
    classId.Some? && exists a :: a in records && AssignsTeacher(pf, scope, a) && ClassOf(a) == classId
  }

  ghost predicate TaughtStudent(pf: Platform, scope: Scope, records: seq<Record>, id: Option<string>) {
    id.Some? && exists e :: e in records && IsEnrolment(pf, scope, e) && CleanId(Field(e, "studentId")) == id &&
                            Taught(pf, scope, records, ClassOf(e))
  }

  ghost predicate Colleague(pf: Platform, scope: Scope, records: seq<Record>, id: Option<string>) {
    id.Some? && exists b :: b in records && Assigns(pf, scope, b) && CleanId(Field(b, "teacherId")) == id &&
                            Taught(pf, scope, records, ClassOf(b))
  }

  ghost predicate TaughtSubject(pf: Platform, scope: Scope, records: seq<Record>, id: Option<string>) {
    id.Some? && exists b :: b in records && GivesAccess(pf, scope, b) && b.tableName == "classSubjects" && RecordId(b) == id &&
                            Taught(pf, scope, records, ClassOf(b))
  }

  ghost predicate CardInReach(pf: Platform, scope: Scope, records: seq<Record>, c: Record) {
    || Taught(pf, scope, records, ClassOf(c))
    || (ClassOf(c).None? && TaughtStudent(pf, scope, records, CleanId(Field(c, "studentId"))))
  }

  ghost predicate TaughtCard(pf: Platform, scope: Scope, records: seq<Record>, id: Option<string>) {
    id.Some? && exists c :: c in records && GivesAccess(pf, scope, c) && c.tableName == "reportCards" && RecordId(c) == id &&
                            CardInReach(pf, scope, records, c)
  }

  lemma LiveGivesAccess(pf: Platform, scope: Scope, r: Record)
    ensures Live(pf, scope, r) <==> GivesAccess(pf, scope, r)
  {
    TenantJoin(pf, scope, r);
  }

  /** The identifiers that a pass picks are those that some record gives. */
  lemma PickedJoin(records: seq<Record>, pick: Record -> Option<string>, id: Option<string>)
    ensures Among(id, Picked(records, pick)) <==> id.Some? && exists r :: r in records && pick(r) == id
  {
    if id.Some? && exists r :: r in records && pick(r) == id {
      var r :| r in records && pick(r) == id;
      PickedMember(records, pick, r);
    }
  }

  lemma ClassesJoin(pf: Platform, scope: Scope, records: seq<Record>, id: Option<string>)
    ensures Among(id, Classes(pf, scope, records)) <==> Taught(pf, scope, records, id)
  {
    var pick := (r: Record) => AssignedClass(pf, scope, r);
    PickedJoin(records, pick, id);
    forall r ensures pick(r) == id && id.Some? <==> AssignsTeacher(pf, scope, r) && ClassOf(r) == id && id.Some? {
      LiveGivesAccess(pf, scope, r);
    }
  }

  lemma StudentsJoin(pf: Platform, scope: Scope, records: seq<Record>, id: Option<string>)
    ensures Among(id, Students(pf, scope, Classes(pf, scope, records), records)) <==> TaughtStudent(pf, scope, records, id)
  {
    var classes := Classes(pf, scope, records);
    var pick := (r: Record) => StudentIn(pf, scope, classes, r);
    PickedJoin(records, pick, id);
    forall r
      ensures pick(r) == id && id.Some? <==>
              IsEnrolment(pf, scope, r) && CleanId(Field(r, "studentId")) == id && id.Some? && Taught(pf, scope, records, ClassOf(r))
    {
      LiveGivesAccess(pf, scope, r);
      ClassesJoin(pf, scope, records, ClassOf(r));
    }
  }

  lemma ColleaguesJoin(pf: Platform, scope: Scope, records: seq<Record>, id: Option<string>)
    ensures Among(id, Colleagues(pf, scope, Classes(pf, scope, records), records)) <==> Colleague(pf, scope, records, id)
  {
    var classes := Classes(pf, scope, records);
    var pick := (r: Record) => ColleagueIn(pf, scope, classes, r);
    PickedJoin(records, pick, id);
    forall r
      ensures pick(r) == id && id.Some? <==>
              Assigns(pf, scope, r) && CleanId(Field(r, "teacherId")) == id && id.Some? && Taught(pf, scope, records, ClassOf(r))
    {
      LiveGivesAccess(pf, scope, r);
      ClassesJoin(pf, scope, records, ClassOf(r));
    }
  }

  lemma SubjectsJoin(pf: Platform, scope: Scope, records: seq<Record>, id: Option<string>)
    ensures Among(id, ClassSubjects(pf, scope, Classes(pf, scope, records), records)) <==> TaughtSubject(pf, scope, records, id)
  {
    var classes := Classes(pf, scope, records);
    var pick := (r: Record) => ClassSubjectIn(pf, scope, classes, r);
    PickedJoin(records, pick, id);
    forall r
      ensures pick(r) == id && id.Some? <==>
              && GivesAccess(pf, scope, r) && r.tableName == "classSubjects" && RecordId(r) == id && id.Some?
              && Taught(pf, scope, records, ClassOf(r))
    {
      LiveGivesAccess(pf, scope, r);
      ClassesJoin(pf, scope, records, ClassOf(r));
    }
  }

  lemma ReachJoin(pf: Platform, scope: Scope, records: seq<Record>, r: Record)
    ensures var classes := Classes(pf, scope, records);
            ByClassOrStudent(r, classes, Students(pf, scope, classes, records)) <==> CardInReach(pf, scope, records, r)
  {
    ClassesJoin(pf, scope, records, ClassOf(r));
    StudentsJoin(pf, scope, records, CleanId(Field(r, "studentId")));
  }

  lemma CardsJoin(pf: Platform, scope: Scope, records: seq<Record>, id: Option<string>)
    ensures var classes := Classes(pf, scope, records);
            var students := Students(pf, scope, classes, records);
            Among(id, ReportCards(pf, scope, classes, students, records)) <==> TaughtCard(pf, scope, records, id)
  {
    var classes := Classes(pf, scope, records);
    var students := Students(pf, scope, classes, records);
    var pick := (r: Record) => ReportCardIn(pf, scope, classes, students, r);
    PickedJoin(records, pick, id);
    forall r
      ensures pick(r) == id && id.Some? <==>
              && GivesAccess(pf, scope, r) && r.tableName == "reportCards" && RecordId(r) == id && id.Some?
              && CardInReach(pf, scope, records, r)
    {
      LiveGivesAccess(pf, scope, r);
      ReachJoin(pf, scope, records, r);
    }
  }

  lemma TeacherSees(pf: Platform, scope: Scope, records: seq<Record>, r: Record)
    requires scope.role == Teacher && Given(scope.teacherId) && r.tableName != "mediaAssets"
    ensures Visible(pf, scope, records, r) <==>
            InTenant(pf, scope, r) && TeacherRule(pf, r, scope.teacherId.value, TeacherAccess(pf, scope, records))
  {
    TenantJoin(pf, scope, r);
  }

  /** A teacher sees exactly the classes assigned to them, and the assignments and enrolments of
      those classes: a join over the records, with no intermediate sets. */
  lemma TeacherClassRows(pf: Platform, scope: Scope, records: seq<Record>, r: Record)
    requires scope.role == Teacher && Given(scope.teacherId)
    requires r.tableName in {"classes", "classTeachers", "classSubjects", "studentEnrollments"}
    ensures Visible(pf, scope, records, r) <==>
            InTenant(pf, scope, r) && Taught(pf, scope, records, if r.tableName == "classes" then RecordId(r) else ClassOf(r))
  {
    TeacherSees(pf, scope, records, r);
    ClassesJoin(pf, scope, records, RecordId(r));
    ClassesJoin(pf, scope, records, ClassOf(r));
  }

  /** The people a teacher sees: themselves, whoever else is assigned to one of their classes, and
      the students actively enrolled in one. */
  lemma TeacherPeople(pf: Platform, scope: Scope, records: seq<Record>, r: Record)
    requires scope.role == Teacher && Given(scope.teacherId)
    ensures r.tableName == "teachers" ==>
              (Visible(pf, scope, records, r) <==>
               InTenant(pf, scope, r) && (RecordId(r) == scope.teacherId || Colleague(pf, scope, records, RecordId(r))))
    ensures r.tableName == "students" ==>
              (Visible(pf, scope, records, r) <==> InTenant(pf, scope, r) && TaughtStudent(pf, scope, records, RecordId(r)))
  {
    if r.tableName in {"teachers", "students"} {
      TeacherSees(pf, scope, records, r);
      ColleaguesJoin(pf, scope, records, RecordId(r));
      StudentsJoin(pf, scope, records, RecordId(r));
    }
  }

  /** Report cards within reach, and their items. */
  lemma TeacherReports(pf: Platform, scope: Scope, records: seq<Record>, r: Record)
    requires scope.role == Teacher && Given(scope.teacherId)
    ensures r.tableName == "reportCards" ==>
              (Visible(pf, scope, records, r) <==> InTenant(pf, scope, r) && TaughtCard(pf, scope, records, RecordId(r)))
    ensures r.tableName == "reportCardItems" ==>
              (Visible(pf, scope, records, r) <==>
               var card := CleanId(Field(r, "reportCardId"));
               InTenant(pf, scope, r) &&
               if card.Some? then TaughtCard(pf, scope, records, card) else CardInReach(pf, scope, records, r))
  {
    if r.tableName in {"reportCards", "reportCardItems"} {
      TeacherSees(pf, scope, records, r);
      CardsJoin(pf, scope, records, RecordId(r));
      CardsJoin(pf, scope, records, CleanId(Field(r, "reportCardId")));
      ReachJoin(pf, scope, records, r);
    }
  }

  lemma ScoreRule(pf: Platform, r: Record, teacherId: string, a: Access)
    requires r.tableName in SCORE_TABLES
    ensures TeacherRule(pf, r, teacherId, a) <==>
            LinksWithin(r, a, true) &&
            (ClassOf(r).Some? || CleanId(Field(r, "studentId")).Some? || CleanId(Field(r, "classSubjectId")).Some?)
  {
  }

  /** The class, the class subject and, if it counts, the student that the record names are all taught. */
  ghost predicate LinksTaught(pf: Platform, scope: Scope, records: seq<Record>, r: Record, withStudent: bool) {
    var student, subject := CleanId(Field(r, "studentId")), CleanId(Field(r, "classSubjectId"));
    && (ClassOf(r).Some? ==> Taught(pf, scope, records, ClassOf(r)))
    && (withStudent && student.Some? ==> TaughtStudent(pf, scope, records, student))
    && (subject.Some? ==> TaughtSubject(pf, scope, records, subject))
  }

  lemma LinksJoin(pf: Platform, scope: Scope, records: seq<Record>, r: Record, withStudent: bool)
    requires Given(scope.teacherId)
    ensures LinksWithin(r, TeacherAccess(pf, scope, records), withStudent) <==> LinksTaught(pf, scope, records, r, withStudent)
  {
    ClassesJoin(pf, scope, records, ClassOf(r));
    StudentsJoin(pf, scope, records, CleanId(Field(r, "studentId")));
    SubjectsJoin(pf, scope, records, CleanId(Field(r, "classSubjectId")));
  }

  /** A score is visible when it names something, and everything it names is taught. */
  lemma TeacherScores(pf: Platform, scope: Scope, records: seq<Record>, r: Record)
    requires scope.role == Teacher && Given(scope.teacherId)
    requires r.tableName in {"assessmentEntries", "computedResults", "assessmentComponents", "attendance", "studentAttendanceSummaries"}
    ensures Visible(pf, scope, records, r) <==>
            && InTenant(pf, scope, r) && LinksTaught(pf, scope, records, r, true)
            && (ClassOf(r).Some? || CleanId(Field(r, "studentId")).Some? || CleanId(Field(r, "classSubjectId")).Some?)
  {
    TeacherSees(pf, scope, records, r);
    ScoreRule(pf, r, scope.teacherId.value, TeacherAccess(pf, scope, records));
    LinksJoin(pf, scope, records, r, true);
  }

  /** The tables that the other lemmas about teachers speak of. */
  const TEACHER_TABLES: set<string> := {
    "mediaAssets", "teachers", "classes", "classTeachers", "classSubjects", "students", "studentEnrollments",
    "reportCards", "reportCardItems"} + SCORE_TABLES

  lemma OtherRule(pf: Platform, r: Record, teacherId: string, a: Access)
    requires r.tableName !in TEACHER_TABLES
    ensures TeacherRule(pf, r, teacherId, a) <==>
            if r.tableName == "assessmentApplicabilities" then LinksWithin(r, a, false)
            else if r.tableName == "teacherAttendance" then CleanId(Field(r, "teacherId")) == Some(teacherId)
            else || r.tableName in TEACHER_SHARED
                 || (LinksWithin(r, a, true) &&
                     (CleanId(Field(r, "teacherId")) == Some(teacherId) ||
                      (SubjectId(r) == Some(teacherId) && SubjectType(pf, r) in {"teacher", "staff"})))
  {
  }

  /** In every other table: what is shared, and what names the teacher without naming anything that
      is not taught; for an assessment's applicability the student does not count, and attendance
      has to be the teacher's own. */
  lemma TeacherOthers(pf: Platform, scope: Scope, records: seq<Record>, r: Record)
    requires scope.role == Teacher && Given(scope.teacherId) && r.tableName !in TEACHER_TABLES
    ensures Visible(pf, scope, records, r) <==>
            && InTenant(pf, scope, r)
            && if r.tableName == "assessmentApplicabilities" then LinksTaught(pf, scope, records, r, false)
               else if r.tableName == "teacherAttendance" then CleanId(Field(r, "teacherId")) == scope.teacherId
               else || r.tableName in TEACHER_SHARED
                    || (LinksTaught(pf, scope, records, r, true) &&
                        (CleanId(Field(r, "teacherId")) == scope.teacherId ||
                         Subject(pf, r, "teacher", scope.teacherId) || Subject(pf, r, "staff", scope.teacherId)))
  {
    TeacherSees(pf, scope, records, r);
    OtherRule(pf, r, scope.teacherId.value, TeacherAccess(pf, scope, records));
    LinksJoin(pf, scope, records, r, true);
    LinksJoin(pf, scope, records, r, false);
  }

  /** The record is about the person: under the newer names of its fields, or else the older ones. */
  predicate Subject(pf: Platform, r: Record, personType: string, id: Option<string>) {
    && (id == if Truthy(Field(r, "subjectId")) then CleanId(Field(r, "subjectId")) else CleanId(Field(r, "personId")))
    && (personType == pf.lower(Shown(if Truthy(Field(r, "subjectType")) then Field(r, "subjectType") else Field(r, "personType"))))
  }

  /** A student sees the shared tables and what is about the student alone: what names the student,
      the student's own row, and what has the student as its subject. */
  lemma StudentJoin(pf: Platform, scope: Scope, records: seq<Record>, r: Record)
    requires scope.role == Student && Given(scope.studentId) && r.tableName != "mediaAssets"
    ensures Visible(pf, scope, records, r) <==>
            && InTenant(pf, scope, r)
            && (|| r.tableName in STUDENT_SHARED
                || Named(r, "studentId", "students") == scope.studentId
                || Subject(pf, r, "student", scope.studentId))
  {
    TenantJoin(pf, scope, r);
  }

  /** A live link row gives the logged-in parent this child. */
  ghost predicate LinkedChild(pf: Platform, scope: Scope, records: seq<Record>, id: Option<string>) {
    id.Some? && exists l :: l in records && l.tableName == "studentParents" && GivesAccess(pf, scope, l) &&
                            CleanId(Field(l, "parentId")) == scope.parentId && CleanId(Field(l, "studentId")) == id
  }

  lemma ChildrenJoin(pf: Platform, scope: Scope, records: seq<Record>, id: Option<string>)
    ensures Among(id, Children(pf, scope, records)) <==> LinkedChild(pf, scope, records, id)
  {
    var pick := (r: Record) => ChildOf(pf, scope, r);
    PickedJoin(records, pick, id);
    forall l
      ensures pick(l) == id && id.Some? <==>
              && l.tableName == "studentParents" && GivesAccess(pf, scope, l)
              && CleanId(Field(l, "parentId")) == scope.parentId && CleanId(Field(l, "studentId")) == id && id.Some?
    {
      LiveGivesAccess(pf, scope, l);
    }
  }

  lemma ParentSees(pf: Platform, scope: Scope, records: seq<Record>, r: Record)
    requires scope.role == Parent && Given(scope.parentId) && r.tableName != "mediaAssets"
    ensures Visible(pf, scope, records, r) <==>
            InTenant(pf, scope, r) && ParentRule(pf, r, scope.parentId.value, Children(pf, scope, records))
  {
    TenantJoin(pf, scope, r);
  }

  /** The person that may collect a child, or that collected it. */
  function Collector(r: Record): Option<string> {
    CleanId(if Truthy(Field(r, "authorizedPersonId")) then Field(r, "authorizedPersonId") else Field(r, "collectorSubjectId"))
  }

  /** A parent sees the shared tables, what names the parent, and what names a linked child. */
  lemma ParentJoin(pf: Platform, scope: Scope, records: seq<Record>, r: Record)
    requires scope.role == Parent && Given(scope.parentId) && r.tableName != "mediaAssets"
    ensures Visible(pf, scope, records, r) <==>
            && InTenant(pf, scope, r)
            && (|| r.tableName in PARENT_SHARED
                || scope.parentId in {Named(r, "parentId", "parents"), Collector(r)}
                || Subject(pf, r, "parent", scope.parentId)
                || LinkedChild(pf, scope, records, Named(r, "studentId", "students"))
                || exists child :: Subject(pf, r, "student", child) && LinkedChild(pf, scope, records, child))
  {
    ParentSees(pf, scope, records, r);
    ChildrenJoin(pf, scope, records, StudentOf(r));
    ChildrenJoin(pf, scope, records, SubjectId(r));
    assert StudentOf(r) == Named(r, "studentId", "students") && ParentOf(r) == Named(r, "parentId", "parents");
    assert SubjectType(pf, r) == "student" ==> Subject(pf, r, "student", SubjectId(r));
  }

  /** Tables of records about one person. */
  const PERSONAL_TABLES: set<string> := {
    "students", "parents", "teachers", "studentParents", "studentEnrollments", "reportCards", "reportCardItems",
    "assessmentEntries", "computedResults", "assessmentComponents", "attendance", "studentAttendanceSummaries",
    "teacherAttendance"}

  lemma SharedTablesNamePlaces(table: string)
    requires table in PERSONAL_TABLES
    ensures table !in STUDENT_SHARED && table !in PARENT_SHARED && table != "mediaAssets"
  {
  }

  predicate NamesNoSubject(r: Record) {
    !Truthy(Field(r, "subjectId")) && !Truthy(Field(r, "personId"))
  }

  /** Another student's personal records are hidden from a student, */
  lemma OtherStudentsHidden(pf: Platform, scope: Scope, records: seq<Record>, r: Record)
    requires r.tableName in PERSONAL_TABLES && NamesNoSubject(r)
    requires scope.role == Student && Given(scope.studentId) && Named(r, "studentId", "students") != scope.studentId
    ensures !Visible(pf, scope, records, r)
  {
    SharedTablesNamePlaces(r.tableName);
    StudentJoin(pf, scope, records, r);
  }

  /** and those of children that are not linked to them from a parent. */
  lemma OtherFamiliesHidden(pf: Platform, scope: Scope, records: seq<Record>, r: Record)
    requires r.tableName in PERSONAL_TABLES && NamesNoSubject(r)
    requires scope.role == Parent && Given(scope.parentId) && scope.parentId !in {Named(r, "parentId", "parents"), Collector(r)}
    requires !LinkedChild(pf, scope, records, Named(r, "studentId", "students"))
    ensures !Visible(pf, scope, records, r)
  {
    SharedTablesNamePlaces(r.tableName);
    ParentJoin(pf, scope, records, r);
  }

  // ---------------------------------------------------------------- media

  /** For student, parent and teacher scopes every visible asset has a visible owner record; a
      teacher never receives the media of another teacher. */
  lemma VisibleMediaHasVisibleOwner(pf: Platform, scope: Scope, records: seq<Record>, r: Record) returns (owner: Record)
    requires scope.role != Staff && r.tableName == "mediaAssets" && Visible(pf, scope, records, r)
    ensures owner in Filter(pf, scope, records) && owner.tableName != "mediaAssets"
    ensures CleanId(Field(r, "ownerTable")) == Some(owner.tableName)
    ensures CleanId(Field(r, "ownerId")).Some? && CleanId(Field(r, "ownerId")) == RecordId(owner)
    ensures scope.role == Teacher && owner.tableName == "teachers" ==> RecordId(owner) == scope.teacherId
  {
    var a := AccessOf(pf, scope, records);
    FilterMembers(pf, scope, records);
    owner :| owner in records && Authorized(pf, scope, a, owner) &&
             Owns(owner, CleanId(Field(r, "ownerTable")), CleanId(Field(r, "ownerId")));
  }

  /** An asset is visible exactly with its owner's record, wherever that stands among the records; an
      asset that names no owner to staff only, and a teacher's photograph only to that teacher. */
  lemma MediaJoin(pf: Platform, scope: Scope, records: seq<Record>, r: Record)
    requires r.tableName == "mediaAssets"
    ensures var ownerTable, ownerId := CleanId(Field(r, "ownerTable")), CleanId(Field(r, "ownerId"));
            Visible(pf, scope, records, r) <==>
            && InTenant(pf, scope, r)
            && (scope.role == Teacher && ownerTable == Some("teachers") ==> ownerId == scope.teacherId)
            && (if ownerTable.Some? && ownerId.Some? then
                  exists o :: && o in records && o.tableName != "mediaAssets" && Visible(pf, scope, records, o)
                              && Some(o.tableName) == ownerTable && RecordId(o) == ownerId
                else scope.role == Staff)
  {
    TenantJoin(pf, scope, r);
  }

  // ---------------------------------------------------------------- the passes

  lemma PickedNext(records: seq<Record>, i: nat, pick: Record -> Option<string>)
    requires i < |records|
    ensures Picked(records[..i + 1], pick) ==
            Picked(records[..i], pick) + (if pick(records[i]).Some? then {pick(records[i]).value} else {})
  {
    assert records[..i + 1] == records[..i] + [records[i]];
  }

  function Put(ids: set<string>, id: Option<string>): set<string> {
    if id.Some? then ids + {id.value} else ids
  }

  method CollectChildren(pf: Platform, scope: Scope, records: seq<Record>) returns (children: set<string>)
    ensures children == Children(pf, scope, records)
  {
    children := {};
    for i := 0 to |records|
      invariant children == Children(pf, scope, records[..i])
    {
      PickedNext(records, i, r => ChildOf(pf, scope, r));
      children := Put(children, ChildOf(pf, scope, records[i]));
    }
    assert records[..|records|] == records;
  }

  method CollectTeacherAccess(pf: Platform, scope: Scope, records: seq<Record>) returns (access: Access)
    requires Given(scope.teacherId)
    ensures access == TeacherAccess(pf, scope, records)
  {
    var classes: set<string> := {};
    for i := 0 to |records|
      invariant classes == Classes(pf, scope, records[..i])
    {
      PickedNext(records, i, r => AssignedClass(pf, scope, r));
      classes := Put(classes, AssignedClass(pf, scope, records[i]));
    }
    assert records[..|records|] == records;
    var teachers, subjects, students := {scope.teacherId.value}, {}, {};
    for i := 0 to |records|
      invariant teachers == Colleagues(pf, scope, classes, records[..i]) + {scope.teacherId.value}
      invariant subjects == ClassSubjects(pf, scope, classes, records[..i])
      invariant students == Students(pf, scope, classes, records[..i])
    {
      PickedNext(records, i, r => ColleagueIn(pf, scope, classes, r));
      PickedNext(records, i, r => ClassSubjectIn(pf, scope, classes, r));
      PickedNext(records, i, r => StudentIn(pf, scope, classes, r));
      teachers := Put(teachers, ColleagueIn(pf, scope, classes, records[i]));
      subjects := Put(subjects, ClassSubjectIn(pf, scope, classes, records[i]));
      students := Put(students, StudentIn(pf, scope, classes, records[i]));
    }
    var cards: set<string> := {};
    for i := 0 to |records|
      invariant cards == ReportCards(pf, scope, classes, students, records[..i])
    {
      PickedNext(records, i, r => ReportCardIn(pf, scope, classes, students, r));
      cards := Put(cards, ReportCardIn(pf, scope, classes, students, records[i]));
    }
    access := Access(classes, students, subjects, teachers, cards, {});
  }

  method CollectAccess(pf: Platform, scope: Scope, records: seq<Record>) returns (access: Access)
    ensures access == AccessOf(pf, scope, records)
  {
    access := NO_ACCESS;
    if scope.role == Parent && Given(scope.parentId) {
      var children := CollectChildren(pf, scope, records);
      access := access.(children := children);
    } else if scope.role == Teacher && Given(scope.teacherId) {
      access := CollectTeacherAccess(pf, scope, records);
    }
  }

  /** The owner index: table name to the identifiers of the authorized records in it. */
  predicate Indexed(owners: map<string, set<string>>, ownerTable: string, ownerId: string) {
    ownerTable in owners && ownerId in owners[ownerTable]
  }

  ghost predicate IndexOf(records: seq<Record>, owners: map<string, set<string>>) {
    forall t, id :: Indexed(owners, t, id) <==> exists o :: o in records && Owns(o, Some(t), Some(id))
  }

  method IndexOwners(records: seq<Record>) returns (owners: map<string, set<string>>)
    ensures IndexOf(records, owners)
  {
    owners := map[];
    for i := 0 to |records|
      invariant IndexOf(records[..i], owners)
    {
      var r := records[i];
      var id := RecordId(r);
      ghost var before := owners;
      if id.Some? {
        var ids := if r.tableName in owners then owners[r.tableName] else {};
        owners := owners[r.tableName := ids + {id.value}];
      }
      assert records[..i + 1] == records[..i] + [r];
      IndexNext(records[..i], r, before, owners);
    }
    assert records[..|records|] == records;
  }

  lemma IndexNext(records: seq<Record>, r: Record, before: map<string, set<string>>, owners: map<string, set<string>>)
    requires IndexOf(records, before)
    requires forall t, k :: Indexed(owners, t, k) <==> Indexed(before, t, k) || Owns(r, Some(t), Some(k))
    ensures IndexOf(records + [r], owners)
  {
    forall t, id
      ensures Indexed(owners, t, id) <==> exists o :: o in records + [r] && Owns(o, Some(t), Some(id))
    {
      if Indexed(before, t, id) {
        var o :| o in records && Owns(o, Some(t), Some(id));
        assert o in records + [r];
      } else if Owns(r, Some(t), Some(id)) {
        assert r in records + [r];
      }
    }
  }

  ghost predicate MediaVisible(pf: Platform, scope: Scope, roleScoped: seq<Record>, r: Record) {
    var ownerTable, ownerId := CleanId(Field(r, "ownerTable")), CleanId(Field(r, "ownerId"));
    MediaCandidate(pf, scope, r) &&
    if ownerTable.Some? && ownerId.Some? then exists o :: o in roleScoped && Owns(o, ownerTable, ownerId)
    else scope.role == Staff
  }

  method MediaAllowed(pf: Platform, scope: Scope, ghost roleScoped: seq<Record>, owners: map<string, set<string>>, r: Record)
    returns (allowed: bool)
    requires IndexOf(roleScoped, owners)
    ensures allowed == MediaVisible(pf, scope, roleScoped, r)
  {
    if !MediaCandidate(pf, scope, r) {
      return false;
    }
    var ownerTable, ownerId := CleanId(Field(r, "ownerTable")), CleanId(Field(r, "ownerId"));
    if ownerTable.Some? && ownerId.Some? {
      return Indexed(owners, ownerTable.value, ownerId.value);
    }
    return scope.role == Staff;
  }

  method SelectMedia(pf: Platform, scope: Scope, roleScoped: seq<Record>, records: seq<Record>) returns (media: seq<Record>)
    ensures forall r :: r in media <==> r in records && MediaVisible(pf, scope, roleScoped, r)
  {
    var owners := IndexOwners(roleScoped);
    media := [];
    for i := 0 to |records|
      invariant forall r :: r in media <==> r in records[..i] && MediaVisible(pf, scope, roleScoped, r)
    {
      var allowed := MediaAllowed(pf, scope, roleScoped, owners, records[i]);
      if allowed {
        media := media + [records[i]];
      }
    }
    assert records[..|records|] == records;
  }

  method SelectAuthorized(pf: Platform, scope: Scope, access: Access, records: seq<Record>) returns (roleScoped: seq<Record>)
    ensures forall r :: r in roleScoped <==> r in records && Authorized(pf, scope, access, r)
  {
    roleScoped := [];
    for i := 0 to |records|
      invariant forall r :: r in roleScoped <==> r in records[..i] && Authorized(pf, scope, access, r)
    {
      if Authorized(pf, scope, access, records[i]) {
        roleScoped := roleScoped + [records[i]];
      }
    }
    assert records[..|records|] == records;
  }

  /** The last sweep: the authorized records, in the records' own order. */
  method SweepInOrder(pf: Platform, scope: Scope, records: seq<Record>, authorized: set<Record>) returns (out: seq<Record>)
    requires forall r :: r in records ==> (r in authorized <==> Visible(pf, scope, records, r))
    ensures out == Filter(pf, scope, records)
  {
    out := [];
    for i := 0 to |records|
      invariant out == Select(pf, scope, records, records[..i])
    {
      assert records[..i + 1][..i] == records[..i];
      if records[i] in authorized {
        out := out + [records[i]];
      }
    }
    assert records[..|records|] == records;
  }

  /** What the records of the role and the selected media hold together is what is visible. */
  lemma AuthorizedIsVisible(pf: Platform, scope: Scope, records: seq<Record>, roleScoped: seq<Record>, r: Record)
    requires forall o :: o in roleScoped <==> o in records && Authorized(pf, scope, AccessOf(pf, scope, records), o)
    ensures Visible(pf, scope, records, r) <==>
            Authorized(pf, scope, AccessOf(pf, scope, records), r) || MediaVisible(pf, scope, roleScoped, r)
  {
  }

  /** The whole filter: the passes, the records of the role, the owner index and the media, then
      one sweep in the records' own order. */
  method FilterRecords(pf: Platform, scope: Scope, records: seq<Record>) returns (out: seq<Record>)
    ensures out == Filter(pf, scope, records)
  {
    var access := CollectAccess(pf, scope, records);
    var roleScoped := SelectAuthorized(pf, scope, access, records);
    var media := SelectMedia(pf, scope, roleScoped, records);
    var authorized := set r | r in roleScoped + media;
    forall r | r in records ensures r in authorized <==> Visible(pf, scope, records, r) {
      AuthorizedIsVisible(pf, scope, records, roleScoped, r);
    }
    out := SweepInOrder(pf, scope, records, authorized);
  }
}
