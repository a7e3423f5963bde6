/**
 * The handlers of controllers/studentProfile.controller.js over an in-memory
 * collection of students: reading a profile, and the five section updates.
 * Each update checks its request body, replaces the whole section with
 * `{...body, completed: true}` and saves the student; `updateNotes` also sets
 * `profileComplete` once every section is completed. The caller is the
 * decoded token (`req.user`), and `parse` stands for `Date.parse`.
 */
module StudentProfile {
  import opened Js
  import opened Mongoose
  import opened StudentModel

  /** The failures the handlers report, with their status and message. */
  datatype Failure =
    | NotFound
    | OtherStudent
    | OtherSchool
    | MissingFields(fields: seq<string>)
    | ParentsNotArray
    | NoParents
    | InvalidParent
    | InvalidRelationship
    | InvalidSibling
    | SchoolsNotArray
    | NoSchools
    | InvalidSchool
    | InvalidLevel
    | SeveralCurrentSchools
    | DatesOutOfOrder
    | ReadOfNull(what: string, property: string)  // a TypeError the handler's own code raises
    | NotCallable(expression: string)             // likewise
    | CastFailed                                  // the id does not cast to an ObjectId
    | ValidationFailed                            // the save's validation
    | HookRefused(hook: HookFailure)              // a pre-save hook
  {
    function Code(): int {
      match this
      case NotFound => 404
      case OtherStudent => 403
      case OtherSchool => 403
      case ReadOfNull(_, _) => 500
      case NotCallable(_) => 500
      case CastFailed => 500
      case ValidationFailed => 500
      case HookRefused(_) => 500
      case _ => 400
    }

    function Message(): string {
      match this
      case NotFound => "Student not found"
      case OtherStudent => "You don't have permission to access other student profiles"
      case OtherSchool => "You can only access profiles of students in your school"
      case MissingFields(fields) => "Missing required fields: " + Join(fields, ", ")
      case ParentsNotArray => "Parents data must be an array"
      case NoParents => "At least one parent/guardian is required"
      case InvalidParent =>
        "Invalid parent data. Each parent must have name, relationship, occupation, education, and phone"
      case InvalidRelationship => "Invalid relationship type. Must be one of: Father, Mother, Guardian"
      case InvalidSibling => "Invalid sibling data. Each sibling must have name, age, and relationship"
      case SchoolsNotArray => "Schools data must be an array"
      case NoSchools => "At least one school is required"
      case InvalidSchool => "Invalid school data. Each school must have name, level, start date, and end date"
      case InvalidLevel => "Invalid school level. Must be one of: Primary, Junior Secondary, Senior Secondary"
      case SeveralCurrentSchools => "Only one school can be marked as current"
      case DatesOutOfOrder => "Start date must be before end date for all schools"
      case ReadOfNull(what, property) => "Cannot read properties of " + what + " (reading '" + property + "')"
      case NotCallable(expression) => expression + " is not a function"
      case CastFailed => "Cast to ObjectId failed"
      case ValidationFailed => "Student validation failed"
      case HookRefused(hook) => hook.Message()
    }
  }

  /** What `getStudentProfile` returns: the student (without its password)
      and the completion flag of each section. */
  datatype ProfileView = ProfileView(student: Student, completedSections: map<ProfileSection, bool>)

  /** `student.<section>?.completed || false` for every section. */
  function CompletedSections(st: Student): (m: map<ProfileSection, bool>)
    ensures m.Keys == AllProfileSections
    ensures forall s :: s in m ==> (m[s] <==> SectionCompleted(st, s))
  {
    map s | s in AllProfileSections :: SectionCompleted(st, s)
  }

  /** The id a profile request looks up: the `studentId` parameter when it
      is given, otherwise the caller's own id. */
  function ProfileKey(user: Record, studentId: Option<string>): Option<Value> {
    if studentId.Some? && studentId.value != "" then Some(Str(studentId.value)) else Lookup(user, "id")
  }

  /** The request passes the role and school checks: it asks for the
      caller's own profile, or the caller is no student and, if a
      counselor, has a school equal to `body.schoolId`. */
  predicate Allowed(user: Record, studentId: Option<string>, body: Record) {
    || studentId.None? || studentId.value == ""
    || (&& !RoleIs(user, "student")
        && (RoleIs(user, "counselor") ==>
              Present(Lookup(user, "schoolId")) && Lookup(body, "schoolId") == Some(Str(ToString(user["schoolId"])))))
  }

  /** `getStudentProfile`. A non-empty `studentId` parameter asks for another
      student's profile: students may not, counselors only within their own
      school (compared with `body.schoolId`); otherwise the caller's own id is
      used. An allowed request finds the student by id. */
  function ProfileCheck(students: map<string, Student>, user: Record, studentId: Option<string>, body: Record)
    : (d: Reply<ProfileView, Failure>)
    ensures studentId.Some? && studentId.value != "" && RoleIs(user, "student") ==> d == Err(403, OtherStudent)
    ensures (studentId.Some? && studentId.value != "" && RoleIs(user, "counselor")
      && Present(Lookup(user, "schoolId")) && Lookup(body, "schoolId") != Some(Str(ToString(user["schoolId"])))) ==>
      d == Err(403, OtherSchool)
    ensures !Allowed(user, studentId, body) ==> d.Err? && (d.code == 403 || d.code == 500)
    ensures Allowed(user, studentId, body) && FindById(students, ProfileKey(user, studentId)).Absent? ==>
      d == Err(404, NotFound)
    ensures Allowed(user, studentId, body) && FindById(students, ProfileKey(user, studentId)).CastFails? ==>
      d == Err(500, CastFailed)
    ensures Allowed(user, studentId, body) && FindById(students, ProfileKey(user, studentId)).Found? ==> d.Ok?
    ensures d.Ok? ==>
      && d.code == 200
      && Allowed(user, studentId, body)
      && var key := ProfileKey(user, studentId);
         && key.Some? && CanonicalId(ToString(key.value)) in students
         && d.value.student == students[CanonicalId(ToString(key.value))]
         && d.value.completedSections == CompletedSections(d.value.student)
  {
    if studentId.Some? && studentId.value != "" && RoleIs(user, "student") then Err(403, OtherStudent)
    else if studentId.Some? && studentId.value != "" && RoleIs(user, "counselor") && !Present(Lookup(user, "schoolId")) then
      Err(500, ReadOfNull(if "schoolId" in user then "null" else "undefined", "toString"))
    else if studentId.Some? && studentId.value != "" && RoleIs(user, "counselor")
      && Lookup(body, "schoolId") != Some(Str(ToString(user["schoolId"]))) then Err(403, OtherSchool)
    else
      match FindById(students, ProfileKey(user, studentId))
      case CastFails => Err(500, CastFailed)
      case Absent => Err(404, NotFound)
      case Found(_, st) => Ok(200, ProfileView(st, CompletedSections(st)))
  }

  /** A list entry the handler would read a property of `null` from. */
  predicate HasNullEntry(items: seq<Value>) {
    exists i :: 0 <= i < |items| && items[i].Null?
  }

  /** `!fields.some((field) => !entry[field])` for an entry that is not
      `null`: an entry that is not an object has no properties. */
  predicate EntryHas(v: Value, fields: seq<string>) {
    v.Obj? && forall f :: f in fields ==> Has(v.fields, f)
  }

  predicate AllEntriesHave(items: seq<Value>, fields: seq<string>) {
    forall i :: 0 <= i < |items| ==> EntryHas(items[i], fields)
  }

  /** `choices.includes(entry[k])`. */
  predicate FieldIn(v: Value, k: string, choices: seq<string>) {
    v.Obj? && k in v.fields && v.fields[k].Str? && v.fields[k].s in choices
  }

  const PersonalRequired := ["gender", "dateOfBirth", "placeOfBirth", "nationality", "religion",
    "address", "phoneNumber", "emergencyContact"]
  const FamilyBackgroundRequired := ["parents", "familyIncome", "familySize"]
  const ParentListFields := ["name", "relationship", "occupation", "education", "phone"]
  const Relationships := ["Father", "Mother", "Guardian"]
  const FamilyStructureRequired := ["siblings", "livingWith", "familyType"]
  const SiblingFields := ["name", "age", "relationship"]
  const EducationRequired := ["schools", "currentGrade", "academicPerformance"]
  const SchoolFields := ["name", "level", "startDate", "endDate"]
  const Levels := ["Primary", "Junior Secondary", "Senior Secondary"]

  /** The check of `updatePersonalData`: every missing field is listed. */
  function PersonalDataErrors(body: Record): (e: Option<Failure>)
    ensures e.None? <==> forall f :: f in PersonalRequired ==> Has(body, f)
    ensures e.Some? ==>
      && e.value.MissingFields? && e.value.fields != []
      && (forall f :: f in e.value.fields <==> f in PersonalRequired && !Has(body, f))
      && SubsequenceOf(e.value.fields, PersonalRequired)
  {
    var m := Missing(PersonalRequired, body);
    if m != [] then Some(MissingFields(m)) else None
  }

  /** The checks of `updateFamilyBackground`, in their order. */
  function FamilyBackgroundErrors(body: Record): (e: Option<Failure>)
    ensures Missing(FamilyBackgroundRequired, body) != [] ==>
      e == Some(MissingFields(Missing(FamilyBackgroundRequired, body)))
    ensures Missing(FamilyBackgroundRequired, body) == [] && !body["parents"].Arr? ==> e == Some(ParentsNotArray)
    ensures e == Some(NoParents) <==> Missing(FamilyBackgroundRequired, body) == [] && body["parents"] == Arr([])
    ensures e == Some(InvalidRelationship) ==> AllEntriesHave(body["parents"].items, ParentListFields)
    ensures e.None? <==>
      && (forall f :: f in FamilyBackgroundRequired ==> Has(body, f))
      && body["parents"].Arr? && body["parents"].items != []
      && AllEntriesHave(body["parents"].items, ParentListFields)
      && (forall i :: 0 <= i < |body["parents"].items| ==>
            FieldIn(body["parents"].items[i], "relationship", Relationships))
  {
    var m := Missing(FamilyBackgroundRequired, body);
    if m != [] then Some(MissingFields(m))
    else if !body["parents"].Arr? then Some(ParentsNotArray)
    else
      var parents := body["parents"].items;
      if parents == [] then Some(NoParents)
      else if HasNullEntry(parents) then Some(ReadOfNull("null", "name"))
      else if !AllEntriesHave(parents, ParentListFields) then Some(InvalidParent)
      else if exists i :: 0 <= i < |parents| && !FieldIn(parents[i], "relationship", Relationships) then
        Some(InvalidRelationship)
      else None
  }

  /** The checks of `updateFamilyStructure`: `siblings.filter` is called on
      whatever `siblings` is, so a value that is not an array throws. */
  function FamilyStructureErrors(body: Record): (e: Option<Failure>)
    ensures Missing(FamilyStructureRequired, body) != [] ==>
      e == Some(MissingFields(Missing(FamilyStructureRequired, body)))
    ensures Missing(FamilyStructureRequired, body) == [] && !body["siblings"].Arr? ==>
      e == Some(NotCallable("req.body.siblings.filter")) && e.value.Code() == 500
    ensures e == Some(InvalidSibling) ==>
      exists i :: 0 <= i < |body["siblings"].items| && !EntryHas(body["siblings"].items[i], SiblingFields)
    ensures e.None? <==>
      && (forall f :: f in FamilyStructureRequired ==> Has(body, f))
      && body["siblings"].Arr? && AllEntriesHave(body["siblings"].items, SiblingFields)
  {
    var m := Missing(FamilyStructureRequired, body);
    if m != [] then Some(MissingFields(m))
    else if !body["siblings"].Arr? then Some(NotCallable("req.body.siblings.filter"))
    else
      var siblings := body["siblings"].items;
      if HasNullEntry(siblings) then Some(ReadOfNull("null", "name"))
      else if !AllEntriesHave(siblings, SiblingFields) then Some(InvalidSibling)
      else None
  }

  /** `new Date(v)` as a number of milliseconds, or None for an invalid
      date; `parse` is `Date.parse` on text. */
  function DateOf(v: Value, parse: string -> Option<int>): Option<int> {
    match v
    case Num(n) => if -8640000000000000 <= n <= 8640000000000000 then Some(n) else None
    case Null => Some(0)
    case Bool(b) => Some(if b then 1 else 0)
    case Str(s) => parse(s)
    case _ => parse(ToString(v))
  }

  /** `new Date(school.startDate) > new Date(school.endDate)`: an invalid
      date compares false with everything. */
  predicate DatesReversed(v: Value, parse: string -> Option<int>) {
    v.Obj? && "startDate" in v.fields && "endDate" in v.fields
    && var start, end := DateOf(v.fields["startDate"], parse), DateOf(v.fields["endDate"], parse);
       start.Some? && end.Some? && start.value > end.value
  }

  /** A school marked as the current one. */
  predicate Current(v: Value) {
    v.Obj? && Has(v.fields, "currentSchool")
  }

  /** `schools.filter((school) => school.currentSchool).length`. */
  function CurrentCount(items: seq<Value>): (n: nat)
    ensures n <= |items|
    ensures n == 0 <==> forall i :: 0 <= i < |items| ==> !Current(items[i])
  {
    if items == [] then 0
    else (if Current(items[0]) then 1 else 0) + CurrentCount(items[1..])
  }

  /** Two different schools marked current count as at least two. */
  lemma {:induction false} TwoCurrent(items: seq<Value>, i: nat, j: nat)
    requires i < j < |items|
    requires Current(items[i]) && Current(items[j])
    ensures CurrentCount(items) >= 2
  {
    if i == 0 {
      assert Current(items[1..][j - 1]);
    } else {
      TwoCurrent(items[1..], i - 1, j - 1);
    }
  }

  /** The checks of `updateEducationalBackground`, in their order. */
  function EducationErrors(body: Record, parse: string -> Option<int>): (e: Option<Failure>)
    ensures Missing(EducationRequired, body) != [] ==>
      e == Some(MissingFields(Missing(EducationRequired, body)))
    ensures Missing(EducationRequired, body) == [] && !body["schools"].Arr? ==> e == Some(SchoolsNotArray)
    ensures e == Some(NoSchools) <==> Missing(EducationRequired, body) == [] && body["schools"] == Arr([])
    ensures e == Some(DatesOutOfOrder) ==>
      AllEntriesHave(body["schools"].items, SchoolFields) && CurrentCount(body["schools"].items) <= 1
    ensures e.None? <==>
      && (forall f :: f in EducationRequired ==> Has(body, f))
      && body["schools"].Arr? && body["schools"].items != []
      && var schools := body["schools"].items;
         && AllEntriesHave(schools, SchoolFields)
         && (forall i :: 0 <= i < |schools| ==> FieldIn(schools[i], "level", Levels))
         && CurrentCount(schools) <= 1
         && (forall i :: 0 <= i < |schools| ==> !DatesReversed(schools[i], parse))
  {
    var m := Missing(EducationRequired, body);
    if m != [] then Some(MissingFields(m))
    else if !body["schools"].Arr? then Some(SchoolsNotArray)
    else
      var schools := body["schools"].items;
      if schools == [] then Some(NoSchools)
      else if HasNullEntry(schools) then Some(ReadOfNull("null", "name"))
      else if !AllEntriesHave(schools, SchoolFields) then Some(InvalidSchool)
      else if exists i :: 0 <= i < |schools| && !FieldIn(schools[i], "level", Levels) then Some(InvalidLevel)
      else if CurrentCount(schools) > 1 then Some(SeveralCurrentSchools)
      else if exists i :: 0 <= i < |schools| && DatesReversed(schools[i], parse) then Some(DatesOutOfOrder)
      else None
  }

  /** An accepted educational background marks at most one school as the
      current one. */
  lemma AcceptedSchoolsOneCurrent(body: Record, parse: string -> Option<int>, i: nat, j: nat)
    requires EducationErrors(body, parse).None?
    requires i < j < |body["schools"].items|
    ensures !(Current(body["schools"].items[i]) && Current(body["schools"].items[j]))
  {
    if Current(body["schools"].items[i]) && Current(body["schools"].items[j]) {
      TwoCurrent(body["schools"].items, i, j);
    }
  }

  /** The request checks of the handler that updates a section. */
  function BodyErrors(s: ProfileSection, body: Record, parse: string -> Option<int>): Option<Failure> {
    match s
    case PersonalData => PersonalDataErrors(body)
    case FamilyBackground => FamilyBackgroundErrors(body)
    case FamilyStructure => FamilyStructureErrors(body)
    case EducationalBackground => EducationErrors(body, parse)
    case Notes => None
  }

  /** The checks of the handler for a section are that handler's. */
  lemma BodyErrorsOf(s: ProfileSection, body: Record, parse: string -> Option<int>)
    ensures s == EducationalBackground ==> BodyErrors(s, body, parse) == EducationErrors(body, parse)
    ensures s == Notes ==> BodyErrors(s, body, parse).None?
  {
  }

  /** Every section is completed. */
  predicate AllCompleted(st: Student) {
    forall s :: SectionCompleted(st, s)
  }

  /** The student after `student.<section> = {...body, completed: true}`,
      and for the notes the `profileComplete` rule of `updateNotes`: only
      the section changes, and the flag is only ever set. */
  function Updated(st: Student, s: ProfileSection, section: Record): (u: Student)
    ensures u.sections == st.sections[s := section]
    ensures (u.firstName, u.lastName, u.admissionNumber, u.schoolId)
         == (st.firstName, st.lastName, st.admissionNumber, st.schoolId)
    ensures (u.role, u.active, u.profileStatus) == (st.role, st.active, st.profileStatus)
    ensures s != Notes ==> u.profileComplete == st.profileComplete
    ensures s == Notes ==> (u.profileComplete <==> st.profileComplete || AllCompleted(u))
  {
    var u := st.(sections := st.sections[s := section]);
    if s == Notes && AllCompleted(u) then
      assert forall t :: SectionCompleted(u.(profileComplete := true), t) == SectionCompleted(u, t);
      u.(profileComplete := true)
    else u
  }

  /** What an update handler decides for the caller's own student: a
      failure, or the student with the section replaced and, for the notes,
      `profileComplete` set once every section is completed. Nothing is
      stored when the save fails. */
  function UpdateCheck(students: map<string, Student>, user: Record, s: ProfileSection, body: Record,
                       parse: string -> Option<int>): (d: Reply<Student, Failure>)
    ensures FindById(students, Lookup(user, "id")).Absent? ==> d == Err(404, NotFound)
    ensures FindById(students, Lookup(user, "id")).Found? && BodyErrors(s, body, parse).Some? ==>
      d == Err(BodyErrors(s, body, parse).value.Code(), BodyErrors(s, body, parse).value)
    ensures d.Ok? <==>
      && FindById(students, Lookup(user, "id")).Found?
      && BodyErrors(s, body, parse).None?
      && SaveCheck(s, Assigned(body, SchemaOf(s), parse)).None?
    ensures d.Ok? ==> d == Ok(200, Updated(FindById(students, Lookup(user, "id")).doc, s, Assigned(body, SchemaOf(s), parse)))
    ensures FindById(students, Lookup(user, "id")).CastFails? ==> d == Err(500, CastFailed)
    ensures FindById(students, Lookup(user, "id")).Found? && BodyErrors(s, body, parse).None? ==>
      && (SaveCheck(s, Assigned(body, SchemaOf(s), parse)) == Some(Invalid) ==> d == Err(500, ValidationFailed))
      && (forall h :: SaveCheck(s, Assigned(body, SchemaOf(s), parse)) == Some(Refused(h)) ==> d == Err(500, HookRefused(h)))
  {
    match FindById(students, Lookup(user, "id"))
    case CastFails => Err(500, CastFailed)
    case Absent => Err(404, NotFound)
    case Found(_, st) =>
      var errors := BodyErrors(s, body, parse);
      if errors.Some? then Err(errors.value.Code(), errors.value)
      else
        match SaveCheck(s, Assigned(body, SchemaOf(s), parse))
        case Some(Invalid) => Err(500, ValidationFailed)
        case Some(Refused(hook)) => Err(500, HookRefused(hook))
        case None => Ok(200, Updated(st, s, Assigned(body, SchemaOf(s), parse)))
  }

  /** A section as a successful save leaves it: it passes validation and
      the hook, and it is marked completed. */
  predicate Stored(s: ProfileSection, r: Record) {
    SaveCheck(s, r).None? && Lookup(r, "completed") == Some(Bool(true))
  }

  /** A stored student: every section it has passed its save and carries
      `completed: true`; a complete profile has every section; `role` and
      `profileStatus` keep the values the student was created with. */
  predicate WellFormed(st: Student) {
    && st.role == "student"
    && st.profileStatus == InitialProfileStatus
    && (forall s :: s in st.sections ==> Stored(s, st.sections[s]))
    && (st.profileComplete ==> AllCompleted(st))
  }

  predicate AllWellFormed(students: map<string, Student>) {
    forall k :: k in students ==> WellFormed(students[k])
  }

  /** A new student is well formed. */
  lemma NewStudentWellFormed(firstName: string, lastName: string, admissionNumber: string, schoolId: string)
    ensures WellFormed(NewStudent(firstName, lastName, admissionNumber, schoolId))
  {
  }

  /** An accepted update keeps the student well formed. */
  lemma UpdateKeepsWellFormed(students: map<string, Student>, user: Record, s: ProfileSection, body: Record,
                              parse: string -> Option<int>)
    requires AllWellFormed(students)
    ensures UpdateCheck(students, user, s, body, parse).Ok? ==>
      WellFormed(UpdateCheck(students, user, s, body, parse).value)
    ensures UpdateCheck(students, user, s, body, parse).Ok? && FindById(students, Lookup(user, "id")).doc.profileComplete ==>
      UpdateCheck(students, user, s, body, parse).value.profileComplete
  {
    var d := UpdateCheck(students, user, s, body, parse);
    if d.Ok? {
      var st := FindById(students, Lookup(user, "id")).doc;
      assert WellFormed(st);
      AssignedCompleted(body, s, parse);
      UpdatedWellFormed(st, s, Assigned(body, SchemaOf(s), parse));
    }
  }

  /** `updatePersonalData` with `dateOfBirth` sent as text, as a JSON client
      sends it: the update succeeds only if the text parses to a valid time,
      and the stored date is that time. */
  lemma BirthDateStored(students: map<string, Student>, user: Record, body: Record, parse: string -> Option<int>, t: string)
    requires Lookup(body, "dateOfBirth") == Some(Str(t)) && t != ""
    requires UpdateCheck(students, user, PersonalData, body, parse).Ok?
    ensures TextTime(t, parse).Some? && IsTime(TextTime(t, parse).value)
    ensures var st := UpdateCheck(students, user, PersonalData, body, parse).value;
      && PersonalData in st.sections && "dateOfBirth" in st.sections[PersonalData]
      && st.sections[PersonalData]["dateOfBirth"] == Num(TextTime(t, parse).value)
  {
    BirthDateField();
    KindAt(PersonalDataSchema, 6);
    AssignedDate(body, PersonalDataSchema, parse, "dateOfBirth", t);
  }

  /** `updateEducationalBackground` succeeds for every body its checks
      accept, unless the body carries an `_id` that is no ObjectId:
      `schools` is a nested path, so strict mode silently drops the array
      the handler demands, and the stored section is only `completed: true`
      and the body's `_id`, with no school years for the hook to check. */
  lemma EducationUpdateSaves(students: map<string, Student>, user: Record, body: Record, parse: string -> Option<int>)
    requires FindById(students, Lookup(user, "id")).Found?
    requires EducationErrors(body, parse).None?
    ensures ("_id" in body ==> IdCasts(body["_id"])) ==>
      UpdateCheck(students, user, EducationalBackground, body, parse)
      == Ok(200, Updated(FindById(students, Lookup(user, "id")).doc, EducationalBackground,
                         map["completed" := Bool(true)] + GivenId(body, parse)))
    ensures "_id" in body && !IdCasts(body["_id"]) ==>
      UpdateCheck(students, user, EducationalBackground, body, parse) == Err(500, ValidationFailed)
  {
    AcceptedSchoolsArray(body, parse);
    EducationSectionAssigned(body, parse);
    CompletedEducationSaves(body, parse);
    BodyErrorsOf(EducationalBackground, body, parse);
    assert SchemaOf(EducationalBackground) == EducationalBackgroundSchema;
  }

  /** A body the checks of `updateEducationalBackground` accept holds an
      array of schools. */
  lemma AcceptedSchoolsArray(body: Record, parse: string -> Option<int>)
    requires EducationErrors(body, parse).None?
    ensures "schools" in body && body["schools"].Arr? && body["schools"].items != []
  {
    assert EducationRequired[0] == "schools";
  }

  /** An educational background of `completed: true` and the body's `_id`
      saves iff that `_id`, if any, casts to an ObjectId; otherwise
      validation refuses it. */
  lemma CompletedEducationSaves(body: Record, parse: string -> Option<int>)
    ensures var r := map["completed" := Bool(true)] + GivenId(body, parse);
      && (SaveCheck(EducationalBackground, r).None? <==> ("_id" in body ==> IdCasts(body["_id"])))
      && ("_id" in body && !IdCasts(body["_id"]) ==> SaveCheck(EducationalBackground, r) == Some(Invalid))
  {
    var r := map["completed" := Bool(true)] + GivenId(body, parse);
    FlaggedSectionConforms(body, parse);
    FlagAndGivenId(body, parse);
    assert "schools" !in r;
    assert LevelYears(r, "primary") == (None, None);
    assert LevelYears(r, "juniorSecondary") == (None, None);
    assert LevelYears(r, "seniorSecondary") == (None, None);
    assert SchoolYearsHook(r).None?;
    assert SchemaOf(EducationalBackground) == EducationalBackgroundSchema;
  }

  /** Replacing a section by one that saves keeps a student well formed. */
  lemma UpdatedWellFormed(st: Student, s: ProfileSection, section: Record)
    requires WellFormed(st)
    requires Stored(s, section)
    ensures WellFormed(Updated(st, s, section))
  {
    UpdateKeepsAll(st.sections, s, section, Stored);
    if st.profileComplete {
      UpdatedKeepsComplete(st, s, section);
    }
  }

  /** A complete profile stays complete when a section is replaced by a
      completed one. */
  lemma UpdatedKeepsComplete(st: Student, s: ProfileSection, section: Record)
    requires AllCompleted(st)
    requires Lookup(section, "completed") == Some(Bool(true))
    ensures AllCompleted(Updated(st, s, section))
  {
    var u := Updated(st, s, section);
    forall t ensures SectionCompleted(u, t) {
      assert SectionCompleted(st, t);
    }
  }

  /** Writing one entry that satisfies `ok` into a map whose entries all
      satisfy it keeps every entry satisfying it. */
  lemma UpdateKeepsAll<K, V>(m: map<K, V>, k: K, v: V, ok: (K, V) -> bool)
    requires forall t {:trigger m[t]} :: t in m ==> ok(t, m[t])
    requires ok(k, v)
    ensures forall t {:trigger m[k := v][t]} :: t in m[k := v] ==> ok(t, m[k := v][t])
  {
    forall t {:trigger m[k := v][t]} | t in m[k := v]
      ensures ok(t, m[k := v][t])
    {
      if t != k {
        assert m[k := v][t] == m[t];
      }
    }
  }

  /** Once the four other sections are completed, a notes update that is
      accepted completes the profile (UpdateCheck stores exactly `Updated`). */
  lemma NotesCompletesProfile(st: Student, body: Record, parse: string -> Option<int>)
    requires forall s :: s != Notes ==> SectionCompleted(st, s)
    ensures Updated(st, Notes, Assigned(body, SchemaOf(Notes), parse)).profileComplete
  {
    AssignedCompleted(body, Notes, parse);
    CompletedNotes(st, Assigned(body, SchemaOf(Notes), parse));
  }

  /** With the schemas as written, no update completes a profile: the
      personal-data section an update stores has no `completed`, so a notes
      update, whatever the other sections hold, leaves `profileComplete`
      false. */
  lemma ProfileNeverCompleteAsWritten(st: Student, personal: Record, notes: Record, parse: string -> Option<int>)
    requires !st.profileComplete
    requires PersonalData in st.sections ==>
      st.sections[PersonalData] == Assigned(personal, PersonalDataSchemaAsWritten, parse)
    ensures !Updated(st, Notes, notes).profileComplete
  {
    AssignedAsWrittenNeverCompleted(personal, parse);
    var u := Updated(st, Notes, notes);
    assert !SectionCompleted(u, PersonalData);
  }

  /** Storing completed notes beside four completed sections completes the
      profile. */
  lemma CompletedNotes(st: Student, notes: Record)
    requires forall s :: s != Notes ==> SectionCompleted(st, s)
    requires Lookup(notes, "completed") == Some(Bool(true))
    ensures Updated(st, Notes, notes).profileComplete
  {
    var u := Updated(st, Notes, notes);
    forall s ensures SectionCompleted(u, s) {
      if s != Notes {
        assert SectionCompleted(st, s);
      }
    }
  }

  /** The collection after one update handler: the reply's student stored
      under the caller's key when the update succeeds, nothing changed
      otherwise. */
  function AfterUpdate(students: map<string, Student>, user: Record, s: ProfileSection, body: Record,
                       parse: string -> Option<int>): (after: map<string, Student>)
    ensures after.Keys == students.Keys
  {
    match FindById(students, Lookup(user, "id"))
    case Found(key, _) =>
      var d := UpdateCheck(students, user, s, body, parse);
      if d.Ok? then students[key := d.value] else students
    case _ => students
  }

  /** One accepted update stores, under the same key, the student with the
      section replaced by a completed one. */
  lemma AcceptedStep(students: map<string, Student>, user: Record, s: ProfileSection, body: Record,
                     parse: string -> Option<int>)
    requires FindById(students, Lookup(user, "id")).Found?
    requires UpdateCheck(students, user, s, body, parse).Ok?
    ensures var key := FindById(students, Lookup(user, "id")).key;
      var after := AfterUpdate(students, user, s, body, parse);
      && FindById(after, Lookup(user, "id")).Found? && FindById(after, Lookup(user, "id")).key == key
      && after[key] == Updated(students[key], s, Assigned(body, SchemaOf(s), parse))
      && SectionCompleted(after[key], s)
  {
    AssignedCompleted(body, s, parse);
    FindByIdSameKeys(students, AfterUpdate(students, user, s, body, parse), Lookup(user, "id"));
  }

  /** The collection after a run of updates by the same caller, in order. */
  function AfterUpdates(students: map<string, Student>, user: Record, updates: seq<(ProfileSection, Record)>,
                        parse: string -> Option<int>): (after: map<string, Student>)
    ensures after.Keys == students.Keys
    decreases |updates|
  {
    if updates == [] then students
    else
      var n := |updates| - 1;
      AfterUpdate(AfterUpdates(students, user, updates[..n], parse), user, updates[n].0, updates[n].1, parse)
  }

  /** The run updates the section at some point. */
  predicate UpdatesSection(updates: seq<(ProfileSection, Record)>, s: ProfileSection) {
    exists i :: 0 <= i < |updates| && updates[i].0 == s
  }

  /** Every update of the run succeeds. */
  predicate AllAccepted(students: map<string, Student>, user: Record, updates: seq<(ProfileSection, Record)>,
                        parse: string -> Option<int>)
    decreases |updates|
  {
    updates == [] ||
      var n := |updates| - 1;
      && AllAccepted(students, user, updates[..n], parse)
      && UpdateCheck(AfterUpdates(students, user, updates[..n], parse), user, updates[n].0, updates[n].1, parse).Ok?
  }

  /** A run of successful updates leaves every section it updated
      completed, keeps completed the sections that already were, and keeps
      the caller's student under the same key. */
  lemma {:induction false} AcceptedUpdatesComplete(students: map<string, Student>, user: Record,
                                                   updates: seq<(ProfileSection, Record)>, parse: string -> Option<int>)
    requires FindById(students, Lookup(user, "id")).Found?
    requires AllAccepted(students, user, updates, parse)
    ensures var key := FindById(students, Lookup(user, "id")).key;
      var after := AfterUpdates(students, user, updates, parse);
      && FindById(after, Lookup(user, "id")).Found? && FindById(after, Lookup(user, "id")).key == key
      && forall s :: (SectionCompleted(students[key], s) || UpdatesSection(updates, s)) ==> SectionCompleted(after[key], s)
    decreases |updates|
  {
    if updates != [] {
      var key := FindById(students, Lookup(user, "id")).key;
      var n := |updates| - 1;
      var (u, body) := updates[n];
      var prefix := updates[..n];
      AcceptedUpdatesComplete(students, user, prefix, parse);
      var before := AfterUpdates(students, user, prefix, parse);
      AcceptedStep(before, user, u, body, parse);
      AssignedCompleted(body, u, parse);
      var after := AfterUpdates(students, user, updates, parse);
      assert after == AfterUpdate(before, user, u, body, parse);
      forall s | SectionCompleted(students[key], s) || UpdatesSection(updates, s)
        ensures SectionCompleted(after[key], s)
      {
        if s != u {
          if !SectionCompleted(students[key], s) {
            UpdatesSectionBefore(updates, s);
          }
          assert SectionCompleted(before[key], s);
        }
        UpdatedKeepsCompleted(before[key], u, Assigned(body, SchemaOf(u), parse), s);
      }
    }
  }

  /** A section a run updates, other than by its last update, is updated
      by the run without its last update. */
  lemma UpdatesSectionBefore(updates: seq<(ProfileSection, Record)>, s: ProfileSection)
    requires UpdatesSection(updates, s) && updates[|updates| - 1].0 != s
    ensures UpdatesSection(updates[..|updates| - 1], s)
  {
    var i :| 0 <= i < |updates| && updates[i].0 == s;
    assert updates[..|updates| - 1][i].0 == s;
  }

  /** Replacing a section keeps every other section's `completed`, and the
      replaced one is completed when the new section is. */
  lemma UpdatedKeepsCompleted(st: Student, u: ProfileSection, section: Record, s: ProfileSection)
    requires s == u ==> Lookup(section, "completed") == Some(Bool(true))
    requires s != u ==> SectionCompleted(st, s)
    ensures SectionCompleted(Updated(st, u, section), s)
  {
  }

  /** Once every other section has been updated successfully, a
      successful notes update completes the profile: in particular, the
      five handlers called in turn, with the notes last. */
  lemma {:induction false} UpdatesCompleteProfile(students: map<string, Student>, user: Record,
                                                  updates: seq<(ProfileSection, Record)>, notes: Record,
                                                  parse: string -> Option<int>)
    requires FindById(students, Lookup(user, "id")).Found?
    requires AllAccepted(students, user, updates + [(Notes, notes)], parse)
    requires forall s :: s != Notes ==> UpdatesSection(updates, s)
    ensures AfterUpdates(students, user, updates + [(Notes, notes)], parse)[FindById(students, Lookup(user, "id")).key].profileComplete
  {
    var key := FindById(students, Lookup(user, "id")).key;
    var run := updates + [(Notes, notes)];
    assert run[..|run| - 1] == updates;
    AcceptedUpdatesComplete(students, user, updates, parse);
    var before := AfterUpdates(students, user, updates, parse);
    AcceptedStep(before, user, Notes, notes, parse);
    NotesCompletesProfile(before[key], notes, parse);
  }

  /** Replacing one stored student by a well-formed one whose profile is
      complete if the old one's was keeps the collection well formed and
      resets no completed profile. */
  lemma StoreWith(students: map<string, Student>, key: string, st: Student)
    requires AllWellFormed(students) && WellFormed(st)
    requires key in students && students[key].profileComplete ==> st.profileComplete
    ensures AllWellFormed(students[key := st])
    ensures forall k :: k in students && students[k].profileComplete ==>
      k in students[key := st] && students[key := st][k].profileComplete
  {
  }

  /** The student collection. */
  class StudentStore {
    var students: map<string, Student>

    ghost predicate Valid()
      reads this
    {
      AllWellFormed(students)
    }

    constructor()
      ensures students == map[] && Valid()
    {
      students := map[];
    }

    /** A student account as it is created, with every profile default. */
    method Register(id: string, firstName: string, lastName: string, admissionNumber: string, schoolId: string)
      requires Valid()
      requires IsCanonicalId(id) && id !in students
      modifies this
      ensures Valid()
      ensures students == old(students)[id := NewStudent(firstName, lastName, admissionNumber, schoolId)]
    {
      NewStudentWellFormed(firstName, lastName, admissionNumber, schoolId);
      students := students[id := NewStudent(firstName, lastName, admissionNumber, schoolId)];
    }

    /** `updatePersonalData`, `updateFamilyBackground`,
        `updateFamilyStructure`, `updateEducationalBackground` and
        `updateNotes`, by the section they update. */
    method UpdateSection(user: Record, s: ProfileSection, body: Record, parse: string -> Option<int>)
      returns (reply: Reply<Student, Failure>)
      requires Valid()
      modifies this
      ensures Valid()
      ensures reply == UpdateCheck(old(students), user, s, body, parse)
      ensures students == if reply.Ok? then old(students)[FindById(old(students), Lookup(user, "id")).key := reply.value]
                          else old(students)
      ensures forall k :: k in old(students) && old(students)[k].profileComplete ==>
        k in students && students[k].profileComplete
    {
      reply := UpdateCheck(students, user, s, body, parse);
      if reply.Ok? {
        UpdateKeepsWellFormed(students, user, s, body, parse);
        var key := FindById(students, Lookup(user, "id")).key;
        StoreWith(students, key, reply.value);
        students := students[key := reply.value];
      }
    }
  }
}
