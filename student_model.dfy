/**
 * The student document of models/student.model.js: the five profile
 * sections with their schemas, the defaults of a new student, and the
 * pre-save hooks of the family background, family structure and educational
 * background sub-documents. Saving a section first validates it against its
 * schema and then runs its hook; the first failure is the one reported.
 */
module StudentModel {
  import opened Js
  import opened Mongoose

  /** The five profile sections, under the names of their paths. */
  datatype ProfileSection = PersonalData | FamilyBackground | FamilyStructure | EducationalBackground | Notes
  {
    function Name(): string {
      match this
      case PersonalData => "personalData"
      case FamilyBackground => "familyBackground"
      case FamilyStructure => "familyStructure"
      case EducationalBackground => "educationalBackground"
      case Notes => "notes"
    }
  }

  const AllProfileSections: set<ProfileSection> :=
    {PersonalData, FamilyBackground, FamilyStructure, EducationalBackground, Notes}

  /** The personal-data schema exactly as declared: it has no `completed`
      path. */
  const PersonalDataSchemaAsWritten := Schema([
    Required("lastName", AnyString),
    Required("firstName", AnyString),
    Required("gender", KStr(["Male", "Female"])),
    Required("admissionNumber", AnyString),
    Required("yearOfAdmission", AnyNumber),
    Optional("collegeHouse", AnyString),
    Required("dateOfBirth", KDate),
    Required("placeOfBirth", AnyString),
    Required("address", AnyString),
    Required("contactAddress", AnyString),
    Required("stateOfOrigin", AnyString),
    Optional("languagesSpoken", AnyString),
    Optional("countriesVisited", AnyString),
    Required("religion", AnyString),
    Required("nationality", AnyString),
    Optional("changeOfName", AnyString),
    Optional("changeOfNameDate", KDate),
    Optional("evidence", AnyString)
  ])

  /** A father, mother or guardian record. */
  const ParentSchema := Schema([
    Optional("name", AnyString),
    Optional("contactAddress", AnyString),
    Optional("residentialAddress", AnyString),
    Optional("phone", AnyString),
    Optional("state", AnyString),
    Optional("nationality", AnyString),
    Optional("religion", AnyString),
    Optional("educationLevel", AnyString),
    Optional("occupation", AnyString),
    Optional("deceased", AnyString),
    Optional("dateOfBirth", KDate)
  ])

  /** The family-background schema exactly as declared: it has no
      `completed` path either. */
  const FamilyBackgroundSchemaAsWritten := Schema([
    Optional("father", KNested(ParentSchema)),
    Optional("mother", KNested(ParentSchema)),
    Optional("guardian", KNested(ParentSchema))
  ])

  /** The two schemas with the `completed` flag every other section
      declares (see the findings in README). */
  const PersonalDataSchema := Schema(PersonalDataSchemaAsWritten.fields + [Flag("completed")])
  const FamilyBackgroundSchema := Schema(FamilyBackgroundSchemaAsWritten.fields + [Flag("completed")])

  const SiblingSchema := Schema([
    Required("name", AnyString),
    Required("age", AnyNumber),
    Required("relationship", AnyString),
    Optional("occupation", AnyString),
    Optional("education", AnyString),
    ImplicitId()
  ])

  const MotherPositions := ["First Wife", "Second Wife", "Third Wife", "Fourth Wife", "other"]
  const ParentsStatuses := ["Living Together", "Living Apart", "Separated", "Divorced"]

  const FamilyStructureSchema := Schema([
    Required("fatherWives", KNum(Some(1), None)),
    Required("motherPosition", KStr(MotherPositions)),
    Required("totalSiblings", KNum(Some(0), None)),
    Required("maleSiblings", KNum(Some(0), None)),
    Required("femaleSiblings", KNum(Some(0), None)),
    Required("positionAmongSiblings", KNum(Some(1), None)),
    Required("parentsStatus", KStr(ParentsStatuses)),
    Field("siblings", KList(SiblingSchema), false, Some(Arr([]))),
    Optional("familyChallenges", AnyString),
    Flag("completed"),
    ImplicitId()
  ])

  const SchoolSchema := Schema([
    Optional("schoolName", AnyString),
    Optional("admissionYear", AnyNumber),
    Optional("graduationYear", AnyNumber),
    Optional("leavingReason", AnyString),
    Optional("certificateNumber", AnyString)
  ])

  /** The nested `schools` path: one school sub-document per level. */
  const SchoolsSchema := Schema([
    Field("primary", KSub(SchoolSchema), false, Some(Obj(map[]))),
    Field("juniorSecondary", KSub(SchoolSchema), false, Some(Obj(map[]))),
    Field("seniorSecondary", KSub(SchoolSchema), false, Some(Obj(map[])))
  ])

  const EducationalBackgroundSchema := Schema([
    Optional("schools", KNested(SchoolsSchema)),
    Flag("completed"),
    ImplicitId()
  ])

  const NotesSchema := Schema([
    Optional("additionalNotes", AnyString),
    Optional("counselorNotes", AnyString),
    Flag("completed"),
    ImplicitId()
  ])

  /** The schema each section is stored under. */
  function SchemaOf(s: ProfileSection): (schema: Schema)
    ensures "completed" in Names(schema)
  {
    match s
    case PersonalData =>
      assert PersonalDataSchema.fields[18].name == "completed"; PersonalDataSchema
    case FamilyBackground =>
      assert FamilyBackgroundSchema.fields[3].name == "completed"; FamilyBackgroundSchema
    case FamilyStructure =>
      assert FamilyStructureSchema.fields[9].name == "completed"; FamilyStructureSchema
    case EducationalBackground =>
      assert EducationalBackgroundSchema.fields[1].name == "completed"; EducationalBackgroundSchema
    case Notes =>
      assert NotesSchema.fields[2].name == "completed"; NotesSchema
  }

  /** Why a pre-save hook refused a section, with the message of the error
      it raises. */
  datatype HookFailure =
    | ParentIncomplete(name: string, missing: seq<string>)
    | SiblingSum
    | PositionTooHigh
    | YearsOutOfOrder(level: string)
  {
    function Message(): string {
      match this
      case ParentIncomplete(name, missing) =>
        "Missing required fields for " + name + ": " + Join(missing, ", ")
      case SiblingSum => "Total siblings must equal the sum of male and female siblings"
      case PositionTooHigh => "Position among siblings cannot be greater than total siblings"
      case YearsOutOfOrder(level) => level + ": Admission year must be before graduation year"
    }
  }

  /** The fields a named father, mother or guardian must have. */
  const ParentFields := ["name", "contactAddress", "residentialAddress", "phone", "state",
    "nationality", "religion", "educationLevel", "occupation", "deceased"]

  /** `parent && parent.name`: a parent record that counts as given. */
  predicate Named(v: Option<Value>) {
    v.Some? && v.value.Obj? && Has(v.value.fields, "name")
  }

  /** The hook's verdict on one parent: a nameless record is skipped. */
  predicate ParentComplete(v: Option<Value>) {
    Named(v) ==> forall f :: f in ParentFields ==> Has(v.value.fields, f)
  }

  /** `validateParentFields(parent)`. */
  function ParentCheck(v: Option<Value>): (h: Option<HookFailure>)
    ensures h.None? <==> ParentComplete(v)
    ensures h.Some? ==>
      && Named(v)
      && h.value == ParentIncomplete(ToString(v.value.fields["name"]), Missing(ParentFields, v.value.fields))
      && h.value.missing != []
      && "name" !in h.value.missing
  {
    if Named(v) then
      var m := Missing(ParentFields, v.value.fields);
      if m == [] then None else Some(ParentIncomplete(ToString(v.value.fields["name"]), m))
    else None
  }

  /** The family-background hook: father, then mother, then guardian; the
      first incomplete named record is the one reported. */
  function FamilyBackgroundHook(r: Record): (h: Option<HookFailure>)
    ensures h.None? <==>
      ParentComplete(Lookup(r, "father")) && ParentComplete(Lookup(r, "mother")) && ParentComplete(Lookup(r, "guardian"))
    ensures !ParentComplete(Lookup(r, "father")) ==>
      h == Some(ParentIncomplete(ToString(r["father"].fields["name"]), Missing(ParentFields, r["father"].fields)))
    ensures ParentComplete(Lookup(r, "father")) && !ParentComplete(Lookup(r, "mother")) ==>
      h == Some(ParentIncomplete(ToString(r["mother"].fields["name"]), Missing(ParentFields, r["mother"].fields)))
    ensures ParentComplete(Lookup(r, "father")) && ParentComplete(Lookup(r, "mother")) && !ParentComplete(Lookup(r, "guardian")) ==>
      h == Some(ParentIncomplete(ToString(r["guardian"].fields["name"]), Missing(ParentFields, r["guardian"].fields)))
  {
    var father := ParentCheck(Lookup(r, "father"));
    if father.Some? then father
    else
      var mother := ParentCheck(Lookup(r, "mother"));
      if mother.Some? then mother else ParentCheck(Lookup(r, "guardian"))
  }

  /** The number a path holds, if it holds one. */
  function NumAt(r: Record, k: string): Option<int> {
    if k in r && r[k].Num? then Some(r[k].n) else None
  }

  /** The family-structure hook. The sum check comes first; a count that is
      not a number fails it, as `undefined !== NaN` does. */
  function FamilyStructureHook(r: Record): (h: Option<HookFailure>)
    ensures h.None? <==>
      && NumAt(r, "totalSiblings").Some? && NumAt(r, "maleSiblings").Some? && NumAt(r, "femaleSiblings").Some?
      && NumAt(r, "totalSiblings").value == NumAt(r, "maleSiblings").value + NumAt(r, "femaleSiblings").value
      && (NumAt(r, "positionAmongSiblings").Some? ==>
            NumAt(r, "positionAmongSiblings").value <= NumAt(r, "totalSiblings").value)
    ensures h == Some(PositionTooHigh) ==>
      && NumAt(r, "totalSiblings").Some? && NumAt(r, "maleSiblings").Some? && NumAt(r, "femaleSiblings").Some?
      && NumAt(r, "totalSiblings").value == NumAt(r, "maleSiblings").value + NumAt(r, "femaleSiblings").value
      && NumAt(r, "positionAmongSiblings").Some?
      && NumAt(r, "positionAmongSiblings").value > NumAt(r, "totalSiblings").value
    ensures h.Some? ==> h == Some(SiblingSum) || h == Some(PositionTooHigh)
  {
    var total, male, female := NumAt(r, "totalSiblings"), NumAt(r, "maleSiblings"), NumAt(r, "femaleSiblings");
    if total.None? || male.None? || female.None? || total.value != male.value + female.value then Some(SiblingSum)
    else
      var position := NumAt(r, "positionAmongSiblings");
      if position.Some? && position.value > total.value then Some(PositionTooHigh) else None
  }

  /** A family structure that passes validation and its hook describes a
      consistent family: the sibling counts add up, the student's own
      position is among them, and so there is at least one sibling. */
  lemma StoredFamilyStructure(r: Record)
    requires Conforms(r, FamilyStructureSchema)
    requires FamilyStructureHook(r).None?
    ensures NumAt(r, "totalSiblings").Some? && NumAt(r, "maleSiblings").Some?
    ensures NumAt(r, "femaleSiblings").Some? && NumAt(r, "positionAmongSiblings").Some?
    ensures NumAt(r, "totalSiblings").value == NumAt(r, "maleSiblings").value + NumAt(r, "femaleSiblings").value
    ensures NumAt(r, "maleSiblings").value >= 0 && NumAt(r, "femaleSiblings").value >= 0
    ensures 1 <= NumAt(r, "positionAmongSiblings").value <= NumAt(r, "totalSiblings").value
    ensures NumAt(r, "fatherWives").Some? && NumAt(r, "fatherWives").value >= 1
    ensures "motherPosition" in r && r["motherPosition"].Str? && r["motherPosition"].s in MotherPositions
    ensures "parentsStatus" in r && r["parentsStatus"].Str? && r["parentsStatus"].s in ParentsStatuses
  {
    ConformsAt(r, FamilyStructureSchema, 0);
    ConformsAt(r, FamilyStructureSchema, 1);
    ConformsAt(r, FamilyStructureSchema, 3);
    ConformsAt(r, FamilyStructureSchema, 4);
    ConformsAt(r, FamilyStructureSchema, 5);
    ConformsAt(r, FamilyStructureSchema, 6);
  }

  /** `validateSchoolYears`: both years given and the admission after the
      graduation. */
  predicate YearsOutOfOrderAt(admission: Option<Value>, graduation: Option<Value>) {
    TruthyOpt(admission) && TruthyOpt(graduation)
      && admission.value.Num? && graduation.value.Num? && admission.value.n > graduation.value.n
  }

  function YearsCheck(admission: Option<Value>, graduation: Option<Value>, level: string): (h: Option<HookFailure>)
    ensures h.Some? <==> YearsOutOfOrderAt(admission, graduation)
    ensures h.Some? ==> h.value == YearsOutOfOrder(level)
  {
    if YearsOutOfOrderAt(admission, graduation) then Some(YearsOutOfOrder(level)) else None
  }

  /** What the getters of a nested path show: only its declared sub-paths. */
  function View(r: Record, k: string, s: Schema): (v: Record)
    ensures v.Keys <= Names(s)
    ensures forall j :: j in v ==> k in r && r[k].Obj? && j in r[k].fields && v[j] == r[k].fields[j]
  {
    if k in r && r[k].Obj? then Restrict(r[k].fields, s) else map[]
  }

  /** The educational-background hook as written: it reads flat paths such
      as `schools.primaryAdmissionYear`, which the schema does not declare. */
  function SchoolYearsHookAsWritten(r: Record): Option<HookFailure> {
    var schools := View(r, "schools", SchoolsSchema);
    var primary := YearsCheck(Lookup(schools, "primaryAdmissionYear"), Lookup(schools, "primaryGraduationYear"), "Primary School");
    if primary.Some? then primary
    else
      var junior := YearsCheck(Lookup(schools, "juniorSecondaryAdmissionYear"), Lookup(schools, "juniorSecondaryGraduationYear"), "Junior Secondary School");
      if junior.Some? then junior
      else YearsCheck(Lookup(schools, "seniorSecondaryAdmissionYear"), Lookup(schools, "seniorSecondaryGraduationYear"), "Senior Secondary School")
  }

  /** As written, the hook can never refuse a document: none of the paths it
      reads exists on it. */
  lemma SchoolYearsHookAsWrittenNeverFails(r: Record)
    ensures SchoolYearsHookAsWritten(r) == None
  {
    var schools := View(r, "schools", SchoolsSchema);
    assert "primaryAdmissionYear" !in Names(SchoolsSchema);
    assert "juniorSecondaryAdmissionYear" !in Names(SchoolsSchema);
    assert "seniorSecondaryAdmissionYear" !in Names(SchoolsSchema);
  }

  /** The years of one level, read through the nested paths the schema
      declares. */
  function LevelYears(r: Record, level: string): (years: (Option<Value>, Option<Value>)) {
    var school := View(View(r, "schools", SchoolsSchema), level, SchoolSchema);
    (Lookup(school, "admissionYear"), Lookup(school, "graduationYear"))
  }

  predicate LevelInOrder(r: Record, level: string) {
    !YearsOutOfOrderAt(LevelYears(r, level).0, LevelYears(r, level).1)
  }

  /** The hook reading `schools.<level>.admissionYear` and
      `schools.<level>.graduationYear`: primary, then junior secondary, then
      senior secondary, and only the first failing level is reported. */
  function SchoolYearsHook(r: Record): (h: Option<HookFailure>)
    ensures h.None? <==>
      LevelInOrder(r, "primary") && LevelInOrder(r, "juniorSecondary") && LevelInOrder(r, "seniorSecondary")
    ensures !LevelInOrder(r, "primary") ==> h == Some(YearsOutOfOrder("Primary School"))
    ensures LevelInOrder(r, "primary") && !LevelInOrder(r, "juniorSecondary") ==>
      h == Some(YearsOutOfOrder("Junior Secondary School"))
    ensures LevelInOrder(r, "primary") && LevelInOrder(r, "juniorSecondary") && !LevelInOrder(r, "seniorSecondary") ==>
      h == Some(YearsOutOfOrder("Senior Secondary School"))
  {
    var primary := YearsCheck(LevelYears(r, "primary").0, LevelYears(r, "primary").1, "Primary School");
    if primary.Some? then primary
    else
      var junior := YearsCheck(LevelYears(r, "juniorSecondary").0, LevelYears(r, "juniorSecondary").1, "Junior Secondary School");
      if junior.Some? then junior
      else YearsCheck(LevelYears(r, "seniorSecondary").0, LevelYears(r, "seniorSecondary").1, "Senior Secondary School")
  }

  /** An educational background whose primary school was entered in 2015
      and left in 2010. */
  function LateAdmission(): Record {
    map["schools" := Obj(map["primary" := Obj(map["admissionYear" := Num(2015), "graduationYear" := Num(2010)])])]
  }

  /** The schema itself accepts it: only the hook can refuse it. */
  lemma LateAdmissionConforms()
    ensures Conforms(LateAdmission(), EducationalBackgroundSchema)
  {
    var school := map["admissionYear" := Num(2015), "graduationYear" := Num(2010)];
    var schools := map["primary" := Obj(school)];
    assert Conforms(school, SchoolSchema) by {
      forall i | 0 <= i < |SchoolSchema.fields|
        ensures SchoolSchema.fields[i].name in school ==> school[SchoolSchema.fields[i].name].Num?
      {
      }
    }
    assert Conforms(schools, SchoolsSchema);
  }

  /** A primary school entered in 2015 and left in 2010: the hook as written
      lets it through, the hook over the declared paths refuses it. */
  lemma SchoolYearsCounterexample()
    ensures var r := LateAdmission();
      && Conforms(r, EducationalBackgroundSchema)
      && SchoolYearsHookAsWritten(r) == None
      && SchoolYearsHook(r) == Some(YearsOutOfOrder("Primary School"))
  {
    LateAdmissionConforms();
    SchoolYearsHookAsWrittenNeverFails(LateAdmission());
    LateAdmissionRefused();
  }

  lemma LateAdmissionRefused()
    ensures SchoolYearsHook(LateAdmission()) == Some(YearsOutOfOrder("Primary School"))
  {
    LateAdmissionYears();
    assert !LevelInOrder(LateAdmission(), "primary");
  }

  lemma LateAdmissionYears()
    ensures LevelYears(LateAdmission(), "primary") == (Some(Num(2015)), Some(Num(2010)))
  {
    LateSchoolsView();
    LatePrimaryView();
  }

  lemma LateSchoolsView()
    ensures View(LateAdmission(), "schools", SchoolsSchema) ==
      map["primary" := Obj(map["admissionYear" := Num(2015), "graduationYear" := Num(2010)])]
  {
    assert "primary" in Names(SchoolsSchema) by { assert SchoolsSchema.fields[0].name == "primary"; }
  }

  lemma LatePrimaryView()
    ensures var school := map["admissionYear" := Num(2015), "graduationYear" := Num(2010)];
      View(map["primary" := Obj(school)], "primary", SchoolSchema) == school
  {
    assert "admissionYear" in Names(SchoolSchema) by { assert SchoolSchema.fields[1].name == "admissionYear"; }
    assert "graduationYear" in Names(SchoolSchema) by { assert SchoolSchema.fields[2].name == "graduationYear"; }
  }

  /** The pre-save hook of a section, if it has one. */
  function Hook(s: ProfileSection, r: Record): Option<HookFailure> {
    match s
    case FamilyBackground => FamilyBackgroundHook(r)
    case FamilyStructure => FamilyStructureHook(r)
    case EducationalBackground => SchoolYearsHook(r)
    case _ => None
  }

  /** Why saving a section fails: validation first, then the hook. */
  datatype SaveFailure = Invalid | Refused(hook: HookFailure)

  function SaveCheck(s: ProfileSection, r: Record): (f: Option<SaveFailure>)
    ensures f.None? <==> Conforms(r, SchemaOf(s)) && Hook(s, r).None?
    ensures !Conforms(r, SchemaOf(s)) ==> f == Some(Invalid)
    ensures Conforms(r, SchemaOf(s)) && Hook(s, r).Some? ==> f == Some(Refused(Hook(s, r).value))
  {
    if !Conforms(r, SchemaOf(s)) then Some(Invalid)
    else if Hook(s, r).Some? then Some(Refused(Hook(s, r).value))
    else None
  }

  /** A student document. The password, the timestamps and the populated
      school are not part of the model. */
  datatype Student = Student(
    firstName: string,
    lastName: string,
    admissionNumber: string,
    schoolId: string,
    role: string,
    active: bool,
    profileComplete: bool,
    profileStatus: map<ProfileSection, bool>,
    sections: map<ProfileSection, Record>)

  /** The `profileStatus` flags of a new student. */
  const InitialProfileStatus: map<ProfileSection, bool> := map[
    PersonalData := false, FamilyBackground := false, FamilyStructure := false,
    EducationalBackground := false, Notes := false]

  /** A student as the model's defaults build it: no section yet. */
  function NewStudent(firstName: string, lastName: string, admissionNumber: string, schoolId: string): (st: Student)
    ensures st.role == "student" && st.active && !st.profileComplete
    ensures st.profileStatus.Keys == AllProfileSections
    ensures forall s :: s in st.profileStatus ==> !st.profileStatus[s]
    ensures st.sections == map[]
    ensures (st.firstName, st.lastName, st.admissionNumber, st.schoolId) == (firstName, lastName, admissionNumber, schoolId)
  {
    Student(firstName, lastName, admissionNumber, schoolId, "student", true, false, InitialProfileStatus, map[])
  }

  /** The section's `completed` flag, read as `student.<section>?.completed`. */
  predicate SectionCompleted(st: Student, s: ProfileSection) {
    s in st.sections && TruthyOpt(Lookup(st.sections[s], "completed"))
  }

  /** Whether the schema declares a default for the path. */
  predicate HasDefault(schema: Schema, k: string) {
    exists i :: 0 <= i < |schema.fields| && schema.fields[i].name == k && schema.fields[i].default.Some?
  }

  /** The section an update handler stores: `{...body, completed: true}`
      assigned in strict mode (undeclared paths dropped, a non-object on a
      nested path dropped), each path cast to its kind (dates through
      `parse`), with the defaults filled in. */
  function Assigned(body: Record, schema: Schema, parse: string -> Option<int>): (r: Record)
    ensures r.Keys <= Names(schema)
    ensures "completed" in Names(schema) && !KindOf(schema, "completed").value.KNested? ==>
      Lookup(r, "completed") == Some(Bool(true))
    ensures forall k :: k in body && k in Names(schema) && k != "completed" && !Dropped(body[k], KindOf(schema, k).value) ==>
      k in r && r[k] == CastValue(AssignValue(body[k], KindOf(schema, k).value), KindOf(schema, k).value, parse)
    ensures forall k :: (k in body && k in Names(schema) && k != "completed"
                         && Dropped(body[k], KindOf(schema, k).value) && !HasDefault(schema, k)) ==> k !in r
  {
    var c := CastBody(body, schema, parse);
    DefaultsDeclared(c, schema);
    var r := WithDefaults(c, schema);
    assert forall k :: k in c ==> k in r && r[k] == c[k];
    assert "completed" in c ==> Lookup(r, "completed") == Lookup(c, "completed");
    r
  }

  /** `{...body, completed: true}` assigned in strict mode and cast. */
  function CastBody(body: Record, schema: Schema, parse: string -> Option<int>): (c: Record)
    ensures c.Keys <= Names(schema)
    ensures "completed" in Names(schema) && !KindOf(schema, "completed").value.KNested? ==>
      Lookup(c, "completed") == Some(Bool(true))
    ensures forall k :: k in body && k in Names(schema) && k != "completed" && !Dropped(body[k], KindOf(schema, k).value) ==>
      k in c && c[k] == CastValue(AssignValue(body[k], KindOf(schema, k).value), KindOf(schema, k).value, parse)
    ensures forall k :: k in body && k in Names(schema) && k != "completed" && Dropped(body[k], KindOf(schema, k).value) ==> k !in c
  {
    var merged := Merge(body, map["completed" := Bool(true)]);
    var kept := Assign(merged, schema);
    assert forall k :: k in body && k != "completed" ==> k in merged && merged[k] == body[k];
    assert "completed" in merged && merged["completed"] == Bool(true);
    CastRecord(kept, schema, parse)
  }

  /** In a stored section, a nested path with no default holds an object:
      strict mode has dropped any other value. */
  lemma NestedPathsHoldObjects(body: Record, schema: Schema, parse: string -> Option<int>)
    ensures var r := Assigned(body, schema, parse);
      forall k :: k in r && KindOf(schema, k).Some? && KindOf(schema, k).value.KNested? && !HasDefault(schema, k) ==>
        r[k].Obj?
  {
    CastBodyNestedPaths(body, schema, parse);
    var c := CastBody(body, schema, parse);
    var r := Assigned(body, schema, parse);
    assert r == WithDefaults(c, schema);
    assert forall k :: k in r && !HasDefault(schema, k) ==> k in c;
  }

  /** The step of NestedPathsHoldObjects before the defaults. */
  lemma CastBodyNestedPaths(body: Record, schema: Schema, parse: string -> Option<int>)
    ensures var c := CastBody(body, schema, parse);
      forall k :: k in c && KindOf(schema, k).value.KNested? ==> c[k].Obj?
  {
    var kept := Assign(Merge(body, map["completed" := Bool(true)]), schema);
    var c := CastBody(body, schema, parse);
    assert c == CastRecord(kept, schema, parse);
    forall k | k in c && KindOf(schema, k).value.KNested?
      ensures c[k].Obj?
    {
      assert kept[k].Obj?;
    }
  }

  /** The family-structure, educational-background and notes sections are
      single sub-documents with the implicit `_id`, an ObjectId; the
      personal-data and family-background schemas turn it off. */
  lemma SectionId(s: ProfileSection)
    ensures KindOf(SchemaOf(s), "_id") == if s == PersonalData || s == FamilyBackground then None else Some(KId)
  {
    match s
    case PersonalData => NoId(PersonalDataSchema);
    case FamilyBackground => NoId(FamilyBackgroundSchema);
    case FamilyStructure => KindAt(FamilyStructureSchema, 10);
    case EducationalBackground => KindAt(EducationalBackgroundSchema, 2);
    case Notes => KindAt(NotesSchema, 3);
  }

  /** A schema none of whose paths is `_id` does not declare it. */
  lemma NoId(schema: Schema)
    requires forall i :: 0 <= i < |schema.fields| ==> schema.fields[i].name != "_id"
    ensures KindOf(schema, "_id").None?
  {
  }

  /** Every section schema declares `completed` as a boolean. */
  lemma CompletedFlag(s: ProfileSection)
    ensures KindOf(SchemaOf(s), "completed") == Some(KBool)
  {
    match s
    case PersonalData => KindAt(PersonalDataSchema, 18);
    case FamilyBackground => KindAt(FamilyBackgroundSchema, 3);
    case FamilyStructure => KindAt(FamilyStructureSchema, 9);
    case EducationalBackground => KindAt(EducationalBackgroundSchema, 1);
    case Notes => KindAt(NotesSchema, 2);
  }

  /** `dateOfBirth` is the first declaration of its name in the personal
      data, and a date. */
  lemma BirthDateField()
    ensures PersonalDataSchema.fields[6] == Required("dateOfBirth", KDate)
    ensures forall j :: 0 <= j < 6 ==> PersonalDataSchema.fields[j].name != "dateOfBirth"
  {
  }

  /** A date sent as text, such as an ISO `dateOfBirth`, is stored as its
      time, and the section passes validation only if the text parses to a
      valid time. */
  lemma AssignedDate(body: Record, schema: Schema, parse: string -> Option<int>, k: string, t: string)
    requires KindOf(schema, k) == Some(KDate) && k != "completed"
    requires Lookup(body, k) == Some(Str(t)) && t != ""
    requires Conforms(Assigned(body, schema, parse), schema)
    ensures TextTime(t, parse).Some? && IsTime(TextTime(t, parse).value)
    ensures Assigned(body, schema, parse)[k] == Num(TextTime(t, parse).value)
  {
    var r := Assigned(body, schema, parse);
    assert k in Names(schema) && k in body;
    assert r[k] == CastValue(body[k], KindOf(schema, k).value, parse);
    var cd := CastDate(Str(t), parse);
    assert cd.Some? ==> cd.value == Num(TextTime(t, parse).value);
    assert r[k] == if cd.Some? then cd.value else Str(t);
    DeclaredFits(r, schema, k);
  }

  /** With the schemas as written, a stored personal-data or
      family-background section never carries `completed`: strict mode drops
      the flag the handler sets. */
  lemma AssignedAsWrittenNeverCompleted(body: Record, parse: string -> Option<int>)
    ensures "completed" !in Assigned(body, PersonalDataSchemaAsWritten, parse)
    ensures "completed" !in Assigned(body, FamilyBackgroundSchemaAsWritten, parse)
  {
    var p := PersonalDataSchemaAsWritten;
    var f := FamilyBackgroundSchemaAsWritten;
    assert forall i :: 0 <= i < |p.fields| ==> p.fields[i].name != "completed" && p.fields[i].default.None?;
    assert forall i :: 0 <= i < |f.fields| ==> f.fields[i].name != "completed" && f.fields[i].default.None?;
  }

  /** With a `completed` path declared, every stored section carries
      `completed: true`, whatever the body says. */
  lemma AssignedCompleted(body: Record, s: ProfileSection, parse: string -> Option<int>)
    ensures Lookup(Assigned(body, SchemaOf(s), parse), "completed") == Some(Bool(true))
  {
    CompletedFlag(s);
  }

  /** The `_id` a body gives a section that is a sub-document, as the
      ObjectId cast leaves it. */
  function GivenId(body: Record, parse: string -> Option<int>): (r: Record)
    ensures r.Keys == body.Keys * {"_id"}
    ensures "_id" in r ==> r["_id"] == CastValue(body["_id"], KId, parse)
  {
    if "_id" in body then map["_id" := CastValue(body["_id"], KId, parse)] else map[]
  }

  /** Strict mode drops a `schools` value that is not an object, since
      `schools` is a nested path: the section assigned from such a body is
      only `completed: true`, with the `_id` the body gives, if any. */
  lemma EducationSectionAssigned(body: Record, parse: string -> Option<int>)
    requires "schools" in body ==> !body["schools"].Obj?
    ensures Assigned(body, EducationalBackgroundSchema, parse) == map["completed" := Bool(true)] + GivenId(body, parse)
  {
    var c := map["completed" := Bool(true)] + GivenId(body, parse);
    EducationCastBody(body, parse);
    assert "completed" in c;
    EducationDefaults(c);
  }

  /** The only default of the educational background is the flag's: a
      section that holds the flag gets no other. */
  lemma EducationDefaults(c: Record)
    requires "completed" in c
    ensures WithDefaults(c, EducationalBackgroundSchema) == c
  {
    var s := EducationalBackgroundSchema;
    assert forall i :: 0 <= i < |s.fields| && s.fields[i].default.Some? ==> s.fields[i].name == "completed";
    DefaultsPresent(c, s);
  }

  /** Such a section passes validation iff the `_id` the body gives, if
      any, casts to an ObjectId. */
  lemma FlaggedSectionConforms(body: Record, parse: string -> Option<int>)
    ensures Conforms(map["completed" := Bool(true)] + GivenId(body, parse), EducationalBackgroundSchema)
        <==> ("_id" in body ==> IdCasts(body["_id"]))
  {
    var s := EducationalBackgroundSchema;
    var r := map["completed" := Bool(true)] + GivenId(body, parse);
    FlagAndGivenId(body, parse);
    assert |s.fields| == 3 && s.fields[0] == Optional("schools", KNested(SchoolsSchema))
      && s.fields[1] == Flag("completed") && s.fields[2] == ImplicitId();
    assert "schools" !in r;
    if "_id" in body {
      IdCastValidates(body["_id"], parse);
      if Conforms(r, s) {
        ConformsAt(r, s, 2);
      }
    }
  }

  /** The cast step of EducationSectionAssigned. */
  lemma EducationCastBody(body: Record, parse: string -> Option<int>)
    requires "schools" in body ==> !body["schools"].Obj?
    ensures CastBody(body, EducationalBackgroundSchema, parse) == map["completed" := Bool(true)] + GivenId(body, parse)
  {
    EducationKinds();
    EducationOthersDropped(body);
    CastBodyFlagAndId(body, EducationalBackgroundSchema, parse);
    FlagAndGivenId(body, parse);
  }

  /** `completed: true` joined with the given `_id`, case by case. */
  lemma FlagAndGivenId(body: Record, parse: string -> Option<int>)
    ensures "_id" in body ==>
      map["completed" := Bool(true)] + GivenId(body, parse)
      == map["completed" := Bool(true), "_id" := CastValue(body["_id"], KId, parse)]
    ensures "_id" !in body ==> map["completed" := Bool(true)] + GivenId(body, parse) == map["completed" := Bool(true)]
  {
    if "_id" in body {
      MapPairUnion(Bool(true), CastValue(body["_id"], KId, parse));
    } else {
      var flag: Record := map["completed" := Bool(true)];
      assert flag + map[] == flag;
    }
  }

  /** The stored section when a schema keeps only `completed` and `_id` of
      the body. */
  lemma CastBodyFlagAndId(body: Record, schema: Schema, parse: string -> Option<int>)
    requires KindOf(schema, "completed") == Some(KBool)
    requires KindOf(schema, "_id") == Some(KId)
    requires forall j :: j in body && j != "completed" && j != "_id" && KindOf(schema, j).Some? ==>
      Dropped(body[j], KindOf(schema, j).value)
    ensures "_id" in body ==>
      CastBody(body, schema, parse) == map["completed" := Bool(true), "_id" := CastValue(body["_id"], KId, parse)]
    ensures "_id" !in body ==> CastBody(body, schema, parse) == map["completed" := Bool(true)]
  {
    var m := Merge(body, map["completed" := Bool(true)]);
    assert "completed" in m && m["completed"] == Bool(true);
    assert forall j :: j in m && j != "completed" ==> j in body && m[j] == body[j];
    assert "_id" in m <==> "_id" in body;
    AssignFlagAndId(m, schema);
    if "_id" in body {
      CastKeptWithId(body, schema, parse);
    } else {
      CastKeptFlag(body, schema, parse);
    }
  }

  /** The case of CastBodyFlagAndId with an `_id`. */
  lemma CastKeptWithId(body: Record, schema: Schema, parse: string -> Option<int>)
    requires KindOf(schema, "completed") == Some(KBool)
    requires KindOf(schema, "_id") == Some(KId)
    requires "_id" in body
    requires Assign(Merge(body, map["completed" := Bool(true)]), schema)
          == map["completed" := Bool(true), "_id" := body["_id"]]
    ensures CastBody(body, schema, parse) == map["completed" := Bool(true), "_id" := CastValue(body["_id"], KId, parse)]
  {
    CastFlagAndId(schema, body["_id"], parse);
  }

  /** The case of CastBodyFlagAndId without one. */
  lemma CastKeptFlag(body: Record, schema: Schema, parse: string -> Option<int>)
    requires KindOf(schema, "completed") == Some(KBool)
    requires Assign(Merge(body, map["completed" := Bool(true)]), schema) == map["completed" := Bool(true)]
    ensures CastBody(body, schema, parse) == map["completed" := Bool(true)]
  {
    CastFlag(schema, "completed", true, parse);
  }

  /** A record of `completed: true` and an `_id` is cast on the `_id` alone. */
  lemma CastFlagAndId(s: Schema, id: Value, parse: string -> Option<int>)
    requires KindOf(s, "completed") == Some(KBool)
    requires KindOf(s, "_id") == Some(KId)
    ensures CastRecord(map["completed" := Bool(true), "_id" := id], s, parse)
         == map["completed" := Bool(true), "_id" := CastValue(id, KId, parse)]
  {
  }

  /** Strict mode on a record of which a schema keeps only `completed` and
      `_id`, both of simple kinds. */
  lemma AssignFlagAndId(m: Record, schema: Schema)
    requires KindOf(schema, "completed") == Some(KBool)
    requires KindOf(schema, "_id") == Some(KId)
    requires "completed" in m
    requires forall j :: j in m && j != "completed" && j != "_id" && KindOf(schema, j).Some? ==>
      Dropped(m[j], KindOf(schema, j).value)
    ensures "_id" in m ==> Assign(m, schema) == map["completed" := m["completed"], "_id" := m["_id"]]
    ensures "_id" !in m ==> Assign(m, schema) == map["completed" := m["completed"]]
  {
    if "_id" in m {
      AssignPair(m, schema, "completed", "_id");
    } else {
      AssignSingle(m, schema, "completed");
    }
  }

  /** Joining the flag with a one-path `_id` record. */
  lemma MapPairUnion(c: Value, id: Value)
    ensures map["completed" := c] + map["_id" := id] == map["completed" := c, "_id" := id]
  {
  }

  /** Strict mode keeps nothing of such a body but `completed` and `_id`. */
  lemma EducationOthersDropped(m: Record)
    requires "schools" in m ==> !m["schools"].Obj?
    ensures forall j :: j in m && j != "completed" && j != "_id" && KindOf(EducationalBackgroundSchema, j).Some? ==>
      Dropped(m[j], KindOf(EducationalBackgroundSchema, j).value)
  {
    EducationKinds();
  }

  /** The kinds of the three paths of the educational background. */
  lemma EducationKinds()
    ensures Names(EducationalBackgroundSchema) == {"schools", "completed", "_id"}
    ensures KindOf(EducationalBackgroundSchema, "schools").value.KNested?
    ensures KindOf(EducationalBackgroundSchema, "completed") == Some(KBool)
    ensures KindOf(EducationalBackgroundSchema, "_id") == Some(KId)
  {
    var schema := EducationalBackgroundSchema;
    KindAt(schema, 0);
    KindAt(schema, 1);
    KindAt(schema, 2);
    EducationNames();
  }

  /** The paths the educational background declares. */
  lemma EducationNames()
    ensures Names(EducationalBackgroundSchema) == {"schools", "completed", "_id"}
  {
    var s := EducationalBackgroundSchema;
    assert |s.fields| == 3 && s.fields[0].name == "schools" && s.fields[1].name == "completed" && s.fields[2].name == "_id";
  }
}
