/**
 * The assessment document of models/assessment.model.js: its status enum,
 * its nine sections with their schemas and defaults, and what a stored
 * assessment satisfies because saving validates it.
 */
module AssessmentModel {
  import opened Js
  import opened Mongoose

  type Id = string

  /** The `status` enum: "ongoing", "false" (here `Inactive`: an assessment
      that does not block a new one) and "completed". */
  datatype Status = Ongoing | Inactive | Completed {
    function Name(): string {
      match this
      case Ongoing => "ongoing"
      case Inactive => "false"
      case Completed => "completed"
    }
  }

  /** The status a document gets when none is given. */
  const DefaultStatus := Ongoing

  /** `status` is a string of the enum, and the enum has exactly three names. */
  function ParseStatus(s: string): (st: Option<Status>)
    ensures st.Some? <==> s in {"ongoing", "false", "completed"}
    ensures st.Some? ==> st.value.Name() == s
  {
    if s == "ongoing" then Some(Ongoing)
    else if s == "false" then Some(Inactive)
    else if s == "completed" then Some(Completed)
    else None
  }

  /** The sections of an assessment; `OverallRemark` is the nested
      `overallRemark: { remark }` path, which the section update accepts too. */
  datatype Section =
    | PhysicalDevelopment
    | PhysicalDisabilities
    | HealthRecords
    | DisciplineRecords
    | StandardizedTests
    | AcademicRecords
    | Observations
    | VocationalInterests
    | OverallRemark
  {
    function Name(): string {
      match this
      case PhysicalDevelopment => "physicalDevelopment"
      case PhysicalDisabilities => "physicalDisabilities"
      case HealthRecords => "healthRecords"
      case DisciplineRecords => "disciplineRecords"
      case StandardizedTests => "standardizedTests"
      case AcademicRecords => "academicRecords"
      case Observations => "observations"
      case VocationalInterests => "vocationalInterests"
      case OverallRemark => "overallRemark"
    }
  }

  const AllSections: set<Section> :=
    {PhysicalDevelopment, PhysicalDisabilities, HealthRecords, DisciplineRecords,
     StandardizedTests, AcademicRecords, Observations, VocationalInterests, OverallRemark}

  /** Every array path of a sub-document starts out empty. */
  function ListOf(name: string, item: Schema): Field {
    Field(name, KList(item), false, Some(Arr([])))
  }

  const PhysicalDevelopmentSchema := Schema([
    Optional("height", AnyNumber),
    Optional("weight", AnyNumber),
    Optional("otherFeatures", AnyString),
    ImplicitId()])

  const PhysicalDisabilitiesSchema := Schema([
    Flag("status"),
    Flag("partialDeafness"),
    Flag("partialBlindness"),
    Flag("shortSightedness"),
    Flag("longSightedness"),
    Flag("stammering"),
    Flag("squinting"),
    Flag("physicalImpairment"),
    Optional("other", AnyString),
    ImplicitId()])

  const HealthRecordsSchema := Schema([
    Flag("status"),
    Optional("natureOfProblem", AnyString),
    Optional("causes", AnyString),
    Optional("referrals", AnyString),
    ImplicitId()])

  const DisciplineRecordSchema := Schema([
    Required("date", KDate),
    Required("offence", AnyString),
    Required("actionTaken", AnyString),
    ImplicitId()])

  const DisciplineRecordsSchema := Schema([
    Flag("status"),
    ListOf("records", DisciplineRecordSchema),
    ImplicitId()])

  const StandardizedTestSchema := Schema([
    Required("testName", AnyString),
    Required("testDescription", AnyString),
    Required("score", AnyString),
    Required("interpretation", AnyString),
    Optional("discussion", AnyString),
    Required("date", KDate),
    ImplicitId()])

  const StandardizedTestsSchema := Schema([
    Flag("status"),
    ListOf("tests", StandardizedTestSchema),
    ImplicitId()])

  const SubjectSchema := Schema([
    Required("name", AnyString),
    Required("score", AnyNumber),
    ImplicitId()])

  const ClassSchema := Schema([
    Required("name", AnyString),
    ListOf("subjects", SubjectSchema),
    ImplicitId()])

  const AcademicRecordsSchema := Schema([
    ListOf("classes", ClassSchema),
    ImplicitId()])

  /** A rating of the observations section: a number from 1 to 5. */
  const Rating := KNum(Some(1), Some(5))

  /** `status` and the 26 ratings of the observations section. */
  const ObservationsSchema := Schema([
    Flag("status"),
    Optional("punctuality", Rating),
    Optional("attendance", Rating),
    Optional("reliability", Rating),
    Optional("politeness", Rating),
    Optional("honesty", Rating),
    Optional("relationshipWithStaff", Rating),
    Optional("relationshipWithPeers", Rating),
    Optional("selfControl", Rating),
    Optional("cooperation", Rating),
    Optional("attentiveness", Rating),
    Optional("initiative", Rating),
    Optional("organization", Rating),
    Optional("perseverance", Rating),
    Optional("senseOfLeadership", Rating),
    Optional("respectForAuthority", Rating),
    Optional("senseOfResponsibility", Rating),
    Optional("industry", Rating),
    Optional("games", Rating),
    Optional("sports", Rating),
    Optional("gymnastics", Rating),
    Optional("handlingOfTools", Rating),
    Optional("drawingPainting", Rating),
    Optional("craft", Rating),
    Optional("musicalSkills", Rating),
    Optional("speechFluency", Rating),
    Optional("handlingOfLaboratoryEquipment", Rating),
    ImplicitId()])

  const VocationalInterestSchema := Schema([
    Required("name", AnyString),
    Required("description", AnyString),
    Optional("counselorComments", AnyString),
    ImplicitId()])

  const VocationalInterestsSchema := Schema([
    Flag("status"),
    ListOf("interests", VocationalInterestSchema),
    ImplicitId()])

  const OverallRemarkSchema := Schema([Optional("remark", AnyString)])

  function SchemaOf(s: Section): Schema {
    match s
    case PhysicalDevelopment => PhysicalDevelopmentSchema
    case PhysicalDisabilities => PhysicalDisabilitiesSchema
    case HealthRecords => HealthRecordsSchema
    case DisciplineRecords => DisciplineRecordsSchema
    case StandardizedTests => StandardizedTestsSchema
    case AcademicRecords => AcademicRecordsSchema
    case Observations => ObservationsSchema
    case VocationalInterests => VocationalInterestsSchema
    case OverallRemark => OverallRemarkSchema
  }

  /** An assessment document: the three references, the status and the
      nine sections. */
  datatype Assessment = Assessment(
    schoolId: Id,
    counselorId: Id,
    studentId: Id,
    status: Status,
    sections: map<Section, Record>)

  /** What saving checks: the three references are ObjectIds, held in the
      canonical form, and every section is there and passes its schema. */
  predicate WellFormed(a: Assessment) {
    && IsCanonicalId(a.schoolId)
    && IsCanonicalId(a.counselorId)
    && IsCanonicalId(a.studentId)
    && a.sections.Keys == AllSections
    && forall s :: s in a.sections ==> Conforms(a.sections[s], SchemaOf(s))
  }

  /** The section values `createAssessment` passes to `new Assessment(...)`. */
  function InitialSection(s: Section): Record {
    match s
    case PhysicalDevelopment => map[]
    case PhysicalDisabilities => map["status" := Bool(false)]
    case HealthRecords => map["status" := Bool(false)]
    case DisciplineRecords => map["status" := Bool(false), "records" := Arr([])]
    case StandardizedTests => map["status" := Bool(false), "tests" := Arr([])]
    case AcademicRecords => map["classes" := Arr([])]
    case Observations => map["status" := Bool(false)]
    case VocationalInterests => map["status" := Bool(false), "interests" := Arr([])]
    case OverallRemark => map["remark" := Str("")]
  }

  /** A section as `createAssessment` builds it: the values it passes, with
      the schema defaults filled in. It passes validation. */
  function CreatedSection(s: Section): Record {
    WithDefaults(InitialSection(s), SchemaOf(s))
  }

  /** A created section holds the values the handler passes and the schema
      default of every other path that has one. */
  lemma CreatedSectionValues(s: Section)
    ensures var r := CreatedSection(s);
      forall k :: k in InitialSection(s) ==> k in r && r[k] == InitialSection(s)[k]
    ensures var r := CreatedSection(s);
      forall i | 0 <= i < |SchemaOf(s).fields| ::
        var f := SchemaOf(s).fields[i];
        f.default.Some? && f.name !in InitialSection(s) ==> Lookup(r, f.name) == f.default
  {
    SectionShape(s);
  }

  /** A created section passes validation. */
  lemma CreatedSectionValid(s: Section)
    ensures Conforms(CreatedSection(s), SchemaOf(s))
  {
    InitialSectionConforms(s);
  }

  /** A new assessment for the triple: status "ongoing" and every section
      as `createAssessment` builds it. */
  function NewAssessment(schoolId: Id, counselorId: Id, studentId: Id): (a: Assessment)
    ensures a.status == Ongoing
    ensures a.sections.Keys == AllSections
    ensures (a.schoolId, a.counselorId, a.studentId) == (schoolId, counselorId, studentId)
  {
    Assessment(schoolId, counselorId, studentId, Ongoing,
      map s | s in AllSections :: CreatedSection(s))
  }

  /** Every value `createAssessment` passes is in the new assessment: the
      `false` status flags, the empty `records`, `tests`, `classes` and
      `interests` arrays and the empty remark. */
  lemma NewAssessmentStart(schoolId: Id, counselorId: Id, studentId: Id, s: Section, k: string)
    requires k in InitialSection(s)
    ensures s in NewAssessment(schoolId, counselorId, studentId).sections
    ensures Lookup(NewAssessment(schoolId, counselorId, studentId).sections[s], k) == Some(InitialSection(s)[k])
  {
    assert s in AllSections;
    CreatedSectionValues(s);
  }

  /** A new assessment for three valid references passes validation, so
      saving it never fails. */
  lemma NewAssessmentWellFormed(schoolId: Id, counselorId: Id, studentId: Id)
    requires IsCanonicalId(schoolId) && IsCanonicalId(counselorId) && IsCanonicalId(studentId)
    ensures WellFormed(NewAssessment(schoolId, counselorId, studentId))
  {
    var a := NewAssessment(schoolId, counselorId, studentId);
    forall s | s in a.sections
      ensures Conforms(a.sections[s], SchemaOf(s))
    {
      CreatedSectionValid(s);
    }
  }

  /** The names of the 28 paths of the observations section, in order; the
      last is the implicit `_id`. */
  const ObservationPaths: seq<string> := ["status", "punctuality", "attendance", "reliability",
    "politeness", "honesty", "relationshipWithStaff", "relationshipWithPeers", "selfControl",
    "cooperation", "attentiveness", "initiative", "organization", "perseverance",
    "senseOfLeadership", "respectForAuthority", "senseOfResponsibility", "industry", "games",
    "sports", "gymnastics", "handlingOfTools", "drawingPainting", "craft", "musicalSkills",
    "speechFluency", "handlingOfLaboratoryEquipment", "_id"]

  lemma ObservationPathNames()
    ensures |ObservationsSchema.fields| == |ObservationPaths|
    ensures forall i | 0 <= i < |ObservationPaths| :: ObservationsSchema.fields[i].name == ObservationPaths[i]
  {
  }

  lemma ObservationPathsDistinct()
    ensures forall i, j | 0 <= i < j < |ObservationPaths| :: ObservationPaths[i] != ObservationPaths[j]
  {
  }

  lemma ObservationsShape()
    ensures DistinctNames(ObservationsSchema)
    ensures forall i :: 0 <= i < |ObservationsSchema.fields| ==> SimpleDefault(ObservationsSchema.fields[i])
    ensures Conforms(InitialSection(Observations), ObservationsSchema)
  {
    ObservationNamesDistinct();
    ObservationDefaults();
    ObservationsInitialValid();
  }

  lemma ObservationNamesDistinct()
    ensures DistinctNames(ObservationsSchema)
  {
    ObservationPathNames();
    ObservationPathsDistinct();
  }

  lemma ObservationDefaults()
    ensures forall i :: 0 <= i < |ObservationsSchema.fields| ==> SimpleDefault(ObservationsSchema.fields[i])
  {
    SectionDefaults(Observations);
  }

  lemma ObservationsInitialValid()
    ensures Conforms(InitialSection(Observations), ObservationsSchema)
  {
    ObservationPathNames();
  }

  /** Each section schema declares every path once, its defaults are `false`
      flags and empty arrays, and the values `createAssessment` gives the
      section pass it. */
  lemma SectionShape(s: Section)
    ensures DistinctNames(SchemaOf(s))
    ensures forall i :: 0 <= i < |SchemaOf(s).fields| ==> SimpleDefault(SchemaOf(s).fields[i])
    ensures Conforms(InitialSection(s), SchemaOf(s))
  {
    if s == Observations {
      ObservationsShape();
    } else {
      SectionNamesDistinct(s);
      SectionDefaultsSimple(s);
      InitialSectionValid(s);
    }
  }

  /** Every section but the nested `overallRemark` path is a single
      sub-document and so declares the implicit `_id`, an ObjectId. */
  lemma SectionsDeclareId(s: Section)
    ensures KindOf(SchemaOf(s), "_id") == if s == OverallRemark then None else Some(KId)
  {
    SectionShape(s);
    var schema := SchemaOf(s);
    if s == OverallRemark {
      assert "_id" !in Names(schema) by {
        assert |schema.fields| == 1 && schema.fields[0].name == "remark";
      }
    } else {
      var i := |schema.fields| - 1;
      assert schema.fields[i] == ImplicitId() by {
        match s
        case Observations => ObservationKinds();
        case _ =>
      }
      KindAt(schema, i);
    }
  }

  lemma SectionNamesDistinct(s: Section)
    requires s != Observations
    ensures DistinctNames(SchemaOf(s))
  {
  }

  lemma SectionDefaultsSimple(s: Section)
    requires s != Observations
    ensures forall i :: 0 <= i < |SchemaOf(s).fields| ==> SimpleDefault(SchemaOf(s).fields[i])
  {
    SectionDefaults(s);
  }

  /** Every default of the schema is a `false` flag or an empty array, and
      every boolean path has the default `false`. */
  predicate DefaultsAreFlagsOrEmpty(schema: Schema) {
    forall i | 0 <= i < |schema.fields| ::
      && SimpleDefault(schema.fields[i])
      && (schema.fields[i].kind == KBool ==> schema.fields[i].default == Some(Bool(false)))
  }

  lemma SectionDefaults(s: Section)
    ensures DefaultsAreFlagsOrEmpty(SchemaOf(s))
  {
    match s
    case PhysicalDisabilities => DisabilityDefaults();
    case Observations => ObservationRatingDefaults();
    case _ => SmallSectionDefaults(s);
  }

  lemma DisabilityDefaults()
    ensures DefaultsAreFlagsOrEmpty(PhysicalDisabilitiesSchema)
  {
  }

  lemma ObservationRatingDefaults()
    ensures DefaultsAreFlagsOrEmpty(ObservationsSchema)
  {
    ObservationPathNames();
  }

  lemma SmallSectionDefaults(s: Section)
    requires s != PhysicalDisabilities && s != Observations
    ensures DefaultsAreFlagsOrEmpty(SchemaOf(s))
  {
  }

  lemma InitialSectionValid(s: Section)
    requires s != Observations
    ensures Conforms(InitialSection(s), SchemaOf(s))
  {
  }

  /** The sections of a new assessment, defaults filled in, pass their schemas. */
  lemma InitialSectionConforms(s: Section)
    ensures Conforms(WithDefaults(InitialSection(s), SchemaOf(s)), SchemaOf(s))
  {
    SectionShape(s);
    DefaultsKeepConformance(InitialSection(s), SchemaOf(s));
  }

  /** Every boolean path of a new section is `false`: the `status` flags
      `createAssessment` sets and every declared default, such as the seven
      physical-disability flags. */
  lemma NewSectionFlagsFalse(s: Section)
    ensures forall i | 0 <= i < |SchemaOf(s).fields| && SchemaOf(s).fields[i].kind == KBool ::
      Lookup(CreatedSection(s), SchemaOf(s).fields[i].name) == Some(Bool(false))
  {
    SectionShape(s);
    BoolPathsAreFlags(s);
    InitialFlagsFalse(s);
    FlagsFalseWithDefaults(InitialSection(s), SchemaOf(s));
  }

  /** The boolean paths `createAssessment` sets are set to `false`. */
  lemma InitialFlagsFalse(s: Section)
    ensures forall i | 0 <= i < |SchemaOf(s).fields| && SchemaOf(s).fields[i].kind == KBool
                       && SchemaOf(s).fields[i].name in InitialSection(s) ::
      InitialSection(s)[SchemaOf(s).fields[i].name] == Bool(false)
  {
    match s
    case Observations => ObservationPathNames();
    case PhysicalDisabilities =>
    case _ =>
  }

  /** Filling in `false` defaults leaves every boolean path `false` when the
      values given already are. */
  lemma FlagsFalseWithDefaults(init: Record, schema: Schema)
    requires DistinctNames(schema)
    requires forall i | 0 <= i < |schema.fields| && schema.fields[i].kind == KBool ::
      schema.fields[i].default == Some(Bool(false))
    requires forall i | 0 <= i < |schema.fields| && schema.fields[i].kind == KBool && schema.fields[i].name in init ::
      init[schema.fields[i].name] == Bool(false)
    ensures forall i | 0 <= i < |schema.fields| && schema.fields[i].kind == KBool ::
      Lookup(WithDefaults(init, schema), schema.fields[i].name) == Some(Bool(false))
  {
  }

  /** Every boolean path of a section is a flag that defaults to `false`. */
  lemma BoolPathsAreFlags(s: Section)
    ensures forall i | 0 <= i < |SchemaOf(s).fields| && SchemaOf(s).fields[i].kind == KBool ::
      SchemaOf(s).fields[i].default == Some(Bool(false))
  {
    SectionDefaults(s);
  }

  /** A non-empty string at path `k`. */
  predicate FilledString(r: Record, k: string) {
    k in r && r[k].Str? && r[k].s != ""
  }

  /** A date at path `k`. */
  predicate FilledDate(r: Record, k: string) {
    k in r && r[k].Num?
  }

  /** The array at path `k`, when there is one, holds records that all pass `ok`. */
  predicate ListOk(r: Record, k: string, ok: Record -> bool) {
    k in r && !r[k].Null? ==>
      r[k].Arr? && forall j | 0 <= j < |r[k].items| :: r[k].items[j].Obj? && ok(r[k].items[j].fields)
  }

  predicate CompleteTest(t: Record) {
    && FilledString(t, "testName") && FilledString(t, "testDescription")
    && FilledString(t, "score") && FilledString(t, "interpretation") && FilledDate(t, "date")
  }

  predicate CompleteDisciplineRecord(d: Record) {
    FilledDate(d, "date") && FilledString(d, "offence") && FilledString(d, "actionTaken")
  }

  predicate CompleteInterest(v: Record) {
    FilledString(v, "name") && FilledString(v, "description")
  }

  predicate CompleteSubject(x: Record) {
    FilledString(x, "name") && "score" in x && x["score"].Num?
  }

  predicate CompleteClass(c: Record) {
    FilledString(c, "name") && ListOk(c, "subjects", CompleteSubject)
  }

  /** Validation of an array path: each element passes the element schema. */
  lemma ListConforms(r: Record, sch: Schema, i: nat, item: Schema, ok: Record -> bool)
    requires Conforms(r, sch) && i < |sch.fields| && sch.fields[i].kind == KList(item)
    requires forall t :: Conforms(t, item) ==> ok(t)
    ensures ListOk(r, sch.fields[i].name, ok)
  {
    ConformsAt(r, sch, i);
  }

  lemma TestConforms(t: Record)
    requires Conforms(t, StandardizedTestSchema)
    ensures CompleteTest(t)
  {
    ConformsAt(t, StandardizedTestSchema, 0);
    ConformsAt(t, StandardizedTestSchema, 1);
    ConformsAt(t, StandardizedTestSchema, 2);
    ConformsAt(t, StandardizedTestSchema, 3);
    ConformsAt(t, StandardizedTestSchema, 5);
  }

  lemma DisciplineRecordConforms(d: Record)
    requires Conforms(d, DisciplineRecordSchema)
    ensures CompleteDisciplineRecord(d)
  {
    ConformsAt(d, DisciplineRecordSchema, 0);
    ConformsAt(d, DisciplineRecordSchema, 1);
    ConformsAt(d, DisciplineRecordSchema, 2);
  }

  lemma InterestConforms(v: Record)
    requires Conforms(v, VocationalInterestSchema)
    ensures CompleteInterest(v)
  {
    ConformsAt(v, VocationalInterestSchema, 0);
    ConformsAt(v, VocationalInterestSchema, 1);
  }

  lemma SubjectConforms(x: Record)
    requires Conforms(x, SubjectSchema)
    ensures CompleteSubject(x)
  {
    ConformsAt(x, SubjectSchema, 0);
    ConformsAt(x, SubjectSchema, 1);
  }

  lemma ClassConforms(c: Record)
    requires Conforms(c, ClassSchema)
    ensures CompleteClass(c)
  {
    ConformsAt(c, ClassSchema, 0);
    forall x | Conforms(x, SubjectSchema) ensures CompleteSubject(x) {
      SubjectConforms(x);
    }
    ListConforms(c, ClassSchema, 1, SubjectSchema, CompleteSubject);
  }

  /** In a stored assessment every standardized test has its name,
      description, score, interpretation and date; every discipline record
      its date, offence and action taken; every vocational interest its name
      and description; every class its name and every subject its name and
      score. */
  lemma StoredRecordsComplete(a: Assessment)
    requires WellFormed(a)
    ensures ListOk(a.sections[StandardizedTests], "tests", CompleteTest)
    ensures ListOk(a.sections[DisciplineRecords], "records", CompleteDisciplineRecord)
    ensures ListOk(a.sections[VocationalInterests], "interests", CompleteInterest)
    ensures ListOk(a.sections[AcademicRecords], "classes", CompleteClass)
  {
    StoredTestsAndRecords(a);
    forall v | Conforms(v, VocationalInterestSchema) ensures CompleteInterest(v) { InterestConforms(v); }
    ListConforms(a.sections[VocationalInterests], VocationalInterestsSchema, 1, VocationalInterestSchema, CompleteInterest);
    forall c | Conforms(c, ClassSchema) ensures CompleteClass(c) { ClassConforms(c); }
    ListConforms(a.sections[AcademicRecords], AcademicRecordsSchema, 0, ClassSchema, CompleteClass);
  }

  lemma StoredTestsAndRecords(a: Assessment)
    requires WellFormed(a)
    ensures ListOk(a.sections[StandardizedTests], "tests", CompleteTest)
    ensures ListOk(a.sections[DisciplineRecords], "records", CompleteDisciplineRecord)
  {
    forall t | Conforms(t, StandardizedTestSchema) ensures CompleteTest(t) { TestConforms(t); }
    ListConforms(a.sections[StandardizedTests], StandardizedTestsSchema, 1, StandardizedTestSchema, CompleteTest);
    forall d | Conforms(d, DisciplineRecordSchema) ensures CompleteDisciplineRecord(d) { DisciplineRecordConforms(d); }
    ListConforms(a.sections[DisciplineRecords], DisciplineRecordsSchema, 1, DisciplineRecordSchema, CompleteDisciplineRecord);
  }

  /** Every path of the observations section but `status` and the implicit
      `_id` is a rating. */
  lemma ObservationKinds()
    ensures |ObservationsSchema.fields| == 28
    ensures forall i | 1 <= i < 27 :: ObservationsSchema.fields[i].kind == Rating
    ensures ObservationsSchema.fields[27] == ImplicitId()
  {
  }

  /** In a stored assessment every observation rating that is set is a
      number from 1 to 5. */
  lemma StoredRatingsInRange(a: Assessment)
    requires WellFormed(a)
    ensures forall i | 1 <= i < 27 ::
      var r, k := a.sections[Observations], ObservationsSchema.fields[i].name;
      k in r && !r[k].Null? ==> r[k].Num? && 1 <= r[k].n <= 5
  {
    var r := a.sections[Observations];
    ObservationKinds();
    forall i | 1 <= i < 27
      ensures var k := ObservationsSchema.fields[i].name;
        k in r && !r[k].Null? ==> r[k].Num? && 1 <= r[k].n <= 5
    {
      ConformsAt(r, ObservationsSchema, i);
    }
  }
}
