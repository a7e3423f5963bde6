/**
 * The assessment handlers of controllers/assessment.controller.js over an
 * in-memory store of assessment documents: creation, section updates,
 * completion, the status tally, and the pagination arithmetic of the
 * listing handlers. The database is the map `records`, keyed by the
 * canonical form of each id; a query that casts an id that is not an
 * ObjectId fails, which the handlers turn into a 500. `parse` stands for
 * `Date.parse`, which date casts use.
 */
module AssessmentController {
  import opened Js
  import opened Mongoose
  import opened AssessmentModel

  /** The failures the handlers report, each with its message. */
  datatype Failure =
    | MissingIds
    | ActiveExists
    | SectionAndData
    | InvalidSection
    | NotFound
    | UpdateCompleted
    | AlreadyCompleted
    | TestsRequired
    | InternalError
  {
    function Message(): string {
      match this
      case MissingIds => "School ID, Counselor ID, and Student ID are required"
      case ActiveExists => "An active assessment already exists for this student"
      case SectionAndData => "Section and data are required"
      case InvalidSection => "Invalid section specified"
      case NotFound => "Assessment not found"
      case UpdateCompleted => "Cannot update a completed assessment"
      case AlreadyCompleted => "Assessment is already completed"
      case TestsRequired => "Standardized Tests section is required and must have at least one test record"
      case InternalError => "Internal server error"
    }
  }

  /** `validSections.includes(section)`: the section a request names, if it
      names one of the nine. */
  function ParseSection(v: Value): (s: Option<Section>)
    ensures s.Some? ==> v == Str(s.value.Name())
    ensures s.None? ==> forall t: Section :: v != Str(t.Name())
  {
    if v == Str("physicalDevelopment") then Some(PhysicalDevelopment)
    else if v == Str("physicalDisabilities") then Some(PhysicalDisabilities)
    else if v == Str("healthRecords") then Some(HealthRecords)
    else if v == Str("disciplineRecords") then Some(DisciplineRecords)
    else if v == Str("standardizedTests") then Some(StandardizedTests)
    else if v == Str("academicRecords") then Some(AcademicRecords)
    else if v == Str("observations") then Some(Observations)
    else if v == Str("vocationalInterests") then Some(VocationalInterests)
    else if v == Str("overallRemark") then Some(OverallRemark)
    else None
  }

  /** Every section is reachable by its name and by nothing else. */
  lemma ParseSectionName(s: Section)
    ensures ParseSection(Str(s.Name())) == Some(s)
  {
  }

  /** An assessment with this status blocks a new one for the same student:
      the `$in: ["ongoing", "completed"]` filter. */
  predicate Blocks(st: Status) {
    st == Ongoing || st == Completed
  }

  /** Some stored assessment of one of these students blocks a new one. */
  predicate HasActive(records: map<Id, Assessment>, students: set<Id>) {
    exists id :: id in records && records[id].studentId in students && Blocks(records[id].status)
  }

  /** An element of a `$in` array the query cast accepts on an ObjectId path:
      `null`, or an ObjectId string. */
  predicate InCasts(v: Value) {
    v.Null? || (v.Str? && IsObjectIdString(v.s))
  }

  /** The students the `findOne({studentId, ...})` filter of
      `createAssessment` matches, as Mongoose's query cast reads the value:
      an ObjectId string matches that id, and an array becomes `$in` over
      its elements (a `null` element matches no stored reference). `None`
      when the cast fails, which rejects the query. */
  function StudentFilter(v: Value): (ids: Option<set<Id>>)
    ensures v.Str? ==> (ids.Some? <==> IsObjectIdString(v.s))
    ensures v.Str? && ids.Some? ==> ids.value == {CanonicalId(v.s)}
    ensures v.Arr? ==> (ids.Some? <==> forall i | 0 <= i < |v.items| :: InCasts(v.items[i]))
    ensures v.Arr? && ids.Some? ==> forall i | 0 <= i < |v.items| && v.items[i].Str? :: CanonicalId(v.items[i].s) in ids.value
    ensures v.Arr? && ids.Some? ==> forall id | id in ids.value ::
      exists i :: 0 <= i < |v.items| && v.items[i].Str? && CanonicalId(v.items[i].s) == id
    ensures !v.Str? && !v.Arr? ==> ids.None?
    ensures ids.Some? ==> forall id | id in ids.value :: IsCanonicalId(id)
  {
    match v
    case Str(s) => if IsObjectIdString(s) then Some({CanonicalId(s)}) else None
    case Arr(items) =>
      if forall i | 0 <= i < |items| :: InCasts(items[i])
      then Some(set i | 0 <= i < |items| && items[i].Str? :: CanonicalId(items[i].s))
      else None
    case _ => None
  }

  /** The id a body property holds, when it is a string the ObjectId cast
      accepts, in the canonical form the cast gives it. */
  function IdIn(body: Record, k: string): (id: Option<Id>)
    ensures id.Some? <==> k in body && body[k].Str? && IsObjectIdString(body[k].s)
    ensures id.Some? ==> IsCanonicalId(id.value) && id.value == CanonicalId(body[k].s)
  {
    if k in body && body[k].Str? && IsObjectIdString(body[k].s) then Some(CanonicalId(body[k].s)) else None
  }

  /** The standardized-tests gate of `completeAssessment`: the section's
      status is truthy and it holds at least one test. `None` when `tests` is
      not an array, where reading `.length` throws. */
  function TestsGate(sec: Record): (ok: Option<bool>)
    ensures ok == Some(true) <==>
      TruthyOpt(Lookup(sec, "status")) && "tests" in sec && sec["tests"].Arr? && |sec["tests"].items| > 0
    ensures ok.None? <==> TruthyOpt(Lookup(sec, "status")) && !("tests" in sec && sec["tests"].Arr?)
  {
    if !TruthyOpt(Lookup(sec, "status")) then Some(false)
    else if "tests" in sec && sec["tests"].Arr? then Some(|sec["tests"].items| > 0)
    else None
  }

  /** The overall-remark section after completion: the remark is replaced
      only when a truthy one is supplied, and no other path changes. */
  function WithRemark(sec: Record, remark: Option<Value>): (r: Record)
    ensures Lookup(r, "remark") == Or(remark, Lookup(sec, "remark"))
    ensures forall k :: k != "remark" ==> Lookup(r, k) == Lookup(sec, k)
    ensures r.Keys == sec.Keys + (if TruthyOpt(remark) then {"remark"} else {})
  {
    if TruthyOpt(remark) then sec["remark" := remark.value] else sec
  }

  /** Completion with a string remark keeps a stored assessment valid, so
      its save cannot fail. */
  lemma CompletionKeepsWellFormed(a: Assessment, remark: Option<Value>)
    requires WellFormed(a)
    requires remark.Some? ==> remark.value.Str?
    ensures WellFormed(a.(status := Completed,
      sections := a.sections[OverallRemark := WithRemark(a.sections[OverallRemark], remark)]))
  {
    var sec := a.sections[OverallRemark];
    var sec' := WithRemark(sec, remark);
    ConformsAt(sec, OverallRemarkSchema, 0);
    assert Conforms(sec', OverallRemarkSchema);
  }

  /** The tally `getAssessmentStats` returns: the total and one count per
      status, under the keys "total", "ongoing", "completed" and "false". */
  type Tally = map<string, int>

  /** The `$match` of the statistics query: an empty filter matches all; a
      given one is cast to an ObjectId, so the case of its digits does not
      matter. */
  predicate MatchesQuery(a: Assessment, schoolId: Option<string>, counselorId: Option<string>) {
    && (schoolId.Some? && schoolId.value != "" ==> a.schoolId == CanonicalId(schoolId.value))
    && (counselorId.Some? && counselorId.value != "" ==> a.counselorId == CanonicalId(counselorId.value))
  }

  /** A filter that is given must be an ObjectId, or building the query throws. */
  predicate QueryCasts(q: Option<string>) {
    q.Some? && q.value != "" ==> IsObjectIdString(q.value)
  }

  /** The ids of the matching assessments, and of those with a given status. */
  function Matching(records: map<Id, Assessment>, schoolId: Option<string>, counselorId: Option<string>): set<Id> {
    set id | id in records && MatchesQuery(records[id], schoolId, counselorId)
  }

  function MatchingWith(records: map<Id, Assessment>, schoolId: Option<string>, counselorId: Option<string>, st: Status): (ids: set<Id>)
    ensures ids <= Matching(records, schoolId, counselorId)
  {
    set id | id in Matching(records, schoolId, counselorId) && records[id].status == st
  }

  /** The number of matching assessments with the status. */
  function Count(records: map<Id, Assessment>, schoolId: Option<string>, counselorId: Option<string>, st: Status): nat {
    |MatchingWith(records, schoolId, counselorId, st)|
  }

  /** The statuses of a list of groups. */
  function GroupStatuses(g: seq<(Status, int)>): (sts: set<Status>)
    ensures forall st :: st in sts <==> exists i :: 0 <= i < |g| && g[i].0 == st
  {
    if g == [] then {} else {g[0].0} + GroupStatuses(g[1..])
  }

  lemma GroupStatusesSnoc(g: seq<(Status, int)>, x: (Status, int))
    ensures GroupStatuses(g + [x]) == GroupStatuses(g) + {x.0}
  {
    var h := g + [x];
    forall st ensures st in GroupStatuses(h) <==> st in GroupStatuses(g) + {x.0} {
      if st in GroupStatuses(g) {
        var i :| 0 <= i < |g| && g[i].0 == st;
        assert h[i] == g[i];
      }
      if st == x.0 {
        assert h[|g|] == x;
      }
      if st in GroupStatuses(h) {
        var i :| 0 <= i < |h| && h[i].0 == st;
        if i < |g| { assert g[i] == h[i]; }
      }
    }
  }

  /** The status groups `$group` produces for the listed statuses: one per
      status that occurs among the matching assessments, with its count. */
  function GroupsOf(records: map<Id, Assessment>, schoolId: Option<string>, counselorId: Option<string>, sts: seq<Status>): (g: seq<(Status, int)>)
    ensures forall i | 0 <= i < |g| :: g[i].1 == Count(records, schoolId, counselorId, g[i].0) > 0
    ensures GroupStatuses(g) == set st | st in sts && Count(records, schoolId, counselorId, st) > 0
  {
    if sts == [] then []
    else
      var rest := GroupsOf(records, schoolId, counselorId, sts[1..]);
      var c := Count(records, schoolId, counselorId, sts[0]);
      if c > 0 then [(sts[0], c)] + rest else rest
  }

  /** The groups of the statistics query, in the order the model fixes. */
  function Groups(records: map<Id, Assessment>, schoolId: Option<string>, counselorId: Option<string>): (g: seq<(Status, int)>)
    ensures forall i | 0 <= i < |g| :: g[i].1 == Count(records, schoolId, counselorId, g[i].0) > 0
    ensures forall st :: st in GroupStatuses(g) <==> Count(records, schoolId, counselorId, st) > 0
  {
    GroupsOf(records, schoolId, counselorId, [Ongoing, Inactive, Completed])
  }

  /** The count of the last group with the status, 0 when there is none:
      what `formattedStats[stat._id] = stat.count` leaves under its key. */
  function GroupCount(g: seq<(Status, int)>, st: Status): int {
    if g == [] then 0
    else if g[|g| - 1].0 == st then g[|g| - 1].1
    else GroupCount(g[..|g| - 1], st)
  }

  /** The `forEach` of `getAssessmentStats` over the groups. */
  method TallyGroups(total: int, groups: seq<(Status, int)>) returns (tally: Tally)
    ensures tally == map["total" := total, "ongoing" := GroupCount(groups, Ongoing),
      "completed" := GroupCount(groups, Completed), "false" := GroupCount(groups, Inactive)]
  {
    tally := map["total" := total, "ongoing" := 0, "completed" := 0, "false" := 0];
    for i := 0 to |groups|
      invariant tally == map["total" := total, "ongoing" := GroupCount(groups[..i], Ongoing),
        "completed" := GroupCount(groups[..i], Completed), "false" := GroupCount(groups[..i], Inactive)]
    {
      assert groups[..i + 1][..i] == groups[..i];
      tally := tally[groups[i].0.Name() := groups[i].1];
    }
    assert groups[..|groups|] == groups;
  }

  /** When every group carries its status's count, the last group of a
      status carries that count. */
  lemma {:induction false} GroupCountIs(g: seq<(Status, int)>, count: Status -> int, st: Status)
    requires forall i | 0 <= i < |g| :: g[i].1 == count(g[i].0)
    ensures GroupCount(g, st) == if st in GroupStatuses(g) then count(st) else 0
  {
    if g != [] {
      var init := g[..|g| - 1];
      GroupCountIs(init, count, st);
      GroupStatusesSnoc(init, g[|g| - 1]);
      assert init + [g[|g| - 1]] == g;
    }
  }

  /** The tally's count for a status is the number of matching assessments
      with it. */
  lemma GroupsCount(records: map<Id, Assessment>, schoolId: Option<string>, counselorId: Option<string>, st: Status)
    ensures GroupCount(Groups(records, schoolId, counselorId), st) == Count(records, schoolId, counselorId, st)
  {
    GroupCountIs(Groups(records, schoolId, counselorId), s => Count(records, schoolId, counselorId, s), st);
  }

  /** The matching assessments split by status: the total of the tally is
      the sum of its three counts. */
  lemma {:induction false} TallyAddsUp(records: map<Id, Assessment>, schoolId: Option<string>, counselorId: Option<string>)
    ensures |Matching(records, schoolId, counselorId)| ==
      |MatchingWith(records, schoolId, counselorId, Ongoing)|
      + |MatchingWith(records, schoolId, counselorId, Completed)|
      + |MatchingWith(records, schoolId, counselorId, Inactive)|
  {
    var m := Matching(records, schoolId, counselorId);
    var o := MatchingWith(records, schoolId, counselorId, Ongoing);
    var c := MatchingWith(records, schoolId, counselorId, Completed);
    var f := MatchingWith(records, schoolId, counselorId, Inactive);
    assert m == o + c + f;
    assert o * c == {} && (o + c) * f == {};
  }

  /** The page description of the listing handlers for a page of `returned`
      documents out of `total`. `totalPages` is None where
      `Math.ceil(totalCount / limit)` is not a finite number, which JSON
      writes as null: a limit of 0. */
  datatype Page = Page(currentPage: int, totalPages: Option<int>, totalCount: nat, hasNextPage: bool, hasPrevPage: bool)

  /** `skip = (page - 1) * limit`, for the numbers `parseInt` reads. */
  function Skip(page: int, limit: int): int {
    (page - 1) * limit
  }

  /** `Math.ceil(a / b)` for a divisor of either sign. */
  function CeilQuotient(a: int, b: int): (q: int)
    requires b != 0
    ensures b > 0 ==> (q - 1) * b < a <= q * b
    ensures b < 0 ==> q * b <= a < (q - 1) * b
  {
    if b > 0 then CeilDiv(a, b) else -(a / -b)
  }

  /** The `pagination` object of the reply, for the numbers `parseInt`
      reads from `page` and `limit`. */
  function Pagination(page: int, limit: int, returned: nat, total: nat): (p: Page)
    ensures limit == 0 <==> p.totalPages.None?
    ensures limit > 0 ==> (p.totalPages.value - 1) * limit < total <= p.totalPages.value * limit
    ensures limit < 0 ==> p.totalPages.value * limit <= total < (p.totalPages.value - 1) * limit
    ensures p.hasNextPage <==> Skip(page, limit) + returned < total
    ensures p.hasPrevPage <==> page > 1
    ensures p.currentPage == page && p.totalCount == total
  {
    var skip := Skip(page, limit);
    Page(page, if limit == 0 then None else Some(CeilQuotient(total, limit)), total, skip + returned < total, page > 1)
  }

  /** The number of documents `find(query).skip(skip).limit(limit)` returns
      from `total` matches, or None when the skip is negative, which MongoDB
      refuses. A limit of 0 is no limit; a negative limit returns one batch
      of at most its absolute value. */
  function PageSize(page: int, limit: int, total: nat): (n: Option<nat>)
    ensures n.None? <==> Skip(page, limit) < 0
    ensures n.Some? ==> Skip(page, limit) + n.value <= total || n.value == 0
    ensures n.Some? && limit > 0 ==> n.value <= limit
    ensures n.Some? && limit < 0 ==> n.value <= -limit
    ensures n.Some? && limit == 0 ==> n.value == if Skip(page, limit) < total then total - Skip(page, limit) else 0
    ensures n.Some? && limit != 0 && Skip(page, limit) < total ==>
      n.value == if total - Skip(page, limit) < Abs(limit) then total - Skip(page, limit) else Abs(limit)
  {
    var skip := Skip(page, limit);
    if skip < 0 then None
    else
      var rest := if skip < total then total - skip else 0;
      Some(if limit == 0 || rest < Abs(limit) then rest else Abs(limit))
  }

  function Abs(n: int): nat {
    if n < 0 then -n else n
  }

  /** A listing handler's reply for `total` matches: the page, or a 500 when
      the query is refused. */
  function ListPage(page: int, limit: int, total: nat): (d: Reply<Page, Failure>)
    ensures d.Err? <==> PageSize(page, limit, total).None?
    ensures d.Err? ==> d == Err(500, InternalError)
    ensures d.Ok? ==> d.code == 200 && d.value == Pagination(page, limit, PageSize(page, limit, total).value, total)
  {
    match PageSize(page, limit, total)
    case None => Err(500, InternalError)
    case Some(n) => Ok(200, Pagination(page, limit, n, total))
  }

  /** The query is refused exactly for a page before the first with a
      positive limit, and for a page after the first with a negative one. */
  lemma ListPageFails(page: int, limit: int, total: nat)
    ensures ListPage(page, limit, total).Err? <==> (page < 1 && limit > 0) || (page > 1 && limit < 0)
  {
    if page < 1 && limit > 0 {
      MulNeg(page - 1, limit);
    } else if page > 1 && limit < 0 {
      MulNeg(limit, page - 1);
    } else if page >= 1 && limit >= 0 {
      MulLe(0, page - 1, limit);
    } else {
      MulNonNeg(1 - page, -limit);
    }
  }

  lemma MulNeg(a: int, b: int)
    requires a < 0 && b > 0
    ensures a * b < 0
  {
  }

  lemma MulNonNeg(a: int, b: int)
    requires a >= 0 && b >= 0
    ensures a * b >= 0
  {
  }

  /** With no limit every match is on the one page: nothing comes next and
      the page count is not a number. */
  lemma NoLimitOnePage(page: int, total: nat)
    ensures ListPage(page, 0, total) == Ok(200, Page(page, None, total, false, page > 1))
  {
  }

  /** For a full page from the store, there is a next page exactly when the
      current page is before the last one. */
  lemma NextPageBeforeLast(page: int, limit: int, total: nat)
    requires page >= 1 && limit >= 1
    ensures ListPage(page, limit, total).Ok?
    ensures var p := ListPage(page, limit, total).value;
      p.hasNextPage <==> page < p.totalPages.value
  {
    MulLe(0, page - 1, limit);
    var p := ListPage(page, limit, total).value;
    var t := p.totalPages.value;
    assert Skip(page, limit) + limit == page * limit;
    if page < t {
      MulLe(page, t - 1, limit);
    } else {
      MulLe(t, page, limit);
    }
  }

  lemma MulLe(a: int, b: int, c: nat)
    requires a <= b
    ensures a * c <= b * c
  {
  }

  /** Every stored document passed validation when it was saved. */
  predicate AllWellFormed(records: map<Id, Assessment>) {
    forall id | id in records :: WellFormed(records[id])
  }

  /** What `createAssessment` decides for a request body: a failure, or the
      three references of the new document. */
  function CreateCheck(records: map<Id, Assessment>, body: Record): (d: Reply<(Id, Id, Id), Failure>)
    ensures !Has(body, "schoolId") || !Has(body, "counselorId") || !Has(body, "studentId") ==>
      d == Err(400, MissingIds)
    ensures Has(body, "schoolId") && Has(body, "counselorId") && Has(body, "studentId") ==>
      && (StudentFilter(body["studentId"]).None? ==> d == Err(500, InternalError))
      && (StudentFilter(body["studentId"]).Some? ==>
           (d == Err(400, ActiveExists) <==> HasActive(records, StudentFilter(body["studentId"]).value)))
    ensures d.Ok? <==>
      && IdIn(body, "schoolId").Some? && IdIn(body, "counselorId").Some? && IdIn(body, "studentId").Some?
      && !HasActive(records, {IdIn(body, "studentId").value})
    ensures d.Ok? ==> d == Ok(201, (IdIn(body, "schoolId").value, IdIn(body, "counselorId").value, IdIn(body, "studentId").value))
    ensures d.Err? && d.error != MissingIds && d.error != ActiveExists ==> d == Err(500, InternalError)
  {
    if !Has(body, "schoolId") || !Has(body, "counselorId") || !Has(body, "studentId") then Err(400, MissingIds)
    else if StudentFilter(body["studentId"]).None? then Err(500, InternalError)
    else if HasActive(records, StudentFilter(body["studentId"]).value) then Err(400, ActiveExists)
    else if IdIn(body, "schoolId").None? || IdIn(body, "counselorId").None? || IdIn(body, "studentId").None?
    then Err(500, InternalError)
    else Ok(201, (IdIn(body, "schoolId").value, IdIn(body, "counselorId").value, IdIn(body, "studentId").value))
  }

  /** An inactive ("false") assessment of the student never blocks a new one. */
  lemma InactiveDoesNotBlock(records: map<Id, Assessment>, id: Id, body: Record)
    requires id in records && records[id].status == Inactive
    requires IdIn(body, "schoolId").Some? && IdIn(body, "counselorId").Some? && IdIn(body, "studentId").Some?
    requires forall other | other in records && other != id :: records[other].studentId != IdIn(body, "studentId").value
    ensures CreateCheck(records, body).Ok?
  {
  }

  /** A `studentId` array is cast to `$in`: an active assessment of any
      student it lists is reported, before the ObjectId constructor refuses
      the array itself. */
  lemma ArrayStudentBlocked(records: map<Id, Assessment>, body: Record, i: nat, id: Id)
    requires Has(body, "schoolId") && Has(body, "counselorId")
    requires "studentId" in body && body["studentId"].Arr?
    requires forall j | 0 <= j < |body["studentId"].items| :: InCasts(body["studentId"].items[j])
    requires i < |body["studentId"].items| && body["studentId"].items[i].Str?
    requires id in records && Blocks(records[id].status)
    requires records[id].studentId == CanonicalId(body["studentId"].items[i].s)
    ensures CreateCheck(records, body) == Err(400, ActiveExists)
  {
    assert HasActive(records, StudentFilter(body["studentId"]).value);
  }

  /** A `studentId` that is not a string never creates an assessment: when
      the query does not answer 400, the ObjectId constructor throws. */
  lemma OnlyStringStudentCreates(records: map<Id, Assessment>, body: Record)
    requires "studentId" in body && !body["studentId"].Str?
    ensures CreateCheck(records, body).Err?
    ensures CreateCheck(records, body).code in {400, 500}
  {
  }

  /** A request body that names its data and one of the nine sections. */
  predicate ValidRequest(body: Record) {
    TruthyOpt(Lookup(body, "section")) && TruthyOpt(Lookup(body, "data")) && ParseSection(body["section"]).Some?
  }

  /** What `updateAssessmentSection` decides: a failure, or the document with
      the named section replaced by its merge with `data`. The route id is
      cast to an ObjectId, so it finds its document in either case. */
  function UpdateCheck(records: map<Id, Assessment>, id: string, body: Record, parse: string -> Option<int>)
    : (d: Reply<Assessment, Failure>)
    ensures !TruthyOpt(Lookup(body, "section")) || !TruthyOpt(Lookup(body, "data")) ==>
      d == Err(400, SectionAndData)
    ensures (TruthyOpt(Lookup(body, "section")) && TruthyOpt(Lookup(body, "data"))
      && ParseSection(body["section"]).None?) ==> d == Err(400, InvalidSection)
    ensures ValidRequest(body) && !IsObjectIdString(id) ==> d == Err(500, InternalError)
    ensures ValidRequest(body) && IsObjectIdString(id) && CanonicalId(id) !in records ==> d == Err(404, NotFound)
    ensures (ValidRequest(body) && IsObjectIdString(id) && CanonicalId(id) in records
      && records[CanonicalId(id)].status == Completed) ==> d == Err(400, UpdateCompleted)
    ensures (ValidRequest(body) && IsObjectIdString(id) && CanonicalId(id) in records
      && records[CanonicalId(id)].status != Completed
      && ParseSection(body["section"]).value in records[CanonicalId(id)].sections) ==>
      var s, a := ParseSection(body["section"]).value, records[CanonicalId(id)];
      (d.Ok? <==> MergeSection(a.sections[s], Spread(body["data"]), SchemaOf(s), parse).Some?)
    ensures d.Ok? ==>
      && ValidRequest(body) && IsObjectIdString(id)
      && CanonicalId(id) in records && records[CanonicalId(id)].status != Completed
      && d.code == 200
      && ParseSection(body["section"]).value in records[CanonicalId(id)].sections
  {
    if !TruthyOpt(Lookup(body, "section")) || !TruthyOpt(Lookup(body, "data")) then Err(400, SectionAndData)
    else if ParseSection(body["section"]).None? then Err(400, InvalidSection)
    else if !IsObjectIdString(id) then Err(500, InternalError)
    else if CanonicalId(id) !in records then Err(404, NotFound)
    else UpdateFound(records[CanonicalId(id)], ParseSection(body["section"]).value, Spread(body["data"]), parse)
  }

  /** A successful update keeps the status, the references and every other
      section, and stores the merged section. */
  lemma UpdateCheckOk(records: map<Id, Assessment>, id: string, body: Record, parse: string -> Option<int>)
    requires UpdateCheck(records, id, body, parse).Ok?
    ensures var d, a := UpdateCheck(records, id, body, parse), records[CanonicalId(id)];
      && d.value.status == a.status
      && (d.value.schoolId, d.value.counselorId, d.value.studentId) == (a.schoolId, a.counselorId, a.studentId)
      && d.value.sections.Keys == a.sections.Keys
      && (forall t | t in a.sections && t != ParseSection(body["section"]).value :: d.value.sections[t] == a.sections[t])
    ensures var d, s, a := UpdateCheck(records, id, body, parse), ParseSection(body["section"]).value, records[CanonicalId(id)];
      MergeSection(a.sections[s], Spread(body["data"]), SchemaOf(s), parse) == Some(d.value.sections[s])
  {
  }

  /** The update of a document that was found. */
  function UpdateFound(a: Assessment, s: Section, data: Record, parse: string -> Option<int>): (d: Reply<Assessment, Failure>)
    ensures a.status == Completed ==> d == Err(400, UpdateCompleted)
    ensures a.status != Completed && s in a.sections ==> (d.Ok? <==> MergeSection(a.sections[s], data, SchemaOf(s), parse).Some?)
    ensures d.Err? ==> d.code == 400 || d.code == 500
    ensures d.Ok? ==>
      && a.status != Completed && s in a.sections
      && d == Ok(200, a.(sections := a.sections[s := MergeSection(a.sections[s], data, SchemaOf(s), parse).value]))
  {
    if a.status == Completed then Err(400, UpdateCompleted)
    else if s !in a.sections then Err(500, InternalError)
    else
      var merged := MergeSection(a.sections[s], data, SchemaOf(s), parse);
      if merged.None? then Err(500, InternalError)
      else Ok(200, a.(sections := a.sections[s := merged.value]))
  }

  /** `{...section.toObject(), ...data}` as the saved section: the old fields
      overridden by the payload, cut down to the declared paths and cast to
      their kinds, or None when the result fails validation. */
  function MergeSection(prior: Record, data: Record, schema: Schema, parse: string -> Option<int>): (m: Option<Record>)
    ensures m.Some? <==> Conforms(CastRecord(Restrict(Merge(prior, data), schema), schema, parse), schema)
    ensures m.Some? ==>
      && m.value.Keys == (prior.Keys + data.Keys) * Names(schema)
      && (forall k | k in data && k in Names(schema) :: m.value[k] == CastValue(data[k], KindOf(schema, k).value, parse))
      && (forall k | k in prior && k !in data && k in Names(schema) ::
            m.value[k] == CastValue(prior[k], KindOf(schema, k).value, parse))
      && Conforms(m.value, schema)
  {
    var merged := CastRecord(Restrict(Merge(prior, data), schema), schema, parse);
    if Conforms(merged, schema) then Some(merged) else None
  }

  /** A payload `_id` the ObjectId cast cannot read fails the save. */
  lemma MergeRefusesBadId(prior: Record, data: Record, schema: Schema, parse: string -> Option<int>)
    requires KindOf(schema, "_id") == Some(KId)
    requires "_id" in data && !IdCasts(data["_id"])
    ensures MergeSection(prior, data, schema, parse).None?
  {
    IdCastValidates(data["_id"], parse);
    if MergeSection(prior, data, schema, parse).Some? {
      var m := MergeSection(prior, data, schema, parse).value;
      assert m["_id"] == CastValue(data["_id"], KId, parse);
      DeclaredFits(m, schema, "_id");
    }
  }

  /** So an update of a sub-document section whose payload carries such an
      `_id` fails: 400 on a completed assessment, 500 otherwise. */
  lemma UpdateRefusesBadId(a: Assessment, s: Section, data: Record, parse: string -> Option<int>)
    requires s != OverallRemark && s in a.sections
    requires "_id" in data && !IdCasts(data["_id"])
    ensures UpdateFound(a, s, data, parse) == if a.status == Completed then Err(400, UpdateCompleted) else Err(500, InternalError)
  {
    SectionsDeclareId(s);
    MergeRefusesBadId(a.sections[s], data, SchemaOf(s), parse);
  }

  /** The paths of a valid section that the payload does not name keep their
      values. */
  lemma MergeKeepsPrior(prior: Record, data: Record, schema: Schema, parse: string -> Option<int>)
    requires Conforms(prior, schema)
    requires MergeSection(prior, data, schema, parse).Some?
    ensures forall k | k in prior && k !in data && k in Names(schema) ::
      MergeSection(prior, data, schema, parse).value[k] == prior[k]
  {
    forall k | k in prior && k !in data && k in Names(schema)
      ensures CastValue(prior[k], KindOf(schema, k).value, parse) == prior[k]
    {
      if !prior[k].Null? {
        DeclaredFits(prior, schema, k);
        CastFitting(prior[k], KindOf(schema, k).value, parse);
      }
    }
  }

  /** A test whose date is given as text is saved only if the text parses
      to a valid time, and the time is what is stored. */
  lemma StoredTestDate(prior: Record, data: Record, parse: string -> Option<int>, j: nat, t: string)
    requires MergeSection(prior, data, StandardizedTestsSchema, parse).Some?
    requires "tests" in data && data["tests"].Arr? && j < |data["tests"].items|
    requires data["tests"].items[j].Obj? && Lookup(data["tests"].items[j].fields, "date") == Some(Str(t)) && t != ""
    ensures TextTime(t, parse).Some? && IsTime(TextTime(t, parse).value)
    ensures var m := MergeSection(prior, data, StandardizedTestsSchema, parse).value;
      "tests" in m && m["tests"].Arr? && j < |m["tests"].items| && m["tests"].items[j].Obj?
      && Lookup(m["tests"].items[j].fields, "date") == Some(Num(TextTime(t, parse).value))
  {
    var r := Restrict(Merge(prior, data), StandardizedTestsSchema);
    TestPaths();
    assert r["tests"] == data["tests"];
    ListDateCast(r, StandardizedTestsSchema, parse, "tests", "date", j, t);
  }

  /** `tests` is an array of tests, and a test's `date` is a date. */
  lemma TestPaths()
    ensures KindOf(StandardizedTestsSchema, "tests") == Some(KList(StandardizedTestSchema))
    ensures KindOf(StandardizedTestSchema, "date") == Some(KDate)
    ensures "tests" in Names(StandardizedTestsSchema)
  {
    KindAt(StandardizedTestsSchema, 1);
    KindAt(StandardizedTestSchema, 5);
  }

  /** What `completeAssessment` decides: a failure, or the completed
      document. */
  function CompleteCheck(records: map<Id, Assessment>, id: string, body: Record): (d: Reply<Assessment, Failure>)
    ensures !IsObjectIdString(id) ==> d == Err(500, InternalError)
    ensures IsObjectIdString(id) && CanonicalId(id) !in records ==> d == Err(404, NotFound)
    ensures IsObjectIdString(id) && CanonicalId(id) in records && records[CanonicalId(id)].status == Completed ==>
      d == Err(400, AlreadyCompleted)
    ensures (IsObjectIdString(id) && CanonicalId(id) in records && records[CanonicalId(id)].status != Completed
      && OverallRemark in records[CanonicalId(id)].sections
      && StandardizedTests in records[CanonicalId(id)].sections
      && TestsGate(records[CanonicalId(id)].sections[StandardizedTests]) == Some(false)) ==> d == Err(400, TestsRequired)
    ensures d.Ok? <==>
      && IsObjectIdString(id) && CanonicalId(id) in records && records[CanonicalId(id)].status != Completed
      && StandardizedTests in records[CanonicalId(id)].sections && OverallRemark in records[CanonicalId(id)].sections
      && TestsGate(records[CanonicalId(id)].sections[StandardizedTests]) == Some(true)
      && (TruthyOpt(Lookup(body, "overallRemark")) ==> body["overallRemark"].Str?)
    ensures d.Ok? ==>
      var a := records[CanonicalId(id)];
      && d.code == 200
      && d.value == a.(status := Completed,
           sections := a.sections[OverallRemark := WithRemark(a.sections[OverallRemark], Lookup(body, "overallRemark"))])
  {
    match FindById(records, Some(Str(id)))
    case CastFails => Err(500, InternalError)
    case Absent => Err(404, NotFound)
    case Found(_, a) =>
      if a.status == Completed then Err(400, AlreadyCompleted)
      else if StandardizedTests !in a.sections || OverallRemark !in a.sections then Err(500, InternalError)
      else
        var gate := TestsGate(a.sections[StandardizedTests]);
        if gate.None? then Err(500, InternalError)
        else if !gate.value then Err(400, TestsRequired)
        else
          var remark := Lookup(body, "overallRemark");
          if TruthyOpt(remark) && !remark.value.Str? then Err(500, InternalError)
          else Ok(200, a.(status := Completed,
            sections := a.sections[OverallRemark := WithRemark(a.sections[OverallRemark], remark)]))
  }

  /** A document that an update or a completion produces from a valid one is
      valid. */
  lemma UpdateKeepsWellFormed(records: map<Id, Assessment>, id: string, body: Record, parse: string -> Option<int>)
    requires AllWellFormed(records)
    ensures UpdateCheck(records, id, body, parse).Ok? ==> WellFormed(UpdateCheck(records, id, body, parse).value)
  {
    var d := UpdateCheck(records, id, body, parse);
    if d.Ok? {
      var s, a := ParseSection(body["section"]).value, records[CanonicalId(id)];
      UpdateCheckOk(records, id, body, parse);
      assert WellFormed(a);
      forall t | t in d.value.sections
        ensures Conforms(d.value.sections[t], SchemaOf(t))
      {
        if t != s {
          assert d.value.sections[t] == a.sections[t];
        }
      }
    }
  }

  lemma CompleteKeepsWellFormed(records: map<Id, Assessment>, id: string, body: Record)
    requires AllWellFormed(records)
    ensures CompleteCheck(records, id, body).Ok? ==> WellFormed(CompleteCheck(records, id, body).value)
  {
    var d := CompleteCheck(records, id, body);
    if d.Ok? {
      var remark := Lookup(body, "overallRemark");
      var a := records[CanonicalId(id)];
      CompletionKeepsWellFormed(a, if TruthyOpt(remark) then remark else None);
      assert WithRemark(a.sections[OverallRemark], remark)
        == WithRemark(a.sections[OverallRemark], if TruthyOpt(remark) then remark else None);
    }
  }

  /** Saving a valid document keeps the collection valid. */
  lemma SaveKeepsValid(records: map<Id, Assessment>, id: Id, a: Assessment)
    requires AllWellFormed(records) && WellFormed(a)
    ensures AllWellFormed(records[id := a])
  {
  }

  /** The assessment collection. */
  class AssessmentStore {
    var records: map<Id, Assessment>

    ghost predicate Valid()
      reads this
    {
      AllWellFormed(records)
    }

    constructor()
      ensures records == map[] && Valid()
    {
      records := map[];
    }

    /** `createAssessment`: `freshId` is the id the new document gets. */
    method Create(body: Record, freshId: Id) returns (reply: Reply<Assessment, Failure>)
      requires Valid()
      requires IsCanonicalId(freshId) && freshId !in records
      modifies this
      ensures Valid()
      ensures CreateCheck(old(records), body).Err? ==>
        reply == Err(CreateCheck(old(records), body).code, CreateCheck(old(records), body).error)
        && records == old(records)
      ensures CreateCheck(old(records), body).Ok? ==>
        var (schoolId, counselorId, studentId) := CreateCheck(old(records), body).value;
        && reply == Ok(201, NewAssessment(schoolId, counselorId, studentId))
        && records == old(records)[freshId := reply.value]
    {
      var d := CreateCheck(records, body);
      if d.Err? {
        return Err(d.code, d.error);
      }
      var (schoolId, counselorId, studentId) := d.value;
      var a := NewAssessment(schoolId, counselorId, studentId);
      NewAssessmentWellFormed(schoolId, counselorId, studentId);
      SaveKeepsValid(records, freshId, a);
      records := records[freshId := a];
      return Ok(201, a);
    }

    /** `updateAssessmentSection`. */
    method UpdateSection(id: string, body: Record, parse: string -> Option<int>) returns (reply: Reply<Assessment, Failure>)
      requires Valid()
      modifies this
      ensures Valid()
      ensures reply == UpdateCheck(old(records), id, body, parse)
      ensures records == if reply.Ok? then old(records)[CanonicalId(id) := reply.value] else old(records)
    {
      reply := UpdateCheck(records, id, body, parse);
      if reply.Ok? {
        UpdateKeepsWellFormed(records, id, body, parse);
        SaveKeepsValid(records, CanonicalId(id), reply.value);
        records := records[CanonicalId(id) := reply.value];
      }
    }

    /** `completeAssessment`. */
    method Complete(id: string, body: Record) returns (reply: Reply<Assessment, Failure>)
      requires Valid()
      modifies this
      ensures Valid()
      ensures reply == CompleteCheck(old(records), id, body)
      ensures records == if reply.Ok? then old(records)[CanonicalId(id) := reply.value] else old(records)
    {
      reply := CompleteCheck(records, id, body);
      if reply.Ok? {
        CompleteKeepsWellFormed(records, id, body);
        SaveKeepsValid(records, CanonicalId(id), reply.value);
        records := records[CanonicalId(id) := reply.value];
      }
    }

    /** `getAssessmentStats`: the tally starts at the total and three zeros,
        and each status group overwrites its own key. */
    method Stats(schoolId: Option<string>, counselorId: Option<string>) returns (reply: Reply<Tally, Failure>)
      ensures reply.Err? <==> !QueryCasts(schoolId) || !QueryCasts(counselorId)
      ensures reply.Err? ==> reply == Err(500, InternalError)
      ensures reply.Ok? ==> reply.code == 200 && reply.value == map[
        "total" := |Matching(records, schoolId, counselorId)|,
        "ongoing" := Count(records, schoolId, counselorId, Ongoing),
        "completed" := Count(records, schoolId, counselorId, Completed),
        "false" := Count(records, schoolId, counselorId, Inactive)]
    {
      if !QueryCasts(schoolId) || !QueryCasts(counselorId) {
        return Err(500, InternalError);
      }
      var groups := Groups(records, schoolId, counselorId);
      var tally := TallyGroups(|Matching(records, schoolId, counselorId)|, groups);
      GroupsCount(records, schoolId, counselorId, Ongoing);
      GroupsCount(records, schoolId, counselorId, Completed);
      GroupsCount(records, schoolId, counselorId, Inactive);
      return Ok(200, tally);
    }
  }
}
