/**
 * Appointments between a counselor and a student: the document of
 * models/appointment.model.js and the handlers of
 * controllers/appointment.controller.js that create, list, read, update and
 * delete them. The collection is a map from id to document together with
 * the order in which documents were inserted (the order a query visits
 * them in before it is sorted).
 */
module Appointments {
  import opened Js
  import opened Mongoose

  /** The colour both colour paths default to. */
  const DefaultColor := "#184C85"

  const AppointmentTypes := ["counseling", "workshop", "group"]
  const AppointmentStatuses := ["pending", "confirmed", "cancelled"]

  const AppointmentSchema := Schema([
    Required("title", AnyString),
    Required("start", KDate),
    Required("end", KDate),
    Required("studentId", KId),
    Required("counselorId", KId),
    Required("schoolId", KId),
    Required("type", KStr(AppointmentTypes)),
    Field("status", KStr(AppointmentStatuses), false, Some(Str("pending"))),
    Optional("notes", AnyString),
    Field("backgroundColor", AnyString, false, Some(Str(DefaultColor))),
    Field("borderColor", AnyString, false, Some(Str(DefaultColor)))])

  /** The names of the declared paths, in declaration order. */
  const AppointmentPaths := ["title", "start", "end", "studentId", "counselorId", "schoolId", "type", "status",
                             "notes", "backgroundColor", "borderColor"]

  lemma AppointmentPathNames()
    ensures |AppointmentSchema.fields| == |AppointmentPaths|
    ensures forall i | 0 <= i < |AppointmentPaths| :: AppointmentSchema.fields[i].name == AppointmentPaths[i]
  {
  }

  lemma AppointmentPathsDistinct()
    ensures forall i, j | 0 <= i < j < |AppointmentPaths| :: AppointmentPaths[i] != AppointmentPaths[j]
  {
  }

  /** The declared paths, each once. */
  lemma AppointmentSchemaShape()
    ensures DistinctNames(AppointmentSchema)
    ensures forall k :: k in Names(AppointmentSchema) <==> k in AppointmentPaths
  {
    AppointmentPathNames();
    AppointmentPathsDistinct();
    forall k | k in AppointmentPaths
      ensures k in Names(AppointmentSchema)
    {
      var i :| 0 <= i < |AppointmentPaths| && AppointmentPaths[i] == k;
      assert AppointmentSchema.fields[i].name == k;
    }
  }

  // The kind of each path the handlers write.

  lemma TitleKind()
    ensures KindOf(AppointmentSchema, "title") == Some(AnyString)
  {
    KindAt(AppointmentSchema, 0);
  }

  lemma StartKind()
    ensures KindOf(AppointmentSchema, "start") == Some(KDate)
  {
    KindAt(AppointmentSchema, 1);
  }

  lemma EndKind()
    ensures KindOf(AppointmentSchema, "end") == Some(KDate)
  {
    KindAt(AppointmentSchema, 2);
  }

  lemma StudentIdKind()
    ensures KindOf(AppointmentSchema, "studentId") == Some(KId)
  {
    KindAt(AppointmentSchema, 3);
  }

  lemma CounselorIdKind()
    ensures KindOf(AppointmentSchema, "counselorId") == Some(KId)
  {
    KindAt(AppointmentSchema, 4);
  }

  lemma SchoolIdKind()
    ensures KindOf(AppointmentSchema, "schoolId") == Some(KId)
  {
    KindAt(AppointmentSchema, 5);
  }

  lemma TypeKind()
    ensures KindOf(AppointmentSchema, "type") == Some(KStr(AppointmentTypes))
  {
    KindAt(AppointmentSchema, 6);
  }

  lemma NotesKind()
    ensures KindOf(AppointmentSchema, "notes") == Some(AnyString)
  {
    KindAt(AppointmentSchema, 8);
  }

  /** Only `status` and the two colours have defaults. */
  lemma AppointmentDefaults()
    ensures forall i :: 0 <= i < |AppointmentSchema.fields| && AppointmentSchema.fields[i].default.Some? ==>
      i == 7 || i == 9 || i == 10
  {
  }

  /** What a handler answers with when it does not succeed. */
  datatype Action = Update | Delete {
    function Name(): string {
      match this
      case Update => "update"
      case Delete => "delete"
    }
  }

  datatype Failure =
    | MissingFields
    | InvalidId
    | NotFound
    | NotAuthorized(action: Action)
    | ReadOfNull(what: string, property: string)  // a TypeError the handler's own code raises
    | CastFailed                                  // a query or update value does not cast
    | ValidationFailed                            // the document fails the schema
  {
    function Code(): int {
      match this
      case MissingFields => 400
      case InvalidId => 400
      case NotFound => 404
      case NotAuthorized(_) => 403
      case ReadOfNull(_, _) => 500
      case CastFailed => 500
      case ValidationFailed => 500
    }

    function Message(): string {
      match this
      case MissingFields => "Please provide all required fields"
      case InvalidId => "Invalid appointment ID"
      case NotFound => "Appointment not found"
      case NotAuthorized(action) => "Not authorized to " + action.Name() + " this appointment"
      case ReadOfNull(what, property) => "Cannot read properties of " + what + " (reading '" + property + "')"
      case CastFailed => "Cast to date failed"
      case ValidationFailed => "Appointment validation failed"
    }
  }

  /** The body paths `createAppointment` demands, reads, and the paths
      `updateAppointment` writes. */
  const CreateRequired := ["title", "start", "end", "studentId", "type"]
  const CreateFromBody := ["title", "start", "end", "studentId", "type", "notes"]
  const UpdateFromBody := ["title", "start", "end", "type", "status", "notes"]
  const DatePaths := {"start", "end"}

  /** `const {a, b} = req.body` passed on as `{a, b}`: the listed paths the
      body has; a path left `undefined` is not written. */
  function Pick(body: Record, keys: seq<string>): (r: Record)
    ensures forall k :: k in r <==> k in body && k in keys
    ensures forall k :: k in r ==> r[k] == body[k]
  {
    map k | k in body && k in keys :: body[k]
  }

  /** `{...r, k: v}` where `v` may be `undefined`. */
  function With(r: Record, k: string, v: Option<Value>): (w: Record)
    ensures Lookup(w, k) == (if v.Some? then v else Lookup(r, k))
    ensures forall j :: j != k ==> Lookup(w, j) == Lookup(r, j)
  {
    if v.Some? then r[k := v.value] else r
  }

  /** The record with its date paths cast, or None when one does not cast. */
  function CastDates(r: Record, parse: string -> Option<int>): (c: Option<Record>)
    ensures c.Some? <==> forall k :: k in r && k in DatePaths ==> CastDate(r[k], parse).Some?
    ensures c.Some? ==> c.value.Keys == r.Keys
    ensures c.Some? ==> forall k :: k in r && k !in DatePaths ==> c.value[k] == r[k]
    ensures c.Some? ==> forall k :: k in r && k in DatePaths ==> Some(c.value[k]) == CastDate(r[k], parse)
  {
    if forall k :: k in r && k in DatePaths ==> CastDate(r[k], parse).Some? then
      Some(map k | k in r :: if k in DatePaths && CastDate(r[k], parse).Some? then CastDate(r[k], parse).value else r[k])
    else None
  }

  // ---------------------------------------------------------------------
  // createAppointment

  /** Every required body path is truthy. */
  predicate RequiredGiven(body: Record) {
    forall i :: 0 <= i < |CreateRequired| ==> Has(body, CreateRequired[i])
  }

  /** The object `Appointment.create` receives: the body's own paths, with
      `counselorId` and `schoolId` taken from the caller. */
  function CreateInput(body: Record, user: Record): (r: Record)
    ensures Lookup(r, "counselorId") == Lookup(user, "id")
    ensures Lookup(r, "schoolId") == Lookup(user, "schoolId")
    ensures forall k :: k in CreateFromBody ==> Lookup(r, k) == Lookup(body, k)
    ensures forall k :: k in r ==> k in CreateFromBody || k in {"counselorId", "schoolId"}
  {
    With(With(Pick(body, CreateFromBody), "counselorId", Lookup(user, "id")), "schoolId", Lookup(user, "schoolId"))
  }

  /** The document `Appointment.create` builds before validating it: the
      input with each declared path cast to its kind and the defaults filled
      in. A value that does not cast is kept as it is, and validation then
      refuses it. */
  function NewDocument(body: Record, user: Record, parse: string -> Option<int>): (doc: Record)
    ensures CreateInput(body, user).Keys <= doc.Keys
  {
    WithDefaults(CastRecord(CreateInput(body, user), AppointmentSchema, parse), AppointmentSchema)
  }

  /** `createAppointment`: 400 unless title, start, end, studentId and type
      are all truthy; otherwise 201 with the new document when it passes
      validation, 500 when it does not. */
  function CreateCheck(body: Record, user: Record, parse: string -> Option<int>): (d: Reply<Record, Failure>)
    ensures !RequiredGiven(body) <==> d == Err(400, MissingFields)
    ensures d.Ok? <==> RequiredGiven(body) && Conforms(NewDocument(body, user, parse), AppointmentSchema)
    ensures d.Err? ==> d.code == d.error.Code() && (d.error == MissingFields || d.error == ValidationFailed)
    ensures d.Ok? ==> d == Ok(201, NewDocument(body, user, parse)) && Conforms(d.value, AppointmentSchema)
  {
    if !RequiredGiven(body) then Err(400, MissingFields)
    else
      var doc := NewDocument(body, user, parse);
      if Conforms(doc, AppointmentSchema) then Ok(201, doc) else Err(500, ValidationFailed)
  }

  /** The document built for a create, from the cast input. */
  lemma NewDocumentFrom(body: Record, user: Record, parse: string -> Option<int>)
    ensures var c := CastRecord(CreateInput(body, user), AppointmentSchema, parse);
      && NewDocument(body, user, parse) == WithDefaults(c, AppointmentSchema)
      && (forall k :: k in c ==> k in CreateFromBody || k == "counselorId" || k == "schoolId")
      && "status" !in c && "backgroundColor" !in c && "borderColor" !in c
  {
    CreateInputPaths(body, user);
  }

  /** The input of a create holds the paths the handler reads and the two
      references it sets, and none of the defaulted paths. */
  lemma CreateInputPaths(body: Record, user: Record)
    ensures forall k :: k in CreateInput(body, user) ==> k in CreateFromBody || k == "counselorId" || k == "schoolId"
    ensures var r := CreateInput(body, user);
      "status" !in r && "backgroundColor" !in r && "borderColor" !in r
  {
    HandlerPaths();
  }

  /** The value a create stores on a declared path it was given. */
  lemma NewDocumentPath(body: Record, user: Record, parse: string -> Option<int>, k: string)
    requires k in CreateInput(body, user)
    ensures KindOf(AppointmentSchema, k).Some?
    ensures NewDocument(body, user, parse)[k] ==
      CastValue(CreateInput(body, user)[k], KindOf(AppointmentSchema, k).value, parse)
  {
    var c := CastRecord(CreateInput(body, user), AppointmentSchema, parse);
    NewDocumentFrom(body, user, parse);
    DeclaredPaths();
    AppointmentSchemaShape();
  }

  /** The document built for a create has the caller's id and school, cast
      to ObjectIds, as its counselor and school, whatever the body says. */
  lemma NewDocumentByCaller(body: Record, user: Record, parse: string -> Option<int>)
    ensures var doc := NewDocument(body, user, parse);
      && ("counselorId" in doc <==> "id" in user)
      && ("id" in user ==> doc["counselorId"] == CastValue(user["id"], KId, parse))
      && ("schoolId" in doc <==> "schoolId" in user)
      && ("schoolId" in user ==> doc["schoolId"] == CastValue(user["schoolId"], KId, parse))
  {
    var doc := NewDocument(body, user, parse);
    var c := CastRecord(CreateInput(body, user), AppointmentSchema, parse);
    NewDocumentFrom(body, user, parse);
    DefaultedPaths(c);
    CounselorIdKind();
    SchoolIdKind();
    if "id" in user {
      NewDocumentPath(body, user, parse, "counselorId");
    }
    if "schoolId" in user {
      NewDocumentPath(body, user, parse, "schoolId");
    }
  }

  /** The document built for a create is pending and has the default
      colours. */
  lemma NewDocumentPending(body: Record, user: Record, parse: string -> Option<int>)
    ensures var doc := NewDocument(body, user, parse);
      && Lookup(doc, "status") == Some(Str("pending"))
      && Lookup(doc, "backgroundColor") == Some(Str(DefaultColor))
      && Lookup(doc, "borderColor") == Some(Str(DefaultColor))
  {
    NewDocumentFrom(body, user, parse);
    DefaultValues(CastRecord(CreateInput(body, user), AppointmentSchema, parse));
  }

  /** The document built for a create holds declared paths only. */
  lemma NewDocumentKeys(body: Record, user: Record, parse: string -> Option<int>)
    ensures NewDocument(body, user, parse).Keys <= Names(AppointmentSchema)
  {
    NewDocumentFrom(body, user, parse);
    CreatedKeys(CastRecord(CreateInput(body, user), AppointmentSchema, parse));
  }

  /** The document built for a create takes title, type and notes from the
      body as they are; studentId is the body's value cast to an ObjectId,
      and start and end are the body's values cast to dates. */
  lemma NewDocumentFromBody(body: Record, user: Record, parse: string -> Option<int>)
    ensures var doc := NewDocument(body, user, parse);
      && Lookup(doc, "title") == Lookup(body, "title")
      && Lookup(doc, "type") == Lookup(body, "type")
      && Lookup(doc, "notes") == Lookup(body, "notes")
      && ("studentId" in body ==> doc["studentId"] == CastValue(body["studentId"], KId, parse))
      && ("start" in body ==> doc["start"] == CastValue(body["start"], KDate, parse))
      && ("end" in body ==> doc["end"] == CastValue(body["end"], KDate, parse))
  {
    NewDocumentText(body, user, parse);
    NewDocumentStudent(body, user, parse);
    NewDocumentDates(body, user, parse);
  }

  lemma NewDocumentText(body: Record, user: Record, parse: string -> Option<int>)
    ensures var doc := NewDocument(body, user, parse);
      && Lookup(doc, "title") == Lookup(body, "title")
      && Lookup(doc, "type") == Lookup(body, "type")
      && Lookup(doc, "notes") == Lookup(body, "notes")
  {
    TitleKind();
    NewDocumentTextPath(body, user, parse, "title", []);
    TypeKind();
    NewDocumentTextPath(body, user, parse, "type", AppointmentTypes);
    NotesKind();
    NewDocumentTextPath(body, user, parse, "notes", []);
  }

  /** A text path a create reads from the body holds the body's value. */
  lemma NewDocumentTextPath(body: Record, user: Record, parse: string -> Option<int>, k: string, choices: seq<string>)
    requires k in CreateFromBody && KindOf(AppointmentSchema, k) == Some(KStr(choices))
    ensures Lookup(NewDocument(body, user, parse), k) == Lookup(body, k)
  {
    NewDocumentBodyPath(body, user, parse, k);
  }

  lemma NewDocumentStudent(body: Record, user: Record, parse: string -> Option<int>)
    ensures "studentId" in body ==>
      NewDocument(body, user, parse)["studentId"] == CastValue(body["studentId"], KId, parse)
  {
    NewDocumentBodyPath(body, user, parse, "studentId");
    StudentIdKind();
  }

  lemma NewDocumentDates(body: Record, user: Record, parse: string -> Option<int>)
    ensures "start" in body ==> NewDocument(body, user, parse)["start"] == CastValue(body["start"], KDate, parse)
    ensures "end" in body ==> NewDocument(body, user, parse)["end"] == CastValue(body["end"], KDate, parse)
  {
    NewDocumentBodyPath(body, user, parse, "start");
    StartKind();
    NewDocumentBodyPath(body, user, parse, "end");
    EndKind();
  }

  /** A path a create reads from the body holds the body's value cast, or
      nothing when the body has none. */
  lemma NewDocumentBodyPath(body: Record, user: Record, parse: string -> Option<int>, k: string)
    requires k in CreateFromBody
    ensures KindOf(AppointmentSchema, k).Some?
    ensures k in body ==>
      && k in NewDocument(body, user, parse)
      && NewDocument(body, user, parse)[k] == CastValue(body[k], KindOf(AppointmentSchema, k).value, parse)
    ensures k !in body ==> k !in NewDocument(body, user, parse)
  {
    var c := CastRecord(CreateInput(body, user), AppointmentSchema, parse);
    NewDocumentFrom(body, user, parse);
    DefaultedPaths(c);
    HandlerPaths();
    DeclaredPaths();
    AppointmentSchemaShape();
    if k in body {
      NewDocumentPath(body, user, parse, k);
    }
  }

  /** A created appointment belongs to the caller: the caller, who has an
      id and a school, is its counselor and its school is the caller's; it
      is pending with the default colours. */
  lemma CreatedByCaller(body: Record, user: Record, parse: string -> Option<int>)
    requires CreateCheck(body, user, parse).Ok?
    ensures var doc := CreateCheck(body, user, parse).value;
      && "id" in user && user["id"].Str? && IsObjectIdString(user["id"].s)
      && doc["counselorId"] == Str(CanonicalId(user["id"].s))
      && "schoolId" in user && user["schoolId"].Str? && IsObjectIdString(user["schoolId"].s)
      && doc["schoolId"] == Str(CanonicalId(user["schoolId"].s))
      && Lookup(doc, "status") == Some(Str("pending"))
      && Lookup(doc, "backgroundColor") == Some(Str(DefaultColor))
      && Lookup(doc, "borderColor") == Some(Str(DefaultColor))
  {
    var doc := CreateCheck(body, user, parse).value;
    NewDocumentByCaller(body, user, parse);
    NewDocumentPending(body, user, parse);
    RequiredPresent(doc);
    CounselorIdKind();
    SchoolIdKind();
    StoredRef(doc, user["id"], parse, "counselorId");
    StoredRef(doc, user["schoolId"], parse, "schoolId");
  }

  /** A reference of a valid document that was cast from `v`: `v` was an
      ObjectId string, and the document holds its canonical form. */
  lemma StoredRef(doc: Record, v: Value, parse: string -> Option<int>, k: string)
    requires Conforms(doc, AppointmentSchema) && KindOf(AppointmentSchema, k) == Some(KId)
    requires k in doc && !doc[k].Null? && doc[k] == CastValue(v, KId, parse)
    ensures v.Str? && IsObjectIdString(v.s) && doc[k] == Str(CanonicalId(v.s))
  {
    DeclaredFits(doc, AppointmentSchema, k);
  }

  /** A valid appointment has its counselor, student and school. */
  lemma RequiredPresent(doc: Record)
    requires Conforms(doc, AppointmentSchema)
    ensures Present(Lookup(doc, "counselorId")) && Present(Lookup(doc, "studentId")) && Present(Lookup(doc, "schoolId"))
  {
    ConformsAt(doc, AppointmentSchema, 3);
    ConformsAt(doc, AppointmentSchema, 4);
    ConformsAt(doc, AppointmentSchema, 5);
  }

  /** The paths the handler sets are not the defaulted ones. */
  lemma HandlerPaths()
    ensures forall k :: k in CreateFromBody ==> k != "status" && k != "backgroundColor" && k != "borderColor"
  {
  }

  /** A new document holds declared paths only. */
  lemma CreatedKeys(c: Record)
    requires forall k :: k in c ==> k in CreateFromBody || k == "counselorId" || k == "schoolId"
    ensures WithDefaults(c, AppointmentSchema).Keys <= Names(AppointmentSchema)
  {
    DefaultedPaths(c);
    DeclaredPaths();
    AppointmentSchemaShape();
  }

  /** Every path the handler or the defaults set is declared. */
  lemma DeclaredPaths()
    ensures forall k :: k in CreateFromBody ==> k in AppointmentPaths
    ensures forall k :: k in UpdateFromBody ==> k in AppointmentPaths
    ensures "counselorId" in AppointmentPaths && "schoolId" in AppointmentPaths
    ensures "status" in AppointmentPaths && "backgroundColor" in AppointmentPaths && "borderColor" in AppointmentPaths
  {
  }

  /** Defaults add only `status` and the colours. */
  lemma DefaultedPaths(c: Record)
    ensures forall k :: k in WithDefaults(c, AppointmentSchema) && k !in c ==>
      k == "status" || k == "backgroundColor" || k == "borderColor"
  {
    var fs := AppointmentSchema.fields;
    AppointmentDefaults();
    AppointmentPathNames();
    forall k | k in WithDefaults(c, AppointmentSchema) && k !in c
      ensures k == "status" || k == "backgroundColor" || k == "borderColor"
    {
      var i :| 0 <= i < |fs| && fs[i].name == k && fs[i].default.Some?;
      assert i == 7 || i == 9 || i == 10;
    }
  }

  /** A new document is pending and has the default colours. */
  lemma DefaultValues(c: Record)
    requires "status" !in c && "backgroundColor" !in c && "borderColor" !in c
    ensures var doc := WithDefaults(c, AppointmentSchema);
      && Lookup(doc, "status") == Some(Str("pending"))
      && Lookup(doc, "backgroundColor") == Some(Str(DefaultColor))
      && Lookup(doc, "borderColor") == Some(Str(DefaultColor))
  {
    var fs := AppointmentSchema.fields;
    AppointmentSchemaShape();
    assert fs[7].default == Some(Str("pending")) && fs[7].name == "status";
    assert fs[9].default == Some(Str(DefaultColor)) && fs[9].name == "backgroundColor";
    assert fs[10].default == Some(Str(DefaultColor)) && fs[10].name == "borderColor";
  }

  /** What the body says about the paths `createAppointment` does not read
      (counselorId, schoolId, status, the colours) makes no difference. */
  lemma CreateIgnoresOtherPaths(body: Record, user: Record, parse: string -> Option<int>, k: string, v: Value)
    requires k !in CreateFromBody
    ensures CreateCheck(body[k := v], user, parse) == CreateCheck(body, user, parse)
  {
    var b := body[k := v];
    assert Pick(b, CreateFromBody) == Pick(body, CreateFromBody);
    assert RequiredGiven(b) <==> RequiredGiven(body) by {
      forall i | 0 <= i < |CreateRequired|
        ensures Has(b, CreateRequired[i]) <==> Has(body, CreateRequired[i])
      {
        assert CreateRequired[i] in CreateFromBody;
      }
    }
  }

  // ---------------------------------------------------------------------
  // getCounselorAppointments and getStudentAppointments

  /** Whose appointments a listing shows: the counselor's own (the path
      `counselorId`) or the student's own (`studentId`). */
  datatype Scope = ByCounselor | ByStudent {
    function Key(): string {
      match this
      case ByCounselor => "counselorId"
      case ByStudent => "studentId"
    }
  }

  /** The query of a listing: the owner path must hold the caller's id
      (`None`: the caller has none, and the path must be empty), and, when a
      range is given, the appointment starts no earlier than its first bound
      and ends no later than its second. */
  datatype Filter = Filter(key: string, owner: Option<string>, range: Option<(int, int)>)

  predicate Matches(doc: Record, f: Filter) {
    && (if f.owner.Some? then Lookup(doc, f.key) == Some(Str(f.owner.value)) else !Present(Lookup(doc, f.key)))
    && (f.range.Some? ==>
          && "start" in doc && doc["start"].Num? && doc["start"].n >= f.range.value.0
          && "end" in doc && doc["end"].Num? && doc["end"].n <= f.range.value.1)
  }

  /** A query-string value is truthy when given and not empty. */
  predicate Given(q: Option<string>) {
    q.Some? && q.value != ""
  }

  /** The query built from `req.user.id` and `req.query`, or None when a
      value does not cast (an id that is not an ObjectId, a bound that is no
      date). The range applies only when both bounds are given. The caller's
      id is cast to an ObjectId, so it matches the stored form. */
  function QueryFilter(scope: Scope, user: Record, from: Option<string>, to: Option<string>,
                       parse: string -> Option<int>): (q: Option<Filter>)
    ensures q.None? <==>
      || (Present(Lookup(user, "id")) && (user["id"].Obj? || !IsObjectIdString(ToString(user["id"]))))
      || (Given(from) && Given(to) && (parse(from.value).None? || parse(to.value).None?))
    ensures q.Some? ==> q.value.key == scope.Key()
    ensures q.Some? ==> (q.value.range.Some? <==> Given(from) && Given(to))
    ensures q.Some? && q.value.range.Some? ==>
      parse(from.value) == Some(q.value.range.value.0) && parse(to.value) == Some(q.value.range.value.1)
    ensures q.Some? ==> (q.value.owner.Some? <==> Present(Lookup(user, "id")))
    ensures q.Some? && q.value.owner.Some? ==>
      IsObjectIdString(ToString(user["id"])) && q.value.owner.value == CanonicalId(ToString(user["id"]))
  {
    var me := Lookup(user, "id");
    var owner: Option<Option<string>> :=
      if !Present(me) then Some(None)
      else if me.value.Obj? || !IsObjectIdString(ToString(me.value)) then None
      else Some(Some(CanonicalId(ToString(me.value))));
    var range: Option<Option<(int, int)>> :=
      if !(Given(from) && Given(to)) then Some(None)
      else if parse(from.value).Some? && parse(to.value).Some? then Some(Some((parse(from.value).value, parse(to.value).value)))
      else None;
    if owner.None? || range.None? then None
    else Some(Filter(scope.Key(), owner.value, range.value))
  }

  /** The `start` of a document as a sort key: a missing or non-date start
      sorts first, as MongoDB sorts null before dates. */
  function StartKey(doc: Record): Option<int> {
    if "start" in doc && doc["start"].Num? then Some(doc["start"].n) else None
  }

  predicate StartLe(a: Record, b: Record) {
    match (StartKey(a), StartKey(b))
    case (None, _) => true
    case (Some(_), None) => false
    case (Some(x), Some(y)) => x <= y
  }

  predicate SortedByStart(xs: seq<(string, Record)>) {
    forall i :: 0 <= i < |xs| - 1 ==> StartLe(xs[i].1, xs[i + 1].1)
  }

  predicate Distinct(ids: seq<string>) {
    forall i, j :: 0 <= i < j < |ids| ==> ids[i] != ids[j]
  }

  /** The collection's bookkeeping: the order lists every stored id once. */
  ghost predicate Listed(docs: map<string, Record>, order: seq<string>) {
    (forall k :: k in docs <==> k in order) && Distinct(order)
  }

  /** The documents a query matches, in the collection's order. */
  function Select(docs: map<string, Record>, order: seq<string>, f: Filter): (r: seq<(string, Record)>)
    ensures forall x :: x in r ==> x.0 in order && x.0 in docs && x.1 == docs[x.0] && Matches(x.1, f)
    ensures forall k :: k in order && k in docs && Matches(docs[k], f) ==> (k, docs[k]) in r
    ensures Distinct(order) ==> forall x :: multiset(r)[x] <= 1
  {
    if order == [] then []
    else
      var rest := Select(docs, order[1..], f);
      var k := order[0];
      assert forall j :: j in order[1..] ==> j in order;
      if k in docs && Matches(docs[k], f) then
        assert Distinct(order) ==> k !in order[1..] && Distinct(order[1..]);
        assert Distinct(order) ==> (k, docs[k]) !in rest;
        [(k, docs[k])] + rest
      else
        assert Distinct(order) ==> Distinct(order[1..]);
        rest
  }

  /** One document put into a list sorted by start. */
  function InsertByStart(x: (string, Record), ys: seq<(string, Record)>): (r: seq<(string, Record)>)
    ensures multiset(r) == multiset(ys) + multiset{x}
    ensures |r| == |ys| + 1
    ensures r[0] == x || (ys != [] && r[0] == ys[0])
  {
    if ys == [] || StartLe(x.1, ys[0].1) then
      [x] + ys
    else
      assert ys == [ys[0]] + ys[1..];
      [ys[0]] + InsertByStart(x, ys[1..])
  }

  /** Inserting into a list sorted by start keeps it sorted. */
  lemma {:induction false} InsertKeepsSorted(x: (string, Record), ys: seq<(string, Record)>)
    requires SortedByStart(ys)
    ensures SortedByStart(InsertByStart(x, ys))
  {
    if ys == [] || StartLe(x.1, ys[0].1) {
      SortedCons(x, ys);
    } else {
      assert ys == [ys[0]] + ys[1..];
      SortedTail(ys[0], ys[1..]);
      var rest := InsertByStart(x, ys[1..]);
      InsertKeepsSorted(x, ys[1..]);
      assert StartLe(ys[0].1, rest[0].1);
      SortedCons(ys[0], rest);
    }
  }

  /** The tail of a sorted list is sorted, and its head starts no later
      than the rest. */
  lemma SortedTail(y: (string, Record), rest: seq<(string, Record)>)
    requires SortedByStart([y] + rest)
    ensures SortedByStart(rest)
    ensures rest != [] ==> StartLe(y.1, rest[0].1)
  {
    var r := [y] + rest;
    forall i | 0 <= i < |rest| - 1
      ensures StartLe(rest[i].1, rest[i + 1].1)
    {
      assert r[i + 1] == rest[i] && r[i + 2] == rest[i + 1];
    }
    if rest != [] {
      assert r[0] == y && r[1] == rest[0];
    }
  }

  /** A document that starts no later than the head of a sorted list can go
      in front of it. */
  lemma SortedCons(y: (string, Record), rest: seq<(string, Record)>)
    requires SortedByStart(rest)
    requires rest == [] || StartLe(y.1, rest[0].1)
    ensures SortedByStart([y] + rest)
  {
    var r := [y] + rest;
    forall i | 0 <= i < |r| - 1
      ensures StartLe(r[i].1, r[i + 1].1)
    {
      if i == 0 {
        assert r[0] == y && r[1] == rest[0];
      } else {
        assert r[i] == rest[i - 1] && r[i + 1] == rest[i];
      }
    }
  }

  /** `.sort({ start: 1 })`: the same documents, by start ascending. */
  function SortByStart(xs: seq<(string, Record)>): (r: seq<(string, Record)>)
    ensures multiset(r) == multiset(xs)
    ensures SortedByStart(r)
  {
    if xs == [] then []
    else
      assert xs == [xs[0]] + xs[1..];
      var rest := SortByStart(xs[1..]);
      InsertKeepsSorted(xs[0], rest);
      InsertByStart(xs[0], rest)
  }

  /** `getCounselorAppointments` (ByCounselor) and `getStudentAppointments`
      (ByStudent): the caller's own appointments, within the range when both
      bounds are given, by start ascending; `ListCheckOk` states that none is
      missed and none repeated. */
  function ListCheck(docs: map<string, Record>, order: seq<string>, scope: Scope, user: Record,
                     from: Option<string>, to: Option<string>, parse: string -> Option<int>)
    : (d: Reply<seq<(string, Record)>, Failure>)
    ensures QueryFilter(scope, user, from, to, parse).None? <==> d == Err(500, CastFailed)
    ensures QueryFilter(scope, user, from, to, parse).Some? <==> d.Ok?
    ensures d.Ok? ==> d.code == 200 && SortedByStart(d.value)
    ensures d.Ok? ==> var f := QueryFilter(scope, user, from, to, parse).value;
      forall x :: x in d.value ==> x.0 in docs && x.1 == docs[x.0] && Matches(x.1, f)
  {
    match QueryFilter(scope, user, from, to, parse)
    case None => Err(500, CastFailed)
    case Some(f) =>
      SortKeepsMembers(Select(docs, order, f));
      Ok(200, SortByStart(Select(docs, order, f)))
  }

  /** Sorting neither adds nor drops a document. */
  lemma SortKeepsMembers(xs: seq<(string, Record)>)
    ensures forall x :: x in SortByStart(xs) <==> x in xs
  {
    var r := SortByStart(xs);
    assert forall x :: x in r <==> x in multiset(r);
    assert forall x :: x in xs <==> x in multiset(xs);
  }

  /** A listing that succeeds misses no matching appointment, repeats none,
      and shows only the caller's own; without a range, every appointment
      whose owner path holds the caller's id is shown. */
  lemma ListCheckOk(docs: map<string, Record>, order: seq<string>, scope: Scope, user: Record,
                    from: Option<string>, to: Option<string>, parse: string -> Option<int>)
    requires ListCheck(docs, order, scope, user, from, to, parse).Ok?
    ensures var d := ListCheck(docs, order, scope, user, from, to, parse);
      var f := QueryFilter(scope, user, from, to, parse).value;
      Listed(docs, order) ==> forall k :: k in docs && Matches(docs[k], f) ==> (k, docs[k]) in d.value
    ensures var d := ListCheck(docs, order, scope, user, from, to, parse);
      Listed(docs, order) ==> forall x :: multiset(d.value)[x] <= 1
    ensures var d := ListCheck(docs, order, scope, user, from, to, parse);
      Present(Lookup(user, "id")) ==>
        forall x :: x in d.value ==> Lookup(x.1, scope.Key()) == Some(Str(CanonicalId(ToString(user["id"]))))
    ensures var d := ListCheck(docs, order, scope, user, from, to, parse);
      Listed(docs, order) && !(Given(from) && Given(to)) && "id" in user && user["id"].Str? ==>
        forall k ::
          (k in docs && Lookup(docs[k], scope.Key()) == Some(Str(CanonicalId(user["id"].s))))
          ==> (k, docs[k]) in d.value
  {
    var f := QueryFilter(scope, user, from, to, parse).value;
    SortedSelection(docs, order, f);
    assert f.range.None? && "id" in user && user["id"].Str? ==>
      forall k :: (k in docs && Lookup(docs[k], scope.Key()) == Some(Str(CanonicalId(user["id"].s)))) ==> Matches(docs[k], f);
  }

  /** Sorting the selection keeps its members, each as often as before. */
  lemma SortedSelection(docs: map<string, Record>, order: seq<string>, f: Filter)
    ensures var r := SortByStart(Select(docs, order, f));
      && (forall x :: x in r <==> x in Select(docs, order, f))
      && (Distinct(order) ==> forall x :: multiset(r)[x] <= 1)
  {
    var sel := Select(docs, order, f);
    var r := SortByStart(sel);
    assert forall x :: x in r <==> x in multiset(r);
    assert forall x :: x in sel <==> x in multiset(sel);
  }

  // ---------------------------------------------------------------------
  // getAppointment, updateAppointment and deleteAppointment

  /** `validateObjectId(id)`: the route parameter is an ObjectId. */
  predicate ValidId(id: string) {
    IsObjectIdString(id)
  }

  /** `getAppointment`: 400 for a malformed id, 404 for an unknown one; the
      caller's identity is not consulted. */
  function GetCheck(docs: map<string, Record>, id: string): (d: Reply<Record, Failure>)
    ensures !ValidId(id) ==> d == Err(400, InvalidId)
    ensures ValidId(id) && CanonicalId(id) !in docs ==> d == Err(404, NotFound)
    ensures d.Ok? <==> ValidId(id) && CanonicalId(id) in docs
    ensures d.Ok? ==> d == Ok(200, docs[CanonicalId(id)])
  {
    if !ValidId(id) then Err(400, InvalidId)
    else match FindById(docs, Some(Str(id)))
      case Found(_, doc) => Ok(200, doc)
      case _ => Err(404, NotFound)
  }

  /** The caller is the appointment's counselor or its student. */
  predicate Party(doc: Record, user: Record) {
    || (Present(Lookup(doc, "counselorId")) && Lookup(user, "id") == Some(Str(ToString(doc["counselorId"]))))
    || (Present(Lookup(doc, "studentId")) && Lookup(user, "id") == Some(Str(ToString(doc["studentId"]))))
  }

  /** `doc.counselorId.toString() !== req.user.id &&
      doc.studentId.toString() !== req.user.id`, evaluated left to right: a
      missing reference throws, a match stops the evaluation. None: the
      caller may go on. */
  function OwnerCheck(doc: Record, user: Record, action: Action): (e: Option<Failure>)
    ensures e.None? ==> Party(doc, user)
    ensures Conforms(doc, AppointmentSchema) ==> (e.None? <==> Party(doc, user))
    ensures Conforms(doc, AppointmentSchema) && e.Some? ==> e.value == NotAuthorized(action)
    ensures e.Some? ==> e.value == NotAuthorized(action) || e.value.ReadOfNull?
  {
    var me := Lookup(user, "id");
    if !Present(Lookup(doc, "counselorId")) then
      ConformsAfter(doc, 4);
      Some(ReadOfNull(if "counselorId" in doc then "null" else "undefined", "toString"))
    else if me == Some(Str(ToString(doc["counselorId"]))) then None
    else if !Present(Lookup(doc, "studentId")) then
      ConformsAfter(doc, 3);
      Some(ReadOfNull(if "studentId" in doc then "null" else "undefined", "toString"))
    else if me == Some(Str(ToString(doc["studentId"]))) then None
    else Some(NotAuthorized(action))
  }

  /** A conforming document has its required paths. */
  lemma ConformsAfter(doc: Record, i: nat)
    requires i < |AppointmentSchema.fields| && AppointmentSchema.fields[i].required
    ensures Conforms(doc, AppointmentSchema) ==> Present(Lookup(doc, AppointmentSchema.fields[i].name))
  {
    if Conforms(doc, AppointmentSchema) {
      ConformsAt(doc, AppointmentSchema, i);
    }
  }

  /** The paths an update writes, its date paths cast. */
  function Changes(body: Record, parse: string -> Option<int>): (c: Option<Record>)
    ensures c.Some? ==> forall k :: k in c.value <==> k in body && k in UpdateFromBody
  {
    CastDates(Pick(body, UpdateFromBody), parse)
  }

  /** The checks `updateAppointment` and `deleteAppointment` share, in their
      order: the id's form, its presence, then the caller's part in it. */
  function Access(docs: map<string, Record>, user: Record, id: string, action: Action): (e: Option<Failure>)
    ensures !ValidId(id) ==> e == Some(InvalidId)
    ensures ValidId(id) && CanonicalId(id) !in docs ==> e == Some(NotFound)
    ensures e.None? <==> ValidId(id) && CanonicalId(id) in docs && OwnerCheck(docs[CanonicalId(id)], user, action).None?
    ensures e.None? ==> Party(docs[CanonicalId(id)], user)
    ensures e.Some? && ValidId(id) && CanonicalId(id) in docs && Conforms(docs[CanonicalId(id)], AppointmentSchema) ==>
      e == Some(NotAuthorized(action)) && !Party(docs[CanonicalId(id)], user)
  {
    if !ValidId(id) then Some(InvalidId)
    else match FindById(docs, Some(Str(id)))
      case Found(_, doc) => OwnerCheck(doc, user, action)
      case _ => Some(NotFound)
  }

  /** `updateAppointment` as written: the update goes through
      `findByIdAndUpdate` without `runValidators`, so it casts but does not
      validate. */
  function UpdateCheckAsWritten(docs: map<string, Record>, user: Record, id: string, body: Record,
                                parse: string -> Option<int>): (d: Reply<Record, Failure>)
    ensures d.Ok? <==> Access(docs, user, id, Update).None? && Changes(body, parse).Some?
    ensures d.Ok? ==> CanonicalId(id) in docs && Party(docs[CanonicalId(id)], user)
    ensures d.Ok? ==> d.value == Merge(docs[CanonicalId(id)], Changes(body, parse).value)
  {
    match Access(docs, user, id, Update)
    case Some(e) => Err(e.Code(), e)
    case None =>
      match Changes(body, parse)
      case None => Err(500, CastFailed)
      case Some(c) => Ok(200, Merge(docs[CanonicalId(id)], c))
  }

  /** `updateAppointment`, with the updated document validated as the
      schema's `enum`s and `required` paths evidently intend: only title,
      start, end, type, status and notes change, and a stored document
      stays valid. */
  function UpdateCheck(docs: map<string, Record>, user: Record, id: string, body: Record,
                       parse: string -> Option<int>): (d: Reply<Record, Failure>)
    ensures !ValidId(id) ==> d == Err(400, InvalidId)
    ensures ValidId(id) && CanonicalId(id) !in docs ==> d == Err(404, NotFound)
    ensures (ValidId(id) && CanonicalId(id) in docs && Conforms(docs[CanonicalId(id)], AppointmentSchema)
      && !Party(docs[CanonicalId(id)], user)) ==> d == Err(403, NotAuthorized(Update))
    ensures d.Err? ==> d.code == d.error.Code()
    ensures d.Ok? <==>
      && Access(docs, user, id, Update).None? && Changes(body, parse).Some?
      && Conforms(Merge(docs[CanonicalId(id)], Changes(body, parse).value), AppointmentSchema)
    ensures d.Ok? ==> d.code == 200 && CanonicalId(id) in docs && Party(docs[CanonicalId(id)], user)
    ensures d.Ok? ==> Conforms(d.value, AppointmentSchema)
  {
    match Access(docs, user, id, Update)
    case Some(e) => Err(e.Code(), e)
    case None =>
      assert CanonicalId(id) in docs && Party(docs[CanonicalId(id)], user);
      match Changes(body, parse)
      case None => Err(500, CastFailed)
      case Some(c) =>
        var u := Merge(docs[CanonicalId(id)], c);
        if Conforms(u, AppointmentSchema) then Ok(200, u) else Err(500, ValidationFailed)
  }

  /** What a successful update stores: the paths outside the six are the
      old document's, the six are the body's, with the dates cast. */
  lemma UpdateCheckOk(docs: map<string, Record>, user: Record, id: string, body: Record, parse: string -> Option<int>)
    requires UpdateCheck(docs, user, id, body, parse).Ok?
    ensures var d, prior := UpdateCheck(docs, user, id, body, parse), docs[CanonicalId(id)];
      && (forall k :: k in prior && k !in UpdateFromBody ==> k in d.value && d.value[k] == prior[k])
      && (forall k :: k in d.value <==> k in prior || (k in body && k in UpdateFromBody))
    ensures var d := UpdateCheck(docs, user, id, body, parse);
      forall k :: k in body && k in UpdateFromBody && k !in DatePaths ==> d.value[k] == body[k]
    ensures var d := UpdateCheck(docs, user, id, body, parse);
      forall k :: k in body && k in DatePaths ==> Some(d.value[k]) == CastDate(body[k], parse)
  {
  }

  /** `deleteAppointment`: the same checks as an update; on success the
      stored id to remove. */
  function DeleteCheck(docs: map<string, Record>, user: Record, id: string): (d: Reply<string, Failure>)
    ensures !ValidId(id) ==> d == Err(400, InvalidId)
    ensures ValidId(id) && CanonicalId(id) !in docs ==> d == Err(404, NotFound)
    ensures ValidId(id) && CanonicalId(id) in docs && Conforms(docs[CanonicalId(id)], AppointmentSchema) ==>
      (d.Ok? <==> Party(docs[CanonicalId(id)], user))
    ensures d.Err? ==> d.code == d.error.Code()
    ensures d.Ok? ==> d == Ok(200, CanonicalId(id)) && CanonicalId(id) in docs && Party(docs[CanonicalId(id)], user)
  {
    match Access(docs, user, id, Delete)
    case Some(e) => Err(e.Code(), e)
    case None => Ok(200, CanonicalId(id))
  }

  /** The order without one id. */
  function Remove(order: seq<string>, id: string): (r: seq<string>)
    ensures forall k :: k in r <==> k in order && k != id
    ensures Distinct(order) ==> Distinct(r)
  {
    if order == [] then []
    else
      var rest := Remove(order[1..], id);
      assert forall k :: k in order[1..] ==> k in order;
      if order[0] == id then
        assert Distinct(order) ==> Distinct(order[1..]);
        rest
      else
        assert Distinct(order) ==> order[0] !in order[1..] && Distinct(order[1..]);
        [order[0]] + rest
  }

  // ---------------------------------------------------------------------
  // The as-written update and the document it can store

  /** A stored appointment, valid on every path. */
  function Sample(): Record {
    map["title" := Str("Check-in"), "start" := Num(0), "end" := Num(3600000),
        "studentId" := Str("aaaaaaaaaaaaaaaaaaaaaaaa"), "counselorId" := Str("bbbbbbbbbbbbbbbbbbbbbbbb"),
        "schoolId" := Str("cccccccccccccccccccccccc"), "type" := Str("counseling"), "status" := Str("pending"),
        "backgroundColor" := Str(DefaultColor), "borderColor" := Str(DefaultColor)]
  }

  lemma SampleConforms()
    ensures Conforms(Sample(), AppointmentSchema)
  {
    var fs := AppointmentSchema.fields;
    SampleHead();
    SampleRefs();
    SampleTail();
    ConformsAppend(Sample(), fs[..4], fs[4..7]);
    assert fs[..4] + fs[4..7] == fs[..7];
    ConformsAppend(Sample(), fs[..7], fs[7..]);
    assert fs[..7] + fs[7..] == fs;
  }

  lemma SampleHead()
    ensures Conforms(Sample(), Schema(AppointmentSchema.fields[..4]))
  {
    StudentCanonical();
  }

  lemma SampleRefs()
    ensures Conforms(Sample(), Schema(AppointmentSchema.fields[4..7]))
  {
    CounselorCanonical();
    SchoolCanonical();
  }

  lemma StudentCanonical()
    ensures IsCanonicalId("aaaaaaaaaaaaaaaaaaaaaaaa")
  {
  }

  lemma CounselorCanonical()
    ensures IsCanonicalId("bbbbbbbbbbbbbbbbbbbbbbbb")
  {
  }

  lemma SchoolCanonical()
    ensures IsCanonicalId("cccccccccccccccccccccccc")
  {
  }

  lemma SampleIdCanonical()
    ensures IsCanonicalId(SampleId)
  {
  }

  lemma SampleTail()
    ensures Conforms(Sample(), Schema(AppointmentSchema.fields[7..]))
  {
  }

  const SampleId := "dddddddddddddddddddddddd"
  const SampleCounselor := map["id" := Str("bbbbbbbbbbbbbbbbbbbbbbbb")]
  const DoneBody := map["status" := Str("done")]

  /** The sample's counselor may update it. */
  lemma SampleAccess()
    ensures Access(map[SampleId := Sample()], SampleCounselor, SampleId, Update) == None
  {
    SampleIdCanonical();
  }

  /** The body writes only `status`, which is no date. */
  lemma DoneChanges(parse: string -> Option<int>)
    ensures Changes(DoneBody, parse) == Some(DoneBody)
  {
    var r := Pick(DoneBody, UpdateFromBody);
    assert r == DoneBody;
    assert "status" !in DatePaths;
    assert CastDates(r, parse).Some?;
    var c := CastDates(r, parse).value;
    assert c.Keys == r.Keys;
    assert c["status"] == r["status"];
    assert c == DoneBody;
  }

  /** "done" is not one of the statuses. */
  lemma DoneInvalid()
    ensures !Conforms(Merge(Sample(), DoneBody), AppointmentSchema)
  {
    var u := Merge(Sample(), DoneBody);
    if Conforms(u, AppointmentSchema) {
      ConformsAt(u, AppointmentSchema, 7);
      assert false;
    }
  }

  /** The counselor of the sample sets its status to "done": the
      as-written update stores it although the schema's enum excludes it,
      while the validated update refuses it. */
  lemma UnvalidatedStatusStored(parse: string -> Option<int>)
    ensures Conforms(Sample(), AppointmentSchema)
    ensures var d := UpdateCheckAsWritten(map[SampleId := Sample()], SampleCounselor, SampleId, DoneBody, parse);
      d.Ok? && !Conforms(d.value, AppointmentSchema)
    ensures UpdateCheck(map[SampleId := Sample()], SampleCounselor, SampleId, DoneBody, parse) == Err(500, ValidationFailed)
  {
    SampleConforms();
    SampleAccess();
    DoneChanges(parse);
    DoneInvalid();
  }

  // ---------------------------------------------------------------------
  // The collection

  class AppointmentStore {
    var docs: map<string, Record>
    var order: seq<string>

    /** Every stored appointment is listed once and passes its schema. */
    ghost predicate Valid()
      reads this
    {
      && Listed(docs, order)
      && (forall k :: k in docs ==> IsCanonicalId(k) && Conforms(docs[k], AppointmentSchema))
    }

    constructor()
      ensures docs == map[] && order == [] && Valid()
    {
      docs := map[];
      order := [];
    }

    /** `createAppointment`; `id` is the fresh ObjectId the driver assigns. */
    method Create(id: string, user: Record, body: Record, parse: string -> Option<int>)
      returns (reply: Reply<Record, Failure>)
      requires Valid()
      requires IsCanonicalId(id) && id !in docs
      modifies this
      ensures Valid()
      ensures reply == CreateCheck(body, user, parse)
      ensures docs == if reply.Ok? then old(docs)[id := reply.value] else old(docs)
      ensures order == if reply.Ok? then old(order) + [id] else old(order)
    {
      reply := CreateCheck(body, user, parse);
      if reply.Ok? {
        docs := docs[id := reply.value];
        order := order + [id];
      }
    }

    /** `getCounselorAppointments` and `getStudentAppointments`. */
    method List(scope: Scope, user: Record, from: Option<string>, to: Option<string>, parse: string -> Option<int>)
      returns (reply: Reply<seq<(string, Record)>, Failure>)
      requires Valid()
      ensures reply == ListCheck(docs, order, scope, user, from, to, parse)
      ensures reply.Ok? ==> forall x :: multiset(reply.value)[x] <= 1
    {
      reply := ListCheck(docs, order, scope, user, from, to, parse);
      if reply.Ok? {
        ListCheckOk(docs, order, scope, user, from, to, parse);
      }
    }

    /** `getAppointment`. */
    method Get(id: string) returns (reply: Reply<Record, Failure>)
      ensures reply == GetCheck(docs, id)
    {
      reply := GetCheck(docs, id);
    }

    /** `updateAppointment`, validated. */
    method Update(user: Record, id: string, body: Record, parse: string -> Option<int>)
      returns (reply: Reply<Record, Failure>)
      requires Valid()
      modifies this
      ensures Valid()
      ensures reply == UpdateCheck(old(docs), user, id, body, parse)
      ensures docs == if reply.Ok? then old(docs)[CanonicalId(id) := reply.value] else old(docs)
      ensures order == old(order)
    {
      reply := UpdateCheck(docs, user, id, body, parse);
      if reply.Ok? {
        docs := docs[CanonicalId(id) := reply.value];
      }
    }

    /** `deleteAppointment`: afterwards the id is gone and nothing else
        changed. */
    method Delete(user: Record, id: string) returns (reply: Reply<string, Failure>)
      requires Valid()
      modifies this
      ensures Valid()
      ensures reply == DeleteCheck(old(docs), user, id)
      ensures docs == if reply.Ok? then old(docs) - {CanonicalId(id)} else old(docs)
      ensures reply.Ok? ==> CanonicalId(id) !in docs && CanonicalId(id) in old(docs)
      ensures order == if reply.Ok? then Remove(old(order), CanonicalId(id)) else old(order)
    {
      reply := DeleteCheck(docs, user, id);
      if reply.Ok? {
        docs := docs - {CanonicalId(id)};
        order := Remove(order, CanonicalId(id));
      }
    }
  }
}
