# ecumrec-backend: a Dafny model of its request handling

ecumrec-backend is an Express and Mongoose service that keeps school counselling
records. This project models its core in Dafny and proves properties of that model:

- **Assessments.** Each assessment is a per-student record with nine sections and the
  status `ongoing`, `"false"` or `completed`. Its handlers create it, update one section,
  complete it, and count assessments by status.
- **Student profiles.** A student's profile has five sections. Each handler validates a
  section, overwrites it with `completed: true`, and passes it through the student schema
  and its pre-save hooks. `profileComplete` is set in `updateNotes` only.
- **Request gates.** These are the bearer-token parsers, the two role allow-lists, the
  staff-ownership rule, the guard against modifying a completed assessment, the check of
  several ObjectIds at once, and the sliding-window rate limiter.
- **Appointments.** The handlers create, list, read, update and delete appointments.
  Update and delete are allowed only to the appointment's counselor or student.

Documents are JSON values (`Js.Value`). A missing property is a key absent from a
`Record`. Numbers are integers, and dates are integers counting milliseconds.

Mongoose is modelled by a small schema interpreter (module `Mongoose`):

- validation of `required`, type, `enum`, `min` and `max`, applied recursively to arrays
  of sub-documents and to nested paths;
- defaults, applied when a document is built;
- strict mode when an object is assigned to a sub-document: undeclared paths are
  dropped; a nested path (an object literal in the schema, such as `schools` or
  `father`) takes only an object, restricted in turn, and silently loses any other
  value; a single sub-document (`type: SchoolSchema`) is built from an object under its
  own schema, and any other value fails validation;
- the implicit `_id` path, an optional ObjectId, that Mongoose adds to every
  sub-document schema not declared with `{ _id: false }` (`Mongoose.ImplicitId`): eight
  assessment sections, their array elements, and the family-structure,
  educational-background and notes sections of a student with their siblings;
- the cast a save applies before validating: a date path takes a valid time, `""`, null,
  or text it reads as a time (a decimal number at or above 275761 or below -271820 as
  milliseconds, any other text through `Date.parse`), and an array or object through its
  string form; an ObjectId path takes 24 hex digits, stored in lower
  case; a value that does not cast is kept and validation refuses it;
- `findById`, including the cast of the id, which fails on a string that is not 24 hex
  digits and ignores the case of the digits.

The document store is a `map` from id to document. Where the source changes the store,
the model is a class over that map: `AssessmentStore`, `StudentStore`,
`AppointmentStore`, and `RequestLog` for the rate limiter's table. Each handler's decision
is a function (`CreateCheck`, `UpdateCheck`, …). Each store method is proved to return
that function's reply, and to save exactly the document it names. The store invariant is
that every stored document passes its schema and hooks, and the methods preserve it. The
stores run the corrected code of the findings below: the student sections are stored
under schemas that declare `completed` (`StudentModel.SchemaOf`), and an appointment
update is validated (`Appointments.UpdateCheck`). As written, `updateAppointment` can
break the invariant (`Appointments.UnvalidatedStatusStored`).

`updateEducationalBackground` demands an array of schools, but `schools` is a nested
path of the schema, so strict mode drops the array. The handler therefore succeeds for
every body it accepts that carries no malformed `_id`, and the stored section is only
`completed: true` and that `_id` (`StudentProfile.EducationUpdateSaves`); no school years
ever reach the hook. Strict
mode likewise drops a `father`, `mother` or `guardian` that is not an object.

Outside inputs are parameters:
- `jwt.verify` is a function from the token to its outcome;
- `Date.now` is the `now` argument;
- `Date.parse` is a function `string -> Option<int>`. `new Date(…)` in the handlers
  reads text through it. Mongoose's date cast on save (`Mongoose.CastDate`) uses it for
  most text and for the string form of an array or object. A decimal number at or above
  275761 or below -271820 is read as milliseconds instead (`Mongoose.TextTime`), so the
  handlers' `new Date(start)` and the cast read such text differently.

Module layout:
- `js.dfy`: JSON values and JavaScript operators;
- `mongoose.dfy`: schemas, validation, defaults, strict mode, `findById`;
- `auth.dfy`: `middleware/auth.js` and `middleware/auth.middleware.js`;
- `assessment_model.dfy`, `assessment_controller.dfy`: the assessment workflow;
- `student_model.dfy`, `student_profile.dfy`: the student profile workflow;
- `appointment.dfy`: the appointment model and controller.

## Model

| member | source | states |
|---|---|---|
| Js.Or | middleware/auth.js:45 | `a || b` is one of its operands; it is truthy iff either operand is, and it is the first one whenever that is truthy |
| Js.Missing | controllers/studentProfile.controller.js:103 | the required fields that are falsy, in declaration order: exactly those, and empty iff all are given |
| Js.Merge | controllers/assessment.controller.js:171 | `{...a, ...b}`: every key of either object; a value from `b` wins, and `a`'s value is kept otherwise |
| Js.Split | middleware/auth.middleware.js:6 | `split(' ')` yields at least one part, and no part contains the separator |
| Js.SplitJoin | middleware/auth.middleware.js:6 | joining the parts of a split with the separator gives the header back |
| Js.SplitAtFirst | middleware/auth.middleware.js:6 | a header `p + " " + rest` (no space in `p`) splits into `p` followed by the parts of `rest` |
| Js.CeilDiv | middleware/auth.js:270 | `Math.ceil(a / b)` is the least `q` with `a <= q * b` |
| Js.CanonicalId | models/appointment.model.js:17-31 | the ObjectId cast of a 24-hex-digit string: same length, lower-case digits, and a string already in that form is unchanged |
| Js.CanonicalIdStable | models/appointment.model.js:17-31 | a cast id is again a valid id, and casting it again changes nothing |
| Mongoose.WithDefaults | models/appointment.model.js:37-52 | building a document keeps every given value and adds exactly the declared defaults of the missing paths |
| Mongoose.DefaultsKeepConformance | models/assessment.model.js:11-21 | filling in `false` flags and empty arrays keeps a valid document valid |
| Mongoose.ConformsAt | models/assessment.model.js:108-122 | a valid document has every required path present, and each present path has its declared type, enum and bounds |
| Mongoose.ConformsOnlyDeclared | models/student.model.js:4-88 | validation looks only at the declared paths |
| Mongoose.Names | models/student.model.js:4-88 | the set of declared path names, exactly |
| Mongoose.Restrict | controllers/assessment.controller.js:170-172 | strict mode on a schema without nested paths keeps exactly the assigned keys that the schema declares, with their values |
| Mongoose.RestrictKeepsVerdict | controllers/assessment.controller.js:170-172 | stripping undeclared keys does not change whether the section validates |
| Mongoose.Assign | controllers/studentProfile.controller.js:350-353 | strict mode keeps a key iff it is declared and is not a non-object on a nested path; an object on a nested path or single sub-document is restricted by its own schema; after it, every nested path holds an object |
| Mongoose.AssignValue | models/student.model.js:271-278 | an object on a nested path or single sub-document keeps only keys of both the object and the inner schema; any other value is unchanged |
| Mongoose.AssignIdempotent | controllers/studentProfile.controller.js:350-353 | assigning an already assigned record changes nothing |
| Mongoose.AssignFlat | controllers/assessment.controller.js:170-172 | without nested paths or single sub-documents, strict mode is exactly `Restrict` |
| Mongoose.FindById | controllers/appointment.controller.js:162-169 | a 24-hex id finds the document stored under its lower-case form, or nothing; another string fails the cast; an absent or null id finds nothing |
| Mongoose.KindOf | models/student.model.js:4-134 | a path has a kind iff it is declared, and that kind is the one of a declaration of the path |
| Mongoose.DefaultsDeclared | models/appointment.model.js:37-52 | filling in defaults adds only declared paths |
| Mongoose.CastDate | models/appointment.model.js:9-16 | a date casts null and `""` to null, a valid time to itself, text to the time `TextTime` reads (the number itself for a decimal number at or above 275761 or below -271820, otherwise `Date.parse`) and an array or object to the time `Date.parse` reads from its string form, each when that time is valid; booleans do not cast; whatever casts is null or a valid time |
| Mongoose.MillisTextCast | models/appointment.model.js:9-16 | a time sent as its decimal text, such as `"1714521600000"`, is stored as that number without `Date.parse` |
| Mongoose.ArrayDateCast | models/appointment.model.js:9-16 | a date wrapped in a one-element array, such as `["2024-05-01"]`, casts as the text itself through `Date.parse` |
| Js.DecimalNumberRoundTrip | models/appointment.model.js:9-16 | the decimal text of every integer reads back as that integer, so the millisecond reading of a date text inverts `String(n)` |
| Mongoose.CastValue | models/assessment.model.js:32-52 | null, booleans and numbers are kept; dates cast as `CastDate` says; a 24-hex string on an ObjectId path becomes lower case; array elements, nested objects and single sub-documents are cast by their own schema, keeping the array length; a non-object on a single sub-document is kept for validation to refuse |
| Mongoose.IdCastValidates | models/appointment.model.js:18-32 | a value on an ObjectId path passes validation after the cast iff it is null or 24 hex digits in either case |
| Mongoose.CastRecord | models/student.model.js:4-134 | casting keeps the keys and every undeclared value, and casts each declared value to its kind; it runs after strict mode (`Mongoose.Assign`), so it never sees a non-object on a nested path |
| Mongoose.CastConforming | models/assessment.model.js:106-141 | casting a document that already validates changes nothing, so saving a stored document again keeps its values |
| Mongoose.DateCast | models/student.model.js:34-37 | a date given as text is saved only when `TextTime` reads a valid time from it, and that time is what is stored |
| Mongoose.ListDateCast | models/assessment.model.js:42-52 | the same for a date inside an element of an array of sub-documents |
| Auth.UserOf | middleware/auth.js:44-49 | `req.user` holds `id` (`decoded.id`, or `decoded.userId` when that is falsy), `role`, `schoolId` and `email` of the payload and nothing else |
| Auth.Authenticate | middleware/auth.js:10-73 | 401 without a header or when it does not start with "Bearer " or leaves no token; passes iff the token after the 7-character prefix verifies, with the user built from its payload; a 500 only for an unexpected verification error |
| Auth.Authorize | middleware/auth.js:76-104 | 401 without a user; passes iff there is a user and the list is empty or holds its role; otherwise 403 |
| Auth.CheckRole | middleware/auth.middleware.js:30-37 | passes iff the user's role is in the list, otherwise 403; with no user, reading `req.user.role` throws (500) |
| Auth.AllowListsDiffer | middleware/auth.middleware.js:32 | an empty list admits everybody in `authorize` and nobody in `checkRole`; on a non-empty list the two agree |
| Auth.StaffOwns | middleware/auth.js:170-183 | with no target counselor (params before body) the staff caller owns the resource; otherwise it does iff the ids are equal as strings |
| Auth.AuthorizeOwnership | middleware/auth.js:154-194 | 401 without a user; admins and roles other than staff pass; staff pass iff they own the target, and 403 is only the staff refusal |
| Auth.AuthorizeAssessmentAccess | middleware/auth.js:283-327 | 401 without a user; superadmin and admin pass; staff pass iff they own the target |
| Auth.OwnershipGatesAgree | middleware/auth.js:283-327 | the two ownership gates admit the same requests and refuse with the same codes |
| Auth.CheckAssessmentModifiable | middleware/auth.js:330-367 | no id passes; a malformed id fails the cast (500); 404 iff the id is valid and no assessment has its lower-case form; 400 iff that assessment is completed; the assessment it passes on is not completed |
| Auth.GuardMatchesHandler | middleware/auth.js:350-355 | the guard refuses a completed assessment exactly when the section-update handler would |
| Auth.IdErrors | middleware/auth.js:224-230 | the error list is no longer than the list of names; `Auth.IdErrorsExact` states which errors it holds |
| Auth.IdErrorsExact | middleware/auth.js:222-241 | an error "Invalid <name> format." is reported exactly for each given id that is not valid; no error iff every given id is valid |
| Auth.ValidateMultipleObjectIds | middleware/auth.js:220-242 | passes iff every given id is valid; otherwise 400 carrying all the collected errors |
| Auth.Recent | middleware/auth.js:261-263 | keeps exactly the timestamps later than the window start |
| Auth.RateCheck | middleware/auth.js:247-280 | at or over the limit: 429 with `retryAfter` = ceil(windowMs/1000), nothing recorded; otherwise admitted, history cut to the window plus `now`, never longer than the limit; other clients untouched |
| Auth.RequestLog.Admit | middleware/auth.js:245-280 | the shared table moves exactly as `RateCheck` says |
| Auth.VerifyToken | middleware/auth.middleware.js:3-28 | passes iff the second space-separated part is non-empty and verifies; `req.user` is the payload unchanged; every failure is 401 |
| Auth.BearerHeaderAgrees | middleware/auth.middleware.js:6 | on "Bearer <token>" both authentication gates accept iff the token verifies |
| Auth.SchemeIgnored | middleware/auth.middleware.js:6 | `verifyToken` accepts "Basic <token>", which `authenticate` refuses as badly formatted |
| AssessmentModel.ParseStatus | models/assessment.model.js:123-127 | a status is one of exactly "ongoing", "false", "completed" |
| AssessmentModel.CreatedSectionValues | controllers/assessment.controller.js:88-96 | a created section holds the values the handler passes and the schema default of every other path that has one |
| AssessmentModel.CreatedSectionValid | controllers/assessment.controller.js:88-96 | a created section passes its section's validation |
| AssessmentModel.NewAssessment | controllers/assessment.controller.js:83-97 | a new assessment is "ongoing", has all nine sections and the three given references |
| AssessmentModel.NewAssessmentStart | controllers/assessment.controller.js:88-96 | every value the handler passes (the `false` status flags, the empty arrays, the empty remark) is in the new assessment |
| AssessmentModel.NewAssessmentWellFormed | models/assessment.model.js:106-141 | a new assessment with three ObjectId references passes validation |
| AssessmentModel.SectionShape | models/assessment.model.js:4-104 | each section schema has distinct paths and only `false`/`[]` defaults, and its initial value validates |
| AssessmentModel.NewSectionFlagsFalse | models/assessment.model.js:11-21 | every boolean path of a created section is `false` |
| AssessmentModel.BoolPathsAreFlags | models/assessment.model.js:11-33 | every boolean path of every section defaults to `false` |
| AssessmentModel.TestConforms | models/assessment.model.js:42-52 | a valid test has testName, testDescription, score, interpretation and date |
| AssessmentModel.DisciplineRecordConforms | models/assessment.model.js:32-39 | a valid discipline record has date, offence and actionTaken |
| AssessmentModel.InterestConforms | models/assessment.model.js:97-104 | a valid vocational interest has a name and a description |
| AssessmentModel.SubjectConforms | models/assessment.model.js:58-61 | a valid subject has a name and a numeric score |
| AssessmentModel.ClassConforms | models/assessment.model.js:55-63 | a valid class has a name, and its subjects are complete |
| AssessmentModel.StoredRecordsComplete | models/assessment.model.js:32-104 | in a stored assessment every test, discipline record, interest and class is complete |
| AssessmentModel.ObservationKinds | models/assessment.model.js:66-94 | observations have the status flag, 26 rating paths and the implicit `_id` last |
| AssessmentModel.SectionsDeclareId | models/assessment.model.js:4-104 | every section but the nested `overallRemark` declares `_id` as an ObjectId; `overallRemark` does not declare it |
| AssessmentModel.StoredRatingsInRange | models/assessment.model.js:68-93 | every stored observation rating that is present lies in 1..5 |
| AssessmentController.ParseSection | controllers/assessment.controller.js:133-150 | a section name is accepted iff it is one of the nine |
| AssessmentController.ParseSectionName | controllers/assessment.controller.js:133-143 | each of the nine names is accepted as its own section |
| AssessmentController.CreateCheck | controllers/assessment.controller.js:57-115 | 400 when an id is missing; then the `findOne` filter as the query cast reads `studentId`: 500 when the cast fails, otherwise 400 iff an ongoing or completed assessment of a matched student (in either case of digits, or any element of an array) exists; success iff the three ids are ObjectId strings and nothing blocks, with 201 and the three ids in lower case |
| AssessmentController.StudentFilter | controllers/assessment.controller.js:70-73 | the students the filter matches: an ObjectId string matches its lower-case id, an array matches each ObjectId string it holds and casts only when every element is null or an ObjectId string; any other value fails the cast |
| AssessmentController.ArrayStudentBlocked | controllers/assessment.controller.js:69-80 | a castable `studentId` array that lists a student with an ongoing or completed assessment gets 400 "An active assessment already exists" |
| AssessmentController.OnlyStringStudentCreates | controllers/assessment.controller.js:69-88 | a `studentId` that is not a string never creates: the reply is 400 or 500 |
| AssessmentController.InactiveDoesNotBlock | controllers/assessment.controller.js:70-73 | an assessment with status "false" does not block a new one |
| AssessmentController.UpdateCheck | controllers/assessment.controller.js:119-188 | 400 without section or data; 400 for an unknown section; 500 for a malformed id; 404 for an unknown one; 400 on a completed assessment; otherwise success iff the merged section validates |
| AssessmentController.UpdateCheckOk | controllers/assessment.controller.js:153-179 | a successful update changes only the named section, to the merge of the old fields and the payload; status, references and the other sections are unchanged |
| AssessmentController.MergeSection | controllers/assessment.controller.js:171-173 | the saved section exists exactly when the old fields overridden by the payload, cut to the declared paths (the implicit `_id` among them) and cast to their kinds, validate; it then has exactly the declared keys of either, the payload's cast values over the old ones |
| AssessmentController.MergeRefusesBadId | controllers/assessment.controller.js:171-173 | a payload `_id` that is neither null nor 24 hex digits makes the save fail |
| AssessmentController.UpdateRefusesBadId | controllers/assessment.controller.js:163-186 | updating a sub-document section with such an `_id` answers 400 on a completed assessment and 500 otherwise |
| AssessmentController.MergeKeepsPrior | controllers/assessment.controller.js:171-173 | on a valid section, every path the payload does not name keeps its old value |
| AssessmentController.StoredTestDate | controllers/assessment.controller.js:171-173 | a test date sent as text is saved only when `TextTime` reads a valid time from it, and that time is stored |
| AssessmentController.UpdateFound | controllers/assessment.controller.js:153-179 | on a found assessment: 400 when completed; otherwise success iff the merged section validates, replacing only that section |
| AssessmentController.TestsGate | controllers/assessment.controller.js:375-378 | the gate passes iff the status is truthy and `tests` is a non-empty array |
| AssessmentController.WithRemark | controllers/assessment.controller.js:388-390 | after completion the remark is the given one when that is truthy, and the old one otherwise; no other path changes, and a key is added only for a truthy remark |
| AssessmentController.CompleteCheck | controllers/assessment.controller.js:352-407 | 404 for an unknown id; 400 when already completed; 400 when the tests gate fails; on success the status becomes completed and the remark is set only when one is given |
| AssessmentController.CompletionKeepsWellFormed | controllers/assessment.controller.js:387-392 | completing a valid assessment with a string remark keeps it valid |
| AssessmentController.UpdateKeepsWellFormed | controllers/assessment.controller.js:171-173 | a successful section update yields a valid assessment |
| AssessmentController.CompleteKeepsWellFormed | controllers/assessment.controller.js:386-392 | a successful completion yields a valid assessment |
| AssessmentController.SaveKeepsValid | controllers/assessment.controller.js:173 | saving a valid assessment keeps every stored assessment valid |
| AssessmentController.MatchingWith | controllers/assessment.controller.js:17-25 | the matching assessments of one status are among those the query matches |
| AssessmentController.GroupStatuses | controllers/assessment.controller.js:20-23 | the statuses of the groups are exactly those of some group |
| AssessmentController.Groups | controllers/assessment.controller.js:17-25 | `$group` by status: one group for each status with a positive count, carrying that count |
| AssessmentController.GroupCountIs | controllers/assessment.controller.js:36-38 | after the `forEach`, a status's entry is its group's count, or 0 when it has no group |
| AssessmentController.GroupsCount | controllers/assessment.controller.js:29-38 | each tallied status count equals the number of matching assessments with that status |
| AssessmentController.TallyAddsUp | controllers/assessment.controller.js:27-34 | `total` is the sum of the ongoing, completed and "false" counts |
| AssessmentController.TallyGroups | controllers/assessment.controller.js:29-38 | the loop starts from total and three zeros and writes each group's count over its key |
| AssessmentController.Pagination | controllers/assessment.controller.js:203-226 | for the numbers `parseInt` reads: no page count iff the limit is 0; otherwise totalPages = ceil(total/limit), for either sign of limit; hasNextPage iff skip + returned < total; hasPrevPage iff page > 1 |
| AssessmentController.PageSize | controllers/assessment.controller.js:203-211 | MongoDB refuses the query iff the skip is negative; a limit of 0 returns every match after the skip; any other limit returns at most its absolute value, and exactly that many when enough remain |
| AssessmentController.ListPage | controllers/assessment.controller.js:191-238 | 500 iff the query is refused, otherwise 200 with the pagination of the returned page |
| AssessmentController.ListPageFails | controllers/assessment.controller.js:203-211 | the query is refused exactly for a page before the first with a positive limit, or a page after the first with a negative limit |
| AssessmentController.NoLimitOnePage | controllers/assessment.controller.js:203-226 | with limit 0 every match is on one page, there is no next page, and there is no page count |
| AssessmentController.NextPageBeforeLast | controllers/assessment.controller.js:220-225 | with a full page, there is a next page iff the page is before the last |
| AssessmentController.AssessmentStore.Create | controllers/assessment.controller.js:57-115 | replies as `CreateCheck`, and on success stores exactly the new assessment; validity kept |
| AssessmentController.AssessmentStore.UpdateSection | controllers/assessment.controller.js:119-188 | replies as `UpdateCheck` and saves only its result; validity kept |
| AssessmentController.AssessmentStore.Complete | controllers/assessment.controller.js:352-407 | replies as `CompleteCheck` and saves only its result; validity kept |
| AssessmentController.AssessmentStore.Stats | controllers/assessment.controller.js:8-53 | 500 iff a filter is not an ObjectId; otherwise total and the three per-status counts of the matching assessments |
| StudentModel.SchemaOf | models/student.model.js:351-355 | the corrected section schemas: every one declares `completed` (the declared personalData and familyBackground schemas do not) |
| StudentModel.ParentCheck | models/student.model.js:138-162 | a named parent passes iff all ten fields are given; the error names the parent and lists the missing fields |
| StudentModel.FamilyBackgroundHook | models/student.model.js:137-172 | passes iff father, mother and guardian are each complete; the first failure in that order is reported |
| StudentModel.FamilyStructureHook | models/student.model.js:242-258 | passes iff total = male + female and position <= total; the sum check comes first |
| StudentModel.StoredFamilyStructure | models/student.model.js:175-258 | a saved family structure has fatherWives >= 1, non-negative counts that add up, 1 <= position <= total, and enum values for motherPosition and parentsStatus |
| StudentModel.YearsCheck | models/student.model.js:283-291 | fails iff both years are given and admission > graduation |
| StudentModel.View | models/student.model.js:272-276 | reading a nested path yields only declared sub-paths of the stored object |
| StudentModel.SchoolYearsHookAsWrittenNeverFails | models/student.model.js:293-308 | the hook as written reads paths that do not exist and never refuses |
| StudentModel.SchoolYearsHook | models/student.model.js:282-313 | with the nested paths: passes iff every level is in order; the first failing level is reported |
| StudentModel.SchoolYearsCounterexample | models/student.model.js:282-313 | a primary admission in 2015 with graduation in 2010 validates and passes the hook as written, and is refused by the corrected hook |
| StudentModel.SaveCheck | models/student.model.js:136-313 | a section, as strict mode and the cast leave it, saves iff it validates and its hook passes; validation is reported first. Nested paths reach it as objects (`StudentModel.NestedPathsHoldObjects`); a non-object on a single sub-document is refused |
| StudentModel.NewStudent | models/student.model.js:338-350 | a new student is role "student", active, not profileComplete, with all profile flags false and no sections |
| StudentModel.Assigned | controllers/studentProfile.controller.js:111-114 | the stored section holds `completed: true` and nothing undeclared; a non-object on a nested path (schools, father, mother, guardian) is dropped; every other declared body path, the implicit `_id` of a sub-document section included, is stored restricted and cast to its kind |
| StudentModel.SectionId | models/student.model.js:4-323 | family structure, educational background and notes declare `_id` as an ObjectId; personal data and family background, declared with `_id: false`, do not |
| StudentModel.NestedPathsHoldObjects | models/student.model.js:88-134 | in a stored section, every nested path without a default holds an object |
| StudentModel.EducationSectionAssigned | models/student.model.js:271-278 | a body whose `schools` is not an object is stored as `completed: true` plus the body's `_id`, if any, cast to an ObjectId |
| StudentModel.FlaggedSectionConforms | models/student.model.js:271-313 | such a section validates iff the body gives no `_id`, or one that is null or 24 hex digits |
| StudentModel.AssignedDate | controllers/studentProfile.controller.js:111-114 | a date path sent as text is stored as its time, and the section validates only if `TextTime` reads a valid time from the text |
| StudentModel.AssignedAsWrittenNeverCompleted | models/student.model.js:4-134 | strict mode drops `completed` from personalData and familyBackground as declared |
| StudentModel.AssignedCompleted | controllers/studentProfile.controller.js:381-384 | with the corrected schemas, every stored section has `completed: true` |
| StudentProfile.CompletedSections | controllers/studentProfile.controller.js:57-63 | each section's flag is its `completed` value, false when the section is absent |
| StudentProfile.ProfileCheck | controllers/studentProfile.controller.js:4-78 | 403 to a student asking for another profile; 403 to a counselor of another school; an allowed request gets 404 for an unknown id, 500 for a malformed one, and otherwise 200 with the student found under the parameter or the caller's own id and its completed sections |
| StudentProfile.PersonalDataErrors | controllers/studentProfile.controller.js:92-109 | an error iff a required field is falsy, listing exactly those, in declaration order |
| StudentProfile.FamilyBackgroundErrors | controllers/studentProfile.controller.js:142-190 | missing fields first, then not an array, then empty, then incomplete parents, then relationship outside Father/Mother/Guardian; no error iff all hold |
| StudentProfile.FamilyStructureErrors | controllers/studentProfile.controller.js:223-246 | missing fields, then a sibling without name, age or relationship; no error iff all are given |
| StudentProfile.CurrentCount | controllers/studentProfile.controller.js:324 | the number of schools marked current; zero iff none is |
| StudentProfile.TwoCurrent | controllers/studentProfile.controller.js:324-330 | two current schools make the count at least two |
| StudentProfile.EducationErrors | controllers/studentProfile.controller.js:279-348 | no error iff a non-empty schools array, every school complete with a known level, at most one current, and no start after its end |
| StudentProfile.AcceptedSchoolsOneCurrent | controllers/studentProfile.controller.js:323-330 | accepted schools never hold two current ones |
| StudentProfile.Updated | controllers/studentProfile.controller.js:381-396 | only the section changes; profileComplete changes only for notes, becoming true iff all five sections are completed, and is never reset |
| StudentProfile.UpdateCheck | controllers/studentProfile.controller.js:81-129 | with the corrected schemas: 404 for an unknown caller and 500 for a malformed id; the section's validation error; success iff the assigned section saves, with the section overwritten; otherwise 500 for a section that fails validation and 500 naming the hook's error |
| StudentProfile.AcceptedSchoolsArray | controllers/studentProfile.controller.js:280-300 | an accepted educational background holds a non-empty array of schools |
| StudentProfile.EducationUpdateSaves | controllers/studentProfile.controller.js:269-358 | for a found student, every body the checks accept is saved with 200 unless its `_id` does not cast, which answers 500; the stored section is `completed: true` and the body's `_id` in lower case |
| StudentProfile.CompletedEducationSaves | models/student.model.js:271-313 | an educational background of `completed: true` and the body's `_id` validates and passes the hook iff that `_id` casts; otherwise validation refuses it |
| StudentProfile.BirthDateStored | controllers/studentProfile.controller.js:111-129 | a `dateOfBirth` sent as text is saved only when `TextTime` reads a valid time from it (an ISO date through `Date.parse`), and the stored date is that time |
| StudentProfile.NewStudentWellFormed | controllers/auth.controller.js:171-181 | a newly registered student is well formed |
| StudentProfile.UpdateKeepsWellFormed | controllers/studentProfile.controller.js:111-116 | a successful update keeps the student well formed and never resets profileComplete |
| StudentProfile.UpdatedWellFormed | controllers/studentProfile.controller.js:381-398 | storing a section that saves keeps the student well formed |
| StudentProfile.NotesCompletesProfile | controllers/studentProfile.controller.js:386-396 | with the other four sections completed, saving notes sets profileComplete |
| StudentProfile.ProfileNeverCompleteAsWritten | models/student.model.js:4-51 | with the declared personalData schema, a notes update never sets profileComplete |
| StudentProfile.CompletedNotes | controllers/studentProfile.controller.js:387-396 | completed notes on top of four completed sections make the profile complete |
| StudentProfile.AfterUpdate | controllers/studentProfile.controller.js:111-116 | an update keeps the set of stored ids, and the caller is found under the same key afterwards |
| StudentProfile.AcceptedStep | controllers/studentProfile.controller.js:111-116 | an accepted update stores, under the caller's key, the student with that section replaced by a completed one |
| StudentProfile.AcceptedUpdatesComplete | controllers/studentProfile.controller.js:81-412 | after a run of accepted updates, every section the run updated and every section completed before is completed |
| StudentProfile.UpdatesCompleteProfile | controllers/studentProfile.controller.js:381-396 | accepted updates of the four other sections followed by an accepted notes update set profileComplete |
| StudentProfile.StoreWith | controllers/studentProfile.controller.js:116 | saving a well-formed student keeps all students well formed and resets no profileComplete |
| StudentProfile.StudentStore.Register | controllers/auth.controller.js:171-181 | stores exactly the new student under a fresh id |
| StudentProfile.StudentStore.UpdateSection | controllers/studentProfile.controller.js:81-412 | with the corrected schemas: replies as `UpdateCheck`, saves only its result (the section as strict mode leaves it), and never resets profileComplete |
| Appointments.AppointmentSchemaShape | models/appointment.model.js:3-57 | the schema declares exactly the eleven paths, each once |
| Appointments.AppointmentDefaults | models/appointment.model.js:37-52 | only status and the two colours have defaults |
| Appointments.CastDates | models/appointment.model.js:9-16 | the update's dates cast iff every date path casts; the keys and the other paths are kept |
| Appointments.CreateInput | controllers/appointment.controller.js:26-35 | the new document takes counselorId and schoolId from the caller and the other paths from the body |
| Appointments.CreateCheck | controllers/appointment.controller.js:13-50 | 400 iff title, start, end, studentId or type is missing; otherwise 201 iff the cast document with defaults validates, and a 500 iff it does not |
| Appointments.NewDocumentByCaller | controllers/appointment.controller.js:31-32 | counselorId and schoolId are present iff the caller has an id and a school, and hold them cast to ObjectIds |
| Appointments.NewDocumentPending | models/appointment.model.js:37-52 | status starts "pending" and both colours "#184C85" |
| Appointments.NewDocumentKeys | models/appointment.model.js:3-57 | the document holds declared paths only |
| Appointments.NewDocumentFromBody | controllers/appointment.controller.js:27-34 | title, type and notes are the body's; studentId is the body's cast to an ObjectId; start and end are the body's cast to dates |
| Appointments.CreatedByCaller | controllers/appointment.controller.js:26-35 | a created appointment holds the caller's id and school, which were 24-hex strings, in lower case; status pending and the default colours |
| Appointments.StoredRef | models/appointment.model.js:17-31 | a reference present in a valid document was given as a 24-hex string and is stored in lower case |
| Appointments.RequiredPresent | models/appointment.model.js:17-31 | a valid appointment has counselorId, studentId and schoolId |
| Appointments.CreateIgnoresOtherPaths | controllers/appointment.controller.js:15-35 | a body path outside the six read ones does not change the outcome |
| Appointments.QueryFilter | controllers/appointment.controller.js:55-62 | the owner path holds the caller's id in lower case when there is one; the range applies iff both bounds are given; the query is built iff the caller's id casts and, with both bounds, both parse |
| Appointments.Select | controllers/appointment.controller.js:64 | the result is exactly the matching stored appointments, each once |
| Appointments.InsertByStart | controllers/appointment.controller.js:66 | inserting one document keeps every element and adds exactly that one |
| Appointments.InsertKeepsSorted | controllers/appointment.controller.js:66 | inserting into a list in ascending order by start keeps it in that order |
| Appointments.SortByStart | controllers/appointment.controller.js:66 | the result is a permutation sorted by start ascending |
| Appointments.ListCheck | controllers/appointment.controller.js:53-110 | 500 iff the query does not cast, otherwise 200 with matching stored appointments sorted by start |
| Appointments.ListCheckOk | controllers/appointment.controller.js:53-110 | a listing misses no matching appointment, repeats none, and shows only the caller's own; without a range, every appointment holding the caller's id is shown |
| Appointments.GetCheck | controllers/appointment.controller.js:113-147 | 400 for a malformed id, 404 for an unknown one, otherwise the appointment stored under its lower-case form; the caller is not consulted |
| Appointments.OwnerCheck | controllers/appointment.controller.js:172-180 | on a valid appointment, passes iff the caller is its counselor or student, else 403 |
| Appointments.Changes | controllers/appointment.controller.js:153 | the update carries exactly the six paths that the body has |
| Appointments.Access | controllers/appointment.controller.js:155-180 | 400 before lookup, 404 before ownership, then the ownership check |
| Appointments.UpdateCheckAsWritten | controllers/appointment.controller.js:150-211 | success iff the caller may update and the dates cast; the stored document is the old one merged with the changes, not validated |
| Appointments.UpdateCheck | controllers/appointment.controller.js:150-211 | the corrected, validated update: 400, 404, 403 in that order; success iff the caller is a party, the dates cast and the merged document validates |
| Appointments.UpdateCheckOk | controllers/appointment.controller.js:183-194 | a successful update keeps every path outside the six, sets the six the body has, with the dates cast, and adds nothing else |
| Appointments.DeleteCheck | controllers/appointment.controller.js:214-257 | 400, 404, then success iff the caller is a party, naming the stored id |
| Appointments.Remove | controllers/appointment.controller.js:245 | the id is gone and every other id remains |
| Appointments.UnvalidatedStatusStored | controllers/appointment.controller.js:183-194 | the counselor of a valid appointment can store status "done" as written; the validated update refuses it |
| Appointments.AppointmentStore.Create | controllers/appointment.controller.js:26-35 | replies as `CreateCheck` and stores the document under the fresh id |
| Appointments.AppointmentStore.List | controllers/appointment.controller.js:64-66 | replies as `ListCheck`, with no appointment twice |
| Appointments.AppointmentStore.Get | controllers/appointment.controller.js:124-133 | replies as `GetCheck` |
| Appointments.AppointmentStore.Update | controllers/appointment.controller.js:183-194 | the corrected update: replies as `UpdateCheck`, stores only its result and keeps every stored appointment valid |
| Appointments.AppointmentStore.Delete | controllers/appointment.controller.js:245 | replies as `DeleteCheck`; on success the id is absent from the store and its order |

## Left out

- Casting on save is modelled for dates and ObjectIds, at every depth (`Mongoose.CastValue`).
  The casts of other kinds are not modelled: a number or boolean given for a string path,
  a numeric string given for a number path, a string given for a boolean path, and `trim`.
  Such values fail validation in the model, where Mongoose would cast them.
- `Appointments.UpdateCheck`: of the six paths an update writes, only `start` and `end` are
  cast (`Appointments.CastDates`); none of the six is an ObjectId, and the casts of the
  other kinds are left out as above.
- `Appointments.UpdateCheckAsWritten`: `findByIdAndUpdate` casts every path it sets, so an
  array or plain object given for `title`, `type`, `status` or `notes` is a CastError (500)
  in the source. The model stores it; it casts only `start` and `end`.
- `Appointments.QueryFilter`: `from` and `to` are taken as strings. A query parser that
  delivers an array or an object for them, which `new Date(...)` first turns into a string,
  is not modelled.
- Strict mode (`Mongoose.Assign`) is applied through nested paths and single
  sub-documents, but not to the elements of arrays of sub-documents, whose undeclared keys
  are kept. Defaults below the top level of a section are not filled in: where Mongoose
  stores `schools: {primary: {}, juniorSecondary: {}, seniorSecondary: {}}` after dropping
  a `schools` array, the model stores no `schools`.
- The text of Mongoose `CastError` and `ValidationError` messages is not modelled. The
  model keeps only the failure kind and the 500 status.
- `Date.parse` is a parameter. The range of valid dates (±8.64e15 ms) is modelled;
  time zones and formats are not.
- `Mongoose.CastDate`: Mongoose reads text as milliseconds when `Number(text)` is at least
  275761 or below -271820. The model reads only a decimal integer with an optional sign
  that way (`Js.DecimalNumber`). Other text that `Number` reads (surrounding blanks,
  exponents, fractions, hexadecimal, `Infinity`) goes through `Date.parse` in the model.
  An object whose own `toString` or `valueOf` key shadows the method is read as
  `"[object Object]"`, where JavaScript may throw.
- The model follows Mongoose 8 with bson 6. In particular, `findByIdAndUpdate` drops the
  update keys whose value is `undefined` (`Appointments.Pick`), as Mongoose 6 and later do;
  under Mongoose 5 they would be written as null.
- Mongoose gives a new sub-document a fresh random `_id` when none is supplied. Randomness
  is not modelled: a section or array element stored without an `_id` in its input is
  stored without one (`StudentModel.Assigned`, `AssessmentController.MergeSection`,
  `AssessmentModel.InitialSection`). Only an `_id` the request supplies is stored; it is
  cast and validated like any ObjectId path.
- `AssessmentController.AssessmentStore.Stats`: `schoolId` and `counselorId` are taken
  as optional strings. A query parser that delivers an array (which the ObjectId
  constructor refuses, a 500) or an object such as `schoolId[id]=<24 hex digits>` (which
  bson accepts) is not modelled.
- `formatAppointmentDates` and ISO formatting of dates in responses are not modelled. A
  reply carries the stored document.
- `populate`, `select("-password")`, timestamps (`createdAt`, `updatedAt`), and the `sort`
  of assessment listings by `createdAt` are not modelled.
- The assessment listings (`getSchoolAssessments`, `getCounselorAssessments`,
  `getStudentAssessments`, `getSingleAssessment`) are store queries. Only their pagination
  arithmetic is modelled (`AssessmentController.Pagination`).
- `controllers/auth.controller.js` is not modelled, apart from the student document it
  creates (`StudentStore.Register`). Password hashing and token signing are not modelled.
- The routes, `index.js`, the users and student controllers, `populateProfile.js`, the
  counselor and school models, and the database connection are not modelled.
- utils/validators.js is not part of this model. Its `validateObjectId` is modelled as the
  24-hex-digit ObjectId check.
- Concurrency is not modelled. Each handler is atomic, so the check-then-insert race in
  `createAssessment` and the gap between `findById` and `findByIdAndUpdate` do not arise.
- `{...v}` of a value that is not an object is taken to copy no property (`Js.Spread`).
  Strings spread into indexed characters in JavaScript.
- `Mongoose.FindById`: an object passed as the id fails the cast; unwrapping an object's
  `_id` is not modelled. The 12-character-string form of an ObjectId is not modelled either.
- `Appointments.ListCheck`: a caller without an id is taken to match the appointments
  whose owner path is empty. Mongo leaves the order of equal start dates unspecified; the
  model fixes one order by its insertion sort.
- `Appointments.ListCheckOk`: completeness is stated for a caller whose id is a string. The
  store lists appointments in insertion order.
- `StudentProfile.ProfileCheck`: tokens issued by the auth controller carry the roles
  admin, staff and student, so the "counselor" branch never fires for them. It is modelled
  as written.
- Comparisons in the pre-save hooks are modelled for numbers. JavaScript's comparison of
  strings or mixed values there is not modelled; such values fail the number type of the
  schema first.
- `AssessmentController.CompletionKeepsWellFormed` requires a string remark. Mongoose casts
  a number or boolean remark to a string and saves it; only an array or object fails the
  save. The model does not cast those (see the casting line above), so `CompleteCheck`
  refuses every remark that is not a string.
- `AssessmentController.CreateCheck`: a numeric `schoolId` or `counselorId` is a 500 in the
  model. `new mongoose.Types.ObjectId(n)` builds an id from the number and random bytes, and
  the source answers 201; randomness is not modelled. A `studentId` object holding query
  operators (such as `{"$ne": null}`) is a 500 in the model: query operators are not
  modelled, and the source's `findOne` applies them, so it can answer 400 when they match an
  active assessment. Numbers inside a `studentId` array are refused by the model for the
  same reason as numeric ids.
- `AssessmentController.IdIn`, `Js.IsObjectIdString`, `Mongoose.FindById`: an object with an
  `id` or `toHexString` property, which bson's `ObjectId` constructor also accepts, is
  refused by the model (for example `schoolId: {"id": "<24 hex digits>"}`, a 201 in the
  source, is a 500 in the model).
- `AssessmentController.Pagination`: `page` and `limit` are the integers `parseInt` reads.
  A value that does not parse gives NaN: the page count and `skip` become NaN, and what
  MongoDB does with a NaN skip or limit is not modelled. With limit 0, `totalPages` is
  `Infinity` (or NaN with no matches); the model gives no page count.
- `StudentModel.SchemaOf`: returns the corrected schemas, in which personalData and
  familyBackground declare `completed`. The declared schemas are
  `StudentModel.PersonalDataSchemaAsWritten` and `FamilyBackgroundSchemaAsWritten`; with
  them `profileComplete` never becomes true (`StudentProfile.ProfileNeverCompleteAsWritten`).

## Findings

| source | as written | input that shows it | evidently intended | confidence | as-written member | corrected member |
|---|---|---|---|---|---|---|
| models/student.model.js:293-308 | the educational-background hook reads `schools.primaryAdmissionYear` and the other flat names, which the nested schema at lines 272-276 does not have, so it never refuses | a direct save of `schools: {primary: {admissionYear: 2015, graduationYear: 2010}}`; through `updateEducationalBackground` no school years reach the hook, because the handler answers 400 for a non-array `schools` and strict mode drops an array | read `schools.<level>.admissionYear` and `.graduationYear` and refuse admission after graduation | not executed | StudentModel.SchoolYearsCounterexample | StudentModel.SchoolYearsHook |
| models/student.model.js:4-134 | personalData and familyBackground declare no `completed` path, so strict mode drops the `completed: true` that the handlers at controllers/studentProfile.controller.js:111-114 and 192-195 store, and `profileComplete` can never become true | any successful `updatePersonalData` followed by the other four updates | every section declares `completed` like the other three, so completing all five sets `profileComplete` | not executed | StudentProfile.ProfileNeverCompleteAsWritten | StudentProfile.UpdatesCompleteProfile |
| controllers/appointment.controller.js:183-194 | `findByIdAndUpdate` runs without `runValidators`, so an update stores values the schema forbids | the appointment's counselor sends `{status: "done"}` | the update is validated against the schema at models/appointment.model.js:32-41, and "done" is refused | not executed | Appointments.UnvalidatedStatusStored | Appointments.UpdateCheck |
