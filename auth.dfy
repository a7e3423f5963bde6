/**
 * The request gates of middleware/auth.js and middleware/auth.middleware.js:
 * bearer-token authentication, the two role allow-lists, the ownership rules
 * for staff, the guard against modifying a completed assessment, the
 * ObjectId check of several parameters, and the per-client rate limit.
 * Token verification (`jwt.verify`) and the clock (`Date.now`) are
 * parameters.
 */
module Auth {
  import opened Js
  import opened Mongoose
  import opened AssessmentModel
  import AssessmentController

  /** Why a gate stops the request, with its message. */
  datatype AuthFailure =
    | NoToken
    | BadFormat
    | TokenExpired
    | InvalidToken
    | AuthenticationError
    | NotAuthenticated
    | Insufficient
    | NotOwner
    | OwnershipError
    | NotOwnAssessment
    | AssessmentAccessError
    | AssessmentNotFound
    | CompletedAssessment
    | AssessmentCheckError
    | InvalidIds(errors: seq<string>)
    | TooManyRequests(retryAfter: int)
    | NoTokenProvided
    | TokenRejected
    | RoleDenied
    | UserMissing
  {
    function Message(): string {
      match this
      case NoToken => "Access denied. No token provided."
      case BadFormat => "Access denied. Invalid token format."
      case TokenExpired => "Access denied. Token has expired."
      case InvalidToken => "Access denied. Invalid token."
      case AuthenticationError => "Internal server error during authentication."
      case NotAuthenticated => "Access denied. User not authenticated."
      case Insufficient => "Access denied. Insufficient permissions."
      case NotOwner => "Access denied. You can only access your own resources."
      case OwnershipError => "Internal server error during ownership authorization."
      case NotOwnAssessment => "Access denied. Counselors can only access their own assessments."
      case AssessmentAccessError => "Internal server error during assessment authorization."
      case AssessmentNotFound => "Assessment not found."
      case CompletedAssessment => "Cannot modify a completed assessment."
      case AssessmentCheckError => "Internal server error during assessment check."
      case InvalidIds(_) => "Validation errors"
      case TooManyRequests(_) => "Too many requests. Please try again later."
      case NoTokenProvided => "No token provided"
      case TokenRejected => "Invalid token"
      case RoleDenied => "Access denied: insufficient permissions"
      case UserMissing => "Cannot read properties of undefined (reading 'role')"
    }
  }

  /** What a middleware does: call `next()` (with what it adds to the
      request), or answer with a status and a failure. */
  datatype Gate<T> = Next(value: T) | Stop(code: int, failure: AuthFailure)

  /** The outcome of `jwt.verify`: the payload, or the error it throws
      (`TokenExpiredError`, `JsonWebTokenError`, or any other). */
  datatype Verified = Decoded(payload: Record) | Expired | Malformed | Failed

  /** Sets a property only when its value is defined. */
  function Put(r: Record, k: string, v: Option<Value>): (p: Record)
    ensures Lookup(p, k) == v || (v.None? && Lookup(p, k) == Lookup(r, k))
    ensures forall j :: j != k ==> Lookup(p, j) == Lookup(r, j)
  {
    if v.Some? then r[k := v.value] else r
  }

  /** `req.user` as `authenticate` builds it from the payload. */
  function UserOf(payload: Record): (u: Record)
    ensures Lookup(u, "id") == Or(Lookup(payload, "id"), Lookup(payload, "userId"))
    ensures Lookup(u, "role") == Lookup(payload, "role")
    ensures Lookup(u, "schoolId") == Lookup(payload, "schoolId")
    ensures Lookup(u, "email") == Lookup(payload, "email")
    ensures u.Keys <= {"id", "role", "schoolId", "email"}
  {
    var u := Put(map[], "id", Or(Lookup(payload, "id"), Lookup(payload, "userId")));
    var u := Put(u, "role", Lookup(payload, "role"));
    var u := Put(u, "schoolId", Lookup(payload, "schoolId"));
    Put(u, "email", Lookup(payload, "email"))
  }

  const BearerPrefix := "Bearer "

  /** `authenticate`: the header must start with "Bearer " and carry a
      non-empty token after those seven characters. */
  function Authenticate(header: Option<string>, verify: string -> Verified): (g: Gate<Record>)
    ensures header.None? || header.value == "" ==> g == Stop(401, NoToken)
    ensures header.Some? && header.value != "" && !StartsWith(header.value, BearerPrefix) ==> g == Stop(401, BadFormat)
    ensures header == Some(BearerPrefix) ==> g == Stop(401, NoToken)
    ensures g.Next? <==>
      && header.Some? && StartsWith(header.value, BearerPrefix) && |header.value| > 7
      && verify(header.value[7..]).Decoded?
    ensures g.Next? ==>
      && header.value == BearerPrefix + header.value[7..]
      && g.value == UserOf(verify(header.value[7..]).payload)
    ensures g.Stop? && g.code == 500 ==> g.failure == AuthenticationError
  {
    if header.None? || header.value == "" then Stop(401, NoToken)
    else if !StartsWith(header.value, BearerPrefix) then Stop(401, BadFormat)
    else
      var token := header.value[7..];
      if token == "" then Stop(401, NoToken)
      else
        match verify(token)
        case Decoded(payload) => Next(UserOf(payload))
        case Expired => Stop(401, TokenExpired)
        case Malformed => Stop(401, InvalidToken)
        case Failed => Stop(500, AuthenticationError)
  }

  /** `roles.includes(req.user.role)`. */
  predicate RoleIn(user: Record, roles: seq<string>) {
    "role" in user && user["role"].Str? && user["role"].s in roles
  }

  /** `authorize(allowedRoles)`: an empty list admits every role. */
  function Authorize(user: Option<Record>, allowed: seq<string>): (g: Gate<()>)
    ensures user.None? ==> g == Stop(401, NotAuthenticated)
    ensures g.Next? <==> user.Some? && (allowed == [] || RoleIn(user.value, allowed))
    ensures user.Some? && allowed != [] && !RoleIn(user.value, allowed) ==> g == Stop(403, Insufficient)
  {
    if user.None? then Stop(401, NotAuthenticated)
    else if |allowed| > 0 && !RoleIn(user.value, allowed) then Stop(403, Insufficient)
    else Next(())
  }

  /** `checkRole(roles)`: no user is a TypeError, which Express answers with
      a 500; an empty list admits no one. */
  function CheckRole(user: Option<Record>, roles: seq<string>): (g: Gate<()>)
    ensures user.None? ==> g == Stop(500, UserMissing)
    ensures g.Next? <==> user.Some? && RoleIn(user.value, roles)
    ensures user.Some? && !RoleIn(user.value, roles) ==> g == Stop(403, RoleDenied)
  {
    if user.None? then Stop(500, UserMissing)
    else if !RoleIn(user.value, roles) then Stop(403, RoleDenied)
    else Next(())
  }

  /** The two allow-lists read an empty list in opposite ways, and agree on
      every other list. */
  lemma AllowListsDiffer(user: Record, roles: seq<string>)
    ensures Authorize(Some(user), []).Next? && CheckRole(Some(user), []).Stop?
    ensures roles != [] ==> (Authorize(Some(user), roles).Next? <==> CheckRole(Some(user), roles).Next?)
  {
  }

  /** `req.params.counselorId || req.body.counselorId`. */
  function TargetCounselor(params: Record, body: Record): Option<Value> {
    Or(Lookup(params, "counselorId"), Lookup(body, "counselorId"))
  }

  /** The staff rule: a target counselor, when one is named, must be the
      caller. `None` when the caller's id cannot be turned into a string. */
  function StaffOwns(user: Record, params: Record, body: Record): (owns: Option<bool>)
    ensures !TruthyOpt(TargetCounselor(params, body)) ==> owns == Some(true)
    ensures TruthyOpt(TargetCounselor(params, body)) && Present(Lookup(user, "id")) ==>
      owns == Some(ToString(user["id"]) == ToString(TargetCounselor(params, body).value))
    ensures owns.None? <==> TruthyOpt(TargetCounselor(params, body)) && !Present(Lookup(user, "id"))
  {
    var target := TargetCounselor(params, body);
    if !TruthyOpt(target) then Some(true)
    else if !Present(Lookup(user, "id")) then None
    else Some(ToString(user["id"]) == ToString(target.value))
  }

  /** `authorizeOwnership`: admins always pass, staff only for their own
      resources, every other role passes. */
  function AuthorizeOwnership(user: Option<Record>, params: Record, body: Record): (g: Gate<()>)
    ensures user.None? ==> g == Stop(401, NotAuthenticated)
    ensures user.Some? && RoleIs(user.value, "admin") ==> g == Next(())
    ensures user.Some? && !RoleIs(user.value, "admin") && !RoleIs(user.value, "staff") ==> g == Next(())
    ensures user.Some? && RoleIs(user.value, "staff") ==>
      (g.Next? <==> StaffOwns(user.value, params, body) == Some(true))
    ensures g.Stop? && g.code == 403 ==>
      user.Some? && RoleIs(user.value, "staff") && StaffOwns(user.value, params, body) == Some(false)
      && g.failure == NotOwner
  {
    if user.None? then Stop(401, NotAuthenticated)
    else if RoleIs(user.value, "admin") then Next(())
    else if RoleIs(user.value, "staff") then
      match StaffOwns(user.value, params, body)
      case None => Stop(500, OwnershipError)
      case Some(owns) => if owns then Next(()) else Stop(403, NotOwner)
    else Next(())
  }

  /** `authorizeAssessmentAccess`: superadmins and admins pass, staff only
      for their own assessments, every other role passes. */
  function AuthorizeAssessmentAccess(user: Option<Record>, params: Record, body: Record): (g: Gate<()>)
    ensures user.None? ==> g == Stop(401, NotAuthenticated)
    ensures user.Some? && (RoleIs(user.value, "superadmin") || RoleIs(user.value, "admin")) ==> g == Next(())
    ensures user.Some? && RoleIs(user.value, "staff") ==>
      (g.Next? <==> StaffOwns(user.value, params, body) == Some(true))
    ensures g.Stop? && g.code == 403 ==> g.failure == NotOwnAssessment
  {
    if user.None? then Stop(401, NotAuthenticated)
    else if RoleIs(user.value, "superadmin") then Next(())
    else if RoleIs(user.value, "admin") then Next(())
    else if RoleIs(user.value, "staff") then
      match StaffOwns(user.value, params, body)
      case None => Stop(500, AssessmentAccessError)
      case Some(owns) => if owns then Next(()) else Stop(403, NotOwnAssessment)
    else Next(())
  }

  /** The two ownership gates let the same requests through and stop the
      others with the same status; only their messages differ. */
  lemma OwnershipGatesAgree(user: Option<Record>, params: Record, body: Record)
    ensures AuthorizeOwnership(user, params, body).Next? <==> AuthorizeAssessmentAccess(user, params, body).Next?
    ensures AuthorizeOwnership(user, params, body).Stop? ==>
      AuthorizeOwnership(user, params, body).code == AuthorizeAssessmentAccess(user, params, body).code
  {
  }

  /** `checkAssessmentModifiable`: no id passes on; otherwise the assessment
      must exist and not be completed, and it is handed to the handler. */
  function CheckAssessmentModifiable(assessmentId: Option<string>, records: map<Id, Assessment>)
    : (g: Gate<Option<Assessment>>)
    ensures assessmentId.None? || assessmentId.value == "" ==> g == Next(None)
    ensures g == Stop(404, AssessmentNotFound) <==>
      assessmentId.Some? && IsObjectIdString(assessmentId.value) && CanonicalId(assessmentId.value) !in records
    ensures g == Stop(400, CompletedAssessment) <==>
      assessmentId.Some? && IsObjectIdString(assessmentId.value) && CanonicalId(assessmentId.value) in records
      && records[CanonicalId(assessmentId.value)].status == Completed
    ensures g.Next? && g.value.Some? ==>
      && assessmentId.Some? && IsObjectIdString(assessmentId.value) && CanonicalId(assessmentId.value) in records
      && g.value.value == records[CanonicalId(assessmentId.value)]
      && g.value.value.status != Completed
    ensures g.Stop? && g.code == 500 <==>
      assessmentId.Some? && assessmentId.value != "" && !IsObjectIdString(assessmentId.value)
  {
    if assessmentId.None? || assessmentId.value == "" then Next(None)
    else
      match FindById(records, Some(Str(assessmentId.value)))
      case CastFails => Stop(500, AssessmentCheckError)
      case Absent => Stop(404, AssessmentNotFound)
      case Found(_, a) => if a.status == Completed then Stop(400, CompletedAssessment) else Next(Some(a))
  }

  /** The guard and the section-update handler refuse a completed
      assessment alike: for a well-formed update request, the guard stops
      with 400 exactly when the handler would. */
  lemma GuardMatchesHandler(records: map<Id, Assessment>, id: string, body: Record, parse: string -> Option<int>)
    requires id != ""
    requires TruthyOpt(Lookup(body, "section")) && TruthyOpt(Lookup(body, "data"))
    requires AssessmentController.ParseSection(body["section"]).Some?
    ensures CheckAssessmentModifiable(Some(id), records) == Stop(400, CompletedAssessment) <==>
      AssessmentController.UpdateCheck(records, id, body, parse) == Err(400, AssessmentController.UpdateCompleted)
  {
  }

  /** `req.params[name] || req.body[name]`. */
  function IdParam(params: Record, body: Record, name: string): Option<Value> {
    Or(Lookup(params, name), Lookup(body, name))
  }

  /** An id that is given but that `ObjectId.isValid` refuses. */
  predicate BadId(params: Record, body: Record, name: string) {
    TruthyOpt(IdParam(params, body, name)) && !IsValidObjectId(IdParam(params, body, name).value)
  }

  function IdError(name: string): string {
    "Invalid " + name + " format."
  }

  /** The errors `validateMultipleObjectIds` collects, in the order of the
      names. */
  function IdErrors(names: seq<string>, params: Record, body: Record): (errors: seq<string>)
    ensures |errors| <= |names|
    decreases |names|
  {
    if names == [] then []
    else
      var last := names[|names| - 1];
      IdErrors(names[..|names| - 1], params, body) + (if BadId(params, body, last) then [IdError(last)] else [])
  }

  /** One error for every given id that is not valid, and no other. */
  lemma {:induction false} IdErrorsExact(names: seq<string>, params: Record, body: Record)
    ensures forall e :: e in IdErrors(names, params, body) <==>
      exists n :: n in names && BadId(params, body, n) && e == IdError(n)
    ensures IdErrors(names, params, body) == [] <==> forall n :: n in names ==> !BadId(params, body, n)
    decreases |names|
  {
    if names != [] {
      var init, last := names[..|names| - 1], names[|names| - 1];
      IdErrorsExact(init, params, body);
      assert names == init + [last];
      forall e | e in IdErrors(names, params, body)
        ensures exists n :: n in names && BadId(params, body, n) && e == IdError(n)
      {
        if e !in IdErrors(init, params, body) {
          assert BadId(params, body, last) && e == IdError(last);
        }
      }
    }
  }

  /** `validateMultipleObjectIds(names)`. */
  method ValidateMultipleObjectIds(names: seq<string>, params: Record, body: Record) returns (g: Gate<()>)
    ensures g.Next? <==> forall n :: n in names ==> !BadId(params, body, n)
    ensures g.Stop? ==> g == Stop(400, InvalidIds(IdErrors(names, params, body)))
  {
    var errors: seq<string> := [];
    for i := 0 to |names|
      invariant errors == IdErrors(names[..i], params, body)
    {
      assert names[..i + 1][..i] == names[..i];
      var id := Or(Lookup(params, names[i]), Lookup(body, names[i]));
      if TruthyOpt(id) && !IsValidObjectId(id.value) {
        errors := errors + [IdError(names[i])];
      }
    }
    assert names[..|names|] == names;
    IdErrorsExact(names, params, body);
    if |errors| > 0 {
      return Stop(400, InvalidIds(errors));
    }
    return Next(());
  }

  /** The defaults of `rateLimit()`: 100 requests per 15 minutes. */
  const DefaultMaxRequests := 100
  const DefaultWindowMs := 15 * 60 * 1000

  /** `requests.filter((timestamp) => timestamp > windowStart)`. */
  function Recent(requests: seq<int>, windowStart: int): (kept: seq<int>)
    ensures |kept| <= |requests|
    ensures forall t :: t in kept <==> t in requests && t > windowStart
  {
    if requests == [] then []
    else (if requests[0] > windowStart then [requests[0]] else []) + Recent(requests[1..], windowStart)
  }

  /** A client's history: the empty list for a client not seen yet. */
  function History(counts: map<string, seq<int>>, client: string): seq<int> {
    if client in counts then counts[client] else []
  }

  /** What one request does to the table: refused, with only an empty entry
      created for a new client, once the recent requests reach the limit;
      otherwise admitted, its history cut to the window and `now` appended. */
  function RateCheck(counts: map<string, seq<int>>, client: string, now: int, maxRequests: int, windowMs: int)
    : (r: (Gate<()>, map<string, seq<int>>))
    ensures var kept := Recent(History(counts, client), now - windowMs);
      && (|kept| >= maxRequests ==>
            r.0 == Stop(429, TooManyRequests(CeilDiv(windowMs, 1000)))
            && r.1 == counts[client := History(counts, client)])
      && (|kept| < maxRequests ==> r.0 == Next(()) && r.1 == counts[client := kept + [now]])
    ensures r.0.Next? ==> |r.1[client]| <= maxRequests
    ensures r.0.Next? ==> forall t :: t in r.1[client] ==> t > now - windowMs || t == now
    ensures forall other :: other != client ==> Entry(r.1, other) == Entry(counts, other)
  {
    var kept := Recent(History(counts, client), now - windowMs);
    if |kept| >= maxRequests then (Stop(429, TooManyRequests(CeilDiv(windowMs, 1000))), counts[client := History(counts, client)])
    else (Next(()), counts[client := kept + [now]])
  }

  /** A client's entry, if it has one. */
  function Entry(counts: map<string, seq<int>>, client: string): Option<seq<int>> {
    if client in counts then Some(counts[client]) else None
  }

  /** The history of each client, shared by every `rateLimit` middleware. */
  class RequestLog {
    var requestCounts: map<string, seq<int>>

    constructor()
      ensures requestCounts == map[]
    {
      requestCounts := map[];
    }

    /** One request from `client` at time `now` through
        `rateLimit(maxRequests, windowMs)`. */
    method Admit(client: string, now: int, maxRequests: int, windowMs: int) returns (g: Gate<()>)
      modifies this
      ensures (g, requestCounts) == RateCheck(old(requestCounts), client, now, maxRequests, windowMs)
    {
      if client !in requestCounts {
        requestCounts := requestCounts[client := []];
      }
      var requests := requestCounts[client];
      assert requests == History(old(requestCounts), client);
      var validRequests := Recent(requests, now - windowMs);
      if |validRequests| >= maxRequests {
        assert requestCounts == old(requestCounts)[client := History(old(requestCounts), client)];
        return Stop(429, TooManyRequests(CeilDiv(windowMs, 1000)));
      }
      requestCounts := requestCounts[client := validRequests + [now]];
      assert requestCounts == old(requestCounts)[client := validRequests + [now]];
      return Next(());
    }
  }

  /** `verifyToken`: the token is whatever follows the first space of the
      header, up to the next one; any verification error is a 401, and the
      payload becomes `req.user` unchanged. */
  function VerifyToken(header: Option<string>, verify: string -> Verified): (g: Gate<Record>)
    ensures header.None? ==> g == Stop(401, NoTokenProvided)
    ensures g.Next? <==>
      && header.Some? && |Split(header.value, ' ')| >= 2 && Split(header.value, ' ')[1] != ""
      && verify(Split(header.value, ' ')[1]).Decoded?
    ensures g.Next? ==> g.value == verify(Split(header.value, ' ')[1]).payload
    ensures g.Stop? ==> g.code == 401
  {
    if header.None? then Stop(401, NoTokenProvided)
    else
      var parts := Split(header.value, ' ');
      if |parts| < 2 || parts[1] == "" then Stop(401, NoTokenProvided)
      else
        match verify(parts[1])
        case Decoded(payload) => Next(payload)
        case _ => Stop(401, TokenRejected)
  }

  /** On a well-formed bearer header both gates hand the same token to
      `jwt.verify`. */
  lemma BearerHeaderAgrees(token: string, verify: string -> Verified)
    requires token != "" && ' ' !in token
    ensures VerifyToken(Some(BearerPrefix + token), verify).Next? <==> verify(token).Decoded?
    ensures Authenticate(Some(BearerPrefix + token), verify).Next? <==> verify(token).Decoded?
  {
    SplitNoSeparator(token, ' ');
    SplitAtFirst("Bearer", token, ' ');
    assert BearerPrefix + token == "Bearer" + [' '] + token;
    assert (BearerPrefix + token)[7..] == token;
  }

  /** `verifyToken` does not look at the scheme: a "Basic" header passes it
      with a valid token, where `authenticate` refuses the format. */
  lemma SchemeIgnored(token: string, verify: string -> Verified)
    requires token != "" && ' ' !in token && verify(token).Decoded?
    ensures VerifyToken(Some("Basic " + token), verify).Next?
    ensures Authenticate(Some("Basic " + token), verify) == Stop(401, BadFormat)
  {
    SplitNoSeparator(token, ' ');
    SplitAtFirst("Basic", token, ' ');
    assert "Basic " + token == "Basic" + [' '] + token;
    assert ("Basic " + token)[..7] != BearerPrefix by {
      assert ("Basic " + token)[1] == 'a';
    }
  }
}
