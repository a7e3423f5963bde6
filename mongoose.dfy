/**
 * The subset of Mongoose schema declarations the models use, and what
 * saving a document checks against them: `required`, the JavaScript type of
 * the value, `enum`, `min` and `max`, recursively through arrays of
 * sub-documents and nested paths. Defaults are applied when a document is
 * built, and strict mode keeps only the declared paths of an object assigned
 * to a sub-document. Before validation, values are cast to the declared
 * dates and ObjectIds; other casts between kinds of values are not part of
 * it (see README).
 */
module Mongoose {
  import opened Js

  /** The declared type of a path, with its `enum`, `min` and `max`. */
  datatype Kind =
    | KBool
    | KNum(min: Option<int>, max: Option<int>)
    | KStr(choices: seq<string>)   // an empty list: no `enum`
    | KDate                        // a date, held as a number of milliseconds
    | KId                          // an ObjectId reference
    | KList(item: Schema)          // an array of sub-documents
    | KNested(sub: Schema)         // a nested path: an object literal in the schema
    | KSub(sub: Schema)            // a single sub-document: `type: SubSchema`

  /** One declared path: its name, type, `required` flag and `default`. */
  datatype Field = Field(name: string, kind: Kind, required: bool, default: Option<Value>)

  datatype Schema = Schema(fields: seq<Field>)

  /** Shorthands for the common declarations. */
  function Optional(name: string, kind: Kind): Field { Field(name, kind, false, None) }
  function Required(name: string, kind: Kind): Field { Field(name, kind, true, None) }
  function Flag(name: string): Field { Field(name, KBool, false, Some(Bool(false))) }
  /** The `_id` path Mongoose adds to a sub-document schema that does not
      pass `{ _id: false }`: an optional ObjectId. */
  function ImplicitId(): Field { Optional("_id", KId) }
  const AnyString := KStr([])
  const AnyNumber := KNum(None, None)

  /** Mongoose's `required` check: `null` and a missing value fail it (a
      required string must moreover not be empty, see Conforms). */
  predicate Present(v: Option<Value>) {
    v.Some? && !v.value.Null?
  }

  /** A time a JavaScript `Date` can hold, in milliseconds either side of
      1970: at most 8.64e15. */
  predicate IsTime(n: int) {
    -8640000000000000 <= n <= 8640000000000000
  }

  /** `min` and `max` of a number path. */
  predicate InBounds(n: int, lo: Option<int>, hi: Option<int>) {
    (lo.Some? ==> lo.value <= n) && (hi.Some? ==> n <= hi.value)
  }

  /** Does the record pass validation against the schema? A path that is
      missing or `null` passes unless it is required; a present value must
      have the declared type and meet its `enum`, `min` and `max`. Elements
      of an array of sub-documents are validated as records of their own, and
      so is the object a nested path holds. A date is a valid time; an
      ObjectId is held in its canonical form. */
  predicate Conforms(r: Record, s: Schema)
    decreases s
  {
    forall i | 0 <= i < |s.fields| ::
      var f := s.fields[i];
      assert f in s.fields;
      if f.name !in r || r[f.name].Null? then !f.required
      else
        var v := r[f.name];
        match f.kind
        case KBool => v.Bool?
        case KNum(lo, hi) => v.Num? && InBounds(v.n, lo, hi)
        case KStr(choices) =>
          v.Str? && (f.required ==> v.s != "") && (choices != [] ==> v.s in choices)
        case KDate => v.Num? && IsTime(v.n)
        case KId => v.Str? && IsCanonicalId(v.s)
        case KList(item) =>
          v.Arr? && forall j | 0 <= j < |v.items| :: v.items[j].Obj? && Conforms(v.items[j].fields, item)
        case KNested(sub) => v.Obj? && Conforms(v.fields, sub)
        case KSub(sub) => v.Obj? && Conforms(v.fields, sub)
  }

  /** The record with every declared default filled in where the path is
      missing, as Mongoose does when it builds a document. */
  function WithDefaults(r: Record, s: Schema): (d: Record)
    ensures r.Keys <= d.Keys
    ensures forall k :: k in r ==> d[k] == r[k]
    ensures forall i :: 0 <= i < |s.fields| && s.fields[i].default.Some? ==> s.fields[i].name in d
    ensures forall k :: k in d && k !in r ==> exists i :: 0 <= i < |s.fields| && s.fields[i].name == k && s.fields[i].default.Some?
    ensures DistinctNames(s) ==> forall i :: 0 <= i < |s.fields| && s.fields[i].default.Some? && s.fields[i].name !in r ==>
      d[s.fields[i].name] == s.fields[i].default.value
    decreases |s.fields|
  {
    if s.fields == [] then r
    else
      var rest := WithDefaults(r, Schema(s.fields[1..]));
      var f := s.fields[0];
      if f.default.Some? && f.name !in rest then rest[f.name := f.default.value] else rest
  }

  /** Defaults add declared paths only. */
  lemma DefaultsDeclared(r: Record, s: Schema)
    ensures WithDefaults(r, s).Keys <= r.Keys + Names(s)
  {
    var d := WithDefaults(r, s);
    forall k | k in d && k !in r
      ensures k in Names(s)
    {
      var i :| 0 <= i < |s.fields| && s.fields[i].name == k && s.fields[i].default.Some?;
    }
  }

  /** A record that already holds every path with a default is left as
      it is. */
  lemma {:induction false} DefaultsPresent(r: Record, s: Schema)
    requires forall i :: 0 <= i < |s.fields| && s.fields[i].default.Some? ==> s.fields[i].name in r
    ensures WithDefaults(r, s) == r
    decreases |s.fields|
  {
    if s.fields != [] {
      var rest := Schema(s.fields[1..]);
      assert forall i :: 0 <= i < |rest.fields| ==> rest.fields[i] == s.fields[i + 1];
      DefaultsPresent(r, rest);
    }
  }

  /** No two declared paths share a name. */
  predicate DistinctNames(s: Schema) {
    forall i, j | 0 <= i < j < |s.fields| :: s.fields[i].name != s.fields[j].name
  }

  /** The defaults the models declare: `false` for a boolean flag, the empty
      array for an array path. */
  predicate SimpleDefault(f: Field) {
    f.default.Some? ==>
      (f.kind == KBool && f.default.value.Bool?) || (f.kind.KList? && f.default.value == Arr([]))
  }

  /** Filling in defaults keeps a valid record valid: every default is a
      value of its own path's type. */
  lemma {:induction false} DefaultsKeepConformance(r: Record, s: Schema)
    requires Conforms(r, s)
    requires DistinctNames(s)
    requires forall i :: 0 <= i < |s.fields| ==> SimpleDefault(s.fields[i])
    ensures Conforms(WithDefaults(r, s), s)
  {
    var d := WithDefaults(r, s);
    forall i | 0 <= i < |s.fields|
      ensures var f := s.fields[i];
              f.name in r ==> d[f.name] == r[f.name]
      ensures var f := s.fields[i];
              f.name !in r && f.name in d ==> f.default.Some? && d[f.name] == f.default.value
    {
      var f := s.fields[i];
      if f.name !in r && f.name in d {
        var j :| 0 <= j < |s.fields| && s.fields[j].name == f.name && s.fields[j].default.Some?;
        assert j == i;
      }
    }
  }

  /** What validation promises about one declared path of a conforming
      record: a required path is present; a present value has the declared
      type and meets its bounds and choices. */
  lemma {:induction false} ConformsAt(r: Record, s: Schema, i: nat)
    requires Conforms(r, s)
    requires i < |s.fields|
    ensures s.fields[i].required ==> Present(Lookup(r, s.fields[i].name))
    ensures s.fields[i].name in r && !r[s.fields[i].name].Null? ==>
      var v := r[s.fields[i].name];
      match s.fields[i].kind
      case KBool => v.Bool?
      case KNum(lo, hi) => v.Num? && InBounds(v.n, lo, hi)
      case KStr(choices) => v.Str? && (s.fields[i].required ==> v.s != "") && (choices != [] ==> v.s in choices)
      case KDate => v.Num? && IsTime(v.n)
      case KId => v.Str? && IsCanonicalId(v.s)
      case KList(item) => v.Arr? && forall j | 0 <= j < |v.items| :: v.items[j].Obj? && Conforms(v.items[j].fields, item)
      case KNested(sub) => v.Obj? && Conforms(v.fields, sub)
      case KSub(sub) => v.Obj? && Conforms(v.fields, sub)
  {
  }

  /** Validation looks only at declared paths: two records that agree on
      every declared path both pass or both fail. */
  lemma {:induction false} ConformsOnlyDeclared(a: Record, b: Record, s: Schema)
    requires forall i :: 0 <= i < |s.fields| ==> Lookup(a, s.fields[i].name) == Lookup(b, s.fields[i].name)
    ensures Conforms(a, s) <==> Conforms(b, s)
  {
    forall i | 0 <= i < |s.fields|
      ensures Lookup(a, s.fields[i].name) == Lookup(b, s.fields[i].name)
    {
    }
  }

  /** Validation against a schema is validation against each part of its
      list of paths. */
  lemma ConformsAppend(r: Record, a: seq<Field>, b: seq<Field>)
    requires Conforms(r, Schema(a)) && Conforms(r, Schema(b))
    ensures Conforms(r, Schema(a + b))
  {
    var s := Schema(a + b);
    forall i | 0 <= i < |s.fields|
      ensures s.fields[i] == (if i < |a| then Schema(a).fields[i] else Schema(b).fields[i - |a|])
    {
    }
  }

  /** The names of the declared paths. */
  function Names(s: Schema): (ns: set<string>)
    ensures forall k :: k in ns <==> exists i :: 0 <= i < |s.fields| && s.fields[i].name == k
    decreases |s.fields|
  {
    if s.fields == [] then {}
    else
      var rest := Names(Schema(s.fields[1..]));
      assert forall i :: 1 <= i < |s.fields| ==> s.fields[i] == s.fields[1..][i - 1];
      {s.fields[0].name} + rest
  }

  /** Strict mode: an object assigned to a sub-document keeps only the
      declared paths; the document's getters show no other. */
  function Restrict(r: Record, s: Schema): (c: Record)
    ensures c.Keys == r.Keys * Names(s)
    ensures forall k :: k in c ==> c[k] == r[k]
  {
    map k | k in r && k in Names(s) :: r[k]
  }

  /** Strict mode never changes the verdict of validation. */
  lemma RestrictKeepsVerdict(r: Record, s: Schema)
    ensures Conforms(Restrict(r, s), s) <==> Conforms(r, s)
  {
    var c := Restrict(r, s);
    forall i | 0 <= i < |s.fields|
      ensures Lookup(c, s.fields[i].name) == Lookup(r, s.fields[i].name)
    {
      assert s.fields[i].name in Names(s);
    }
    ConformsOnlyDeclared(c, r, s);
  }

  /** A value strict mode silently drops: anything but an object assigned
      to a nested path (null, an array and a primitive alike). */
  predicate Dropped(v: Value, k: Kind) {
    k.KNested? && !v.Obj?
  }

  /** Strict mode on the value of one declared path: an object given to a
      nested path or to a single sub-document keeps only the paths the inner
      schema declares; any other value is left as it is (a single
      sub-document then fails to cast, and validation refuses it). */
  function AssignValue(v: Value, k: Kind): (a: Value)
    ensures !(k.KNested? || k.KSub?) || !v.Obj? ==> a == v
    ensures (k.KNested? || k.KSub?) && v.Obj? ==> a.Obj? && a.fields.Keys <= v.fields.Keys * Names(k.sub)
    decreases k
  {
    if (k.KNested? || k.KSub?) && v.Obj? then Obj(Assign(v.fields, k.sub)) else v
  }

  /** Strict mode when an object is assigned to a document, as `doc.set`
      does it key by key: an undeclared path is dropped, a value a nested
      path cannot take is dropped, and objects given to nested paths and
      single sub-documents are restricted in turn. Objects inside arrays of
      sub-documents are kept as they are (see README). */
  function Assign(r: Record, s: Schema): (c: Record)
    ensures forall k :: k in c <==> k in r && k in Names(s) && !Dropped(r[k], KindOf(s, k).value)
    ensures forall k :: k in c ==> c[k] == AssignValue(r[k], KindOf(s, k).value)
    ensures forall k :: k in c && KindOf(s, k).value.KNested? ==> c[k].Obj?
    decreases s
  {
    map k | k in r && KindOf(s, k).Some? && !Dropped(r[k], KindOf(s, k).value) ::
      (KindOfSmaller(s, k); AssignValue(r[k], KindOf(s, k).value))
  }

  /** Without nested paths or single sub-documents, strict mode is the
      plain restriction to the declared paths. */
  lemma AssignFlat(r: Record, s: Schema)
    requires forall i :: 0 <= i < |s.fields| ==> !s.fields[i].kind.KNested? && !s.fields[i].kind.KSub?
    ensures Assign(r, s) == Restrict(r, s)
  {
    forall k | k in r && k in Names(s)
      ensures !KindOf(s, k).value.KNested? && !KindOf(s, k).value.KSub?
    {
      var i :| 0 <= i < |s.fields| && s.fields[i].name == k && s.fields[i].kind == KindOf(s, k).value;
    }
  }

  /** Strict mode keeps a single path when every other declared path holds
      a value it drops. */
  lemma AssignSingle(r: Record, s: Schema, k: string)
    requires k in r && KindOf(s, k).Some? && !Dropped(r[k], KindOf(s, k).value)
    requires !(KindOf(s, k).value.KNested? || KindOf(s, k).value.KSub?)
    requires forall j :: j in r && j != k && KindOf(s, j).Some? ==> Dropped(r[j], KindOf(s, j).value)
    ensures Assign(r, s) == map[k := r[k]]
  {
  }

  /** The same with two kept paths. */
  lemma AssignPair(r: Record, s: Schema, k: string, l: string)
    requires k != l
    requires k in r && KindOf(s, k).Some? && !Dropped(r[k], KindOf(s, k).value)
    requires l in r && KindOf(s, l).Some? && !Dropped(r[l], KindOf(s, l).value)
    requires !(KindOf(s, k).value.KNested? || KindOf(s, k).value.KSub?)
    requires !(KindOf(s, l).value.KNested? || KindOf(s, l).value.KSub?)
    requires forall j :: j in r && j != k && j != l && KindOf(s, j).Some? ==> Dropped(r[j], KindOf(s, j).value)
    ensures Assign(r, s) == map[k := r[k], l := r[l]]
  {
    AssignPairKeys(r, s, k, l);
    RecordOfPair(Assign(r, s), k, l);
  }

  /** A record with exactly two paths is their display. */
  lemma RecordOfPair(a: Record, k: string, l: string)
    requires k in a && l in a
    requires forall j :: j in a ==> j == k || j == l
    ensures a == map[k := a[k], l := a[l]]
  {
  }

  /** The paths AssignPair keeps. */
  lemma AssignPairKeys(r: Record, s: Schema, k: string, l: string)
    requires k in r && KindOf(s, k).Some? && !Dropped(r[k], KindOf(s, k).value)
    requires l in r && KindOf(s, l).Some? && !Dropped(r[l], KindOf(s, l).value)
    requires !(KindOf(s, k).value.KNested? || KindOf(s, k).value.KSub?)
    requires !(KindOf(s, l).value.KNested? || KindOf(s, l).value.KSub?)
    requires forall j :: j in r && j != k && j != l && KindOf(s, j).Some? ==> Dropped(r[j], KindOf(s, j).value)
    ensures k in Assign(r, s) && l in Assign(r, s)
    ensures Assign(r, s)[k] == r[k] && Assign(r, s)[l] == r[l]
    ensures forall j :: j in Assign(r, s) ==> j == k || j == l
  {
    var a := Assign(r, s);
    assert k in Names(s) && l in Names(s);
    forall j | j in a
      ensures j == k || j == l
    {
      assert KindOf(s, j).Some? && !Dropped(r[j], KindOf(s, j).value);
    }
  }

  /** A record holding one boolean on a boolean path is its own cast. */
  lemma CastFlag(s: Schema, k: string, b: bool, parse: string -> Option<int>)
    requires KindOf(s, k) == Some(KBool)
    ensures CastRecord(map[k := Bool(b)], s, parse) == map[k := Bool(b)]
  {
  }

  /** Assigning an already assigned record changes nothing. */
  lemma {:induction false} AssignIdempotent(r: Record, s: Schema)
    ensures Assign(Assign(r, s), s) == Assign(r, s)
    decreases s
  {
    var c := Assign(r, s);
    var cc := Assign(c, s);
    forall k | k in c
      ensures k in cc && cc[k] == c[k]
    {
      KindOfSmaller(s, k);
      AssignValueIdempotent(r[k], KindOf(s, k).value);
    }
  }

  /** Strict mode on one value changes nothing the second time. */
  lemma {:induction false} AssignValueIdempotent(v: Value, k: Kind)
    ensures AssignValue(AssignValue(v, k), k) == AssignValue(v, k)
    decreases k
  {
    if (k.KNested? || k.KSub?) && v.Obj? {
      AssignIdempotent(v.fields, k.sub);
    }
  }

  /** The kind of the first declared path with the name, if one is. */
  function KindOf(s: Schema, k: string): (kind: Option<Kind>)
    ensures kind.Some? <==> k in Names(s)
    ensures kind.Some? ==> exists i :: 0 <= i < |s.fields| && s.fields[i].name == k && s.fields[i].kind == kind.value
    decreases |s.fields|
  {
    if s.fields == [] then None
    else if s.fields[0].name == k then Some(s.fields[0].kind)
    else
      var rest := KindOf(Schema(s.fields[1..]), k);
      assert forall i :: 1 <= i < |s.fields| ==> s.fields[i] == s.fields[1..][i - 1];
      rest
  }

  /** The kind of a path is the kind of its first declaration. */
  lemma {:induction false} KindAt(s: Schema, i: nat)
    requires i < |s.fields|
    requires forall j :: 0 <= j < i ==> s.fields[j].name != s.fields[i].name
    ensures KindOf(s, s.fields[i].name) == Some(s.fields[i].kind)
    decreases i
  {
    if i > 0 {
      var rest := Schema(s.fields[1..]);
      assert rest.fields[i - 1] == s.fields[i];
      KindAt(rest, i - 1);
    }
  }

  /** The declared kind of a path belongs to the schema, so it is smaller. */
  lemma KindOfSmaller(s: Schema, k: string)
    requires KindOf(s, k).Some?
    ensures KindOf(s, k).value < s
  {
    var i :| 0 <= i < |s.fields| && s.fields[i].name == k && s.fields[i].kind == KindOf(s, k).value;
    assert s.fields[i] in s.fields;
  }

  /** A number in text that Mongoose's date cast reads as milliseconds
      rather than through `Date.parse`: at least 275761 or below -271820,
      the years `Date.parse` would read the shorter numbers as. */
  predicate MillisText(s: string) {
    DecimalNumber(s).Some? && (DecimalNumber(s).value >= 275761 || DecimalNumber(s).value < -271820)
  }

  /** The time Mongoose's date cast reads from non-empty text: the number
      itself for `MillisText`, otherwise what `parse` (`Date.parse`) gives. */
  function TextTime(t: string, parse: string -> Option<int>): (r: Option<int>)
    ensures MillisText(t) ==> r == DecimalNumber(t)
    ensures !MillisText(t) ==> r == parse(t)
  {
    if MillisText(t) then DecimalNumber(t) else parse(t)
  }

  /** Mongoose's cast of a value to a date path, as a number of
      milliseconds: `null` and `""` stay null; a boolean does not cast; a
      number must be a valid time; text must give a valid time through
      `TextTime`; an array or object is read through its string form
      (`new Date(v.valueOf())`) by `parse`. */
  function CastDate(v: Value, parse: string -> Option<int>): (c: Option<Value>)
    ensures c.Some? ==> c.value.Null? || (c.value.Num? && IsTime(c.value.n))
    ensures v.Null? ==> c == Some(Null)
    ensures v.Bool? ==> c == None
    ensures v.Num? ==> (c.Some? <==> IsTime(v.n)) && (c.Some? ==> c.value == v)
    ensures forall t :: v == Str(t) && t != "" ==>
      var n := TextTime(t, parse);
      (c.Some? <==> n.Some? && IsTime(n.value)) && (c.Some? ==> c.value == Num(n.value))
    ensures v.Arr? || v.Obj? ==>
      var n := parse(ToString(v));
      (c.Some? <==> n.Some? && IsTime(n.value)) && (c.Some? ==> c.value == Num(n.value))
  {
    match v
    case Null => Some(Null)
    case Bool(_) => None
    case Num(n) => if IsTime(n) then Some(Num(n)) else None
    case Str(s) => if s == "" then Some(Null) else TimeValue(TextTime(s, parse))
    case _ => TimeValue(parse(ToString(v)))
  }

  /** A time read from a date, kept when it is a valid time. */
  function TimeValue(n: Option<int>): Option<Value> {
    if n.Some? && IsTime(n.value) then Some(Num(n.value)) else None
  }

  /** A date wrapped in a one-element array is read through the array's
      string form, which is the text itself. */
  lemma ArrayDateCast(t: string, parse: string -> Option<int>)
    ensures CastDate(Arr([Str(t)]), parse) == TimeValue(parse(t))
  {
    assert ToString(Arr([Str(t)])) == Join([t], ",");
  }

  /** A number sent as its decimal text is stored as that number, without
      `Date.parse`, when it lies outside the range read as a year. */
  lemma MillisTextCast(n: int, parse: string -> Option<int>)
    requires IsTime(n) && (n >= 275761 || n < -271820)
    ensures CastDate(Str(ToString(Num(n))), parse) == Some(Num(n))
  {
    DecimalNumberRoundTrip(n);
  }

  /** The cast Mongoose applies to a value assigned to a path of the kind:
      a date through CastDate, an ObjectId string to its canonical form, and
      the objects of an array of sub-documents or of a nested path by their
      own schema. A value that does not cast is kept as it is, and
      validation refuses it. */
  function CastValue(v: Value, k: Kind, parse: string -> Option<int>): (c: Value)
    ensures v.Null? || v.Bool? || v.Num? ==> c == v
    ensures k.KBool? || k.KNum? || k.KStr? ==> c == v
    ensures k.KDate? ==> c == (if CastDate(v, parse).Some? then CastDate(v, parse).value else v)
    ensures k.KId? ==> c == (if v.Str? && IsObjectIdString(v.s) then Str(CanonicalId(v.s)) else v)
    ensures k.KList? && v.Arr? ==>
      (c.Arr? && |c.items| == |v.items|
       && forall j :: 0 <= j < |v.items| && v.items[j].Obj? ==> c.items[j] == Obj(CastRecord(v.items[j].fields, k.item, parse)))
    ensures (k.KNested? || k.KSub?) && v.Obj? ==> c == Obj(CastRecord(v.fields, k.sub, parse))
    decreases k
  {
    match k
    case KDate => if CastDate(v, parse).Some? then CastDate(v, parse).value else v
    case KId => if v.Str? && IsObjectIdString(v.s) then Str(CanonicalId(v.s)) else v
    case KList(item) =>
      if v.Arr? then
        Arr(seq(|v.items|, j requires 0 <= j < |v.items| =>
          if v.items[j].Obj? then Obj(CastRecord(v.items[j].fields, item, parse)) else v.items[j]))
      else v
    case KNested(sub) => if v.Obj? then Obj(CastRecord(v.fields, sub, parse)) else v
    case KSub(sub) => if v.Obj? then Obj(CastRecord(v.fields, sub, parse)) else v
    case _ => v
  }

  /** The record with each declared path cast to its kind; undeclared paths
      are kept. */
  function CastRecord(r: Record, s: Schema, parse: string -> Option<int>): (c: Record)
    ensures c.Keys == r.Keys
    ensures forall k :: k in r && k !in Names(s) ==> c[k] == r[k]
    ensures forall k :: k in r && k in Names(s) ==> c[k] == CastValue(r[k], KindOf(s, k).value, parse)
    decreases s
  {
    map k | k in r :: if KindOf(s, k).Some? then (KindOfSmaller(s, k); CastValue(r[k], KindOf(s, k).value, parse)) else r[k]
  }

  /** A value the ObjectId cast turns into what validation accepts: null,
      or 24 hexadecimal digits in either case. */
  predicate IdCasts(v: Value) {
    v.Null? || (v.Str? && IsObjectIdString(v.s))
  }

  /** Cast and validation of an ObjectId path agree with IdCasts. */
  lemma IdCastValidates(v: Value, parse: string -> Option<int>)
    ensures IdCasts(v) <==> CastValue(v, KId, parse).Null? || Fits(CastValue(v, KId, parse), KId)
  {
  }

  /** What validation asks of a value present on a path of the kind. */
  predicate Fits(v: Value, k: Kind) {
    match k
    case KBool => v.Bool?
    case KNum(lo, hi) => v.Num? && InBounds(v.n, lo, hi)
    case KStr(choices) => v.Str? && (choices != [] ==> v.s in choices)
    case KDate => v.Num? && IsTime(v.n)
    case KId => v.Str? && IsCanonicalId(v.s)
    case KList(item) => v.Arr? && forall j | 0 <= j < |v.items| :: v.items[j].Obj? && Conforms(v.items[j].fields, item)
    case KNested(sub) => v.Obj? && Conforms(v.fields, sub)
    case KSub(sub) => v.Obj? && Conforms(v.fields, sub)
  }

  /** A present value of a valid record fits the kind of its path. */
  lemma DeclaredFits(r: Record, s: Schema, k: string)
    requires Conforms(r, s)
    requires k in r && !r[k].Null? && k in Names(s)
    ensures Fits(r[k], KindOf(s, k).value)
  {
    var i :| 0 <= i < |s.fields| && s.fields[i].name == k && s.fields[i].kind == KindOf(s, k).value;
    ConformsAt(r, s, i);
  }

  /** A record that already passes validation is its own cast: saving a
      stored document again changes none of its values. */
  lemma {:induction false} CastConforming(r: Record, s: Schema, parse: string -> Option<int>)
    requires Conforms(r, s)
    ensures CastRecord(r, s, parse) == r
    decreases s
  {
    var c := CastRecord(r, s, parse);
    forall k | k in r
      ensures c[k] == r[k]
    {
      if k in Names(s) && !r[k].Null? {
        DeclaredFits(r, s, k);
        KindOfSmaller(s, k);
        CastFitting(r[k], KindOf(s, k).value, parse);
      }
    }
  }

  /** A value that fits its kind is its own cast. */
  lemma {:induction false} CastFitting(v: Value, k: Kind, parse: string -> Option<int>)
    requires Fits(v, k)
    ensures CastValue(v, k, parse) == v
    decreases k
  {
    match k
    case KList(item) =>
      forall j | 0 <= j < |v.items|
        ensures CastRecord(v.items[j].fields, item, parse) == v.items[j].fields
      {
        CastConforming(v.items[j].fields, item, parse);
      }
    case KNested(sub) =>
      CastConforming(v.fields, sub, parse);
    case KSub(sub) =>
      CastConforming(v.fields, sub, parse);
    case _ =>
  }

  /** A date given as text on a path of a record is stored as its time, and
      the record passes validation only if the text parses to a valid time. */
  lemma DateCast(r: Record, s: Schema, parse: string -> Option<int>, date: string, t: string)
    requires KindOf(s, date) == Some(KDate)
    requires Lookup(r, date) == Some(Str(t)) && t != ""
    requires Conforms(CastRecord(r, s, parse), s)
    ensures TextTime(t, parse).Some? && IsTime(TextTime(t, parse).value)
    ensures CastRecord(r, s, parse)[date] == Num(TextTime(t, parse).value)
  {
    var c := CastRecord(r, s, parse);
    assert c[date] == CastValue(Str(t), KDate, parse);
    DeclaredFits(c, s, date);
  }

  /** A date given as text in a sub-document of an array path is stored as
      its time, and the record passes validation only if the text parses to
      a valid time. */
  lemma ListDateCast(r: Record, s: Schema, parse: string -> Option<int>, list: string, date: string, j: nat, t: string)
    requires KindOf(s, list).Some? && KindOf(s, list).value.KList?
    requires KindOf(KindOf(s, list).value.item, date) == Some(KDate)
    requires list in r && r[list].Arr? && j < |r[list].items| && r[list].items[j].Obj?
    requires Lookup(r[list].items[j].fields, date) == Some(Str(t)) && t != ""
    requires Conforms(CastRecord(r, s, parse), s)
    ensures TextTime(t, parse).Some? && IsTime(TextTime(t, parse).value)
    ensures var c := CastRecord(r, s, parse);
      c[list].Arr? && j < |c[list].items| && c[list].items[j].Obj?
      && Lookup(c[list].items[j].fields, date) == Some(Num(TextTime(t, parse).value))
  {
    var c := CastRecord(r, s, parse);
    var item := KindOf(s, list).value.item;
    var e := r[list].items[j].fields;
    assert c[list] == CastValue(r[list], KList(item), parse);
    assert c[list].items[j] == Obj(CastRecord(e, item, parse));
    DeclaredFits(c, s, list);
    DateCast(e, item, parse, date, t);
  }

  /** The outcome of `Model.findById(id)` on a collection keyed by id. */
  datatype Found<T> = CastFails | Absent | Found(key: string, doc: T)

  /** `findById`: `undefined` and `null` find nothing; any other value is
      cast to an ObjectId through its string form, and a cast that fails
      rejects the query. The collection is keyed by the canonical form, so
      the case of the digits does not matter. */
  function FindById<T>(docs: map<string, T>, id: Option<Value>): (f: Found<T>)
    ensures f.Found? ==>
      id.Some? && CanonicalId(ToString(id.value)) == f.key && f.key in docs && f.doc == docs[f.key]
    ensures f.Found? ==> IsCanonicalId(f.key)
    ensures (id.None? || id == Some(Null)) ==> f == Absent
    ensures forall s :: id == Some(Str(s)) ==>
      && (!IsObjectIdString(s) ==> f == CastFails)
      && (IsObjectIdString(s) && CanonicalId(s) in docs ==> f == Found(CanonicalId(s), docs[CanonicalId(s)]))
      && (IsObjectIdString(s) && CanonicalId(s) !in docs ==> f == Absent)
  {
    if id.None? || id.value.Null? then Absent
    else if id.value.Obj? then CastFails
    else
      var s := ToString(id.value);
      if !IsObjectIdString(s) then CastFails
      else if CanonicalId(s) in docs then Found(CanonicalId(s), docs[CanonicalId(s)])
      else Absent
  }

  /** `findById` depends only on which ids the collection holds. */
  lemma FindByIdSameKeys<T>(a: map<string, T>, b: map<string, T>, id: Option<Value>)
    requires a.Keys == b.Keys
    ensures FindById(a, id).Found? <==> FindById(b, id).Found?
    ensures FindById(a, id).Found? ==> FindById(a, id).key == FindById(b, id).key
  {
  }
}
