/**
 * JavaScript and JSON values as the request handlers see them, with the few
 * language operations the handlers rely on: truthiness (`!x`), object
 * spread (`{...a, ...b}`), `Array.prototype.filter` over field names,
 * `join`, `split(' ')` and `toString()`. It also holds the uniform reply
 * envelope of the HTTP handlers and the ObjectId syntax check.
 */
module Js {

  datatype Option<T> = None | Some(value: T)

  /** A parsed JSON value. Numbers are integers; `undefined` is never a value
      here: a property that is not there is a key missing from a Record. */
  datatype Value =
    | Null
    | Bool(b: bool)
    | Num(n: int)
    | Str(s: string)
    | Arr(items: seq<Value>)
    | Obj(fields: map<string, Value>)

  /** A plain JavaScript object (a request body, a stored sub-document). */
  type Record = map<string, Value>

  /** The reply of a handler: a success status with its payload, or an error
      status with the error whose text is the message of the
      `{success: false, message}` envelope. */
  datatype Reply<T, E> = Ok(code: int, value: T) | Err(code: int, error: E)

  /** JavaScript truthiness: `false`, `0`, `""` and `null` are falsy; every
      array and every object is truthy. */
  predicate Truthy(v: Value) {
    match v
    case Null => false
    case Bool(b) => b
    case Num(n) => n != 0
    case Str(s) => s != ""
    case Arr(_) => true
    case Obj(_) => true
  }

  /** `!!r[k]`: the property exists and is truthy. */
  predicate Has(r: Record, k: string) {
    k in r && Truthy(r[k])
  }

  /** The optional value read from a property. */
  function Lookup(r: Record, k: string): Option<Value> {
    if k in r then Some(r[k]) else None
  }

  /** `!!x` for a value that may be undefined. */
  predicate TruthyOpt(v: Option<Value>) {
    v.Some? && Truthy(v.value)
  }

  /** `a || b` for values that may be undefined: one of the two, truthy
      when either is, and the first whenever it is truthy. */
  function Or(a: Option<Value>, b: Option<Value>): (r: Option<Value>)
    ensures r == a || r == b
    ensures TruthyOpt(r) <==> TruthyOpt(a) || TruthyOpt(b)
    ensures TruthyOpt(a) ==> r == a
  {
    if TruthyOpt(a) then a else b
  }

  /** `req.user.role === role` for the authenticated user. */
  predicate RoleIs(user: Record, role: string) {
    Lookup(user, "role") == Some(Str(role))
  }

  /** The own enumerable properties that `{...v}` copies from an object.
      Other values are taken to contribute no property (see README). */
  function Spread(v: Value): Record {
    if v.Obj? then v.fields else map[]
  }

  /** `{...a, ...b}`: every property of `b`, and the properties of `a` that
      `b` does not override. */
  function Merge(a: Record, b: Record): (m: Record)
    ensures m.Keys == a.Keys + b.Keys
    ensures forall k :: k in b ==> m[k] == b[k]
    ensures forall k :: k in a && k !in b ==> m[k] == a[k]
  {
    a + b
  }

  /** `a` is `b` with some elements deleted, the rest kept in order. */
  predicate SubsequenceOf(a: seq<string>, b: seq<string>)
    decreases |b|
  {
    if a == [] then true
    else if b == [] then false
    else if a[0] == b[0] then SubsequenceOf(a[1..], b[1..])
    else SubsequenceOf(a, b[1..])
  }

  /** `required.filter((field) => !r[field])`: the required fields that are
      missing or falsy, in the order in which they are declared. */
  function Missing(required: seq<string>, r: Record): (m: seq<string>)
    ensures forall f :: f in m <==> f in required && !Has(r, f)
    ensures SubsequenceOf(m, required)
    ensures m == [] <==> forall f :: f in required ==> Has(r, f)
  {
    if required == [] then []
    else if Has(r, required[0]) then Missing(required[1..], r)
    else [required[0]] + Missing(required[1..], r)
  }

  /** `xs.join(sep)`. */
  function Join(xs: seq<string>, sep: string): string {
    if xs == [] then ""
    else if |xs| == 1 then xs[0]
    else xs[0] + sep + Join(xs[1..], sep)
  }

  /** `s.split(c)` for a one-character separator. */
  function Split(s: string, c: char): (parts: seq<string>)
    ensures |parts| >= 1
    ensures forall i :: 0 <= i < |parts| ==> c !in parts[i]
  {
    if s == [] then [""]
    else
      var rest := Split(s[1..], c);
      if s[0] == c then [""] + rest
      else [[s[0]] + rest[0]] + rest[1..]
  }

  /** Joining the parts of a split with the separator gives back the string:
      `s.split(c).join(c) === s`. */
  lemma {:induction false} SplitJoin(s: string, c: char)
    ensures Join(Split(s, c), [c]) == s
  {
    if s != [] {
      var rest := Split(s[1..], c);
      SplitJoin(s[1..], c);
      if s[0] != c {
        JoinConsHead([s[0]], rest, [c]);
      }
    }
  }

  /** Joining is compatible with prefixing the first part. */
  lemma {:induction false} JoinConsHead(p: string, parts: seq<string>, sep: string)
    requires |parts| >= 1
    ensures Join([p + parts[0]] + parts[1..], sep) == p + Join(parts, sep)
  {
    var xs := [p + parts[0]] + parts[1..];
    assert xs[1..] == parts[1..];
    if |parts| == 1 {
    } else {
      assert Join(xs, sep) == xs[0] + sep + Join(xs[1..], sep);
      assert Join(parts, sep) == parts[0] + sep + Join(parts[1..], sep);
    }
  }

  /** A string without the separator splits into itself. */
  lemma {:induction false} SplitNoSeparator(t: string, c: char)
    requires c !in t
    ensures Split(t, c) == [t]
  {
    if t != [] {
      SplitNoSeparator(t[1..], c);
      assert [t[0]] + t[1..] == t;
    }
  }

  /** Splitting at the first separator: the text before it is the first
      part, and the rest splits on its own. */
  lemma {:induction false} SplitAtFirst(p: string, rest: string, c: char)
    requires c !in p
    ensures Split(p + [c] + rest, c) == [p] + Split(rest, c)
  {
    var s := p + [c] + rest;
    if p == [] {
      assert s[1..] == rest;
    } else {
      assert s[1..] == p[1..] + [c] + rest;
      SplitAtFirst(p[1..], rest, c);
      assert [p[0]] + p[1..] == p;
    }
  }

  /** `s.startsWith(p)`. */
  predicate StartsWith(s: string, p: string) {
    |p| <= |s| && s[..|p|] == p
  }

  /** The decimal digits of a natural number, as `String(n)` writes them. */
  function NatToString(n: nat): string
    decreases n
  {
    var d := "0123456789"[n % 10];
    if n < 10 then [d] else NatToString(n / 10) + [d]
  }

  /** `String(v)`, the `toString()` form of a value. */
  function ToString(v: Value): string
    decreases v
  {
    match v
    case Null => "null"
    case Bool(b) => if b then "true" else "false"
    case Num(n) => if n < 0 then "-" + NatToString(-n) else NatToString(n)
    case Str(s) => s
    case Obj(_) => "[object Object]"
    case Arr(items) =>
      Join(seq(|items|, i requires 0 <= i < |items| =>
        if items[i].Null? then "" else ToString(items[i])), ",")
  }

  /** A non-empty run of decimal digits. */
  predicate IsDigits(s: string) {
    |s| > 0 && forall i :: 0 <= i < |s| ==> '0' <= s[i] <= '9'
  }

  /** The number a run of decimal digits denotes. */
  function DigitsValue(s: string): nat
    requires forall i :: 0 <= i < |s| ==> '0' <= s[i] <= '9'
  {
    if s == [] then 0 else DigitsValue(s[..|s| - 1]) * 10 + (s[|s| - 1] as int - '0' as int)
  }

  /** `Number(s)` for text that is a decimal integer with an optional sign;
      `None` for any other text. */
  function DecimalNumber(s: string): (r: Option<int>)
    ensures r.Some? ==> |s| > 0
    ensures IsDigits(s) ==> r == Some(DigitsValue(s))
  {
    if |s| > 1 && s[0] == '-' && IsDigits(s[1..]) then Some(-(DigitsValue(s[1..]) as int))
    else if |s| > 1 && s[0] == '+' && IsDigits(s[1..]) then Some(DigitsValue(s[1..]))
    else if IsDigits(s) then Some(DigitsValue(s))
    else None
  }

  /** The decimal text of a natural number reads back as that number. */
  lemma {:induction false} NatToStringValue(n: nat)
    ensures IsDigits(NatToString(n))
    ensures DigitsValue(NatToString(n)) == n
    decreases n
  {
    var d := "0123456789"[n % 10];
    assert '0' <= d <= '9' && d as int - '0' as int == n % 10 by {
      var k := n % 10;
      assert k == 0 || k == 1 || k == 2 || k == 3 || k == 4 || k == 5 || k == 6 || k == 7 || k == 8 || k == 9;
    }
    if n >= 10 {
      NatToStringValue(n / 10);
      var t := NatToString(n / 10);
      assert (t + [d])[..|t|] == t;
    }
  }

  /** `Number(String(n))` is `n`: the decimal text of a number reads back. */
  lemma DecimalNumberRoundTrip(n: int)
    ensures DecimalNumber(ToString(Num(n))) == Some(n)
  {
    if n < 0 {
      NatToStringValue(-n);
      assert ("-" + NatToString(-n))[1..] == NatToString(-n);
    } else {
      NatToStringValue(n);
    }
  }

  /** `Math.ceil(a / b)` for a positive divisor. */
  function CeilDiv(a: int, b: int): (q: int)
    requires b > 0
    ensures (q - 1) * b < a <= q * b
  {
    -((-a) / b)
  }

  /** A hexadecimal digit, as the ObjectId parser accepts it. */
  predicate IsHexDigit(c: char) {
    ('0' <= c <= '9') || ('a' <= c <= 'f') || ('A' <= c <= 'F')
  }

  /** A string the bson `ObjectId` constructor accepts: 24 hexadecimal digits. */
  predicate IsObjectIdString(s: string) {
    |s| == 24 && forall i :: 0 <= i < |s| ==> IsHexDigit(s[i])
  }

  /** A hexadecimal digit as `ObjectId.toString()` prints it. */
  predicate IsLowerHexDigit(c: char) {
    ('0' <= c <= '9') || ('a' <= c <= 'f')
  }

  /** The form `toString()` gives an ObjectId: 24 lower-case hexadecimal
      digits. */
  predicate IsCanonicalId(s: string) {
    IsObjectIdString(s) && forall i :: 0 <= i < |s| ==> IsLowerHexDigit(s[i])
  }

  /** A digit in lower case. */
  function LowerHex(c: char): (d: char)
    ensures IsHexDigit(c) ==> IsLowerHexDigit(d)
    ensures IsLowerHexDigit(c) ==> d == c
  {
    if 'A' <= c <= 'F' then (c as int - 'A' as int + 'a' as int) as char else c
  }

  /** The string form of the ObjectId a 24-digit string casts to: the same
      digits in lower case, so that "AB…" and "ab…" name one document. */
  function CanonicalId(s: string): (t: string)
    ensures |t| == |s|
    ensures IsObjectIdString(s) ==> IsCanonicalId(t)
    ensures IsCanonicalId(s) ==> t == s
  {
    seq(|s|, i requires 0 <= i < |s| => LowerHex(s[i]))
  }

  /** Every canonical id is one the constructor accepts, and casting it
      again changes nothing. */
  lemma CanonicalIdStable(s: string)
    requires IsObjectIdString(s)
    ensures IsObjectIdString(CanonicalId(s))
    ensures CanonicalId(CanonicalId(s)) == CanonicalId(s)
  {
    var t := CanonicalId(s);
    assert forall i :: 0 <= i < |t| ==> IsLowerHexDigit(t[i]);
  }

  /** `mongoose.Types.ObjectId.isValid(v)`: a 24-digit hexadecimal string, or
      a number (which the constructor takes as a timestamp). */
  predicate IsValidObjectId(v: Value) {
    match v
    case Str(s) => IsObjectIdString(s)
    case Num(_) => true
    case _ => false
  }
}
