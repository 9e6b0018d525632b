/**
 * The small part of JavaScript semantics the three core files lean on:
 * JSON values, truthiness, `typeof`, property lookup on parsed JSON,
 * `String.prototype.trim`, `String.prototype.includes`, decimal formatting
 * of a number in a template literal, and the values a `catch` can receive.
 */
module Js {
  import opened Wrappers

  /** A JSON value as JSON.parse produces it (numbers restricted to integers). */
  datatype Json =
    | JNull
    | JBool(b: bool)
    | JNumber(n: int)
    | JString(s: string)
    | JArray(items: seq<Json>)
    | JObject(fields: map<string, Json>)

  /** A value caught by `catch`: an `Error` instance (its `name` and `message`) or any other thrown value. */
  datatype Thrown = Error(name: string, message: string) | NonError

  /** A fresh `new Error(message)`: its name is "Error". */
  function NewError(message: string): Thrown {
    Error("Error", message)
  }

  /** `error instanceof Error ? error.message : fallback` */
  function MessageOr(e: Thrown, fallback: string): (m: string)
    ensures e.Error? ==> m == e.message
    ensures e.NonError? ==> m == fallback
  {
    match e
    case Error(_, message) => message
    case NonError => fallback
  }

  /** JavaScript truthiness of a JSON value: `!!v`. */
  predicate Truthy(v: Json) {
    match v
    case JNull => false
    case JBool(b) => b
    case JNumber(n) => n != 0
    case JString(s) => s != ""
    case JArray(_) => true
    case JObject(_) => true
  }

  /** `typeof v === 'object'`, which holds of null, arrays and objects. */
  predicate TypeofObject(v: Json) {
    v.JNull? || v.JArray? || v.JObject?
  }

  /**
   * `v[key]` for a data key such as "output_text" or "input_as_text" on a parsed
   * JSON value; None stands for `undefined`. Only objects carry such keys.
   */
  function Property(v: Json, key: string): (p: Option<Json>)
    ensures p.Some? <==> v.JObject? && key in v.fields
    ensures p.Some? ==> p.value == v.fields[key]
  {
    if v.JObject? && key in v.fields then Some(v.fields[key]) else None
  }

  /**
   * The guard `!x || typeof x !== 'string'` on `v[key]`, inverted: the string
   * when the property is a non-empty string, None when the guard rejects it.
   */
  function NonEmptyStringProperty(v: Json, key: string): (r: Option<string>)
    ensures r.Some? <==> (v.JObject? && key in v.fields && v.fields[key].JString? && v.fields[key].s != "")
    ensures r.Some? ==> v.fields[key] == JString(r.value)
  {
    match Property(v, key)
    case Some(JString(s)) => if s != "" then Some(s) else None
    case _ => None
  }

  /** WhiteSpace and LineTerminator code points of ECMAScript, the set `trim` removes. */
  predicate IsWhitespace(c: char) {
    c == '\t' || c == '\n' || c == '\U{000B}' || c == '\U{000C}' || c == '\r' || c == ' '
    || c == '\U{00A0}' || c == '\U{1680}' || ('\U{2000}' <= c <= '\U{200A}')
    || c == '\U{2028}' || c == '\U{2029}' || c == '\U{202F}' || c == '\U{205F}'
    || c == '\U{3000}' || c == '\U{FEFF}'
  }

  ghost predicate AllWhitespace(s: string) {
    forall k :: 0 <= k < |s| ==> IsWhitespace(s[k])
  }

  /** Drops leading whitespace: the result is a suffix of s preceded only by whitespace. */
  function TrimStart(s: string): (r: string)
    ensures |r| <= |s| && r == s[|s| - |r|..]
    ensures AllWhitespace(s[..|s| - |r|])
    ensures r != [] ==> !IsWhitespace(r[0])
  {
    if s != [] && IsWhitespace(s[0]) then TrimStart(s[1..]) else s
  }

  /** Drops trailing whitespace: the result is a prefix of s followed only by whitespace. */
  function TrimEnd(s: string): (r: string)
    ensures |r| <= |s| && r == s[..|r|]
    ensures AllWhitespace(s[|r|..])
    ensures r != [] ==> !IsWhitespace(r[|r| - 1])
  {
    if s != [] && IsWhitespace(s[|s| - 1]) then TrimEnd(s[..|s| - 1]) else s
  }

  /** `s.trim()`. */
  function Trim(s: string): (r: string)
    ensures r != [] ==> !IsWhitespace(r[0]) && !IsWhitespace(r[|r| - 1])
  {
    TrimEnd(TrimStart(s))
  }

  /** Trim yields a contiguous slice of its input, with only whitespace cut on either side. */
  lemma TrimIsSlice(s: string)
    ensures exists i, j :: 0 <= i <= j <= |s| && Trim(s) == s[i..j]
                        && AllWhitespace(s[..i]) && AllWhitespace(s[j..])
  {
    var t := TrimStart(s);
    var i := |s| - |t|;
    var r := TrimEnd(t);
    var j := i + |r|;
    SliceOfSuffix(s, i, |r|);
    assert Trim(s) == s[i..j];
    assert AllWhitespace(s[j..]);
  }

  lemma SliceOfSuffix(s: string, i: nat, n: nat)
    requires i + n <= |s|
    ensures s[i..][..n] == s[i..i + n] && s[i..][n..] == s[i + n..]
  {
  }

  /** A string trims to nothing exactly when it is all whitespace. */
  lemma {:induction false} TrimEmptyIff(s: string)
    ensures Trim(s) == [] <==> AllWhitespace(s)
  {
    var t := TrimStart(s);
    if t == [] {
      assert s[..|s|] == s;
    } else {
      assert Trim(s) != [] by {
        TrimEndKeepsNonWhitespaceStart(t);
      }
      assert s[|s| - |t|] == t[0];
    }
  }

  lemma TrimEndKeepsNonWhitespaceStart(t: string)
    requires t != [] && !IsWhitespace(t[0])
    ensures TrimEnd(t) != []
  {
    assert t[0..] == t;
  }

  /** Trimming twice is trimming once. */
  lemma TrimIdempotent(s: string)
    ensures Trim(Trim(s)) == Trim(s)
  {
    var r := Trim(s);
    if r != [] {
      assert TrimStart(r) == r;
      assert TrimEnd(r) == r;
    }
  }

  /** `s.startsWith(p)` */
  predicate StartsWith(s: string, p: string) {
    |p| <= |s| && s[..|p|] == p
  }

  /** `s.includes(sub)` */
  predicate Includes(s: string, sub: string)
    decreases |s|
  {
    StartsWith(s, sub) || (s != [] && Includes(s[1..], sub))
  }

  /** A substring of the tail is a substring of the whole: prefixing text never hides a match. */
  lemma {:induction false} IncludesAppend(a: string, b: string, sub: string)
    requires Includes(b, sub)
    ensures Includes(a + b, sub)
    decreases |a|
  {
    if a != [] {
      assert (a + b)[1..] == a[1..] + b;
      IncludesAppend(a[1..], b, sub);
    } else {
      assert a + b == b;
    }
  }

  /** A string shorter than the pattern cannot contain it. */
  lemma {:induction false} ShortNeverIncludes(s: string, sub: string)
    requires |s| < |sub|
    ensures !Includes(s, sub)
    decreases |s|
  {
    if s != [] {
      ShortNeverIncludes(s[1..], sub);
    }
  }

  function Digit(d: nat): (c: char)
    requires d < 10
    ensures '0' <= c <= '9'
  {
    "0123456789"[d]
  }

  /** `${n}` for a non-negative integer: its decimal digits, most significant first. */
  function NatToString(n: nat): (s: string)
    ensures |s| >= 1
    ensures forall k :: 0 <= k < |s| ==> '0' <= s[k] <= '9'
    ensures n < 10 <==> |s| == 1
    ensures s[0] == '0' <==> n == 0
  {
    if n < 10 then [Digit(n)] else NatToString(n / 10) + [Digit(n % 10)]
  }

  /** The number a string of decimal digits denotes, most significant first. */
  function DecimalValue(s: string): int {
    if s == [] then 0 else DecimalValue(s[..|s| - 1]) * 10 + (s[|s| - 1] as int - '0' as int)
  }

  /** The digits `${n}` produces spell `n`. */
  lemma {:induction false} NatToStringValue(n: nat)
    ensures DecimalValue(NatToString(n)) == n
    decreases n
  {
    var s := NatToString(n);
    if n < 10 {
      assert s[..|s| - 1] == [];
    } else {
      assert s[..|s| - 1] == NatToString(n / 10);
      NatToStringValue(n / 10);
    }
  }
}
