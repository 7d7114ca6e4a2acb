/**
 * JSON documents as the handlers build them with nlohmann::json, and the compact text
 * `dump()` writes for them. Objects are kept as field lists; the handlers list their keys
 * in the order nlohmann's std::map-backed objects iterate them (ascending byte order).
 */
module Json {
  import opened Wrappers
  import opened Text

  datatype Json =
    | Null
    | Bool(b: bool)
    | Number(n: int)
    | Float(f: real)
    | Str(s: string)
    | Arr(items: seq<Json>)
    | Obj(fields: seq<(string, Json)>)

  /** `j.contains(key)` and `j[key]` on an object; other kinds of value contain nothing. */
  function Get(j: Json, key: string): (r: Option<Json>)
    ensures r.Some? ==> j.Obj? && exists i :: 0 <= i < |j.fields| && j.fields[i] == (key, r.value)
  {
    if j.Obj? then Lookup(j.fields, key) else None
  }

  function Lookup(fields: seq<(string, Json)>, key: string): (r: Option<Json>)
    ensures r.Some? ==> exists i :: 0 <= i < |fields| && fields[i] == (key, r.value)
  {
    if fields == [] then None
    else if fields[0].0 == key then Some(fields[0].1)
    else
      var r := Lookup(fields[1..], key);
      assert r.Some? ==> exists i :: 0 <= i < |fields[1..]| && fields[1..][i] == (key, r.value);
      assert forall i :: 0 <= i < |fields[1..]| ==> fields[1..][i] == fields[i + 1];
      r
  }

  /** A key no field carries is not found. */
  lemma {:induction false} LookupAbsent(fields: seq<(string, Json)>, key: string)
    requires forall i :: 0 <= i < |fields| ==> fields[i].0 != key
    ensures Lookup(fields, key) == None
  {
    if fields != [] {
      LookupAbsent(fields[1..], key);
    }
  }

  /** Lookup finds the first field carrying the key. */
  lemma {:induction false} LookupAt(fields: seq<(string, Json)>, i: nat)
    requires i < |fields|
    requires forall k :: 0 <= k < i ==> fields[k].0 != fields[i].0
    ensures Lookup(fields, fields[i].0) == Some(fields[i].1)
  {
    if i > 0 {
      LookupAt(fields[1..], i - 1);
    }
  }

  /** With pairwise distinct keys, every field is found under its own key. */
  lemma LookupDistinct(fields: seq<(string, Json)>, keys: seq<string>)
    requires |fields| == |keys|
    requires forall k :: 0 <= k < |fields| ==> fields[k].0 == keys[k]
    requires forall i, j :: 0 <= i < j < |keys| ==> keys[i] != keys[j]
    ensures forall i :: 0 <= i < |fields| ==> Lookup(fields, keys[i]) == Some(fields[i].1)
  {
    forall i | 0 <= i < |fields|
      ensures Lookup(fields, keys[i]) == Some(fields[i].1)
    {
      LookupAt(fields, i);
    }
  }

  /** `type_name()`, used in nlohmann's conversion error messages. */
  function TypeName(j: Json): string {
    match j
    case Null => "null"
    case Bool(_) => "boolean"
    case Number(_) => "number"
    case Float(_) => "number"
    case Str(_) => "string"
    case Arr(_) => "array"
    case Obj(_) => "object"
  }

  /** The text of nlohmann's type_error 302, thrown by `get<T>()` on a value of the wrong kind. */
  function TypeError(expected: string, j: Json): string {
    "[json.exception.type_error.302] type must be " + expected + ", but is " + TypeName(j)
  }

  /** `dump()` with no indentation. */
  function Dump(j: Json): string {
    match j
    case Null => "null"
    case Bool(b) => if b then "true" else "false"
    case Number(n) => IntToString(n)
    case Float(f) => FloatText(f)
    case Str(s) => Quote(s)
    case Arr(items) =>
      "[" + JoinComma(seq(|items|, i requires 0 <= i < |items| => Dump(items[i]))) + "]"
    case Obj(fields) =>
      "{" + JoinComma(seq(|fields|, i requires 0 <= i < |fields| =>
        Quote(fields[i].0) + ":" + Dump(fields[i].1))) + "}"
  }

  function JoinComma(parts: seq<string>): string {
    if parts == [] then ""
    else if |parts| == 1 then parts[0]
    else parts[0] + "," + JoinComma(parts[1..])
  }

  function Quote(s: string): string {
    "\"" + Escape(s) + "\""
  }

  /** String escaping of `dump()` with `ensure_ascii` off. */
  function Escape(s: string): string {
    if s == [] then "" else EscapeChar(s[0]) + Escape(s[1..])
  }

  function EscapeChar(c: char): string {
    if c == '"' then "\\\""
    else if c == '\\' then "\\\\"
    else if c == '\U{0008}' then "\\b"
    else if c == '\U{000C}' then "\\f"
    else if c == '\n' then "\\n"
    else if c == '\r' then "\\r"
    else if c == '\t' then "\\t"
    else if (c as int) < 0x20 then "\\u00" + [HexDigit((c as int) / 16), HexDigit((c as int) % 16)]
    else [c]
  }

  function HexDigit(d: nat): char
    requires d < 16
  {
    "0123456789abcdef"[d]
  }

  /** A floating-point number: whole part, a point, and at most 17 fractional digits. */
  function FloatText(f: real): string {
    var a := if f < 0.0 then -f else f;
    var whole := a.Floor;
    (if f < 0.0 then "-" else "") + NatToString(whole) + "." + FractionDigits(a - whole as real, 17)
  }

  /** The decimal digits of a fraction in [0, 1), without trailing zeros, at least one digit. */
  function FractionDigits(frac: real, count: nat): (r: string)
    requires 0.0 <= frac < 1.0
    ensures r != []
  {
    var digits := Digits(frac, count);
    var kept := DropTrailingZeros(digits);
    if kept == [] then "0" else kept
  }

  function Digits(frac: real, count: nat): string
    requires 0.0 <= frac < 1.0
    decreases count
  {
    if count == 0 then ""
    else
      var d := (frac * 10.0).Floor;
      [DigitChar(d)] + Digits(frac * 10.0 - d as real, count - 1)
  }

  function DropTrailingZeros(s: string): string {
    if s != [] && s[|s| - 1] == '0' then DropTrailingZeros(s[..|s| - 1]) else s
  }

  /** Byte-lexicographic order on strings, the order of std::map<std::string, ...>. */
  predicate LexLess(a: string, b: string) {
    if b == [] then false
    else if a == [] then true
    else if a[0] != b[0] then a[0] < b[0]
    else LexLess(a[1..], b[1..])
  }

  /** The field order in which `dump()` writes an nlohmann object. */
  predicate KeysAscending(fields: seq<(string, Json)>) {
    forall i :: 0 < i < |fields| ==> LexLess(fields[i - 1].0, fields[i].0)
  }
}
