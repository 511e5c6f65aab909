/**
 * The slice of PHP's value semantics the plugin relies on: the shape of a
 * decoded JSON document (`json_decode($body, true)`), `empty()`, `isset()` on
 * an array key, and the conversion of a scalar to a string.
 */
module Php {

  datatype Option<+T> = None | Some(value: T)

  /** A decoded JSON value. JSON arrays and objects both become PHP arrays;
      a JSON array keeps its order (List), a JSON object is keyed (Dict). */
  datatype Value =
    | Null
    | Bool(b: bool)
    | Int(i: int)
    | Str(s: string)
    | List(items: seq<Value>)
    | Dict(fields: map<string, Value>)

  /** PHP's `empty()` on a string: true for "" and for "0". */
  predicate EmptyStr(s: string) {
    s == "" || s == "0"
  }

  /** PHP's `empty()`: false, 0, "", "0", null and the empty array are empty. */
  predicate Empty(v: Value) {
    match v
    case Null => true
    case Bool(b) => !b
    case Int(i) => i == 0
    case Str(s) => EmptyStr(s)
    case List(items) => items == []
    case Dict(fields) => fields == map[]
  }

  /** PHP truthiness, as tested by `if ($v)` and `?:`. */
  predicate Truthy(v: Value) {
    !Empty(v)
  }

  /** `is_array($v)`. */
  predicate IsArray(v: Value) {
    v.List? || v.Dict?
  }

  /** `isset($v[$key]) ? $v[$key] : ...` for a non-numeric key: a missing key
      and a key holding null are both unset, and a scalar has no keys. */
  function Get(v: Value, key: string): (r: Option<Value>)
    ensures r.Some? <==> v.Dict? && key in v.fields && v.fields[key] != Null
    ensures r.Some? ==> r.value == v.fields[key] && r.value != Null
  {
    if v.Dict? && key in v.fields && v.fields[key] != Null then Some(v.fields[key]) else None
  }

  /** `isset($v[$key]) ? $v[$key] : $default`. */
  function GetOr(v: Value, key: string, default: Value): Value {
    match Get(v, key)
    case Some(x) => x
    case None => default
  }

  /** The elements a `foreach` visits in a decoded JSON array. */
  function Items(v: Value): seq<Value> {
    if v.List? then v.items else []
  }

  function DigitChar(d: nat): (c: char)
    requires d < 10
  {
    "0123456789"[d]
  }

  /** Decimal representation of a natural number, without leading zeros. */
  function NatToString(n: nat): (s: string)
    ensures |s| > 0
    ensures forall k :: 0 <= k < |s| ==> '0' <= s[k] <= '9'
    decreases n
  {
    if n < 10 then [DigitChar(n)] else NatToString(n / 10) + [DigitChar(n % 10)]
  }

  /** PHP's conversion of an integer to a string. */
  function IntToString(i: int): (s: string)
    ensures |s| > 0
  {
    if i < 0 then "-" + NatToString(-i) else NatToString(i)
  }

  /** PHP's conversion of a value to a string, as done by `.` and by a
      `(string)` cast: true is "1", false and null are "", and an array is
      "Array" (with a warning). The string functions convert scalars the
      same way, but refuse an array. */
  function StrOf(v: Value): string {
    match v
    case Null => ""
    case Bool(b) => if b then "1" else ""
    case Int(i) => IntToString(i)
    case Str(s) => s
    case List(_) => "Array"
    case Dict(_) => "Array"
  }

  /** `$v == 'word'` (PHP 8 loose equality) for a literal that is a
      non-empty, non-numeric string: a string must be identical, true equals
      every such literal, and nothing else does. */
  predicate LooseEqualsWord(v: Value, word: string) {
    match v
    case Str(s) => s == word
    case Bool(b) => b
    case _ => false
  }

  /** `needle` occurs in `haystack` starting at position `i`. */
  predicate OccursAt(haystack: string, needle: string, i: nat) {
    i + |needle| <= |haystack| && haystack[i..i + |needle|] == needle
  }

  /** `strpos($haystack, $needle) !== false` for a non-empty needle. */
  predicate Contains(haystack: string, needle: string) {
    exists i: nat | i <= |haystack| :: OccursAt(haystack, needle, i)
  }

  predicate IsAlnum(c: char) {
    ('a' <= c <= 'z') || ('A' <= c <= 'Z') || ('0' <= c <= '9')
  }

  /** A member of the character class `[a-zA-Z0-9_-]`. */
  predicate IsWordChar(c: char) {
    IsAlnum(c) || c == '_' || c == '-'
  }
}
