/** PHP value semantics that the webhook handlers rely on: nullable values,
    the decoded JSON request parameters, truthiness (what `if ( $x )` tests), `isset` on a
    nested array path, and the conversion to string that `.` performs. */
module PhpValues {

  datatype Option<T> = None | Some(value: T)

  /** A request parameter as WordPress decodes a JSON body into PHP values.
      JSON objects and lists both become PHP arrays; a list is represented
      here with the keys "0", "1", .... `Null` stands both for a JSON null
      and for a key that is not there: PHP reads both as null and `isset`
      is false for both. */
  datatype Json =
    | Null
    | Bool(b: bool)
    | Int(i: int)
    | Str(s: string)
    | Arr(entries: map<string, Json>)

  /** PHP truthiness of a value that is a string or null (a header, a
      project's stored meta value): null, "" and "0" are falsy. */
  predicate Truthy(v: Option<string>) {
    v.Some? && v.value != "" && v.value != "0"
  }

  /** Reading `$j[k1][k2]...`: a missing key, or an index into something that
      is not an array, reads as null. */
  function Get(j: Json, path: seq<string>): Json
    decreases |path|
  {
    if path == [] then j
    else if j.Arr? && path[0] in j.entries then Get(j.entries[path[0]], path[1..])
    else Null
  }

  /** `isset($j[k1][k2]...)`: the path leads to a value that is not null. */
  predicate IsSet(j: Json, path: seq<string>) {
    Get(j, path) != Null
  }

  function DigitChar(d: nat): (c: char)
    requires d < 10
    ensures '0' <= c <= '9' && c as int - '0' as int == d
  {
    "0123456789"[d]
  }

  /** The number a string of decimal digits denotes. */
  function DigitsValue(s: string): nat
    requires forall k :: 0 <= k < |s| ==> '0' <= s[k] <= '9'
    decreases |s|
  {
    if s == [] then 0
    else DigitsValue(s[..|s| - 1]) * 10 + (s[|s| - 1] as int - '0' as int)
  }

  /** The decimal digits of a natural number, as PHP prints an integer. */
  function Decimal(n: nat): (s: string)
    ensures |s| > 0
    ensures forall k :: 0 <= k < |s| ==> '0' <= s[k] <= '9'
    decreases n
  {
    if n < 10 then [DigitChar(n)] else Decimal(n / 10) + [DigitChar(n % 10)]
  }

  /** The decimal form of a number denotes that number, so distinct integers
      print differently. */
  lemma {:induction false} DecimalRoundTrip(n: nat)
    ensures DigitsValue(Decimal(n)) == n
    decreases n
  {
    if n >= 10 {
      DecimalRoundTrip(n / 10);
      var s := Decimal(n);
      assert s[..|s| - 1] == Decimal(n / 10);
    }
  }

  /** The string PHP's `.` makes of a value: null and false become "",
      true becomes "1", an integer its decimal form, an array "Array". */
  function ToPhpString(j: Json): (s: string)
    ensures j.Str? ==> s == j.s
    ensures j == Null || j == Bool(false) ==> s == ""
    ensures j == Bool(true) ==> s == "1"
    ensures j.Int? && j.i >= 0 ==> s == Decimal(j.i)
    ensures j.Int? && j.i < 0 ==> s == "-" + Decimal(-j.i)
    ensures j.Arr? ==> s == "Array"
  {
    match j
    case Null => ""
    case Bool(b) => if b then "1" else ""
    case Int(i) => if i < 0 then "-" + Decimal(-i) else Decimal(i)
    case Str(s) => s
    case Arr(_) => "Array"
  }
}
