/** Decoded JSON values as the extension sees them after `json.loads`, with the
    few Python operations the core applies to them: truthiness, `v[key]`,
    `v[i]`, `key in v` and `int(v)`. Where Python raises, the result is an
    `Err` carrying the exception's kind. */
module Json {

  datatype Option<+T> = None | Some(value: T)

  /** The Python exceptions the modelled code can raise. */
  datatype Error =
    | KeyError(key: string)
    | IntKeyError(index: int)
    | IndexError
    | TypeError
    | ValueError
    | AttributeError
    | UnboundLocalError(name: string)

  datatype Result<+T> = Ok(value: T) | Err(error: Error)

  /** JSON numbers are integers here (floats are not modelled). */
  datatype Json =
    | JNull
    | JBool(b: bool)
    | JNum(n: int)
    | JStr(s: string)
    | JArr(items: seq<Json>)
    | JObj(fields: map<string, Json>)

  /** Python's `bool(v)` for a decoded JSON value. */
  predicate Truthy(v: Json) {
    match v
    case JNull => false
    case JBool(b) => b
    case JNum(n) => n != 0
    case JStr(s) => s != ""
    case JArr(items) => items != []
    case JObj(fields) => fields != map[]
  }

  /** `v[key]` with a string key. */
  function Index(v: Json, key: string): Result<Json> {
    match v
    case JObj(fields) => if key in fields then Ok(fields[key]) else Err(KeyError(key))
    case _ => Err(TypeError)
  }

  /** `v[i]` with an integer index: an element of a list, a one-character
      string of a string, a missing key of an object. */
  function At(v: Json, i: nat): Result<Json> {
    match v
    case JArr(items) => if i < |items| then Ok(items[i]) else Err(IndexError)
    case JStr(s) => if i < |s| then Ok(JStr([s[i]])) else Err(IndexError)
    case JObj(_) => Err(IntKeyError(i))
    case _ => Err(TypeError)
  }

  /** `sub in s` for strings. */
  predicate IsSubstring(sub: string, s: string)
    decreases |s|
  {
    (|sub| <= |s| && s[..|sub|] == sub) || (|s| > 0 && IsSubstring(sub, s[1..]))
  }

  /** `key in v`: a key test on objects, membership on lists, a substring
      test on strings; other values raise. */
  function Has(v: Json, key: string): Result<bool> {
    match v
    case JObj(fields) => Ok(key in fields)
    case JArr(items) => Ok(JStr(key) in items)
    case JStr(s) => Ok(IsSubstring(key, s))
    case _ => Err(TypeError)
  }

  predicate IsDigit(c: char) { '0' <= c <= '9' }

  /** The value of a string of decimal digits. */
  function DigitsValue(s: string): int
    requires forall i :: 0 <= i < |s| ==> IsDigit(s[i])
  {
    if s == [] then 0 else DigitsValue(s[..|s| - 1]) * 10 + (s[|s| - 1] as int - '0' as int)
  }

  /** `int(v)`: numbers and booleans convert; a string converts when it is a
      non-empty run of decimal digits; everything else raises. */
  function IntOf(v: Json): Result<int> {
    match v
    case JNum(n) => Ok(n)
    case JBool(b) => Ok(if b then 1 else 0)
    case JStr(s) =>
      if s != [] && forall i :: 0 <= i < |s| ==> IsDigit(s[i]) then Ok(DigitsValue(s)) else Err(ValueError)
    case _ => Err(TypeError)
  }
}
