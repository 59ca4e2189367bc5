/** Parsed JSON values, and the Ruby operations the response parser applies to them:
    truthiness, `value[key]`, `value.dig(k1, k2)` and string interpolation. */
module JsonValues {
  import opened Outcomes
  import opened Text

  /** What JSON.parse returns: nil, true/false, an Integer, a String, an Array or a Hash. */
  datatype Json =
    | JNull
    | JBool(b: bool)
    | JNum(n: int)
    | JStr(s: string)
    | JArr(elems: seq<Json>)
    | JObj(fields: map<string, Json>)

  /** Ruby truthiness: only nil and false are falsy ("" , 0, [] and {} are truthy). */
  predicate Truthy(j: Json) {
    !j.JNull? && j != JBool(false)
  }

  /** Hash#[]: nil for a missing key. */
  function Get(m: map<string, Json>, key: string): Json {
    if key in m then m[key] else JNull
  }

  /** How a NoMethodError names its receiver. */
  function Receiver(j: Json): string {
    match j
    case JNull => "nil"
    case JBool(b) => if b then "true" else "false"
    case JNum(_) => "an instance of Integer"
    case JStr(_) => "an instance of String"
    case JArr(_) => "an instance of Array"
    case JObj(_) => "an instance of Hash"
  }

  function ClassName(j: Json): string {
    match j
    case JNull => "NilClass"
    case JBool(b) => if b then "TrueClass" else "FalseClass"
    case JNum(_) => "Integer"
    case JStr(_) => "String"
    case JArr(_) => "Array"
    case JObj(_) => "Hash"
  }

  const NoImplicitConversion := "no implicit conversion of String into Integer"

  /** `j[key]` with a String key: Hash#[] looks the key up, String#[] returns `key` when it is
      a substring and nil otherwise, Array#[] and Integer#[] raise TypeError, and nil, true and
      false have no `[]` (NoMethodError). */
  function Index(j: Json, key: string): (r: Result<Json>)
    ensures r.Ok? <==> j.JObj? || j.JStr?
    ensures r.Err? ==> r.fault.RuntimeError?
    ensures j.JObj? ==> r == Ok(Get(j.fields, key))
    ensures j.JStr? ==> r == Ok(if Contains(j.s, key) then JStr(key) else JNull)
  {
    match j
    case JObj(m) => Ok(Get(m, key))
    case JStr(s) => Ok(if Contains(s, key) then JStr(key) else JNull)
    case JArr(_) => Err(RuntimeError(NoImplicitConversion))
    case JNum(_) => Err(RuntimeError(NoImplicitConversion))
    case _ => Err(RuntimeError("undefined method '[]' for " + Receiver(j)))
  }

  /** `j.dig(k1, k2)`: Hash#dig stops at nil, and every intermediate value must itself
      respond to dig. */
  function Dig(j: Json, k1: string, k2: string): (r: Result<Json>)
    ensures r.Err? ==> r.fault.RuntimeError?
    ensures j.JObj? && k1 in j.fields && j.fields[k1].JObj? ==> r == Ok(Get(j.fields[k1].fields, k2))
    ensures j.JObj? && Get(j.fields, k1) == JNull ==> r == Ok(JNull)
  {
    match j
    case JObj(m) =>
      var v := Get(m, k1);
      if v.JNull? then Ok(JNull)
      else if v.JObj? then Ok(Get(v.fields, k2))
      else if v.JArr? then Err(RuntimeError(NoImplicitConversion))
      else Err(RuntimeError(ClassName(v) + " does not have #dig method"))
    case JArr(_) => Err(RuntimeError(NoImplicitConversion))
    case _ => Err(RuntimeError("undefined method 'dig' for " + Receiver(j)))
  }

  /** `"#{j}"`: String#to_s, Integer#to_s, true/false, nil gives "". Arrays and hashes are
      rendered by a placeholder (their inspect format is not part of this model). */
  function Render(j: Json): string {
    match j
    case JNull => ""
    case JBool(b) => if b then "true" else "false"
    case JNum(n) => IntToString(n)
    case JStr(s) => s
    case JArr(_) => "[...]"
    case JObj(_) => "{...}"
  }
}
