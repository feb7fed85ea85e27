/**
 * The parsed shape of a descriptor file: JSON values, and object fields that
 * may be missing altogether (JavaScript's `undefined`).
 */
module Json {

  /** A JSON value; numbers are kept integral (fractions and exponents are not modelled). */
  datatype Json =
    | JNull
    | JBool(b: bool)
    | JNumber(n: int)
    | JString(s: string)
    | JArray(items: seq<Json>)
    | JObject(members: seq<(string, Json)>)

  /** An object field: absent (`undefined`) or present with a JSON value. */
  datatype Field = Undefined | Defined(value: Json)

  /** JavaScript truthiness of a field read from a parsed object. */
  predicate Truthy(f: Field) {
    match f
    case Undefined => false
    case Defined(v) =>
      match v
      case JNull => false
      case JBool(b) => b
      case JNumber(n) => n != 0
      case JString(s) => s != ""
      case JArray(_) => true
      case JObject(_) => true
  }

  /** `f == null` in JavaScript's loose sense: `undefined` or `null`. */
  predicate Nullish(f: Field) {
    f == Undefined || f == Defined(JNull)
  }

  /** `typeof f === 'string'`. */
  predicate IsString(f: Field) {
    f.Defined? && f.value.JString?
  }

  /** `Array.isArray(f) && f.every(x => typeof x === 'string')`. */
  predicate IsStringArray(f: Field) {
    f.Defined? && f.value.JArray? && forall i :: 0 <= i < |f.value.items| ==> f.value.items[i].JString?
  }

  /** `f ??= d`: a nullish field takes the default, any other keeps its value. */
  function OrDefault(f: Field, d: Json): (r: Field)
    ensures Nullish(f) ==> r == Defined(d)
    ensures !Nullish(f) ==> r == f
  {
    if Nullish(f) then Defined(d) else f
  }

  /** A list of strings as a JSON array. */
  function StringArray(xs: seq<string>): (r: Json)
    ensures IsStringArray(Defined(r))
  {
    JArray(seq(|xs|, i requires 0 <= i < |xs| => JString(xs[i])))
  }

  /** The strings held by an array of JSON strings. */
  function StringsOf(items: seq<Json>): (xs: seq<string>)
    requires forall i :: 0 <= i < |items| ==> items[i].JString?
    ensures |xs| == |items|
    ensures forall i :: 0 <= i < |items| ==> items[i] == JString(xs[i])
  {
    seq(|items|, i requires 0 <= i < |items| => items[i].s)
  }

  /** Reading back a written string array gives the same strings. */
  lemma StringArrayRoundTrip(xs: seq<string>)
    ensures StringsOf(StringArray(xs).items) == xs
  {
  }
}
