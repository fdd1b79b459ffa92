/** JSON values as the job controller sees them once text has been parsed,
    and the lenient conversions Qt's QJsonValue applies when a value has the
    wrong type (a default instead of an error). */
module Json {

  datatype Option<T> = None | Some(value: T)

  /** A JSON value. An object keeps one value per key, as QJsonObject does. */
  datatype Value =
    | Null
    | Bool(b: bool)
    | Number(n: real)
    | Text(s: string)
    | Array(items: seq<Value>)
    | Object(fields: map<string, Value>)

  type JsonObject = map<string, Value>

  /** What parsing some text as a JSON document yields. */
  datatype Parsed = Malformed | Document(root: Value)

  const INT_MIN: int := -0x8000_0000
  const INT_MAX: int := 0x7fff_ffff

  /** `obj[key]`: a missing key reads as an undefined value, which every
      conversion below treats like null. */
  function Member(obj: JsonObject, key: string): (v: Value)
    ensures key in obj ==> v == obj[key]
    ensures key !in obj ==> && AsString(v) == "" && AsArray(v) == [] && AsObject(v) == map[]
                            && AsDouble(v) == 0.0 && AsInt(v) == 0
  {
    if key in obj then obj[key] else Null
  }

  /** QJsonValue::toString: the empty string unless the value is a string. */
  function AsString(v: Value): string
  {
    if v.Text? then v.s else ""
  }

  /** QJsonValue::toArray (and QVariant::toList): empty unless the value is an array. */
  function AsArray(v: Value): seq<Value>
  {
    if v.Array? then v.items else []
  }

  /** QJsonValue::toObject and QJsonDocument::object: empty unless the value is an object. */
  function AsObject(v: Value): JsonObject
  {
    if v.Object? then v.fields else map[]
  }

  /** QJsonValue::toDouble: 0 unless the value is a number. */
  function AsDouble(v: Value): real
  {
    if v.Number? then v.n else 0.0
  }

  /** QJsonValue::toInt: the number when it is a whole number that fits a
      32-bit int, otherwise 0. */
  function AsInt(v: Value): (i: int)
    ensures INT_MIN <= i <= INT_MAX
    ensures i != 0 ==> v.Number? && v.n == i as real
    ensures v.Number? && v.n.Floor as real == v.n && INT_MIN <= v.n.Floor <= INT_MAX ==> i == v.n.Floor
    ensures v.Number? && v.n.Floor as real != v.n ==> i == 0
    ensures v.Number? && (v.n.Floor < INT_MIN || INT_MAX < v.n.Floor) ==> i == 0
    ensures !v.Number? ==> i == 0
  {
    if v.Number? && v.n.Floor as real == v.n && INT_MIN <= v.n.Floor <= INT_MAX then v.n.Floor else 0
  }

  /** A 32-bit whole number survives the trip through a JSON number. */
  lemma WholeNumberAsInt(i: int)
    requires INT_MIN <= i <= INT_MAX
    ensures AsInt(Number(i as real)) == i
  {
  }
}
