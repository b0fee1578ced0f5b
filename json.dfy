/** The part of the engine's JSON object model the profile readers use.
  *
  * An object is a map from field name to value. The typed getters mirror
  * `FJsonObject::Get*Field`: a missing field or a value of another kind reads
  * as the type's default.
  */
module Json {
  import opened Wrappers

  datatype Value =
    | JNull
    | JBool(b: bool)
    | JNumber(n: real)
    | JString(s: string)
    | JArray(items: seq<Value>)
    | JObject(fields: map<string, Value>)

  type Object = map<string, Value>

  predicate HasField(o: Object, key: string) {
    key in o
  }

  function GetStringField(o: Object, key: string): (r: string)
    ensures key in o && o[key].JString? ==> r == o[key].s
    ensures !(key in o && o[key].JString?) ==> r == ""
  {
    if key in o && o[key].JString? then o[key].s else ""
  }

  function GetBoolField(o: Object, key: string): (r: bool)
    ensures r <==> key in o && o[key] == JBool(true)
  {
    key in o && o[key].JBool? && o[key].b
  }

  function GetNumberField(o: Object, key: string): (r: real)
    ensures key in o && o[key].JNumber? ==> r == o[key].n
    ensures !(key in o && o[key].JNumber?) ==> r == 0.0
  {
    if key in o && o[key].JNumber? then o[key].n else 0.0
  }

  /** Truncation toward zero, the conversion of a JSON number to `int32`. */
  function TruncToInt(x: real): (r: int)
    ensures x >= 0.0 ==> r as real <= x < r as real + 1.0
    ensures x < 0.0 ==> r as real - 1.0 < x <= r as real
  {
    if x >= 0.0 then x.Floor else -((-x).Floor)
  }

  function GetIntegerField(o: Object, key: string): (r: int)
    ensures !(key in o && o[key].JNumber?) ==> r == 0
    ensures key in o && o[key].JNumber? ==> r == TruncToInt(o[key].n)
  {
    TruncToInt(GetNumberField(o, key))
  }

  function TryGetObjectField(o: Object, key: string): (r: Option<Object>)
    ensures r.Some? <==> key in o && o[key].JObject?
    ensures r.Some? ==> r.value == o[key].fields
  {
    if key in o && o[key].JObject? then Some(o[key].fields) else None
  }

  /** `GetObjectField`: a value of another kind reads as an empty object. */
  function GetObjectField(o: Object, key: string): (r: Object)
    ensures key in o && o[key].JObject? ==> r == o[key].fields
    ensures !(key in o && o[key].JObject?) ==> r == map[]
  {
    if key in o && o[key].JObject? then o[key].fields else map[]
  }

  /** `FJsonValue::AsObject`: a value of another kind reads as an empty
    * object. */
  function AsObject(v: Value): (r: Object)
    ensures v.JObject? ==> r == v.fields
    ensures !v.JObject? ==> r == map[]
  {
    if v.JObject? then v.fields else map[]
  }

  function TryGetStringField(o: Object, key: string): (r: Option<string>)
    ensures r.Some? <==> key in o && o[key].JString?
    ensures r.Some? ==> r.value == o[key].s
  {
    if key in o && o[key].JString? then Some(o[key].s) else None
  }

  function TryGetArrayField(o: Object, key: string): (r: Option<seq<Value>>)
    ensures r.Some? <==> key in o && o[key].JArray?
    ensures r.Some? ==> r.value == o[key].items
  {
    if key in o && o[key].JArray? then Some(o[key].items) else None
  }

  /** The read-if-present idiom of the profile readers:
    * `if (HasField(k)) Field = Get*Field(k);`. */
  function BoolOr(o: Object, key: string, current: bool): (r: bool)
    ensures key !in o ==> r == current
    ensures key in o ==> r == GetBoolField(o, key)
  {
    if HasField(o, key) then GetBoolField(o, key) else current
  }

  function NumberOr(o: Object, key: string, current: real): (r: real)
    ensures key !in o ==> r == current
    ensures key in o ==> r == GetNumberField(o, key)
  {
    if HasField(o, key) then GetNumberField(o, key) else current
  }

  function IntegerOr(o: Object, key: string, current: int): (r: int)
    ensures key !in o ==> r == current
    ensures key in o ==> r == GetIntegerField(o, key)
  {
    if HasField(o, key) then GetIntegerField(o, key) else current
  }

  /** An integer field read into a float property (`Prop = GetIntegerField(k)`). */
  function IntegerAsRealOr(o: Object, key: string, current: real): (r: real)
    ensures key !in o ==> r == current
    ensures key in o ==> r == GetIntegerField(o, key) as real
  {
    if HasField(o, key) then GetIntegerField(o, key) as real else current
  }
}
