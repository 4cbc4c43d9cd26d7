/**
 * The part of nlohmann::json the SDK's models use: a JSON value whose objects are
 * `std::map`s, `contains`, `at`, conversion to `std::string`, `empty`, `push_back`
 * and the range-for iteration over a value. Numbers are kept as opaque integers:
 * the model never does arithmetic on them.
 */
module Json {
  import opened Wrappers
  import opened OrderedKeys

  datatype Json =
    | JNull
    | JBool(b: bool)
    | JNumber(n: int)
    | JString(s: string)
    | JArray(items: seq<Json>)
    | JObject(fields: map<string, Json>)

  /** `out_of_range` (a missing key) and `type_error` (a value of the wrong kind). */
  datatype JsonError = OutOfRange(key: string) | TypeError(expected: string)

  /** `j.contains(key)`: only an object contains keys. */
  predicate Contains(j: Json, key: string) {
    j.JObject? && key in j.fields
  }

  /** `j.at(key)`: a type error on anything but an object, out of range for a missing key. */
  function At(j: Json, key: string): (r: Result<Json, JsonError>)
    ensures r.Ok? <==> Contains(j, key)
    ensures r.Ok? ==> r.value == j.fields[key]
    ensures r.Err? && j.JObject? ==> r.error == OutOfRange(key)
    ensures r.Err? && !j.JObject? ==> r.error.TypeError?
  {
    if !j.JObject? then Err(TypeError("object"))
    else if key in j.fields then Ok(j.fields[key])
    else Err(OutOfRange(key))
  }

  /** Implicit conversion to `std::string`: only a JSON string converts. */
  function AsString(j: Json): (r: Result<string, JsonError>)
    ensures r.Ok? <==> j.JString?
    ensures r.Ok? ==> JString(r.value) == j
  {
    if j.JString? then Ok(j.s) else Err(TypeError("string"))
  }

  /** `std::string s = j.at(key)`. */
  function StringAt(j: Json, key: string): (r: Result<string, JsonError>)
    ensures r.Ok? <==> Contains(j, key) && j.fields[key].JString?
    ensures r.Ok? ==> j.fields[key] == JString(r.value)
    ensures !Contains(j, key) ==> r == At(j, key).PropagateFailure()
  {
    var v :- At(j, key);
    AsString(v)
  }

  /** `j.empty()`: null, an empty array or an empty object. */
  predicate IsEmpty(j: Json) {
    j.JNull? || (j.JArray? && j.items == []) || (j.JObject? && j.fields == map[])
  }

  /** `j.push_back(v)`: null turns into a one-element array, an array grows, anything else is a type error. */
  function PushBack(j: Json, v: Json): (r: Result<Json, JsonError>)
    ensures r.Ok? <==> j.JNull? || j.JArray?
    ensures r.Ok? ==> r.value == JArray((if j.JNull? then [] else j.items) + [v])
  {
    match j
    case JNull => assert [] + [v] == [v]; Ok(JArray([v]))
    case JArray(items) => Ok(JArray(items + [v]))
    case _ => Err(TypeError("array"))
  }

  /** The values a range-for visits: array items, object values in key order, nothing for null, the value itself otherwise. */
  function Elements(j: Json): (es: seq<Json>)
    ensures j.JArray? ==> es == j.items
    ensures j.JNull? ==> es == []
    ensures j.JObject? ==> (|es| == |j.fields|
      && forall i :: 0 <= i < |es| ==> es[i] in j.fields.Values)
    ensures j.JObject? ==> var ks := SortedKeys(j.fields.Keys);
      |es| == |ks| && forall i :: 0 <= i < |ks| ==> ks[i] in j.fields && es[i] == j.fields[ks[i]]
    ensures (j.JBool? || j.JNumber? || j.JString?) ==> es == [j]
  {
    match j
    case JNull => []
    case JArray(items) => items
    case JObject(fields) =>
      var ks := SortedKeys(fields.Keys);
      SortedKeysMembers(fields.Keys);
      seq(|ks|, i requires 0 <= i < |ks| => fields[ks[i]])
    case _ => [j]
  }
}
