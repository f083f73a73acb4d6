/**
 * The Python values json.loads produces, with the two operations the token-send
 * handlers apply to them: len() and dict.get.
 */
module JsonValues {
  import opened Wrappers

  datatype Json =
    | JObject(fields: map<string, Json>)
    | JArray(items: seq<Json>)
    | JString(s: string)
    | JInt(i: int)
    | JFloat(x: real)
    | JBool(b: bool)
    | JNull

  /** The Python type name of the value. */
  function TypeName(v: Json): string {
    match v
    case JObject(_) => "dict"
    case JArray(_) => "list"
    case JString(_) => "str"
    case JInt(_) => "int"
    case JFloat(_) => "float"
    case JBool(_) => "bool"
    case JNull => "NoneType"
  }

  /** len(v): the number of keys, items or characters; a TypeError for scalars. */
  function PyLen(v: Json): (r: Result<nat>)
    ensures r.Ok? <==> (v.JObject? || v.JArray? || v.JString?)
    ensures r.Err? ==> r.error == TypeError("object of type '" + TypeName(v) + "' has no len()")
  {
    match v
    case JObject(fields) => Ok(|fields|)
    case JArray(items) => Ok(|items|)
    case JString(s) => Ok(|s|)
    case _ => Err(TypeError("object of type '" + TypeName(v) + "' has no len()"))
  }

  /** v.get(key): the value under key or None; only a dict has a get method. */
  function Get(v: Json, key: string): (r: Result<Option<Json>>)
    ensures r.Ok? <==> v.JObject?
    ensures r.Ok? ==> (r.value.Some? <==> key in v.fields)
    ensures r.Ok? && r.value.Some? ==> r.value.value == v.fields[key]
    ensures r.Err? ==> r.error == AttributeError("'" + TypeName(v) + "' object has no attribute 'get'")
  {
    if v.JObject? then Ok(if key in v.fields then Some(v.fields[key]) else None)
    else Err(AttributeError("'" + TypeName(v) + "' object has no attribute 'get'"))
  }

  /**
   * `x == 0.0` for the result of a get: true for the numbers equal to zero and for
   * False (a bool is an int in Python); None, strings and containers never equal 0.0.
   */
  predicate EqualsZero(x: Option<Json>) {
    x == Some(JInt(0)) || x == Some(JFloat(0.0)) || x == Some(JBool(false))
  }

  /**
   * The follow-up test of both token-send handlers, `len(j) != 2 or
   * j.get("amount") == 0.0`: true for a reading without exactly two entries,
   * else whether the amount equals zero; `or` short-circuits, so get is only
   * tried when the length is 2.
   */
  function NeedsFollowUp(j: Json): (r: Result<bool>)
    ensures r == Ok(false) ==> j.JObject? && |j.fields| == 2 && !EqualsZero(Get(j, "amount").value)
    ensures PyLen(j).Err? ==> r == Err(PyLen(j).error)
    ensures PyLen(j).Ok? && PyLen(j).value != 2 ==> r == Ok(true)
    ensures j.JObject? && |j.fields| == 2 ==> r == Ok(EqualsZero(Get(j, "amount").value))
    ensures PyLen(j) == Ok(2) && !j.JObject? ==> r == Err(Get(j, "amount").error)
  {
    var n :- PyLen(j);
    if n != 2 then Ok(true)
    else
      var amount :- Get(j, "amount");
      Ok(EqualsZero(amount))
  }
}
