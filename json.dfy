/**
 * JSON documents as the backend stores them, and the subscript `obj[key]`
 * with the exceptions Python raises for it.
 */
module Json {
  import opened Wrappers

  datatype Json =
    | JNull
    | JBool(b: bool)
    | JInt(n: int)
    | JStr(s: string)
    | JArr(items: seq<Json>)
    | JObj(fields: map<string, Json>)

  /** `obj[key]`: KeyError for a missing key, TypeError for a value that is not an object. */
  function Get(obj: Json, key: string): Result<Json> {
    match obj
    case JObj(m) => if key in m then Ok(m[key]) else Err(KeyError(key))
    case _ => Err(TypeError("subscript of a non-object"))
  }

  function AsStr(j: Json): Result<string> {
    if j.JStr? then Ok(j.s) else Err(TypeError("expected a string"))
  }

  function AsInt(j: Json): Result<int> {
    if j.JInt? then Ok(j.n) else Err(TypeError("expected an integer"))
  }

  function AsBool(j: Json): Result<bool> {
    if j.JBool? then Ok(j.b) else Err(TypeError("expected a boolean"))
  }

  /** What `for x in v` iterates over; only arrays are modelled. */
  function AsArr(j: Json): Result<seq<Json>> {
    if j.JArr? then Ok(j.items) else Err(TypeError("expected an array"))
  }

  function GetStr(obj: Json, key: string): Result<string> {
    var v :- Get(obj, key);
    AsStr(v)
  }

  function GetInt(obj: Json, key: string): Result<int> {
    var v :- Get(obj, key);
    AsInt(v)
  }

  function GetBool(obj: Json, key: string): Result<bool> {
    var v :- Get(obj, key);
    AsBool(v)
  }

  function GetArr(obj: Json, key: string): Result<seq<Json>> {
    var v :- Get(obj, key);
    AsArr(v)
  }
}
