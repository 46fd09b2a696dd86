/** JSON values as `json.load` returns them (numbers are integers here). */
module Json {
  import opened Errors

  datatype Json =
    | Null
    | Bool(b: bool)
    | Num(n: int)
    | Str(s: string)
    | Arr(items: seq<Json>)
    | Obj(fields: map<string, Json>)

  /** Python's `value[key]` on a loaded value: a KeyError on an object without
      the key, a TypeError on a list, string, number, boolean or null. */
  function Get(value: Json, key: string): Result<Json>
  {
    if !value.Obj? then Err(WrongType(key))
    else if key !in value.fields then Err(KeyMissing(key))
    else Ok(value.fields[key])
  }

  /** Every key of `before` outside `changed` is still in `after`, bound to the same value. */
  predicate KeepsOthers(before: map<string, Json>, after: map<string, Json>, changed: set<string>)
  {
    forall k :: k in before && k !in changed ==> k in after && after[k] == before[k]
  }
}
