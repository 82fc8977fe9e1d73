/** JSON-like payload values passed between steps. */
module Values {

  datatype Value =
    | Null
    | Bool(flag: bool)
    | Num(number: int)
    | Text(text: string)
    | List(items: seq<Value>)
    | Dict(entries: map<string, Value>)

  /** `dict.get(key)`: an absent key and a null entry both read as Null. */
  function Get(entries: map<string, Value>, key: string): Value {
    if key in entries then entries[key] else Null
  }
}
