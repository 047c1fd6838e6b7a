/** Parsed JSON values: the shape of Sublime settings, project data and the
    build-system dictionaries the plugin writes into it. */
module Json {

  datatype Value =
    | Null
    | Bool(b: bool)
    | Num(n: int)
    | Str(s: string)
    | Arr(items: seq<Value>)
    | Obj(fields: map<string, Value>)
}
