/** JSON values as `json.dump` writes and `json.load` reads them. */
module Json {

  datatype Json =
    | Null
    | Bool(b: bool)
    | Str(s: string)
    | Num(n: real)
    | Obj(fields: map<string, Json>)
    | Arr(items: seq<Json>)

  /** A JSON object as Python holds it after `json.load`: a string-keyed dict. */
  type Record = map<string, Json>
}
