/// JSON values as both ends of the web bridge see them once parsed: the engine's JSON
/// reader on the C++ side and JSON.parse on the page. Numbers are whole numbers in this
/// model.
module Json {
  datatype Value =
    | JNull
    | JBool(b: bool)
    | JNumber(n: int)
    | JString(s: string)
    | JArray(items: seq<Value>)
    | JObject(fields: map<string, Value>)
}
