/** JSON-like values: the payload of a request body, the `Any` values of an
    error's details and the result of `model_dump()`. */
module JsonValues {

  datatype Value =
    | JNull
    | JBool(b: bool)
    | JNum(n: real)
    | JStr(s: string)
    | JArr(items: seq<Value>)
    | JObj(fields: map<string, Value>)
}
