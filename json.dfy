/** Decoded JSON values. The backend exchanges JSON text between lambdas;
    the model represents such text by the value it decodes to. */
module Json {
  datatype Json =
    | JNull
    | JBool(b: bool)
    | JNum(n: int)
    | JStr(s: string)
    | JArr(items: seq<Json>)
    | JObj(fields: map<string, Json>)
}
