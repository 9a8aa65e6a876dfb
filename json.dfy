/**
 * The JSON value tree that an ArduinoJson document holds before it is
 * serialised. Only the tree is modelled; the text and the memory pool are not.
 */
module Json {
  datatype Json =
    | JNull                              // what `(char*)0` stores: a JSON null
    | JBool(b: bool)
    | JNum(v: real)                      // a float member
    | JInt(i: int)                       // an int member
    | JStr(s: string)
    | JObj(fields: map<string, Json>)

  /** A JSON object as the framework hands it to `set_configuration`. */
  type JsonObject = map<string, Json>

  /**
   * `v.as<String>()`: a string value converts to its own text; how ArduinoJson
   * renders any other value as text is a library detail, given as `other`.
   */
  function AsString(v: Json, other: Json -> string): (s: string)
    ensures v.JStr? ==> s == v.s
  {
    if v.JStr? then v.s else other(v)
  }
}
