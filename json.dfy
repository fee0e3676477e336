/** Parsed JSON values, as exchanged between the browser client and the
    calculation service, with the JavaScript reading rules the client
    applies to them. */
module Json {
  import opened Wrappers

  datatype JValue =
    | JNull
    | JBool(b: bool)
    | JNum(n: real)
    | JStr(s: string)
    | JArr(items: seq<JValue>)
    | JObj(fields: map<string, JValue>)

  /** JavaScript truthiness of a parsed JSON value: null, false, 0 and the
      empty string are falsy; every array and object is truthy. */
  predicate Truthy(v: JValue) {
    match v
    case JNull => false
    case JBool(b) => b
    case JNum(n) => n != 0.0
    case JStr(s) => s != ""
    case JArr(_) => true
    case JObj(_) => true
  }

  /** `v.key` for a value `v` that is not null: the property when `v` is an
      object that has it, `undefined` (None) otherwise. */
  function Member(v: JValue, key: string): Option<JValue> {
    if v.JObj? && key in v.fields then Some(v.fields[key]) else None
  }
}
