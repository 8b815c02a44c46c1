/**
 The upstream match document as the gateway sees it: whatever JSON value the
 upstream body decodes to. The gateway never looks inside it except to ask
 whether it is "present", which the program decides by the truth
 value of the decoded object.
 */
module Json {

  /** A decoded JSON value. `JNull` is the program's `None`: both the empty
      cache at start-up and a body that decodes to `null` are this value. */
  datatype Json =
    | JNull
    | JBool(b: bool)
    | JNum(n: int)
    | JStr(s: string)
    | JArr(items: seq<Json>)
    | JObj(members: seq<(string, Json)>)

  /** The truth value of a decoded document: `None`, `False`, zero, the empty
      string, the empty list and the empty object are false, everything else
      is true. */
  predicate IsTruthy(j: Json)
    ensures !IsTruthy(j) <==> j in {JNull, JBool(false), JNum(0), JStr(""), JArr([]), JObj([])}
  {
    match j
    case JNull => false
    case JBool(b) => b
    case JNum(n) => n != 0
    case JStr(s) => s != ""
    case JArr(items) => items != []
    case JObj(members) => members != []
  }
}
