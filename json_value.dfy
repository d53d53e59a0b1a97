/** The JSON values that cross the wire between the page, the relay and the
    recording service. `JSON.parse` and `JSON.stringify` themselves are not
    modelled: handlers receive them as function parameters. */
module JsonValue {

  datatype Json =
    | JNull
    | JBool(b: bool)
    | JNum(x: real)
    | JStr(s: string)
    | JArr(items: seq<Json>)
    | JObj(members: seq<(string, Json)>)

  /** The member names of an object, in order. */
  function Keys(members: seq<(string, Json)>): (ks: seq<string>)
    ensures |ks| == |members|
    ensures forall i :: 0 <= i < |members| ==> ks[i] == members[i].0
  {
    if members == [] then [] else [members[0].0] + Keys(members[1..])
  }

  /** `{ error: message }`, the error body both relays send. */
  function ErrorBody(message: string): Json
  {
    JObj([("error", JStr(message))])
  }
}
