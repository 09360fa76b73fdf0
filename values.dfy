/** JavaScript values as the router factory's middleware sees them. */
module Values {

  datatype Option<+T> = None | Some(value: T)

  /** A JavaScript value. Numbers are integers here (no fractions, no NaN);
      the entries of an object are listed in the order Object.keys enumerates
      them. A JavaScript object never repeats a key, so only values whose
      objects have distinct keys (`DistinctKeys`) stand for one. */
  datatype Json =
    | JUndefined
    | JNull
    | JBool(b: bool)
    | JNum(n: int)
    | JStr(s: string)
    | JArr(items: seq<Json>)
    | JObj(entries: seq<(string, Json)>)

  /** No key appears twice among an object's entries. */
  predicate DistinctKeys(entries: seq<(string, Json)>) {
    forall i, j :: 0 <= i < j < |entries| ==> entries[i].0 != entries[j].0
  }

  /** JavaScript truthiness: undefined, null, false, 0 and "" are falsy. */
  predicate Truthy(v: Json) {
    match v
    case JUndefined => false
    case JNull => false
    case JBool(b) => b
    case JNum(n) => n != 0
    case JStr(s) => s != ""
    case _ => true
  }

  /** The value of `a || b`. */
  function Or(a: Json, b: Json): (r: Json)
    ensures Truthy(a) ==> r == a
    ensures !Truthy(a) ==> r == b
  {
    if Truthy(a) then a else b
  }

  /** An object literal with a single key, `{ [key]: value }`. */
  function Single(key: string, value: Json): Json {
    JObj([(key, value)])
  }

  /** `parts.join(sep)`. */
  function Join(parts: seq<string>, sep: string): string {
    if |parts| == 0 then ""
    else if |parts| == 1 then parts[0]
    else parts[0] + sep + Join(parts[1..], sep)
  }
}
