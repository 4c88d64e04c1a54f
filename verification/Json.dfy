/** JSON values as the Python services hold them. */
module Json {
  import opened Text

  datatype Json =
    | JNull
    | JBool(b: bool)
    | JInt(i: int)
    | JReal(r: real)
    | JStr(s: string)
    | JArr(items: seq<Json>)
    | JObj(fields: Object)

  type Object = map<string, Json>

  /** Python truth value. */
  predicate Truthy(j: Json) {
    match j
    case JNull => false
    case JBool(b) => b
    case JInt(i) => i != 0
    case JReal(r) => r != 0.0
    case JStr(s) => s != ""
    case JArr(items) => items != []
    case JObj(fields) => fields != map[]
  }

  /** These seven values are all that Python takes for false. */
  lemma FalsyExactly(j: Json)
    ensures Truthy(j) <==>
            j !in {JNull, JBool(false), JInt(0), JReal(0.0), JStr(""), JArr([]), JObj(map[])}
  {
  }

  /** `record.get(key)`. */
  function Get(o: Object, key: string): Json { if key in o then o[key] else JNull }

  /** `a or b`. */
  function Or(a: Json, b: Json): Json { if Truthy(a) then a else b }

  /** One argument of `_first_string`: its stripped text when it is a string. */
  function TextOf(j: Json): string { if j.JStr? then Strip(j.s) else "" }

  /** `_first_string(a, b)`. */
  function FirstText(a: Json, b: Json): string { OrElse(TextOf(a), TextOf(b)) }

  function List(j: Json): seq<Json> { if j.JArr? then j.items else [] }
}
