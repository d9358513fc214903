/** JSON-shaped values: the arguments a model sends to a tool and the keyword arguments a tool receives. */
module Json {

  /** A decoded JSON value. Numbers are modelled as integers. */
  datatype Json =
    | JNull
    | JBool(b: bool)
    | JNum(n: int)
    | JStr(s: string)
    | JArr(items: seq<Json>)
    | JObj(fields: map<string, Json>)

  /** The empty mapping `{}`. */
  const EmptyObject: Json := JObj(map[])

  /** Python truthiness of the decoded value: `None`, `False`, `0`, `""`, `[]` and `{}` are falsy. */
  predicate Truthy(j: Json) {
    match j
    case JNull => false
    case JBool(b) => b
    case JNum(n) => n != 0
    case JStr(s) => s != ""
    case JArr(xs) => xs != []
    case JObj(m) => m != map[]
  }

  /** Keyword lookup with Python's default of `None` for a parameter that was not passed. */
  function Arg(args: map<string, Json>, key: string): Json {
    if key in args then args[key] else JNull
  }

  /** Keyword lookup with the parameter's declared default. */
  function ArgOr(args: map<string, Json>, key: string, default: Json): (j: Json)
    ensures key in args ==> j == args[key]
    ensures key !in args ==> j == default
  {
    if key in args then args[key] else default
  }
}
