/** JSON values as the services send and receive them (Python dicts, lists and scalars), with
    Python's truthiness and `str()`. Objects are maps: the insertion order of a Python dict is
    not part of this model. */
module Json {
  import opened Wrappers
  import Text

  datatype Json =
    | JNull
    | JBool(b: bool)
    | JInt(i: int)
    | JStr(s: string)
    | JArr(items: seq<Json>)
    | JObj(fields: map<string, Json>)

  /** The empty object `{}`. */
  const EmptyObject: Json := JObj(map[])

  /** Python truthiness: `None`, `False`, `0`, `""`, `[]` and `{}` are false. */
  predicate Truthy(j: Json) {
    match j
    case JNull => false
    case JBool(b) => b
    case JInt(i) => i != 0
    case JStr(s) => s != ""
    case JArr(items) => items != []
    case JObj(fields) => fields != map[]
  }

  /** `x or {}`: the value itself when truthy, else an empty object. */
  function OrEmpty(j: Json): (r: Json)
    ensures Truthy(j) ==> r == j
    ensures !Truthy(j) ==> r == EmptyObject
  {
    if Truthy(j) then j else EmptyObject
  }

  /** Python's `type(x).__name__` for a decoded JSON value. */
  function TypeName(j: Json): string {
    match j
    case JNull => "NoneType"
    case JBool(_) => "bool"
    case JInt(_) => "int"
    case JStr(_) => "str"
    case JArr(_) => "list"
    case JObj(_) => "dict"
  }

  /** An optional string argument that Python's `if x:` accepts: present and non-empty. */
  predicate Given(text: Option<string>) {
    text.Some? && text.value != ""
  }

  /** A scalar a caller can pass as a PostgREST filter value. */
  datatype Scalar = NoneValue | BoolValue(b: bool) | IntValue(i: int) | StrValue(s: string)

  /** Python's `str()` of a scalar, as an f-string interpolates it. */
  function PyStr(v: Scalar): (r: string)
    ensures v.StrValue? ==> r == v.s
    ensures v.IntValue? ==> r == Text.IntToString(v.i)
  {
    match v
    case NoneValue => "None"
    case BoolValue(b) => if b then "True" else "False"
    case IntValue(i) => Text.IntToString(i)
    case StrValue(s) => s
  }

  /** A string list as a JSON array. */
  function StrArray(xs: seq<string>): (r: Json)
    ensures r.JArr? && |r.items| == |xs|
    ensures forall i :: 0 <= i < |xs| ==> r.items[i] == JStr(xs[i])
  {
    JArr(seq(|xs|, i requires 0 <= i < |xs| => JStr(xs[i])))
  }
}
