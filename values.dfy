/** The dynamically typed values the application keeps in its state, in its
    storage and in its requests, read with the language's own rules for
    truthiness, property lookup and object spread. */
module Values {

  datatype Option<+T> = None | Some(value: T)

  /** A value of the application's scripting language. Numbers are kept as
      integers: nothing in the modelled code does arithmetic on them. */
  datatype Value =
    | Undefined
    | Null
    | Bool(b: bool)
    | Num(n: int)
    | Str(s: string)
    | List(items: seq<Value>)
    | Obj(fields: map<string, Value>)

  /** The language's truthiness: `undefined`, `null`, `false`, `0` and the
      empty string are falsy, every other value (lists and objects included)
      is truthy. */
  predicate Truthy(v: Value)
  {
    match v
    case Undefined => false
    case Null => false
    case Bool(b) => b
    case Num(n) => n != 0
    case Str(s) => s != ""
    case List(_) => true
    case Obj(_) => true
  }

  /** The own properties that `{ ...v }` copies: those of an object, none
      for `undefined`, `null` and the other scalars. */
  function Spread(v: Value): map<string, Value>
  {
    if v.Obj? then v.fields else map[]
  }

  /** `v?.[key]`: the property when `v` is an object holding it, otherwise
      `undefined`. */
  function Lookup(v: Value, key: string): (r: Value)
    ensures key in Spread(v) ==> r == Spread(v)[key]
    ensures key !in Spread(v) ==> r == Undefined
  {
    if v.Obj? && key in v.fields then v.fields[key] else Undefined
  }

  /** An object literal with no properties, `{}`. */
  const EmptyObject: Value := Obj(map[])

  /** An array literal with no elements, `[]`. */
  const EmptyList: Value := List([])
}
