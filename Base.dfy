/** Python values as the command-line layer handles them: the keyword
    arguments click hands to `render`, the entries of the `args` mapping and
    the attributes of `ClickArgs`. */
module PyValues {

  datatype Option<+T> = None | Some(value: T)

  /** A Python value. Only the shapes the command layer passes around are
      distinguished; a context object, a `Path` or a float is `Opaque`. */
  datatype Val =
    | NoneVal
    | Flag(b: bool)
    | Text(s: string)
    | Texts(items: seq<string>)
    | Ints(tuple: seq<int>)
    | Opaque(id: nat)

  /** Python truthiness, as `if value:` evaluates it. */
  predicate Truthy(v: Val)
  {
    match v
    case NoneVal => false
    case Flag(b) => b
    case Text(s) => s != []
    case Texts(items) => items != []
    case Ints(tuple) => tuple != []
    case Opaque(_) => true
  }
}
