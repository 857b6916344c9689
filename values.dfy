/** JavaScript values as the publication sees them: the parsed selector
    objects a client sends, the values their keys hold, and the truthiness
    tests the code applies to them. */
module Values {

  datatype Option<+T> = None | Some(value: T)

  /** A JSON-like JavaScript value. Numbers are integers here. */
  datatype Value =
    | Null
    | Bool(b: bool)
    | Num(n: int)
    | Str(s: string)
    | Arr(items: seq<Value>)
    | Obj(fields: map<string, Value>)

  /** A Mongo selector: a plain object from key to condition. */
  type Selector = map<string, Value>

  /** JavaScript truthiness: `null`, `false`, `0` and `""` are falsy;
      every array and every object, even an empty one, is truthy. */
  predicate Truthy(v: Value)
  {
    match v
    case Null => false
    case Bool(b) => b
    case Num(n) => n != 0
    case Str(s) => s != ""
    case Arr(_) => true
    case Obj(_) => true
  }

  /** `obj.key` read in a boolean position: an absent key reads as
      `undefined`, which is falsy. */
  predicate TruthyAt(m: Selector, key: string)
  {
    key in m && Truthy(m[key])
  }

  /** Underscore's `_.isEmpty` on an object: it has no own keys. */
  predicate IsEmpty(m: Selector)
  {
    |m| == 0
  }
}
