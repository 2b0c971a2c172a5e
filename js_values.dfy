/** JavaScript values as the crawler sees them: the field values of a record,
    JavaScript truthiness, and property lookup on a plain object. */
module JsValues {

  datatype Option<+T> = None | Some(value: T)

  /** A JavaScript value stored in a record field. Numbers are modelled as
      integers; every object that is not a Date (arrays, the request debug
      descriptor, nested objects) is an `Opaque` object identified by `id`.
      `Inherited(name)` is what a lookup of `name` finds on `Object.prototype`:
      a method, or the prototype itself for `__proto__`. */
  datatype Value =
    | Undefined
    | Null
    | Bool(b: bool)
    | Num(n: int)
    | Str(s: string)
    | Time(ms: int)
    | Opaque(id: nat)
    | Inherited(name: string)

  /** A plain object: its own enumerable string-keyed properties. Its
      prototype is `Object.prototype`. */
  type Record = map<string, Value>

  /** The property names every plain object inherits from `Object.prototype`. */
  const OBJECT_PROTOTYPE_NAMES: set<string> := {
    "constructor", "hasOwnProperty", "isPrototypeOf", "propertyIsEnumerable",
    "toLocaleString", "toString", "valueOf", "__proto__",
    "__defineGetter__", "__defineSetter__", "__lookupGetter__", "__lookupSetter__"}

  /** The accessor name whose setter changes an object's prototype instead of
      adding a property; it ignores a value that is not an object. */
  const PROTO_KEY := "__proto__"

  /** JavaScript truthiness: `undefined`, `null`, `false`, `0` and `""` are falsy,
      every object is truthy. */
  predicate Truthy(v: Value) {
    match v
    case Undefined => false
    case Null => false
    case Bool(b) => b
    case Num(n) => n != 0
    case Str(s) => s != ""
    case Time(_) => true
    case Opaque(_) => true
    case Inherited(_) => true
  }

  /** `obj[key]`: an own property is read as it is; otherwise the lookup goes
      on to `Object.prototype`, and only a name found on neither reads as
      `undefined`. */
  function Get(r: Record, key: string): Value {
    if key in r then r[key]
    else if key in OBJECT_PROTOTYPE_NAMES then Inherited(key)
    else Undefined
  }

  /** A name that `Object.prototype` provides is never missing from a plain
      object: the inherited member is truthy even when the object does not
      have that property of its own. */
  lemma InheritedNameIsTruthy(r: Record, key: string)
    requires key !in r && key in OBJECT_PROTOTYPE_NAMES
    ensures Get(r, key) == Inherited(key) && Truthy(Get(r, key))
  {
  }
}
