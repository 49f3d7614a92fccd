/**
 JavaScript values and object bags, as far as the REST facade looks at them.

 The facade never inspects nested objects; it only reads and deletes
 top-level keys, tests them with `angular.isDefined` or the `in` operator,
 and tests one of them for truthiness. A value is therefore one of a few
 primitive shapes, and an object is a map from property names to values.
 */
module JsValues {

  datatype Option<+T> = None | Some(value: T)

  /** A JavaScript value. `Other` stands for any object, array or function,
      whose contents the facade never reads. */
  datatype Value =
    | Undefined
    | Null
    | Bool(b: bool)
    | Num(n: int)
    | Str(s: string)
    | Other

  /** The properties of a plain JavaScript object. A key may be present and
      still hold `Undefined`, exactly as in JavaScript. */
  type Bag = map<string, Value>

  /** JavaScript truthiness: `undefined`, `null`, `false`, `0` and `''` are
      falsy, everything else is truthy. */
  predicate Truthy(v: Value)
  {
    match v
    case Undefined => false
    case Null => false
    case Bool(b) => b
    case Num(n) => n != 0
    case Str(s) => s != ""
    case Other => true
  }

  /** `obj[key]`: a missing property reads as `undefined`. */
  function Lookup(obj: Bag, key: string): (v: Value)
    ensures key !in obj ==> v == Undefined
    ensures key in obj ==> v == obj[key]
  {
    if key in obj then obj[key] else Undefined
  }

  /** `angular.isDefined(obj[key])`: the property reads as something other
      than `undefined`. */
  predicate IsDefined(obj: Bag, key: string)
  {
    key in obj && obj[key] != Undefined
  }

  /** `a` and `b` agree on `key`: both lack it, or both hold the same value. */
  predicate SameAt(a: Bag, b: Bag, key: string)
  {
    (key in a <==> key in b) && (key in a ==> a[key] == b[key])
  }

  /** `if (angular.isDefined(obj[key])) { delete obj[key]; }` as a value:
      the guarded delete the facade uses for optional keys. */
  function DeleteIfDefined(obj: Bag, key: string): (r: Bag)
    ensures !IsDefined(r, key)
    ensures key in r <==> key in obj && obj[key] == Undefined
    ensures key in r ==> r[key] == Undefined
    ensures !IsDefined(obj, key) ==> r == obj
    ensures r - {key} == obj - {key}
  {
    if IsDefined(obj, key) then obj - {key} else obj
  }

  /** A JavaScript object that the facade changes in place. */
  class JsObject {
    var fields: Bag

    constructor (init: Bag)
      ensures fields == init
    {
      fields := init;
    }

    /** `delete this[key]`: removing a missing key is harmless. */
    method Delete(key: string)
      modifies this
      ensures fields == old(fields) - {key}
    {
      fields := fields - {key};
    }

    /** `this[key] = v`. */
    method Put(key: string, v: Value)
      modifies this
      ensures fields == old(fields)[key := v]
    {
      fields := fields[key := v];
    }
  }
}
