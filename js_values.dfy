/**
 * The option bags of the binding (connection options, request options, hook
 * options) are plain JavaScript objects. This module models them as finite maps
 * from property names to values, together with the two object operations the
 * binding uses on them: the spread merge `{...a, ...b}` and the rest pattern
 * `{k, ...rest} = o`.
 */
module JsValues {
  import opened Wrappers

  /** A property value. Floating point numbers are modelled as integers. */
  datatype Value =
    | Undefined
    | Null
    | Bool(b: bool)
    | Number(n: int)
    | Str(s: string)
    | Bytes(bytes: seq<bv8>)
    | Obj(id: nat)   // an object, array or function, identified by reference

  /** An object's own enumerable properties. */
  type Options = map<string, Value>

  /** JavaScript truthiness of a value. */
  predicate Truthy(v: Value) {
    match v
    case Undefined => false
    case Null => false
    case Bool(b) => b
    case Number(n) => n != 0
    case Str(s) => s != ""
    case Bytes(_) => true
    case Obj(_) => true
  }

  /** Reading `o.key`: an absent property reads as `undefined`. */
  function Read(o: Options, key: string): (v: Value)
    ensures key !in o ==> v == Undefined
    ensures key in o ==> v == o[key]
  {
    if key in o then o[key] else Undefined
  }

  /** The properties that spreading `o` contributes: none for `undefined`. */
  function Own(o: Option<Options>): (m: Options)
    ensures o.None? ==> m == map[]
    ensures o.Some? ==> m == o.value
  {
    o.GetOr(map[])
  }

  /**
   * `{...base, ...over}`: every property of either side is present, a property
   * of `over` wins (even when its value is `undefined`), and every other
   * property of `base` is kept.
   */
  function Spread(base: Option<Options>, over: Option<Options>): (r: Options)
    ensures r.Keys == Own(base).Keys + Own(over).Keys
    ensures forall k :: k in Own(over) ==> r[k] == Own(over)[k]
    ensures forall k :: k in Own(base) && k !in Own(over) ==> r[k] == Own(base)[k]
  {
    Own(base) + Own(over)
  }

  /** The `rest` of the pattern `{key, ...rest} = o`: all properties but `key`. */
  function Omit(o: Options, key: string): (rest: Options)
    ensures rest.Keys == o.Keys - {key}
    ensures forall k :: k in rest ==> rest[k] == o[k]
  {
    map k | k in o && k != key :: o[k]
  }

  /** Spreading nothing over an object gives back the same properties. */
  lemma SpreadNothing(base: Options)
    ensures Spread(Some(base), None) == base
    ensures Spread(Some(base), Some(map[])) == base
  {
  }

  /** A worked merge: `{a: 1, b: 2}` updated with `{b: 3}`. */
  lemma SpreadExample()
    ensures Spread(Some(map["a" := Number(1), "b" := Number(2)]), Some(map["b" := Number(3)]))
            == map["a" := Number(1), "b" := Number(3)]
  {
  }

  /** Merging is idempotent: spreading the same update twice adds nothing. */
  lemma SpreadIdempotent(base: Option<Options>, over: Option<Options>)
    ensures Spread(Some(Spread(base, over)), over) == Spread(base, over)
  {
  }
}
