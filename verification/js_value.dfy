/**
 * JavaScript values as the modelled code observes them: truthiness,
 * `typeof x === 'object'`, property reads, and the own enumerable entries
 * that an object spread `{...a, ...b}` copies.
 */
module JsValue {
  import opened Results
  import opened OrderedMap
  import Text

  /**
   * A JavaScript value. Numbers are reals (NaN is not modelled); functions
   * are opaque and known only by name; objects are insertion-ordered maps.
   */
  datatype Value =
    | Undefined
    | Null
    | Bool(b: bool)
    | Num(n: real)
    | Str(s: string)
    | Arr(items: seq<Value>)
    | Obj(fields: OMap<Value>)
    | Fun(name: string)

  /** An execution context or variable object: name to value. */
  type Context = OMap<Value>

  /** `!!v`. */
  predicate Truthy(v: Value) {
    match v
    case Undefined => false
    case Null => false
    case Bool(b) => b
    case Num(n) => n != 0.0
    case Str(s) => s != ""
    case _ => true
  }

  /** `typeof v === 'object'`: objects, arrays and `null`. */
  predicate IsObjectType(v: Value) {
    v.Obj? || v.Arr? || v.Null?
  }

  /** `obj[k]` on a plain object: an absent key reads as `undefined`. */
  function Lookup(m: Context, k: string): (v: Value)
    ensures HasKey(m, k) <==> Get(m, k) == Some(v)
    ensures !HasKey(m, k) ==> v == Undefined
  {
    match Get(m, k)
    case Some(v) => v
    case None => Undefined
  }

  /**
   * `v[key]` for a non-index property name on a value that is not
   * `null`/`undefined`: only plain objects own such properties here.
   */
  function Field(v: Value, key: string): Value {
    if v.Obj? then Lookup(v.fields, key) else Undefined
  }

  /** Index-keyed entries of a sequence, as arrays and strings expose them. */
  function Indexed<T>(xs: seq<T>, f: T -> Value): (es: OMap<Value>)
    ensures |es| == |xs|
    ensures forall i :: 0 <= i < |xs| ==> es[i] == (Text.DecimalString(i), f(xs[i]))
  {
    seq(|xs|, i requires 0 <= i < |xs| => (Text.DecimalString(i), f(xs[i])))
  }

  /** The own enumerable string-keyed entries that `{...v}` copies, in order. */
  function OwnEntries(v: Value): OMap<Value> {
    match v
    case Obj(fields) => fields
    case Arr(items) => Indexed(items, (x: Value) => x)
    case Str(s) => Indexed(s, (c: char) => Str([c]))
    case _ => []
  }

  /** `{...m, ...v}`. */
  function Spread(m: Context, v: Value): (r: Context)
    ensures forall k :: !HasKey(OwnEntries(v), k) ==> Get(r, k) == Get(m, k)
    ensures forall k :: HasKey(OwnEntries(v), k) ==> Get(r, k) == LastValue(OwnEntries(v), k)
  {
    PutAll(m, OwnEntries(v))
  }

  /** Spreading a primitive other than a string, or `null`/`undefined`, adds nothing. */
  lemma SpreadPrimitive(m: Context, v: Value)
    requires v.Undefined? || v.Null? || v.Bool? || v.Num? || v.Fun?
    ensures Spread(m, v) == m
  {
  }
}
