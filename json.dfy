/**
 * The JavaScript values that the plugin reads back from storage as `unknown`,
 * and the few language operations the normaliser applies to them: `typeof x
 * === "object"`, property reads, object spread, and a thrown TypeError.
 */
module JsValues {

  /** A JSON-like JavaScript value. Numbers are modelled as integers. */
  datatype Json =
    | Undefined
    | Null
    | Bool(b: bool)
    | Num(n: int)
    | Str(s: string)
    | Arr(items: seq<Json>)
    | Obj(fields: map<string, Json>)

  /** The outcome of evaluating an expression that may throw. */
  datatype Result<+T> = Ok(value: T) | Thrown(message: string)

  /** `v !== undefined && v !== null && typeof v === "object"`: arrays count as objects. */
  predicate IsObject(v: Json) {
    v.Obj? || v.Arr?
  }

  /**
   * Reading the named property `v.key`. Reading a property of `null` or
   * `undefined` throws a TypeError, so every read needs a value that is
   * neither. Only objects own the non-numeric keys this model reads, so a
   * boolean, number, string or array yields `undefined`.
   */
  function Get(v: Json, key: string): (r: Json)
    requires !v.Null? && !v.Undefined?
    ensures !v.Obj? ==> r == Undefined
    ensures v.Obj? && key in v.fields ==> r == v.fields[key]
    ensures v.Obj? && key !in v.fields ==> r == Undefined
  {
    if v.Obj? && key in v.fields then v.fields[key] else Undefined
  }

  /** The decimal property key of an array or string index (`String(n)`). */
  function IndexKey(n: nat): (r: string)
    ensures |r| > 0
    ensures forall k :: 0 <= k < |r| ==> '0' <= r[k] <= '9'
  {
    var digit := ['0' + (n % 10) as char];
    if n < 10 then digit else IndexKey(n / 10) + digit
  }

  /** The own enumerable properties of the elements of `xs`, keyed by index. */
  function IndexedEntries(xs: seq<Json>): map<string, Json>
  {
    if xs == [] then map[]
    else IndexedEntries(xs[..|xs| - 1])[IndexKey(|xs| - 1) := xs[|xs| - 1]]
  }

  lemma {:induction false} IndexedEntriesKeys(xs: seq<Json>, key: string)
    requires key in IndexedEntries(xs)
    ensures exists k :: 0 <= k < |xs| && key == IndexKey(k)
  {
    if key != IndexKey(|xs| - 1) {
      IndexedEntriesKeys(xs[..|xs| - 1], key);
    }
  }

  /**
   * The properties `{...v}` copies: an object's own fields, the indexed
   * elements of an array or the characters of a string, and nothing for
   * the other primitives.
   */
  function Spread(v: Json): (m: map<string, Json>)
    ensures v.Obj? ==> m == v.fields
    ensures !v.Obj? && !v.Arr? && !v.Str? ==> m == map[]
  {
    match v
    case Obj(fields) => fields
    case Arr(items) => IndexedEntries(items)
    case Str(s) => IndexedEntries(seq(|s|, k requires 0 <= k < |s| => Str([s[k]])))
    case _ => map[]
  }

  /** Every key of a spread non-object is an index key: it is none of the named keys. */
  lemma {:induction false} SpreadOfNonObjectHasOnlyIndexKeys(v: Json, key: string)
    requires !v.Obj? && key in Spread(v)
    ensures |key| > 0 && '0' <= key[0] <= '9'
  {
    if v.Arr? {
      IndexedEntriesKeys(v.items, key);
    } else {
      IndexedEntriesKeys(seq(|v.s|, k requires 0 <= k < |v.s| => Str([v.s[k]])), key);
    }
  }

  /** Spreading a value into a fresh object keeps every named (non-index) property it reads as. */
  lemma SpreadKeepsNamedProperty(v: Json, key: string)
    requires !v.Null? && !v.Undefined?
    requires |key| > 0 && !('0' <= key[0] <= '9')
    ensures Get(Obj(Spread(v)), key) == Get(v, key)
  {
    if !v.Obj? && key in Spread(v) {
      SpreadOfNonObjectHasOnlyIndexKeys(v, key);
    }
  }
}
