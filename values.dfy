/** The JavaScript values that flow through the model layer: records, options and
    driver rows, with JavaScript truthiness and a one-level approximation of the merge
    done by `think.extend`. */
module JsValues {

  /** A JavaScript value. Numbers are integers; objects are plain key/value maps. */
  datatype Value =
    | Undefined
    | Null
    | Bool(b: bool)
    | Num(n: int)
    | Str(s: string)
    | Arr(items: seq<Value>)
    | Obj(fields: map<string, Value>)

  /** A plain object seen as its own enumerable properties: a record or an options object. */
  type Record = map<string, Value>

  /** JavaScript truthiness: `undefined`, `null`, `false`, `0` and `""` are falsy, everything else
      (every object and every array, empty or not) is truthy. */
  predicate Truthy(v: Value)
  {
    match v
    case Undefined => false
    case Null => false
    case Bool(b) => b
    case Num(n) => n != 0
    case Str(s) => s != ""
    case Arr(_) => true
    case Obj(_) => true
  }

  /** `think.isObject`: a plain object, not an array and not a primitive. */
  predicate IsObject(v: Value)
  {
    v.Obj?
  }

  /** The properties the model lets `think.extend` copy out of `v`: an object's own fields.
      `undefined` and `null` contribute nothing in JavaScript too; the index properties a
      `for...in` loop finds on an array or a string are not modelled, so those contribute
      nothing here either. */
  function Entries(v: Value): (m: Record)
    ensures IsObject(v) ==> m == v.fields
    ensures !IsObject(v) ==> m == map[]
  {
    if v.Obj? then v.fields else map[]
  }

  /** `obj[key]` on a plain object: the stored value, or `undefined` when the key is absent. */
  function Get(m: Record, key: string): (v: Value)
    ensures key !in m ==> v == Undefined
    ensures key in m ==> v == m[key]
  {
    if key in m then m[key] else Undefined
  }

  /** One level of `think.extend(target, source)`: copies every property of `source` onto
      `target`, the source winning on a key both have and every other key of `target` kept.
      The helper itself merges two plain objects met on the same key recursively; this
      model replaces the target's value instead. */
  function Extend(target: Record, source: Value): (r: Record)
    ensures r.Keys == target.Keys + Entries(source).Keys
    ensures forall k :: k in Entries(source) ==> r[k] == Entries(source)[k]
    ensures forall k :: k in target && k !in Entries(source) ==> r[k] == target[k]
  {
    target + Entries(source)
  }

  /** `think.extend({}, m)` is a copy of `m`: with an empty target there is nothing to
      merge into, at any depth. */
  lemma ExtendEmptyCopies(m: Record)
    ensures Extend(map[], Obj(m)) == m
  {
    assert Extend(map[], Obj(m)).Keys == m.Keys;
  }
}
