/**
 * Loosely typed JSON as a JavaScript program sees it after `response.json()`, together with
 * the three JavaScript behaviours the extraction normalisers rely on: falsiness (`||`),
 * reading a property (which throws on `null`/`undefined`) and `Array.prototype.map`
 * (which does not exist on a non-array).
 */
module JsValue {
  import opened Wrappers

  /** A parsed JSON document, plus `undefined` for a property that is not there. */
  datatype JsonValue =
    | Undefined
    | Null
    | Bool(b: bool)
    | Num(n: real)
    | Str(s: string)
    | Arr(elems: seq<JsonValue>)
    | Obj(fields: map<string, JsonValue>)

  /** JavaScript truthiness: `undefined`, `null`, `false`, `0` and `""` are falsy; all else is truthy. */
  predicate Truthy(v: JsonValue) {
    match v
    case Undefined => false
    case Null => false
    case Bool(b) => b
    case Num(n) => n != 0.0
    case Str(s) => s != ""
    case Arr(_) => true
    case Obj(_) => true
  }

  predicate Nullish(v: JsonValue) {
    v.Undefined? || v.Null?
  }

  /** `a || b`: the left operand when it is truthy, the right one otherwise. */
  function Or(a: JsonValue, b: JsonValue): JsonValue {
    if Truthy(a) then a else b
  }

  /** A property of a value that is not `null`/`undefined`: `undefined` when absent. */
  function Field(v: JsonValue, key: string): JsonValue {
    if v.Obj? && key in v.fields then v.fields[key] else Undefined
  }

  /** The 1-based position `idx + 1` as a JSON number. */
  function Position(idx: nat): JsonValue {
    Num((idx + 1) as real)
  }

  /** `v || []` is an array none of whose elements is `null`/`undefined`. */
  predicate NoNullishElements(v: JsonValue) {
    !Truthy(v) || (v.Arr? && forall i :: 0 <= i < |v.elems| ==> !Nullish(v.elems[i]))
  }

  /** What a normaliser can throw: each is a JavaScript `Error` whose `message` the engine words. */
  datatype Fault =
    | ReadOfNullish(key: string)   // TypeError: reading `key` of null or undefined
    | NotAFunction(key: string)    // TypeError: `x.key.map` is not a function
    | InvalidJson                  // SyntaxError from `response.json()`

  /** `v.key`: throws on `null`/`undefined`, yields `undefined` when `v` has no such property. */
  function Get(v: JsonValue, key: string): Result<JsonValue, Fault> {
    match v
    case Undefined => Err(ReadOfNullish(key))
    case Null => Err(ReadOfNullish(key))
    case Obj(m) => Ok(if key in m then m[key] else Undefined)
    case _ => Ok(Undefined)
  }

  /** `(v || [])` about to be `.map`ped: its elements, or the TypeError for a truthy non-array. */
  function ElementsOrEmpty(v: JsonValue, key: string): Result<seq<JsonValue>, Fault> {
    if !Truthy(v) then Ok([])
    else if v.Arr? then Ok(v.elems)
    else Err(NotAFunction(key))
  }

  /**
   * `elems.map(f)` where `f(element, index)` may throw: every element is visited left to right and
   * the first throw ends the map.
   */
  function MapIndexed<T>(elems: seq<JsonValue>, f: (JsonValue, nat) -> Result<T, Fault>): (r: Result<seq<T>, Fault>)
    ensures r.Ok? <==> forall i :: 0 <= i < |elems| ==> f(elems[i], i).Ok?
    ensures r.Ok? ==> |r.value| == |elems| && forall i :: 0 <= i < |elems| ==> r.value[i] == f(elems[i], i).value
    ensures r.Err? ==> exists k :: 0 <= k < |elems| && f(elems[k], k) == Err(r.error)
                                   && forall i :: 0 <= i < k ==> f(elems[i], i).Ok?
    decreases |elems|
  {
    if elems == [] then Ok([])
    else
      var n := |elems| - 1;
      var front := MapIndexed(elems[..n], f);
      if front.Err? then front
      else
        var last := f(elems[n], n);
        if last.Err? then Err(last.error) else Ok(front.value + [last.value])
  }
}
