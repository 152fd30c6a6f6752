/**
 * JavaScript values as LineupLens keeps them in session storage and in its
 * application state, with the three operations the source applies to them:
 * truthiness, strict equality, and a trip through `JSON.stringify` and
 * `JSON.parse`. Numbers are integers here; `NaN` and fractions are not modelled.
 */
module Js {
  import opened Common

  datatype JsValue =
    | Undefined
    | Null
    | Bool(b: bool)
    | Num(n: int)
    | Str(s: string)
    | Arr(items: seq<JsValue>)
    | Obj(fields: map<string, JsValue>)

  /** `!!v`: everything is truthy except `undefined`, `null`, `false`, `0` and `""`. */
  predicate Truthy(v: JsValue) {
    match v
    case Undefined => false
    case Null => false
    case Bool(b) => b
    case Num(n) => n != 0
    case Str(s) => s != ""
    case Arr(_) => true
    case Obj(_) => true
  }

  /** `a === b`: arrays and objects are compared by identity, and a parsed value is never identical to another. */
  predicate StrictEquals(a: JsValue, b: JsValue) {
    !a.Arr? && !a.Obj? && a == b
  }

  /** `v.key` on a value: a missing key, or a value that is not an object, gives `undefined`. */
  function Get(v: JsValue, key: string): (r: JsValue)
    ensures v.Obj? && key in v.fields ==> r == v.fields[key]
    ensures !(v.Obj? && key in v.fields) ==> r == Undefined
  {
    if v.Obj? && key in v.fields then v.fields[key] else Undefined
  }

  /** The numeric value of `v` in arithmetic, or `None` where it is `NaN`; text that reads as a number is not modelled. */
  function ToNumber(v: JsValue): (r: Option<int>)
    ensures v.Num? ==> r == Some(v.n)
    ensures v.Null? ==> r == Some(0)
    ensures v.Undefined? || v.Str? || v.Obj? ==> r == None
  {
    match v
    case Null => Some(0)
    case Bool(b) => Some(if b then 1 else 0)
    case Num(n) => Some(n)
    case Arr(items) => if items == [] then Some(0) else None
    case _ => None
  }

  /** Holds no `undefined` anywhere: exactly the values JSON can carry. */
  predicate IsJson(v: JsValue) {
    match v
    case Undefined => false
    case Arr(items) => forall i :: 0 <= i < |items| ==> IsJson(items[i])
    case Obj(fields) => forall k :: k in fields ==> IsJson(fields[k])
    case _ => true
  }

  /** What a nested value becomes in the JSON text: `undefined` array slots become `null`, `undefined` properties vanish. */
  function Jsonify(v: JsValue): (r: JsValue)
    ensures v != Undefined ==> IsJson(r)
  {
    match v
    case Undefined => Null
    case Arr(items) =>
      Arr(seq(|items|, i requires 0 <= i < |items| => if items[i] == Undefined then Null else Jsonify(items[i])))
    case Obj(fields) => Obj(map k | k in fields && fields[k] != Undefined :: Jsonify(fields[k]))
    case _ => v
  }

  /**
   * `JSON.parse(JSON.stringify(v))`: `None` when `stringify` yields no text,
   * which for the values here happens only for a top-level `undefined`.
   */
  function Serialize(v: JsValue): (r: Option<JsValue>)
    ensures r.None? <==> v == Undefined
    ensures r.Some? ==> IsJson(r.value)
  {
    if v == Undefined then None else Some(Jsonify(v))
  }

  /** A value JSON can carry comes back from the trip unchanged. */
  lemma {:induction false} JsonifyKeepsJson(v: JsValue)
    requires IsJson(v)
    ensures Jsonify(v) == v
  {
    match v
    case Arr(items) =>
      forall i | 0 <= i < |items| ensures Jsonify(items[i]) == items[i] {
        JsonifyKeepsJson(items[i]);
      }
      assert Jsonify(v).items == items;
    case Obj(fields) =>
      forall k | k in fields ensures Jsonify(fields[k]) == fields[k] {
        JsonifyKeepsJson(fields[k]);
      }
      assert Jsonify(v).fields == fields;
    case _ =>
  }

  lemma SerializeRoundTrip(v: JsValue)
    requires IsJson(v)
    ensures Serialize(v) == Some(v)
  {
    JsonifyKeepsJson(v);
  }

  /** A second trip changes nothing. */
  lemma SerializeIdempotent(v: JsValue)
    requires v != Undefined
    ensures Serialize(Serialize(v).value) == Serialize(v)
  {
    JsonifyKeepsJson(Jsonify(v));
  }
}
