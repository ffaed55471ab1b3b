/**
 * The slice of JavaScript semantics the webhook handler relies on: the values
 * that JSON.parse can produce, property access that throws on null and
 * undefined, string conversion as template literals perform it, and the
 * truthiness test of the `!DEBUG` guard.
 */
module Js {

  /** An optional value: a request header or an environment variable that may be absent. */
  datatype Option<+T> = None | Some(value: T)

  /** The outcome of evaluating a JavaScript expression: a value, or a thrown exception. */
  datatype Completion<+T> = Normal(value: T) | Threw {
    predicate IsFailure() { Threw? }

    function PropagateFailure<U>(): Completion<U>
      requires Threw?
    {
      Threw
    }

    function Extract(): T
      requires Normal?
    {
      value
    }
  }

  /**
   * A JavaScript value as produced by JSON.parse, plus `undefined`.
   * A number is carried by the string that JavaScript's Number-to-String
   * conversion gives for it (`42`, `1e+21`, `NaN`), the only form in which
   * the handler ever uses one.
   */
  datatype Value =
    | Undefined
    | Null
    | Bool(b: bool)
    | Num(text: string)
    | Str(s: string)
    | Arr(elems: seq<Value>)
    | Obj(props: map<string, Value>)

  predicate IsNullish(v: Value) {
    v.Undefined? || v.Null?
  }

  /**
   * `v.key` for a key that no built-in prototype defines (every key the
   * handler reads is one): a TypeError on null and undefined, the own
   * property of an object, and undefined otherwise.
   */
  function GetProperty(v: Value, key: string): (r: Completion<Value>)
    ensures r.Threw? <==> IsNullish(v)
  {
    match v
    case Undefined => Threw
    case Null => Threw
    case Obj(props) => Normal(if key in props then props[key] else Undefined)
    case _ => Normal(Undefined)
  }

  /**
   * String conversion as `${v}` performs it. An array is joined with commas,
   * its null and undefined elements giving the empty string. For an object
   * the conversion calls `toString` first: the inherited one gives
   * "[object Object]", but an own `toString` from JSON is not callable, so the
   * conversion falls back to `valueOf`, which yields no primitive (an own
   * `valueOf` is not callable either, the inherited one returns the object)
   * and a TypeError is thrown.
   */
  function ToJsString(v: Value): (r: Completion<string>)
    ensures r.Threw? <==> ConversionThrows(v)
    ensures v.Str? ==> r == Normal(v.s)
    ensures v.Num? ==> r == Normal(v.text)
    ensures v.Bool? ==> r == Normal(if v.b then "true" else "false")
    ensures v == Undefined ==> r == Normal("undefined")
    ensures v == Null ==> r == Normal("null")
    ensures v.Obj? && "toString" !in v.props ==> r == Normal("[object Object]")
  {
    match v
    case Undefined => Normal("undefined")
    case Null => Normal("null")
    case Bool(b) => Normal(if b then "true" else "false")
    case Num(text) => Normal(text)
    case Str(s) => Normal(s)
    case Arr(es) =>
      var parts := seq(|es|, i requires 0 <= i < |es| =>
        if IsNullish(es[i]) then Normal("") else ToJsString(es[i]));
      assert forall i :: 0 <= i < |es| ==> (parts[i].Threw? <==> ConversionThrows(es[i]));
      JoinWithCommas(parts)
    case Obj(props) =>
      if "toString" in props then Threw else Normal("[object Object]")
  }

  /**
   * Whether `${v}` throws: v is an object with an own `toString`, or an array
   * with such a value somewhere among its elements.
   */
  predicate ConversionThrows(v: Value) {
    match v
    case Obj(props) => "toString" in props
    case Arr(es) => exists i :: 0 <= i < |es| && ConversionThrows(es[i])
    case _ => false
  }

  /** Array.prototype.join(",") over already converted elements; the first throw wins. */
  function JoinWithCommas(parts: seq<Completion<string>>): (r: Completion<string>)
    ensures r.Threw? <==> exists i :: 0 <= i < |parts| && parts[i].Threw?
  {
    if parts == [] then Normal("")
    else if parts[0].Threw? then Threw
    else if |parts| == 1 then parts[0]
    else
      match JoinWithCommas(parts[1..])
      case Threw => Threw
      case Normal(tail) => Normal(parts[0].value + "," + tail)
  }

  /**
   * JavaScript's ToBoolean: false exactly for the falsy values undefined,
   * null, false, 0, NaN and the empty string (section 7.1.2 of ECMA-262).
   * The ensures is that table of falsy values, stated for a reader of the
   * definition; the handler's use of it, the `!DEBUG` test, is stated by
   * `Webhook.DebugSetting`.
   */
  predicate Truthy(v: Value)
    ensures Truthy(v) <==> v !in {Undefined, Null, Bool(false), Num("0"), Num("NaN"), Str("")}
  {
    match v
    case Undefined => false
    case Null => false
    case Bool(b) => b
    case Num(text) => text != "0" && text != "NaN"
    case Str(s) => s != ""
    case Arr(_) => true
    case Obj(_) => true
  }
}
