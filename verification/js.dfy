/** The part of JavaScript's value semantics that the worker's fetch handlers
    depend on: JSON-shaped values, truthiness, the `||` operator, property reads
    on a parsed request body, template-literal conversion of an environment
    variable, and the normal/throw outcome of evaluating an expression. */
module Js {

  datatype Option<+T> = None | Some(value: T)

  /** The completion of evaluating an expression: a value, or a thrown error
      whose `message` the handler's `catch` block reads. */
  datatype Completion<+T> = Normal(value: T) | Throw(message: string)

  /** A value produced by `JSON.parse`, plus `undefined` (what reading a missing
      property yields). Numbers are unbounded reals; JSON has no NaN. */
  datatype JsVal =
    | Undefined
    | Null
    | Bool(b: bool)
    | Num(n: real)
    | Str(s: string)
    | Arr(items: seq<JsVal>)
    | Obj(props: map<string, JsVal>)

  /** ToBoolean: undefined, null, false, 0 and "" are falsy; every array and
      object, even an empty one, is truthy. */
  predicate Truthy(v: JsVal) {
    match v
    case Undefined => false
    case Null => false
    case Bool(b) => b
    case Num(n) => n != 0.0
    case Str(s) => s != ""
    case Arr(_) => true
    case Obj(_) => true
  }

  predicate Nullish(v: JsVal) {
    v.Undefined? || v.Null?
  }

  /** `a || b`: yields one of its operands, never a coerced boolean. */
  function Or(a: JsVal, b: JsVal): JsVal {
    if Truthy(a) then a else b
  }

  /** Reference meaning of a chain `xs[0] || xs[1] || ... || xs[n-1]`: the first
      truthy operand, or the last operand when none is truthy. */
  function FirstTruthy(xs: seq<JsVal>): (r: JsVal)
    requires |xs| > 0
    ensures exists i :: 0 <= i < |xs| && xs[i] == r && (Truthy(r) || i == |xs| - 1)
                        && forall j :: 0 <= j < i ==> !Truthy(xs[j])
  {
    if |xs| == 1 || Truthy(xs[0]) then xs[0]
    else
      var r := FirstTruthy(xs[1..]);
      assert forall k :: 0 <= k < |xs| - 1 ==> xs[1..][k] == xs[k + 1];
      r
  }

  /** Appending one more `|| y` to a chain extends the first-truthy search by one
      operand; this is what makes a left-nested `||` chain mean FirstTruthy. */
  lemma {:induction false} OrExtends(xs: seq<JsVal>, y: JsVal)
    requires |xs| > 0
    ensures Or(FirstTruthy(xs), y) == FirstTruthy(xs + [y])
  {
    var ys := xs + [y];
    if |xs| == 1 {
      assert ys[1..] == [y];
    } else if !Truthy(xs[0]) {
      assert ys[1..] == xs[1..] + [y];
      OrExtends(xs[1..], y);
    }
  }

  /** `a || b` is the first-truthy search over its two operands. */
  lemma OrPair(a: JsVal, b: JsVal)
    ensures Or(a, b) == FirstTruthy([a, b])
  {
  }

  /** `a || b || c || d`, evaluated left to right as JavaScript nests it. */
  lemma OrChain(a: JsVal, b: JsVal, c: JsVal, d: JsVal)
    ensures Or(Or(Or(a, b), c), d) == FirstTruthy([a, b, c, d])
  {
    OrPair(a, b);
    OrExtends([a, b], c);
    assert [a, b] + [c] == [a, b, c];
    OrExtends([a, b, c], d);
    assert [a, b, c] + [d] == [a, b, c, d];
  }

  /** `v[key]` on a value that is neither null nor undefined. No key the
      handlers read exists on a prototype of a JSON value, so a missing own
      property and every primitive or array yield undefined. */
  function Get(v: JsVal, key: string): JsVal
    requires !Nullish(v)
  {
    match v
    case Obj(m) => if key in m then m[key] else Undefined
    case _ => Undefined
  }

  /** The TypeError message V8 throws for `v[key]` when `v` is null or undefined. */
  function ReadError(v: JsVal, key: string): string
    requires Nullish(v)
  {
    "Cannot read properties of " + (if v.Null? then "null" else "undefined")
    + " (reading '" + key + "')"
  }

  /** An environment variable that may be unset, as a JavaScript value. */
  function EnvVal(o: Option<string>): JsVal {
    match o
    case Some(s) => Str(s)
    case None => Undefined
  }

  /** String conversion of an environment variable inside a template literal
      or a header value: an unset one becomes the text "undefined". */
  function ToText(o: Option<string>): string {
    match o
    case Some(s) => s
    case None => "undefined"
  }
}
