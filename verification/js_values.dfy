/** The small part of JavaScript's value semantics the hook depends on:
    truthiness (`if (x)`, `!x`, `x && …`) and nullish coalescing (`x ?? undefined`).
    Numbers are integers here; NaN and fractional numbers are not modelled. */
module JsValues {

  datatype Option<+T> = None | Some(value: T)

  /** A JavaScript value as the hook sees it: it only ever tests it for
      truthiness, coalesces it, or passes it along. */
  datatype JsValue =
    | Undefined
    | Null
    | Bool(b: bool)
    | Num(n: int)
    | Str(s: string)
    | Obj(id: nat)   // any object, array or function: always truthy

  /** JavaScript truthiness: `undefined`, `null`, `false`, `0` and `""` are falsy. */
  predicate Truthy(v: JsValue) {
    match v
    case Undefined => false
    case Null => false
    case Bool(b) => b
    case Num(n) => n != 0
    case Str(s) => s != ""
    case Obj(_) => true
  }

  /** Truthiness of a number-typed slot that may be `undefined`
      (the `isFromRetryId` argument of the hook's internal execute). */
  predicate TruthyNumber(x: Option<int>) {
    x.Some? && x.value != 0
  }

  /** `v ?? undefined`: null becomes undefined, everything else is kept. */
  function OrUndefined(v: JsValue): (r: JsValue)
    ensures r != Null
    ensures v == Null ==> r == Undefined
    ensures v != Null ==> r == v
    ensures Truthy(r) <==> Truthy(v)
  {
    if v == Null then Undefined else v
  }
}
