/**
  The slice of JavaScript's value universe that the attribute core touches:
  the two "absent" values, primitives, object references compared by
  identity, and Error objects (which is how validation errors and thrown
  exceptions appear). Strict equality `===` is Dafny's `==` on these values;
  numbers are integers, so NaN and -0 do not arise.
 */
module JsValues {

  datatype Option<+T> = None | Some(value: T)

  datatype JsValue =
    | Undefined
    | Null
    | Bool(b: bool)
    | Num(n: int)
    | Str(s: string)
    | Obj(id: nat)
    | ErrorObj(name: string, message: string)

  /** JavaScript truthiness: `!v` is false exactly for these values. */
  predicate Falsy(v: JsValue) {
    v == Undefined || v == Null || v == Bool(false) || v == Num(0) || v == Str("")
  }

  /** How a call ends: it returns a value or throws one. */
  datatype Completion = Normal(value: JsValue) | Throw(error: JsValue)

  /** A settled promise, as `fulfill(x)` and `Vow.reject(e)` produce it. */
  datatype Promise = Fulfilled(result: JsValue) | Rejected(reason: JsValue)

  /** `new Error(message)`. */
  function Error(message: string): (e: JsValue)
    ensures e.ErrorObj? && e.name == "Error" && e.message == message
    ensures !Falsy(e)
  {
    ErrorObj("Error", message)
  }
}
