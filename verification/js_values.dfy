/**
 The small part of JavaScript's value semantics that the two Lambda handlers
 depend on: which values a property read throws on, what a read of a missing
 property yields, and how a synchronous throw differs from a rejected promise.
 */
module JsValues {

  /** A JavaScript value as the handlers inspect it. An object is represented
      only by the one property the verification handler ever reads, `Domain`;
      an object without that key is `Object(Undefined)`. */
  datatype JsValue =
    | Undefined
    | Null
    | Str(s: string)
    | Object(domain: JsValue)

  /** A value that is thrown, synchronously or as the reason of a rejected promise. */
  datatype Thrown =
    | TypeError                     // a property read on `undefined` or `null`
    | ServiceError(code: string)    // an error object produced by the AWS SDK
    | DeliveryError(reason: string) // thrown by the code that sends a report

  /** How a synchronous evaluation ends: with a value, or by throwing. */
  datatype Completion<T> = Normal(value: T) | Abrupt(thrown: Thrown)

  /** How a promise settles. */
  datatype Settled<T> = Fulfilled(value: T) | Rejected(reason: Thrown)

  /** `undefined` and `null`: the values on which any property read throws. */
  predicate IsNullish(v: JsValue)
  {
    v.Undefined? || v.Null?
  }

  /** The property read `v.Domain`. A string has no `Domain` property, so the
      read yields `undefined` rather than throwing. */
  function ReadDomain(v: JsValue): (r: Completion<JsValue>)
    ensures r.Abrupt? <==> IsNullish(v)
    ensures r.Abrupt? ==> r.thrown == TypeError
    ensures v.Str? ==> r == Normal(Undefined)
    ensures v.Object? ==> r == Normal(v.domain)
  {
    match v
    case Undefined => Abrupt(TypeError)
    case Null => Abrupt(TypeError)
    case Str(_) => Normal(Undefined)
    case Object(d) => Normal(d)
  }
}
