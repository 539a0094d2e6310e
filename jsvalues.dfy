/**
  Number-valued JavaScript properties as the component reads them from its props
  and from image descriptors, with the two JavaScript operations the component
  applies to them: truthiness and strict inequality.
 */
module JsValues {

  /** A property that holds a number, or is undefined, null or NaN. */
  datatype JsNumber = Undefined | Null | NaN | Number(value: real)

  /** JavaScript truthiness: 0, NaN, null and undefined are falsy. */
  predicate Truthy(x: JsNumber)
  {
    x.Number? && x.value != 0.0
  }

  /** JavaScript `!==`: NaN differs from everything, itself included. */
  predicate StrictlyDiffers(a: JsNumber, b: JsNumber)
  {
    a.NaN? || b.NaN? || a != b
  }
}
