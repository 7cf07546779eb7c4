/** The JavaScript value tests the validators are built from. A field of a JSON
    body or of a stored document is either absent (`undefined`), `null`, or holds
    a value; numbers are modelled as `int` (or `real` for the GPA). */
module Js {

  datatype Field<+T> = Undefined | Null | Val(value: T)

  /** `x == undefined` (loose equality): holds of `undefined` and of `null`. */
  predicate LooselyUndefined<T>(f: Field<T>) {
    f.Undefined? || f.Null?
  }

  /** `x === undefined` (strict equality): holds of `undefined` only. */
  predicate StrictlyUndefined<T>(f: Field<T>) {
    f.Undefined?
  }

  /** Truthiness of a string field: absent, `null` and `""` are falsy. */
  predicate TruthyString(f: Field<string>) {
    f.Val? && f.value != ""
  }

  /** Truthiness of an integer field: absent, `null` and `0` are falsy. */
  predicate TruthyInt(f: Field<int>) {
    f.Val? && f.value != 0
  }

  /** Truthiness of a floating-point field: absent, `null` and `0` are falsy. */
  predicate TruthyReal(f: Field<real>) {
    f.Val? && f.value != 0.0
  }

  /** Truthiness of an array or object field: any present value is truthy,
      the empty array included. */
  predicate TruthyObject<T>(f: Field<T>) {
    f.Val?
  }
}
