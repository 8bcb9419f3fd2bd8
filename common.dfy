/** Small value types shared by every module of the model. */
module Common {

  /** A JSON field that may be absent (`undefined`/`null` in the source). */
  datatype Option<+T> = None | Some(value: T)

  /** Either a value or an error. */
  datatype Result<+R, +E> = Success(value: R) | Failure(error: E)

  /** One octet of a byte string. */
  type byte = b: int | 0 <= b < 256

  /** JavaScript truthiness of an optional string: absent and "" are both falsy. */
  predicate Truthy(s: Option<string>) {
    s.Some? && s.value != ""
  }

  /** JavaScript truthiness of an optional number: absent and 0 are both falsy. */
  predicate TruthyNum(n: Option<int>) {
    n.Some? && n.value != 0
  }

  /** `x || 0` on an optional number. */
  function OrZero(n: Option<int>): int {
    if TruthyNum(n) then n.value else 0
  }
}
