/** Checked 64-bit money, as the planner, the decision card and the evidence planners use it. */
module CheckedMoney {

  const I64_MIN: int := -0x8000_0000_0000_0000
  const I64_MAX: int := 0x7fff_ffff_ffff_ffff

  predicate Fits(x: int) {
    I64_MIN <= x <= I64_MAX
  }

  /** A signed 64-bit amount of minor units. */
  type i64 = x: int | I64_MIN <= x <= I64_MAX

  datatype Option<+T> = None | Some(value: T)

  /** The outcome of an operation that refuses with an error code. */
  datatype Result<+T> = Ok(value: T) | Err(error: string) {
    predicate IsFailure() {
      Err?
    }

    function PropagateFailure<U>(): Result<U>
      requires Err?
    {
      Err(error)
    }

    function Extract(): T
      requires Ok?
    {
      value
    }
  }

  datatype Money = Money(units: i64, currency: string)

  const OVERFLOW := "money_arithmetic_overflow"

  function CheckedAdd(a: i64, b: i64): Result<i64> {
    if Fits(a + b) then Ok(a + b) else Err(OVERFLOW)
  }

  function CheckedSub(a: i64, b: i64): Result<i64> {
    if Fits(a - b) then Ok(a - b) else Err(OVERFLOW)
  }

  /** Every amount but the least one has a negation. */
  predicate CanNegate(a: i64) {
    a > I64_MIN
  }

  function Neg(a: i64): i64
    requires CanNegate(a)
  {
    0 - a
  }

  function CheckedNeg(a: i64): Result<i64> {
    if CanNegate(a) then Ok(Neg(a)) else Err(OVERFLOW)
  }

  function Max(a: int, b: int): int {
    if a >= b then a else b
  }

  function Min(a: int, b: int): int {
    if a <= b then a else b
  }
}
