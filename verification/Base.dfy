/** Machine-integer ranges and the two result types every other module uses. */
module Base {
  const INT64_MAX: int := 0x7fff_ffff_ffff_ffff
  const INT64_MIN: int := -0x8000_0000_0000_0000
  const UINT64_MAX: int := 0xffff_ffff_ffff_ffff

  type int64 = x: int | INT64_MIN <= x <= INT64_MAX
  type uint64 = x: int | 0 <= x <= UINT64_MAX

  datatype Option<+T> = None | Some(value: T) {
    function GetOr(default: T): T {
      match this
      case Some(v) => v
      case None => default
    }
  }

  datatype Result<+T, +E> = Ok(value: T) | Err(error: E) {
    predicate IsFailure() {
      Err?
    }

    function PropagateFailure<U>(): Result<U, E>
      requires Err?
    {
      Err(error)
    }

    function Extract(): T
      requires Ok?
    {
      value
    }
  }

  function Max(a: int, b: int): int {
    if a < b then b else a
  }

  function Min(a: int, b: int): int {
    if a < b then a else b
  }

  /** An addition the program makes without a check. A sum outside the range is not defined; here it leaves
      the left operand. */
  function Plus(left: int64, right: int): int64 {
    if INT64_MIN <= left + right <= INT64_MAX then left + right else left
  }

  /** How far a write to the ledger got. */
  datatype Boundary = NotWritten | Uncertain | Durable
}
