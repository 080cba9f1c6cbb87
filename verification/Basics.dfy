/** Types every component shares. */
module Basics {

  /** A row key. The program uses random UUIDs; only equality and a total order on them matter. */
  type Id = nat

  /** A nullable column or optional request field. */
  datatype Option<+T> = None | Some(value: T)

  /** The value of an operation, or the error that made it roll back. */
  datatype Result<+T, +E> = Ok(value: T) | Err(error: E)

  /** Rates are stored as numeric(6,5): integers over this scale. */
  const RATE_SCALE := 100000

  function Min(a: int, b: int): int { if a < b then a else b }

  function Max(a: int, b: int): int { if a < b then b else a }
}
