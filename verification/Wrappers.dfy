/** Failure-carrying values and machine widths shared by the model. */
module Wrappers {

  datatype Option<+T> = None | Some(value: T)

  datatype Result<+T, +E> = Ok(value: T) | Err(error: E)

  const U16_MAX: nat := 65535
  const U32_MAX: nat := 4294967295

  /** Rust's saturating addition at a given ceiling. */
  function SaturatingAdd(a: nat, b: nat, ceiling: nat): nat {
    if a + b > ceiling then ceiling else a + b
  }

  /** Rust's saturating subtraction. */
  function SaturatingSub(a: nat, b: nat): nat {
    if a < b then 0 else a - b
  }

  function Min(a: nat, b: nat): nat {
    if a < b then a else b
  }

  function Max(a: nat, b: nat): nat {
    if a < b then b else a
  }

  function Indicator(b: bool): nat {
    if b then 1 else 0
  }
}
