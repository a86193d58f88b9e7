/** Option and Result, the two error-carrying shapes the Rust code returns. */
module Wrappers {

  datatype Option<+T> = None | Some(value: T) {
    /** The carried value, or `default` when there is none (Rust's `unwrap_or`). */
    function GetOr(default: T): T {
      match this
      case Some(v) => v
      case None => default
    }
  }

  datatype Result<+T, +E> = Ok(value: T) | Err(error: E)

  /** Rust's unit value `()`, the success payload of commands that return nothing. */
  datatype Unit = Unit
}

/** Identifiers. A `Uuid` is represented by its canonical hyphenated text, so
    `Uuid::to_string` is the `text` field and two ids are equal exactly when
    their texts are. Parsing text into a `Uuid` belongs to an external crate and
    is not part of this model: callers pass the parse outcome in. */
module Uuids {
  datatype Uuid = Uuid(text: string)

  /** `Uuid::default()`, the nil id. */
  const Nil: Uuid := Uuid("00000000-0000-0000-0000-000000000000")

  /** Rust's `u16` and `u64`. */
  type U16 = x: int | 0 <= x < 0x1_0000
  type U64 = x: int | 0 <= x < 0x1_0000_0000_0000_0000
}
