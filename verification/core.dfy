/** Failure-carrying wrappers and the machine types shared by every other
    module of the QIR backend model. */
module Core {

  /** Rust's `Option<T>`. */
  datatype Option<+T> = None | Some(value: T) {

    /** `Option::unwrap_or`: the held value, or `fallback` when there is none. */
    function UnwrapOr(fallback: T): T {
      if Some? then value else fallback
    }
  }

  /** Rust's `Result<T, E>`. */
  datatype Result<+T, +E> = Ok(value: T) | Err(error: E)

  /** A `u8`. */
  type Byte = bv8

  /** A `u32`. */
  type Word = bv32

  /** A file-system path, kept as its text. */
  type Path = string
}
