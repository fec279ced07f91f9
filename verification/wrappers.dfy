/** Failure-compatible result type shared by every module of the model.
    A Rust `panic!`, `unwrap()` on `None`, `expect(..)`, `unreachable!()`,
    `unimplemented!()`, an out-of-bounds index or an arithmetic overflow
    (debug build) all end the program; the model turns each into `Err`. */
module Wrappers {

  /** Why the Rust code would have panicked. */
  datatype Fault =
    | IndexOutOfBounds     // slice or Vec indexing past the end
    | ArithmeticOverflow   // usize/i32 overflow or underflow, shift overflow
    | Unimplemented        // `unimplemented!()`
    | Unreachable          // `unreachable!()` or a failed `expect`/`unwrap`
    | BadConversion        // a `From` impl that panics on an unknown value
    | TypeMismatch         // a `panic!` on operands of the wrong variant
    | NotModelled          // an instruction whose semantics depend on code outside the model

  /** Where the program departs from the standard it implements, which
      behaviour a member follows: `AsWritten` is what the code does,
      `Intended` is the evidently intended behaviour. */
  datatype Semantics = AsWritten | Intended

  datatype Option<+T> = None | Some(value: T)

  datatype Result<+T> = Ok(value: T) | Err(error: Fault) {
    predicate IsFailure() { Err? }

    function PropagateFailure<U>(): Result<U>
      requires Err?
    {
      Err(error)
    }

    function Extract(): T
      requires Ok?
    {
      value
    }
  }
}
