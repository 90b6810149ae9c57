/** Option and result types shared by the lexer, the parser and the code generator. */
module Wrappers {

  datatype Option<+T> = None | Some(value: T)

  /**
   * The outcome of an operation of the translator. `Err` is an error the source returns as a
   * value (`Err(String)`); `Panic` is a failure the source raises by `unwrap`, `expect`,
   * `assert!`, `assert_eq!`, `panic!` or an overflowing `u16` addition, which aborts the program.
   */
  datatype Result<+T> = Ok(value: T) | Err(message: string) | Panic(message: string) {
    predicate Fails() {
      !Ok?
    }

    /** The same failure, as the outcome of the operation that gave up on it. */
    function Propagate<U>(): (r: Result<U>)
      requires Fails()
      ensures r.Fails() && r.Err? == Err? && r.message == message
    {
      if Err? then Err(message) else Panic(message)
    }

    predicate IsFailure() {
      Fails()
    }

    function PropagateFailure<U>(): Result<U>
      requires Fails()
    {
      Propagate()
    }

    function Extract(): T
      requires Ok?
    {
      value
    }
  }
}
