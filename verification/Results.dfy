/** Success or one error. */
module Results {
  import opened Options

  datatype Result<+T, +E> = Ok(value: T) | Err(error: E)

  function ErrorOf<T, E>(r: Result<T, E>): Option<E> {
    if r.Err? then Some(r.error) else None
  }

  /** What is left after an operation that may refuse: its result, or what was there before. */
  function ValueOr<T, E>(r: Result<T, E>, before: T): T {
    if r.Ok? then r.value else before
  }
}
