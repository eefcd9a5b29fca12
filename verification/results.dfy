/** Small failure-carrying datatypes shared by the model. */
module Results {

  /** An optional value: `None` plays the role of Python's `None`. */
  datatype Option<+T> = None | Some(value: T)

  /** The outcome of a computation that may raise `subprocess.CalledProcessError`;
      `Err` carries the failed command's exit status. */
  datatype Result<+T> = Ok(value: T) | Err(code: int)
}
