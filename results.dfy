/** Option and Result values used where the Java code returns null or throws. */
module Results {

  datatype Option<+T> = None | Some(value: T)

  /** `Err` stands for an exception thrown by the Java code, named by `error`. */
  datatype Result<+T> = Ok(value: T) | Err(error: string)
}
