/** Small wrapper types shared by every module of the model. */
module Common {

  /** A value that may be missing (`null` / `undefined` in the application). */
  datatype Option<T> = None | Some(value: T)

  /**
   * What an awaited call into the AI service yields: a value, or a thrown
   * `Error` carrying its message.
   */
  datatype Outcome<T> = Success(result: T) | Failure(message: string)
}
