/** An optional value: `None` stands for an option the caller left out. */
module Optional {

  datatype Option<+T> = None | Some(value: T) {

    /** The value if present, otherwise `default` (the default a missing key falls back to). */
    function GetOr(default: T): T {
      match this
      case Some(v) => v
      case None => default
    }
  }

  /** The result of an operation that may fail synchronously with a message (a thrown `Error`). */
  datatype Outcome = Pass | Fail(message: string)
}
