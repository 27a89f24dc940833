/** Small value wrappers shared by the voice assistant and the query service. */
module Common {

  datatype Option<+T> = None | Some(value: T)

  /** What a call to the hosted text generator produced: its text, or the
      message of the exception it raised (timeouts included). */
  datatype Outcome = Ok(text: string) | Err(message: string)
}
