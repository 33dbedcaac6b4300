/** The exceptions the bot raises or lets escape, each carrying its message. */
module Exceptions {

  datatype Error =
    /** exceptions.py: transport failure or an HTTP status other than 200 */
    | BadHttpStatus(message: string)
    /** exceptions.py: a homework status outside the verdict table */
    | UnknownHomeworkStatus(message: string)
    /** exceptions.py: the chat refused a message */
    | SendMessageError(message: string)
    /** Python's built-in `KeyError` */
    | KeyError(message: string)
    /** Python's built-in `TypeError` */
    | TypeError(message: string)
    /** Python's built-in `UnboundLocalError` */
    | UnboundLocalError(message: string)

  /** Python's `str(e)`: the message itself, except that a `KeyError` renders the `repr` of its
      key, so its message appears in single quotes. */
  function Text(e: Error): string
  {
    match e
    case KeyError(m) => "'" + m + "'"
    case _ => e.message
  }
}
