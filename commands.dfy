/** `on_command_error`: the reply to a failed text command. */
module CommandErrors {

  /** The errors `on_command_error` tells apart. */
  datatype CommandError = MissingRequiredArgument | CommandNotFound | OtherError

  const MissingArgumentReply: string := "It looks like you missed something! Please check your command and try again."
  const UnknownCommandReply: string := "I don't recognize that command. Use `\\help` to see what I can do!"
  const GenericErrorReply: string := "An error occurred. Please try again later."

  /** `on_command_error`: a missing argument, an unknown command, or anything else. */
  function CommandErrorText(error: CommandError): string
  {
    match error
    case MissingRequiredArgument => MissingArgumentReply
    case CommandNotFound => UnknownCommandReply
    case OtherError => GenericErrorReply
  }

  /** The three kinds of error get three different replies. */
  lemma CommandErrorTextsDistinct(a: CommandError, b: CommandError)
    ensures CommandErrorText(a) == CommandErrorText(b) <==> a == b
  {
    assert |MissingArgumentReply| == 76;
    assert |UnknownCommandReply| == 65;
    assert |GenericErrorReply| == 42;
  }
}
