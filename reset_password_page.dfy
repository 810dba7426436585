/** The reset-password screen: an email input and one message line. */
module ResetPasswordPage {
  import opened Common

  datatype MessageKind = ErrorMessage | InfoMessage | SuccessMessage

  datatype Message = Message(kind: MessageKind, text: string)

  const MissingEmail := Message(ErrorMessage, "Please enter your email address.")

  /** The same words whether or not an account exists, so the screen does not
      reveal which addresses are registered. */
  const InstructionsSent :=
    Message(SuccessMessage, "If an account exists with this email, you will receive reset instructions.")

  class ResetPasswordComponent {
    var email: string
    var message: Option<Message>

    constructor ()
      ensures email == "" && message == None
    {
      email := "";
      message := None;
    }

    /** `handleSubmit`: an empty email is refused with an error; otherwise
        `onResetPassword` receives the email and the neutral success text is shown. */
    method HandleSubmit() returns (requested: Option<string>)
      modifies this`message
      ensures email == "" ==> requested == None && message == Some(MissingEmail)
      ensures email != "" ==> requested == Some(email) && message == Some(InstructionsSent)
    {
      if email == "" {
        message := Some(MissingEmail);
        return None;
      }
      requested := Some(email);
      message := Some(InstructionsSent);
    }

    /** The input's `onChange`: takes the new value and clears any message. */
    method ChangeEmail(value: string)
      modifies this
      ensures email == value && message == None
    {
      email := value;
      message := None;
    }
  }
}
