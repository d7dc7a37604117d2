/**
 * The sign-up form (app/auth/signup/page.js): the field checks run on every
 * submit, and the message shown for each answer of the server and of the
 * automatic sign-in that follows. The requests are abstract: the handler
 * receives how they ended.
 */
module SignUp {

  /** How the automatic sign-in after a successful sign-up ended. */
  datatype Login =
    | LoginThrew              // `signIn` rejected
    | LoginMissing            // `signIn` resolved to nothing, so reading `.error` throws
    | LoginResult(error: string)  // `""` when the result carries no error

  /** How the sign-up request ended. */
  datatype SignUpReply =
    | RequestThrew                // `fetch` or `res.json()` rejected
    | Rejected(error: string)     // `!res.ok`; `error` is the body's error text, `""` when absent
    | Accepted(login: Login)      // `res.ok`, followed by the automatic sign-in

  const FailedToSignUp: string := "Failed to sign up. Please try again later."
  const FailedToSignIn: string := "Failed to sign in automatically. Please sign in manually."
  const SignUpErrorFallback: string := "An error occurred during sign up."

  /** The message under the email field; `""` for none. */
  function EmailError(email: string): (m: string)
    ensures m == "" <==> email != ""
  {
    if email == "" then "Email is required." else ""
  }

  /** The message under the password field; `""` for none. */
  function PasswordError(password: string): (m: string)
    ensures m == "" <==> password != ""
  {
    if password == "" then "Password is required." else ""
  }

  /** The message under the confirmation field: a missing confirmation first, then a mismatch. */
  function ConfirmError(password: string, confirmPassword: string): (m: string)
    ensures m == "" <==> confirmPassword != "" && password == confirmPassword
  {
    if confirmPassword == "" then "Please confirm your password."
    else if password != confirmPassword then "Passwords do not match."
    else ""
  }

  /** The form's rule, stated directly: every field filled in and the two passwords equal. */
  predicate SignUpValid(email: string, password: string, confirmPassword: string) {
    email != "" && password != "" && confirmPassword != "" && password == confirmPassword
  }

  /** The form passes exactly when no field shows a message. */
  lemma SignUpValidIffNoErrors(email: string, password: string, confirmPassword: string)
    ensures SignUpValid(email, password, confirmPassword) <==>
      EmailError(email) == "" && PasswordError(password) == "" && ConfirmError(password, confirmPassword) == ""
  {
  }

  /** A mismatch is reported only once a confirmation has been typed. */
  lemma MismatchNeedsConfirmation(password: string, confirmPassword: string)
    ensures ConfirmError(password, confirmPassword) == "Passwords do not match." <==>
      confirmPassword != "" && password != confirmPassword
    ensures confirmPassword == "" ==> ConfirmError(password, confirmPassword) == "Please confirm your password."
  {
  }

  /** Whether a submit with a valid form ends signed in. */
  predicate SignedUp(reply: SignUpReply) {
    reply == Accepted(LoginResult(""))
  }

  /** The message the page shows after a request was sent; `""` when the sign-up and sign-in both went through. */
  function ReplyMessage(reply: SignUpReply): (message: string)
    ensures message == "" <==> SignedUp(reply)
    ensures reply.Rejected? ==> message == if reply.error != "" then reply.error else SignUpErrorFallback
    ensures reply == RequestThrew || reply == Accepted(LoginThrew) || reply == Accepted(LoginMissing) ==>
      message == FailedToSignUp
    ensures reply.Accepted? && reply.login.LoginResult? && reply.login.error != "" ==> message == FailedToSignIn
  {
    match reply
    case RequestThrew => FailedToSignUp
    case Rejected(e) => if e != "" then e else SignUpErrorFallback
    case Accepted(login) =>
      match login
      case LoginResult(e) => if e == "" then "" else FailedToSignIn
      case _ => FailedToSignUp
  }

  class SignUpPage {
    var email: string
    var password: string
    var confirmPassword: string
    var error: string
    var emailError: string
    var passwordError: string
    var confirmPasswordError: string
    var loading: bool
    var success: bool

    constructor ()
      ensures email == "" && password == "" && confirmPassword == ""
      ensures error == "" && emailError == "" && passwordError == "" && confirmPasswordError == ""
      ensures !loading && !success
    {
      email, password, confirmPassword := "", "", "";
      error, emailError, passwordError, confirmPasswordError := "", "", "", "";
      loading, success := false, false;
    }

    /** The inputs' `onChange` handlers. */
    method Type(newEmail: string, newPassword: string, newConfirmPassword: string)
      modifies this
      ensures email == newEmail && password == newPassword && confirmPassword == newConfirmPassword
      ensures error == old(error) && emailError == old(emailError) && passwordError == old(passwordError)
      ensures confirmPasswordError == old(confirmPasswordError)
      ensures loading == old(loading) && success == old(success)
    {
      email, password, confirmPassword := newEmail, newPassword, newConfirmPassword;
    }

    /**
     * `handleSignUp(e)`: clear every message, check the fields, and send the
     * request only for a valid form (`sent`); `reply` is how the request and
     * the sign-in after it ended.
     */
    method HandleSignUp(reply: SignUpReply) returns (sent: bool)
      modifies this
      ensures email == old(email) && password == old(password) && confirmPassword == old(confirmPassword)
      ensures emailError == EmailError(email) && passwordError == PasswordError(password)
      ensures confirmPasswordError == ConfirmError(password, confirmPassword)
      ensures sent <==> SignUpValid(email, password, confirmPassword)
      ensures !sent ==> error == "" && !loading && success == old(success)
      ensures sent ==> error == ReplyMessage(reply)
      ensures sent && SignedUp(reply) ==> success && loading
      ensures sent && !SignedUp(reply) ==> !loading && success == old(success)
    {
      error := "";
      emailError := "";
      passwordError := "";
      confirmPasswordError := "";
      loading := true;

      var isValid := true;
      if email == "" {
        emailError := "Email is required.";
        isValid := false;
      }
      if password == "" {
        passwordError := "Password is required.";
        isValid := false;
      }
      if confirmPassword == "" {
        confirmPasswordError := "Please confirm your password.";
        isValid := false;
      } else if password != confirmPassword {
        confirmPasswordError := "Passwords do not match.";
        isValid := false;
      }

      if !isValid {
        loading := false;
        return false;
      }

      sent := true;
      match reply {
        case RequestThrew =>
          error := FailedToSignUp;
          loading := false;
        case Rejected(e) =>
          error := if e != "" then e else SignUpErrorFallback;
          loading := false;
        case Accepted(login) =>
          match login {
            case LoginResult(e) =>
              if e == "" {
                success := true;
              } else {
                error := FailedToSignIn;
                loading := false;
              }
            case _ =>
              error := FailedToSignUp;
              loading := false;
          }
      }
    }
  }
}
