/**
 * The sign-in form (app/auth/signin/page.js): the two field checks and the
 * handling of the credentials sign-in result, which is abstract here.
 */
module SignIn {
  import SignUp

  /** How the credentials sign-in ended. */
  datatype SignInResult =
    | SignInThrew               // `signIn` rejected: the handler stops where it is
    | NoResult                  // `signIn` resolved to nothing
    | Result(error: string)     // `""` when the result carries no error

  const InvalidCredentials: string := "Invalid email or password."

  /** The form's rule: both fields filled in. */
  predicate SignInValid(email: string, password: string) {
    email != "" && password != ""
  }

  /** The form passes exactly when neither field shows a message, and the two checks do not depend on each other. */
  lemma SignInValidIffNoErrors(email: string, password: string)
    ensures SignInValid(email, password) <==> SignUp.EmailError(email) == "" && SignUp.PasswordError(password) == ""
    ensures email == "" ==> SignUp.EmailError(email) == "Email is required."
    ensures password == "" ==> SignUp.PasswordError(password) == "Password is required."
  {
  }

  /** Whether the result is a sign-in that went through. */
  predicate SignedIn(result: SignInResult) {
    result == Result("")
  }

  class SignInPage {
    var email: string
    var password: string
    var error: string
    var emailError: string
    var passwordError: string
    var loading: bool
    var success: bool

    constructor ()
      ensures email == "" && password == "" && error == "" && emailError == "" && passwordError == ""
      ensures !loading && !success
    {
      email, password := "", "";
      error, emailError, passwordError := "", "", "";
      loading, success := false, false;
    }

    /** The inputs' `onChange` handlers. */
    method Type(newEmail: string, newPassword: string)
      modifies this
      ensures email == newEmail && password == newPassword
      ensures error == old(error) && emailError == old(emailError) && passwordError == old(passwordError)
      ensures loading == old(loading) && success == old(success)
    {
      email, password := newEmail, newPassword;
    }

    /**
     * `handleSignIn(e)`: clear every message, check the fields, and call the
     * sign-in only for a valid form (`called`). A missing result or one with
     * an error shows the credentials message; a sign-in that went through
     * sets `success` and leaves `loading` on until the redirect.
     */
    method HandleSignIn(result: SignInResult) returns (called: bool)
      modifies this
      ensures email == old(email) && password == old(password)
      ensures emailError == SignUp.EmailError(email) && passwordError == SignUp.PasswordError(password)
      ensures called <==> SignInValid(email, password)
      ensures !called ==> error == "" && !loading && success == old(success)
      ensures called && result == SignInThrew ==> error == "" && loading && success == old(success)
      ensures called && (result.NoResult? || (result.Result? && result.error != "")) ==>
        error == InvalidCredentials && !loading && success == old(success)
      ensures called && SignedIn(result) ==> error == "" && loading && success
    {
      error := "";
      emailError := "";
      passwordError := "";
      loading := true;

      var isValid := true;
      if email == "" {
        emailError := "Email is required.";
        isValid := false;
      }
      if password == "" {
        passwordError := "Password is required.";
        isValid := false;
      }

      if !isValid {
        loading := false;
        return false;
      }

      called := true;
      match result {
        case SignInThrew =>
        case NoResult =>
          error := InvalidCredentials;
          loading := false;
        case Result(e) =>
          if e != "" {
            error := InvalidCredentials;
            loading := false;
          } else {
            success := true;
          }
      }
    }
  }
}
