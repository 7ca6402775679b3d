/** src/components/RegisterPage.js: the sign-up form. The passwords are
    checked before anything is sent; a successful registration clears the
    form and schedules a move to the login page. */
module Register {
  import opened Js
  import opened Api
  import opened Auth
  import opened AuthErrors

  const MinPasswordLength := 8
  const ShortPassword := "Password must be at least 8 characters long."
  const PasswordMismatch := "Passwords do not match."
  const Registered := "Registration successful! Please wait for an admin to approve your account."
  const RegisterFallback := "Registration failed. Please try again."
  /** The delay of the `setTimeout` that goes to the login page, in ms. */
  const RedirectDelay := 3000

  /** The checks `handleSubmit` runs before calling `register`: the length
      first, then the confirmation. None means the form may be sent. */
  function CheckPasswords(password: string, confirmPassword: string): (r: Option<string>)
    ensures r.None? <==> |password| >= MinPasswordLength && password == confirmPassword
    ensures |password| < MinPasswordLength ==> r == Some(ShortPassword)
    ensures |password| >= MinPasswordLength && password != confirmPassword ==> r == Some(PasswordMismatch)
  {
    if |password| < MinPasswordLength then Some(ShortPassword)
    else if password != confirmPassword then Some(PasswordMismatch)
    else None
  }

  /** A short password is reported as short even when the confirmation does
      not match it either. */
  lemma LengthCheckedFirst(password: string, confirmPassword: string)
    requires |password| < MinPasswordLength && password != confirmPassword
    ensures CheckPasswords(password, confirmPassword) == Some(ShortPassword)
    ensures CheckPasswords(password, confirmPassword) != Some(PasswordMismatch)
  {
  }

  class RegisterPage {
    var username: string
    var password: string
    var confirmPassword: string
    var error: string
    var success: string
    /** Redirect timers started and not yet fired. */
    var pendingRedirects: nat
    /** The paths `navigate` was called with, in order. */
    var navigated: seq<string>

    constructor ()
      ensures username == "" && password == "" && confirmPassword == ""
      ensures error == "" && success == "" && pendingRedirects == 0 && navigated == []
    {
      username, password, confirmPassword := "", "", "";
      error, success := "", "";
      pendingRedirects, navigated := 0, [];
    }

    /** `handleSubmit`, with the reply to the register request as a
        parameter. Returns the request it sent, if any. */
    method Submit(auth: AuthProvider, base: string, reply: Reply<()>) returns (request: Option<PublicRequest>)
      modifies this, auth
      ensures auth.token == old(auth.token) && auth.user == old(auth.user)
      ensures navigated == old(navigated)
      ensures CheckPasswords(old(password), old(confirmPassword)).Some? ==>
        && request == None && success == ""
        && error == CheckPasswords(old(password), old(confirmPassword)).value
        && username == old(username) && password == old(password) && confirmPassword == old(confirmPassword)
        && pendingRedirects == old(pendingRedirects)
        && unchanged(auth)
      ensures CheckPasswords(old(password), old(confirmPassword)).None? ==>
        request == Some(PublicRequest(AuthUrl(base, "auth/register"), old(username), old(password)))
      ensures CheckPasswords(old(password), old(confirmPassword)).None? && reply.Ok? ==>
        && error == "" && success == Registered
        && username == "" && password == "" && confirmPassword == ""
        && pendingRedirects == old(pendingRedirects) + 1
      ensures CheckPasswords(old(password), old(confirmPassword)).None? && reply.Failed? ==>
        && error == FailureMessage(reply.error, RegisterFallback) && success == ""
        && username == old(username) && password == old(password) && confirmPassword == old(confirmPassword)
        && pendingRedirects == old(pendingRedirects)
    {
      error := "";
      success := "";
      request := None;
      if |password| < MinPasswordLength {
        error := ShortPassword;
        return;
      }
      if password != confirmPassword {
        error := PasswordMismatch;
        return;
      }
      var sent, outcome := auth.Register(base, username, password, reply);
      request := Some(sent);
      match outcome {
        case Ok(_) =>
          success := Registered;
          username, password, confirmPassword := "", "", "";
          pendingRedirects := pendingRedirects + 1;
        case Failed(e) =>
          error := FailureMessage(e, RegisterFallback);
      }
    }

    /** A redirect timer fires: the page goes to `/login`. */
    method RedirectFires()
      requires pendingRedirects > 0
      modifies this
      ensures pendingRedirects == old(pendingRedirects) - 1
      ensures navigated == old(navigated) + ["/login"]
      ensures username == old(username) && password == old(password) && confirmPassword == old(confirmPassword)
      ensures error == old(error) && success == old(success)
    {
      pendingRedirects := pendingRedirects - 1;
      navigated := navigated + ["/login"];
    }
  }

  /** A successful registration shows the approval notice, empties the form
      and then leads to the login page, with the session untouched. */
  method SuccessfulRegistration(auth: AuthProvider, base: string, username: string, password: string)
      returns (page: RegisterPage, request: Option<PublicRequest>)
    requires |password| >= MinPasswordLength
    modifies auth
    ensures request == Some(PublicRequest(AuthUrl(base, "auth/register"), username, password))
    ensures page.success == Registered && page.error == ""
    ensures page.username == "" && page.password == "" && page.confirmPassword == ""
    ensures page.navigated == ["/login"] && page.pendingRedirects == 0
    ensures auth.token == old(auth.token) && auth.user == old(auth.user)
  {
    page := new RegisterPage();
    page.username, page.password, page.confirmPassword := username, password, password;
    request := page.Submit(auth, base, Ok(()));
    page.RedirectFires();
  }
}
