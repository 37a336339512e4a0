/** The reset-password page: the link check at mount and the submit. */
module ResetPassword {
  import opened Js
  import opened Api

  const MissingParameters := "Invalid reset link. Missing parameters."
  const PasswordsDiffer := "Passwords do not match."
  const ResetSucceeded := "Password reset successful!"
  const ResetFailed := "Failed to reset password. Link may be invalid or expired."
  const RedirectDelayMs := 3000

  /** The confirmation shown on success: the server's `detail`, else the default text. */
  function SuccessMessage(d: DetailData): (msg: string)
    ensures msg != ""
    ensures Truthy(d.detail) ==> msg == d.detail.s
    ensures !Truthy(d.detail) ==> msg == ResetSucceeded
  {
    OrElse(d.detail, ResetSucceeded)
  }

  /** The error shown on failure: the server's `detail`, else the expired-link text. */
  function FailureMessage(f: Failure): (msg: string)
    ensures msg != ""
    ensures Truthy(Detail(f)) ==> msg == Detail(f).s
    ensures !Truthy(Detail(f)) ==> msg == ResetFailed
  {
    OrElse(Detail(f), ResetFailed)
  }

  class ResetPasswordPage {
    /** The query parameters, read once from the URL: `None` when absent. */
    const uidb64: Option<string>
    const token: Option<string>
    var password: string
    var confirmPassword: string
    var loading: bool
    var message: Option<string>
    var error: Option<string>

    constructor (uidb64: Option<string>, token: Option<string>)
      ensures this.uidb64 == uidb64 && this.token == token
      ensures password == "" && confirmPassword == "" && !loading && message == None && error == None
    {
      this.uidb64, this.token := uidb64, token;
      password, confirmPassword := "", "";
      loading, message, error := false, None, None;
    }

    /** The mount effect: flag a link without both parameters. It only sets
        the error text; it does not disable the form. */
    method CheckParameters()
      modifies this`error
      ensures !(Present(uidb64) && Present(token)) ==> error == Some(MissingParameters)
      ensures Present(uidb64) && Present(token) ==> error == old(error)
    {
      if !Present(uidb64) || !Present(token) {
        error := Some(MissingParameters);
      }
    }

    /** `handleSubmit` up to its request. The error and message are cleared
        first, so an earlier missing-parameter error does not stop the
        request; differing passwords stop it before `loading` is set. The
        body carries the parameters and the password as they are. */
    method StartSubmit() returns (call: Option<Call>)
      modifies this`error, this`message, this`loading
      ensures message == None
      ensures password != confirmPassword ==>
                error == Some(PasswordsDiffer) && call == None && loading == old(loading)
      ensures password == confirmPassword ==>
                error == None && loading && call == Some(PostResetPassword(uidb64, token, password))
    {
      error := None;
      message := None;
      if password != confirmPassword {
        error := Some(PasswordsDiffer);
        return None;
      }
      loading := true;
      call := Some(PostResetPassword(uidb64, token, password));
    }

    /** `handleSubmit` once the request settles: on success show the
        confirmation and schedule the login redirect; on failure show the
        error. `loading` ends false on both paths. */
    method FinishSubmit(reply: Reply<DetailData>) returns (timer: Option<Timer>)
      modifies this`error, this`message, this`loading
      ensures !loading
      ensures reply.Ok? ==>
                message == Some(SuccessMessage(reply.data)) && error == old(error)
                && timer == Some(Timer(LoginPath, RedirectDelayMs))
      ensures reply.Err? ==>
                error == Some(FailureMessage(reply.failure)) && message == old(message) && timer == None
    {
      match reply {
        case Ok(d) =>
          message := Some(SuccessMessage(d));
          timer := Some(Timer(LoginPath, RedirectDelayMs));
        case Err(f) =>
          error := Some(FailureMessage(f));
          timer := None;
      }
      loading := false;
    }
  }
}
