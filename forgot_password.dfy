/** The forgot-password page's submit. */
module ForgotPassword {
  import opened Js
  import opened Api

  const CheckYourEmail := "Check your email for the reset link."
  const SomethingWentWrong := "Something went wrong."
  const RedirectDelayMs := 5000

  /** The failure text: the server's `detail`, else the generic text. */
  function FailureMessage(f: Failure): (msg: string)
    ensures msg != ""
    ensures Truthy(Detail(f)) ==> msg == Detail(f).s
    ensures !Truthy(Detail(f)) ==> msg == SomethingWentWrong
  {
    OrElse(Detail(f), SomethingWentWrong)
  }

  class ForgotPasswordPage {
    var email: string
    var message: string
    var success: bool
    var loading: bool

    constructor ()
      ensures email == "" && message == "" && !success && !loading
    {
      email, message := "", "";
      success, loading := false, false;
    }

    /** `handleSubmit` up to its request: set `loading`, clear the text and
        the success flag, and send the address as typed. */
    method StartSubmit() returns (call: Call)
      modifies this`loading, this`message, this`success
      ensures loading && message == "" && !success
      ensures call == PostForgotPassword(email)
    {
      loading := true;
      message := "";
      success := false;
      call := PostForgotPassword(email);
    }

    /** `handleSubmit` once the request settles. On success the text is
        fixed (the reply body is not read) and the login redirect is
        scheduled. `loading` ends false on both paths. */
    method FinishSubmit(reply: Reply<DetailData>) returns (timer: Option<Timer>)
      modifies this`loading, this`message, this`success
      ensures !loading
      ensures reply.Ok? ==> success && message == CheckYourEmail && timer == Some(Timer(LoginPath, RedirectDelayMs))
      ensures reply.Err? ==> !success && message == FailureMessage(reply.failure) && timer == None
    {
      match reply {
        case Ok(_) =>
          success := true;
          message := CheckYourEmail;
          timer := Some(Timer(LoginPath, RedirectDelayMs));
        case Err(f) =>
          success := false;
          message := FailureMessage(f);
          timer := None;
      }
      loading := false;
    }
  }
}
