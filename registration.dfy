/** The registration page's submit. */
module Registration {
  import opened Js
  import opened Api

  const RegisterSucceeded := "User registered successfully!"
  const RedirectDelayMs := 2000
  const EmptyForm := RegisterForm("", "", "", "")

  /** The success text: the server's `detail`, else the default text. */
  function SuccessMessage(d: DetailData): (msg: string)
    ensures msg != ""
    ensures Truthy(d.detail) ==> msg == d.detail.s
    ensures !Truthy(d.detail) ==> msg == RegisterSucceeded
  {
    OrElse(d.detail, RegisterSucceeded)
  }

  /** `JSON.stringify(err.response?.data) || "Network or server error."`:
      the server's error payload verbatim, structured as the server sent it. */
  function FailureMessage(f: Failure): (msg: string)
    ensures msg != ""
    ensures f.Response? && f.data.json != "" ==> msg == f.data.json
    ensures f.NoResponse? || f.data.json == "" ==> msg == NetworkOrServerError
  {
    if f.Response? && f.data.json != "" then f.data.json else NetworkOrServerError
  }

  class RegisterPage {
    var form: RegisterForm
    var loading: bool
    var error: Option<string>
    var success: Option<string>

    constructor ()
      ensures form == EmptyForm && !loading && error == None && success == None
    {
      form := EmptyForm;
      loading, error, success := false, None, None;
    }

    /** `submit` up to its request: clear both texts, set `loading`, and
        send the whole form unchanged. */
    method StartSubmit() returns (call: Call)
      modifies this`error, this`success, this`loading
      ensures error == None && success == None && loading
      ensures call == PostRegister(form)
    {
      error := None;
      success := None;
      loading := true;
      call := PostRegister(form);
    }

    /** `submit` once the request settles: on success show the text, reset
        all four fields and schedule the login redirect; on failure show the
        payload and keep the form. `loading` ends false on both paths. */
    method FinishSubmit(reply: Reply<DetailData>) returns (timer: Option<Timer>)
      modifies this`form, this`error, this`success, this`loading
      ensures !loading
      ensures reply.Ok? ==>
                success == Some(SuccessMessage(reply.data)) && form == EmptyForm && error == old(error)
                && timer == Some(Timer(LoginPath, RedirectDelayMs))
      ensures reply.Err? ==>
                error == Some(FailureMessage(reply.failure)) && form == old(form) && success == old(success)
                && timer == None
    {
      match reply {
        case Ok(d) =>
          success := Some(SuccessMessage(d));
          form := EmptyForm;
          timer := Some(Timer(LoginPath, RedirectDelayMs));
        case Err(f) =>
          error := Some(FailureMessage(f));
          timer := None;
      }
      loading := false;
    }
  }
}
