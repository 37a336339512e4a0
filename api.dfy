/** What the pages exchange with the backend and the router: the replies a
    request can get, the requests a flow issues, and the navigation it asks for. */
module Api {
  import opened Js

  /** The parts of an error response's `data` that some page reads:
      `detail`, `non_field_errors`, and the text `JSON.stringify(data)` gives
      (empty when the response carried no data). */
  datatype ErrorData = ErrorData(detail: JsValue, nonFieldErrors: Option<seq<string>>, json: string)

  /** A rejected request: no response reached the page (network failure),
      or a non-2xx response carrying `data`. */
  datatype Failure = NoResponse | Response(data: ErrorData)

  /** The settled outcome of one request. */
  datatype Reply<T> = Ok(data: T) | Err(failure: Failure)

  /** `err.response?.data?.detail`. */
  function Detail(f: Failure): JsValue {
    match f
    case NoResponse => Undefined
    case Response(d) => d.detail
  }

  /** Success payload of the token endpoint. */
  datatype TokenData = TokenData(access: JsValue, refresh: JsValue)

  /** Success payload of the profile endpoint. */
  datatype ProfileData = ProfileData(username: JsValue, role: JsValue)

  /** Success payload of the register and reset-password endpoints. */
  datatype DetailData = DetailData(detail: JsValue)

  /** One timeline item as the dashboard receives it. */
  datatype Feed = Feed(id: int, title: string, content: string)

  /** The registration form, sent as the request body unchanged. */
  datatype RegisterForm = RegisterForm(username: string, email: string, password: string, password2: string)

  /** The requests the flows issue, with the body (or bearer token) each carries. */
  datatype Call =
    | PostToken(username: string, password: string)
    | GetProfile(bearer: string)
    | GetTimelineItems
    | PostRegister(form: RegisterForm)
    | PostForgotPassword(email: string)
    | PostResetPassword(uidb64: Option<string>, token: Option<string>, password: string)

  /** `navigate(path, { replace })`. */
  datatype Nav = Nav(path: string, replace: bool)

  /** A `setTimeout(() => navigate(path), delayMs)` the flow scheduled. */
  datatype Timer = Timer(path: string, delayMs: nat)

  const LoginPath := "/login"
  const InstructorDashboardPath := "/dashboard"
  const AdminDashboardPath := "/admin-dashboard"

  /** Message used when no better text is available, by login and registration. */
  const NetworkOrServerError := "Network or server error."
}
