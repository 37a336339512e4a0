/** The login page: the page-load session check and the login submit. */
module Login {
  import opened Js
  import opened Api
  import opened Storage

  const TokensMissing := "Invalid server response: tokens missing."
  const UnknownRolePrefix := "Unknown user role: "

  /** `data.role?.toLowerCase()`: `undefined` unless the role is a string. */
  function NormalizedRole(role: JsValue): (r: JsValue)
    ensures r.Str? <==> role.Str?
    ensures role.Str? ==> r.s == Lower(role.s) && IsLower(r.s)
    ensures !role.Str? ==> r == Undefined
  {
    if role.Str? then Str(Lower(role.s)) else Undefined
  }

  /** The role-to-landing-page table shared by the session check and the submit. */
  function LandingPath(role: JsValue): (p: Option<string>)
    ensures p == Some(InstructorDashboardPath) <==> role == Str("instructor")
    ensures p == Some(AdminDashboardPath) <==> role == Str("admin") || role == Str("manager")
    ensures p.None? <==> role != Str("instructor") && role != Str("admin") && role != Str("manager")
  {
    if role == Str("instructor") then Some(InstructorDashboardPath)
    else if role == Str("admin") || role == Str("manager") then Some(AdminDashboardPath)
    else None
  }

  /** Both landing navigations replace the login page in the history. */
  function LandingNav(role: JsValue): (nav: Option<Nav>)
    ensures nav.Some? <==> LandingPath(role).Some?
    ensures nav.Some? ==> nav.value == Nav(LandingPath(role).value, true)
  {
    match LandingPath(role)
    case None => None
    case Some(p) => Some(Nav(p, true))
  }

  /** A token reply is usable only when both tokens are truthy. */
  predicate TokensPresent(t: TokenData) {
    Truthy(t.access) && Truthy(t.refresh)
  }

  /** The login error text: the server's `detail`, else its
      `non_field_errors` joined by one space, else the generic text. */
  function ErrorMessage(f: Failure): (msg: string)
    ensures msg != ""
    ensures Truthy(Detail(f)) ==> msg == Detail(f).s
    ensures !Truthy(Detail(f)) && f.Response? && f.data.nonFieldErrors.Some?
            && Join(f.data.nonFieldErrors.value, " ") != ""
            ==> msg == Join(f.data.nonFieldErrors.value, " ")
    ensures !Truthy(Detail(f))
            && (f.NoResponse? || f.data.nonFieldErrors.None? || Join(f.data.nonFieldErrors.value, " ") == "")
            ==> msg == NetworkOrServerError
  {
    if Truthy(Detail(f)) then Detail(f).s
    else if f.Response? && f.data.nonFieldErrors.Some? && Join(f.data.nonFieldErrors.value, " ") != "" then
      Join(f.data.nonFieldErrors.value, " ")
    else NetworkOrServerError
  }

  class LoginPage {
    var username: string
    var password: string
    var loading: bool
    var error: Option<string>

    constructor ()
      ensures username == "" && password == "" && !loading && error == None
    {
      username, password := "", "";
      loading, error := false, None;
    }

    /** The mount effect up to its only `await`: forget the cached profile,
        then ask for the profile only when an access token is stored. */
    method StartSessionCheck(store: LocalStorage) returns (call: Option<Call>)
      modifies store
      ensures store.items == old(store.items) - {UserRoleKey, UsernameKey}
      ensures call.Some? <==> HasAccess(old(store.items))
      ensures call.Some? ==> call.value == GetProfile(old(store.items)[AccessKey])
    {
      store.RemoveItem(UserRoleKey);
      store.RemoveItem(UsernameKey);
      var access := store.GetItem(AccessKey);
      if !Present(access) {
        return None;
      }
      call := Some(GetProfile(access.value));
    }

    /** The rest of the session check, once the profile request settles:
        cache the lowercased role under `userRole` and route by it, or drop
        the two tokens (and nothing else) when the request failed. */
    method FinishSessionCheck(store: LocalStorage, reply: Reply<ProfileData>) returns (nav: Option<Nav>)
      modifies store
      ensures reply.Ok? ==>
        && store.items == old(store.items)[UserRoleKey := ToJsString(NormalizedRole(reply.data.role))]
                                          [UsernameKey := ToJsString(reply.data.username)]
        && nav == LandingNav(NormalizedRole(reply.data.role))
      ensures reply.Err? ==> store.items == old(store.items) - {AccessKey, RefreshKey} && nav == None
    {
      match reply
      case Ok(profile) =>
        var role := NormalizedRole(profile.role);
        store.SetItem(UserRoleKey, ToJsString(role));
        store.SetItem(UsernameKey, ToJsString(profile.username));
        nav := LandingNav(role);
      case Err(_) =>
        store.RemoveItem(AccessKey);
        store.RemoveItem(RefreshKey);
        nav := None;
    }

    /** `submit` up to the token request. */
    method StartSubmit() returns (call: Call)
      modifies this`error, this`loading
      ensures error == None && loading
      ensures call == PostToken(username, password)
    {
      error := None;
      loading := true;
      call := PostToken(username, password);
    }

    /** `submit` once the token request settles. Both tokens are stored
        before the profile request is issued; when the flow stops here,
        nothing was stored and `loading` is false. */
    method OnTokenReply(store: LocalStorage, reply: Reply<TokenData>) returns (call: Option<Call>)
      modifies this`error, this`loading, store
      ensures call == None ==> !loading && store.items == old(store.items)
      ensures reply.Ok? && TokensPresent(reply.data) ==>
        && store.items == old(store.items)[AccessKey := reply.data.access.s][RefreshKey := reply.data.refresh.s]
        && call == Some(GetProfile(reply.data.access.s))
        && error == old(error) && loading == old(loading)
      ensures reply.Ok? && !TokensPresent(reply.data) ==> call == None && error == Some(TokensMissing)
      ensures reply.Err? ==> call == None && error == Some(ErrorMessage(reply.failure))
    {
      match reply
      case Ok(tokens) =>
        if !TokensPresent(tokens) {
          error := Some(TokensMissing);
          loading := false;
          call := None;
        } else {
          store.SetItem(AccessKey, tokens.access.s);
          store.SetItem(RefreshKey, tokens.refresh.s);
          call := Some(GetProfile(tokens.access.s));
        }
      case Err(f) =>
        error := Some(ErrorMessage(f));
        loading := false;
        call := None;
    }

    /** `submit` once the profile request settles: store the lowercased
        role under `role` and route by it; an unrecognised role is reported
        with the role as the server sent it. A failed profile request leaves
        the stored tokens in place. `loading` is false on every path. */
    method OnProfileReply(store: LocalStorage, reply: Reply<ProfileData>) returns (nav: Option<Nav>)
      modifies this`error, this`loading, store
      ensures !loading
      ensures reply.Ok? ==>
        && store.items == old(store.items)[RoleKey := ToJsString(NormalizedRole(reply.data.role))]
                                          [UsernameKey := ToJsString(reply.data.username)]
        && nav == LandingNav(NormalizedRole(reply.data.role))
        && error == (if nav == None then Some(UnknownRolePrefix + ToJsString(reply.data.role)) else old(error))
      ensures reply.Err? ==>
        store.items == old(store.items) && nav == None && error == Some(ErrorMessage(reply.failure))
    {
      match reply {
        case Ok(profile) =>
          var role := NormalizedRole(profile.role);
          store.SetItem(RoleKey, ToJsString(role));
          store.SetItem(UsernameKey, ToJsString(profile.username));
          nav := LandingNav(role);
          if nav == None {
            error := Some(UnknownRolePrefix + ToJsString(profile.role));
          }
        case Err(f) =>
          error := Some(ErrorMessage(f));
          nav := None;
      }
      loading := false;
    }
  }
}
