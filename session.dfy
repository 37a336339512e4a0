/** Properties that connect the flows to one another and the frontend to the
    backend's role constants. */
module Session {
  import opened Js
  import opened Api
  import opened Storage
  import opened Login
  import opened Routing
  import opened InstructorDashboard
  import opened ResetPassword
  import Accounts

  /** The backend's role constants, lowercased. */
  lemma LowerRoleConstants()
    ensures Lower(Accounts.RoleInstructor) == "instructor"
    ensures Lower(Accounts.RoleAdmin) == "admin"
    ensures Lower(Accounts.RoleManager) == "manager"
  {
    LowerInstructorConstant();
    LowerAdminConstant();
    LowerManagerConstant();
  }

  lemma LowerInstructorConstant()
    ensures Lower("INSTRUCTOR") == "instructor"
  {
    var l := Lower("INSTRUCTOR");
    assert l[0] == 'i' && l[1] == 'n' && l[2] == 's' && l[3] == 't' && l[4] == 'r';
    assert l[5] == 'u' && l[6] == 'c' && l[7] == 't' && l[8] == 'o' && l[9] == 'r';
  }

  lemma LowerAdminConstant()
    ensures Lower("ADMIN") == "admin"
  {
    var l := Lower("ADMIN");
    assert l[0] == 'a' && l[1] == 'd' && l[2] == 'm' && l[3] == 'i' && l[4] == 'n';
  }

  lemma LowerManagerConstant()
    ensures Lower("MANAGER") == "manager"
  {
    var l := Lower("MANAGER");
    assert l[0] == 'm' && l[1] == 'a' && l[2] == 'n' && l[3] == 'a' && l[4] == 'g' && l[5] == 'e' && l[6] == 'r';
  }

  /** Every role of the backend's choice list, lowercased as the login page
      does, has a landing page: instructors the instructor dashboard, admins
      and managers the administrative one. */
  lemma BackendRolesHaveLandingPages(r: string)
    requires r in Accounts.RoleChoices
    ensures LandingPath(NormalizedRole(Str(r))).Some?
    ensures r == Accounts.RoleInstructor ==> LandingPath(NormalizedRole(Str(r))) == Some(InstructorDashboardPath)
    ensures r != Accounts.RoleInstructor ==> LandingPath(NormalizedRole(Str(r))) == Some(AdminDashboardPath)
  {
    if r == Accounts.RoleInstructor {
      LowerInstructorConstant();
    } else if r == Accounts.RoleAdmin {
      LowerAdminConstant();
    } else {
      LowerManagerConstant();
    }
  }

  /** The store after a login whose token reply carried both tokens and
      whose profile call succeeded. */
  function StoreAfterLogin(m: map<string, string>, t: TokenData, p: ProfileData): map<string, string>
    requires TokensPresent(t)
  {
    m[AccessKey := t.access.s][RefreshKey := t.refresh.s]
     [RoleKey := ToJsString(NormalizedRole(p.role))][UsernameKey := ToJsString(p.username)]
  }

  /** After a complete login, the guard admits the user exactly when the
      lowercased server role is on the allow-list, whatever case the server
      used: lowercasing at the guard does not change the stored role again. */
  lemma LoginThenGuard(m: map<string, string>, t: TokenData, s: string, username: JsValue, allowedRoles: seq<string>)
    requires TokensPresent(t)
    ensures var after := StoreAfterLogin(m, t, ProfileData(username, Str(s)));
            ProtectedRoute(after, Some(allowedRoles)) == RenderChildren <==> Lower(s) in allowedRoles
  {
    LowerIdempotent(s);
  }

  /** The server's role text `"Instructor"` is stored as `instructor`. */
  lemma LowerCapitalizedInstructor()
    ensures Lower("Instructor") == "instructor"
  {
    var l := Lower("Instructor");
    assert l[0] == 'i' && l[1] == 'n' && l[2] == 's' && l[3] == 't' && l[4] == 'r';
    assert l[5] == 'u' && l[6] == 'c' && l[7] == 't' && l[8] == 'o' && l[9] == 'r';
  }

  /** A server role such as `"Instructor"` (any case of `instructor`): the
      role is stored as `instructor`, the user lands on the instructor
      dashboard, the instructor view admits them and the administrative view
      does not. */
  lemma InstructorLoginScenario(m: map<string, string>, t: TokenData, s: string, username: JsValue)
    requires TokensPresent(t) && Lower(s) == "instructor"
    ensures var after := StoreAfterLogin(m, t, ProfileData(username, Str(s)));
            && after[RoleKey] == "instructor"
            && LandingNav(NormalizedRole(Str(s))) == Some(Nav(InstructorDashboardPath, true))
            && ProtectedRoute(after, Some(["instructor"])) == RenderChildren
            && ProtectedRoute(after, Some(["admin", "manager"])).Redirect?
  {
    var after := StoreAfterLogin(m, t, ProfileData(username, Str(s)));
    assert after[RoleKey] == Lower(s);
    LoginThenGuard(m, t, s, username, ["instructor"]);
    LoginThenGuard(m, t, s, username, ["admin", "manager"]);
  }

  /** The login submit run to completion on one page and one store, then the
      guard of a protected view. */
  method SubmitThenGuard(page: LoginPage, store: LocalStorage, tokens: Reply<TokenData>,
                         profile: Reply<ProfileData>, allowedRoles: seq<string>)
    returns (nav: Option<Nav>, guard: GuardResult)
    modifies page, store
    ensures !page.loading
    ensures tokens.Ok? && TokensPresent(tokens.data) && profile.Ok? ==>
              && store.items == StoreAfterLogin(old(store.items), tokens.data, profile.data)
              && nav == LandingNav(NormalizedRole(profile.data.role))
    ensures tokens.Ok? && TokensPresent(tokens.data) && profile.Ok? && profile.data.role.Str? ==>
              (guard == RenderChildren <==> Lower(profile.data.role.s) in allowedRoles)
    ensures !(tokens.Ok? && TokensPresent(tokens.data)) ==> store.items == old(store.items) && nav == None
  {
    var m := store.items;
    var first := page.StartSubmit();
    var next := page.OnTokenReply(store, tokens);
    nav := None;
    if next.Some? {
      nav := page.OnProfileReply(store, profile);
    }
    guard := ProtectedRoute(store.items, Some(allowedRoles));
    if tokens.Ok? && TokensPresent(tokens.data) && profile.Ok? && profile.data.role.Str? {
      LoginThenGuard(m, tokens.data, profile.data.role.s, profile.data.username, allowedRoles);
    }
  }

  /** The page-load check after a failed profile call signs the session out
      for the guard, but leaves `role` stored. */
  lemma FailedSessionCheckSignsOut(m: map<string, string>, allowedRoles: Option<seq<string>>)
    ensures var after := (m - {UserRoleKey, UsernameKey}) - {AccessKey, RefreshKey};
            && ProtectedRoute(after, allowedRoles).Redirect?
            && Get(after, RoleKey) == Get(m, RoleKey)
  {
  }

  /** A successful page-load check never changes what the guard decides: it
      writes `userRole` and `username`, while the guard reads `access` and `role`. */
  lemma SessionCheckKeepsGuardDecision(m: map<string, string>, p: ProfileData, allowedRoles: Option<seq<string>>)
    ensures var after := (m - {UserRoleKey, UsernameKey})[UserRoleKey := ToJsString(NormalizedRole(p.role))]
                                                          [UsernameKey := ToJsString(p.username)];
            ProtectedRoute(after, allowedRoles) == ProtectedRoute(m, allowedRoles)
  {
    var after := (m - {UserRoleKey, UsernameKey})[UserRoleKey := ToJsString(NormalizedRole(p.role))]
                                                 [UsernameKey := ToJsString(p.username)];
    GuardReadsOnlyAccessAndRole(after, m, allowedRoles);
  }

  /** The page-load check run to completion on one store, then the guard of a
      protected view: without a stored token there is no request and the
      guard redirects; a successful check keeps the guard's decision; a
      failed one signs the session out while `role` stays stored. */
  method SessionCheckThenGuard(page: LoginPage, store: LocalStorage, reply: Reply<ProfileData>,
                               allowedRoles: Option<seq<string>>)
    returns (call: Option<Call>, nav: Option<Nav>, guard: GuardResult)
    modifies store
    ensures call.None? ==> !HasAccess(old(store.items)) && nav == None && guard.Redirect?
    ensures call.Some? && reply.Ok? ==> nav == LandingNav(NormalizedRole(reply.data.role))
                                        && guard == ProtectedRoute(old(store.items), allowedRoles)
    ensures call.Some? && reply.Err? ==> nav == None && guard.Redirect?
                                         && Get(store.items, RoleKey) == Get(old(store.items), RoleKey)
  {
    var m := store.items;
    call := page.StartSessionCheck(store);
    nav := None;
    if call.Some? {
      nav := page.FinishSessionCheck(store, reply);
      match reply {
        case Ok(p) => SessionCheckKeepsGuardDecision(m, p, allowedRoles);
        case Err(_) => FailedSessionCheckSignsOut(m, allowedRoles);
      }
    }
    guard := ProtectedRoute(store.items, allowedRoles);
  }

  /** After logout every protected view redirects to the login page. */
  lemma LogoutThenGuard(m: map<string, string>, allowedRoles: Option<seq<string>>)
    ensures ProtectedRoute(LoggedOut(m), allowedRoles) == Redirect(Nav(LoginPath, true))
  {
  }

  /** The dashboard loads feeds only for a profile whose role is the
      backend's instructor constant, and such a user lands on the dashboard. */
  lemma FeedsOnlyForBackendInstructor(p: ProfileData)
    ensures ShouldFetchFeeds(Some(p)) <==> p.role == Str(Accounts.RoleInstructor)
    ensures ShouldFetchFeeds(Some(p)) ==> LandingPath(NormalizedRole(p.role)) == Some(InstructorDashboardPath)
  {
    LowerRoleConstants();
  }

  /** A reset link without its parameters is flagged at mount, yet a submit
      with matching passwords still sends the request, with the missing
      parameters as `null`. */
  method MissingParametersDoNotBlockSubmit(password: string) returns (flagged: Option<string>, call: Option<Call>)
    ensures flagged == Some(MissingParameters)
    ensures call == Some(PostResetPassword(None, None, password))
  {
    var page := new ResetPasswordPage(None, None);
    page.CheckParameters();
    flagged := page.error;
    page.password, page.confirmPassword := password, password;
    call := page.StartSubmit();
  }
}
