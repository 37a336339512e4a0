/** The route guard that wraps every protected view. */
module Routing {
  import opened Js
  import opened Api
  import opened Storage

  /** What the guard renders: the protected children, or a redirect. */
  datatype GuardResult = RenderChildren | Redirect(nav: Nav)

  /** `allowedRoles.includes(role?.toLowerCase())`: a missing role lowercases
      to `undefined`, which no list of strings includes. Only the stored role
      is lowercased; the entries of the list are compared as given. */
  predicate RoleAllowed(role: Option<string>, allowedRoles: seq<string>) {
    role.Some? && Lower(role.value) in allowedRoles
  }

  /** The guard's decision from a snapshot of the store. An `allowedRoles`
      list, empty or not, is supplied exactly when it is `Some`. */
  function ProtectedRoute(items: map<string, string>, allowedRoles: Option<seq<string>>): (r: GuardResult)
    ensures r.Redirect? ==> r.nav == Nav(LoginPath, true)
    ensures !HasAccess(items) ==> r.Redirect?
    ensures HasAccess(items) && allowedRoles == None ==> r == RenderChildren
    ensures HasAccess(items) && allowedRoles.Some? ==>
              (r == RenderChildren <==> RoleKey in items && Lower(items[RoleKey]) in allowedRoles.value)
  {
    if !HasAccess(items) then Redirect(Nav(LoginPath, true))
    else if allowedRoles.Some? && !RoleAllowed(Get(items, RoleKey), allowedRoles.value) then
      Redirect(Nav(LoginPath, true))
    else RenderChildren
  }

  /** A stored access token and no stored role: every allow-list denies. */
  lemma MissingRoleDenied(items: map<string, string>, allowedRoles: seq<string>)
    requires HasAccess(items) && RoleKey !in items
    ensures ProtectedRoute(items, Some(allowedRoles)).Redirect?
  {
  }

  /** An empty allow-list is still a list, and it denies every stored role. */
  lemma EmptyAllowListDeniesAll(items: map<string, string>)
    ensures ProtectedRoute(items, Some([])).Redirect?
  {
  }

  /** "Not logged in" and "role not allowed" cannot be told apart by the outcome. */
  lemma DenialsAreIdentical(a: map<string, string>, b: map<string, string>, allowedRoles: seq<string>)
    requires !HasAccess(a)
    requires HasAccess(b) && !RoleAllowed(Get(b, RoleKey), allowedRoles)
    ensures ProtectedRoute(a, None) == ProtectedRoute(a, Some(allowedRoles)) == ProtectedRoute(b, Some(allowedRoles))
  {
  }

  /** An allow-list entry with an uppercase letter admits no stored role. */
  lemma UppercaseEntryAdmitsNothing(items: map<string, string>, e: string, i: int)
    requires 0 <= i < |e| && 'A' <= e[i] <= 'Z'
    ensures ProtectedRoute(items, Some([e])).Redirect?
  {
  }

  /** For example, a stored `Instructor` is refused by the entry `Instructor`
      and admitted by the entry `instructor`. */
  lemma AllowListIsNotLowercased(items: map<string, string>)
    requires HasAccess(items) && RoleKey in items && items[RoleKey] == "Instructor"
    ensures ProtectedRoute(items, Some(["Instructor"])).Redirect?
    ensures ProtectedRoute(items, Some(["instructor"])) == RenderChildren
  {
    var l := Lower("Instructor");
    assert l[0] == 'i';
    assert l == "instructor" by {
      assert forall i :: 0 <= i < |l| ==> l[i] == "instructor"[i];
    }
  }

  /** The guard reads only the `access` and `role` keys. */
  lemma GuardReadsOnlyAccessAndRole(a: map<string, string>, b: map<string, string>, allowedRoles: Option<seq<string>>)
    requires Get(a, AccessKey) == Get(b, AccessKey) && Get(a, RoleKey) == Get(b, RoleKey)
    ensures ProtectedRoute(a, allowedRoles) == ProtectedRoute(b, allowedRoles)
  {
  }
}
