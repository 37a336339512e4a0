/** The instructor dashboard: its profile gate, the feed fetch and logout. */
module InstructorDashboard {
  import opened Js
  import opened Api
  import opened Storage

  /** The store after logout: the two tokens are gone, every other key is kept. */
  function LoggedOut(m: map<string, string>): (r: map<string, string>)
    ensures AccessKey !in r && RefreshKey !in r
    ensures forall k :: k in m && k != AccessKey && k != RefreshKey ==> k in r && r[k] == m[k]
    ensures forall k :: k in r ==> k in m
  {
    m - {AccessKey, RefreshKey}
  }

  /** Logging out twice leaves the store as logging out once does. */
  lemma LogoutIdempotent(m: map<string, string>)
    ensures LoggedOut(LoggedOut(m)) == LoggedOut(m)
  {
  }

  /** The feed effect's condition: a profile whose role is exactly the
      uppercase string `"INSTRUCTOR"`; the comparison is case-sensitive. */
  predicate ShouldFetchFeeds(user: Option<ProfileData>) {
    user.Some? && user.value.role == Str("INSTRUCTOR")
  }

  /** A lowercase `instructor` role from the server loads no feeds. */
  lemma LowercaseInstructorLoadsNoFeeds(p: ProfileData)
    requires p.role == Str("instructor")
    ensures !ShouldFetchFeeds(Some(p))
  {
  }

  class Dashboard {
    var user: Option<ProfileData>
    var feeds: seq<Feed>
    var loadingFeeds: bool

    constructor ()
      ensures user == None && feeds == [] && !loadingFeeds
    {
      user, feeds, loadingFeeds := None, [], false;
    }

    /** `fetchProfile` up to its request. Without an access token it sends
        the page to the login route and issues no request. It only reads the store. */
    method StartFetchProfile(store: LocalStorage) returns (call: Option<Call>, nav: Option<Nav>)
      ensures !HasAccess(store.items) ==> call == None && nav == Some(Nav(LoginPath, false))
      ensures HasAccess(store.items) ==> call == Some(GetProfile(store.items[AccessKey])) && nav == None
    {
      var token := store.GetItem(AccessKey);
      if !Present(token) {
        return None, Some(Nav(LoginPath, false));
      }
      call, nav := Some(GetProfile(token.value)), None;
    }

    /** `fetchProfile` once the profile request settles. A failure sends the
        page to the login route; the store is not touched on either path. */
    method FinishFetchProfile(reply: Reply<ProfileData>) returns (nav: Option<Nav>)
      modifies this`user
      ensures reply.Ok? ==> user == Some(reply.data) && nav == None
      ensures reply.Err? ==> user == old(user) && nav == Some(Nav(LoginPath, false))
    {
      match reply
      case Ok(profile) =>
        user := Some(profile);
        nav := None;
      case Err(_) =>
        nav := Some(Nav(LoginPath, false));
    }

    /** The effect that runs whenever `user` changes: start `fetchFeeds`
        only for an uppercase `INSTRUCTOR` profile. */
    method OnUserChanged() returns (call: Option<Call>)
      modifies this`loadingFeeds
      ensures call.Some? <==> ShouldFetchFeeds(user)
      ensures call.Some? ==> call == Some(GetTimelineItems) && loadingFeeds
      ensures call == None ==> loadingFeeds == old(loadingFeeds)
    {
      if ShouldFetchFeeds(user) {
        var c := StartFetchFeeds();
        call := Some(c);
      } else {
        call := None;
      }
    }

    /** `fetchFeeds` up to its request. */
    method StartFetchFeeds() returns (call: Call)
      modifies this`loadingFeeds
      ensures loadingFeeds && call == GetTimelineItems
    {
      loadingFeeds := true;
      call := GetTimelineItems;
    }

    /** `fetchFeeds` once the request settles: the feeds are replaced only on
        success, and `loadingFeeds` ends false on both paths. */
    method FinishFetchFeeds(reply: Reply<seq<Feed>>)
      modifies this`feeds, this`loadingFeeds
      ensures !loadingFeeds
      ensures reply.Ok? ==> feeds == reply.data
      ensures reply.Err? ==> feeds == old(feeds)
    {
      if reply.Ok? {
        feeds := reply.data;
      }
      loadingFeeds := false;
    }

    /** Drop the two tokens and go to the login route. */
    method Logout(store: LocalStorage) returns (nav: Nav)
      modifies store
      ensures store.items == LoggedOut(old(store.items))
      ensures nav == Nav(LoginPath, false)
    {
      store.RemoveItem(AccessKey);
      store.RemoveItem(RefreshKey);
      nav := Nav(LoginPath, false);
    }
  }
}
