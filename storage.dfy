/** The browser's `localStorage`: a persisted map from string keys to string values. */
module Storage {
  import opened Js

  const AccessKey := "access"
  const RefreshKey := "refresh"
  const RoleKey := "role"
  const UserRoleKey := "userRole"
  const UsernameKey := "username"

  /** `localStorage.getItem(key)` on a snapshot of the store: `null` is `None`. */
  function Get(m: map<string, string>, key: string): (r: Option<string>)
    ensures r.Some? <==> key in m
    ensures r.Some? ==> r.value == m[key]
  {
    if key in m then Some(m[key]) else None
  }

  /** `!!localStorage.getItem("access")`: an access token is stored and is not empty. */
  predicate HasAccess(m: map<string, string>) {
    Present(Get(m, AccessKey))
  }

  class LocalStorage {
    var items: map<string, string>

    constructor (initial: map<string, string>)
      ensures items == initial
    {
      items := initial;
    }

    function GetItem(key: string): (r: Option<string>)
      reads this
      ensures r.Some? <==> key in items
      ensures r.Some? ==> r.value == items[key]
    {
      Get(items, key)
    }

    method SetItem(key: string, value: string)
      modifies this
      ensures items == old(items)[key := value]
    {
      items := items[key := value];
    }

    method RemoveItem(key: string)
      modifies this
      ensures items == old(items) - {key}
    {
      items := items - {key};
    }
  }
}
