/** The timeline item endpoint's access rules: who sees which items, who may
    create them, and who may publish them. */
module TimelineViews {
  import opened Js
  import opened Accounts
  import opened TimelineModels

  /** The outcome of calling a role helper method on the user. */
  datatype CallResult = Returned(truthy: bool) | Raised

  /** A role helper found on the user object: a plain attribute (only its
      truthiness matters) or a method. */
  datatype Attr = Plain(truthy: bool) | Callable(result: CallResult)

  /** The requesting user: anonymous, or an authenticated user with the role
      helpers its class defines (an absent name is an absent attribute). */
  datatype RequestUser = Anonymous | Authenticated(id: int, isSuperuser: bool, attrs: map<string, Attr>)

  const AuthenticationRequired := "Authentication required to create timeline items."
  const CreateForbidden := "Only instructors, managers or admins can create timeline items."
  const PublishForbidden := "Only admin or manager can publish a post."

  /** `role_check`: true only for a truthy attribute or a method that returns
      a truthy value; a missing attribute or a method that raises gives false. */
  function RoleCheck(u: RequestUser, name: string): (b: bool)
    ensures b <==> u.Authenticated? && name in u.attrs
                   && (u.attrs[name] == Plain(true) || u.attrs[name] == Callable(Returned(true)))
  {
    match u
    case Anonymous => false
    case Authenticated(_, _, attrs) =>
      if name !in attrs then false
      else match attrs[name]
        case Plain(t) => t
        case Callable(Raised) => false
        case Callable(Returned(t)) => t
  }

  /** The request user for an account of the user model: its three role
      predicates are methods; it has no `is_writer` helper. */
  function FromAccount(a: Account): RequestUser {
    Authenticated(a.id, a.isSuperuser,
                  map["is_admin" := Callable(Returned(IsAdmin(a))),
                      "is_manager" := Callable(Returned(IsManager(a))),
                      "is_instructor" := Callable(Returned(IsInstructor(a)))])
  }

  /** On an account, `role_check` agrees with the model's role predicates. */
  lemma RoleCheckOnAccount(a: Account)
    ensures RoleCheck(FromAccount(a), "is_admin") == IsAdmin(a)
    ensures RoleCheck(FromAccount(a), "is_manager") == IsManager(a)
    ensures RoleCheck(FromAccount(a), "is_instructor") == IsInstructor(a)
    ensures !RoleCheck(FromAccount(a), "is_writer")
  {
  }

  /** Superuser, admin or manager: sees everything, may publish. An
      anonymous user's `is_superuser` is false and has no role helpers. */
  predicate CanPublish(u: RequestUser) {
    u.Authenticated? && (u.isSuperuser || RoleCheck(u, "is_admin") || RoleCheck(u, "is_manager"))
  }

  /** Instructor, or the former writer role. */
  predicate IsWriter(u: RequestUser) {
    RoleCheck(u, "is_instructor") || RoleCheck(u, "is_writer")
  }

  predicate MayCreate(u: RequestUser) {
    u.Authenticated? && (CanPublish(u) || IsWriter(u))
  }

  /** Whether `get_queryset` keeps an item for this user. */
  predicate Sees(u: RequestUser, it: Item) {
    if u.Anonymous? then it.status == Published
    else if CanPublish(u) then true
    else if IsWriter(u) then it.status == Published || it.author == u.id
    else it.status == Published
  }

  /** `get_queryset`: the rows this user may see, in their original order. */
  function GetQueryset(u: RequestUser, items: seq<Item>): (r: seq<Item>)
    ensures forall x :: x in r <==> x in items && Sees(u, x)
    ensures |r| <= |items|
  {
    if items == [] then []
    else if Sees(u, items[0]) then [items[0]] + GetQueryset(u, items[1..])
    else GetQueryset(u, items[1..])
  }

  /** Every user, anonymous or not, sees every published item. */
  lemma EveryoneSeesPublished(u: RequestUser, items: seq<Item>, x: Item)
    requires x in items && x.status == Published
    ensures x in GetQueryset(u, items)
  {
  }

  /** An anonymous user sees exactly the published items. */
  lemma AnonymousSeesExactlyPublished(items: seq<Item>, x: Item)
    ensures x in GetQueryset(Anonymous, items) <==> x in items && x.status == Published
  {
  }

  /** An instructor or writer who may not publish sees the published items
      and their own; any other user who may not publish sees the published ones. */
  lemma UnprivilegedSees(u: RequestUser, items: seq<Item>, x: Item)
    requires u.Authenticated? && !CanPublish(u)
    ensures IsWriter(u) ==> (x in GetQueryset(u, items) <==> x in items && (x.status == Published || x.author == u.id))
    ensures !IsWriter(u) ==> (x in GetQueryset(u, items) <==> x in items && x.status == Published)
  {
  }

  /** A superuser, admin or manager gets the whole table, rows and order. */
  lemma {:induction false} PrivilegedSeesEverything(u: RequestUser, items: seq<Item>)
    requires CanPublish(u)
    ensures GetQueryset(u, items) == items
  {
    if items != [] {
      PrivilegedSeesEverything(u, items[1..]);
      assert items == [items[0]] + items[1..];
    }
  }

  /** Filtering keeps the default listing order. */
  lemma {:induction false} QuerysetKeepsListingOrder(u: RequestUser, items: seq<Item>)
    requires InListingOrder(items)
    ensures InListingOrder(GetQueryset(u, items))
  {
    if items != [] {
      var rest := items[1..];
      assert InListingOrder(rest) by {
        forall i, j | 0 <= i < j < |rest| ensures ListedBefore(rest[i], rest[j]) {
          assert rest[i] == items[i + 1] && rest[j] == items[j + 1];
        }
      }
      QuerysetKeepsListingOrder(u, rest);
      if Sees(u, items[0]) {
        var r := GetQueryset(u, rest);
        forall j | 0 <= j < |r| ensures ListedBefore(items[0], r[j]) {
          assert r[j] in rest;
          var k :| 0 <= k < |rest| && rest[k] == r[j];
          assert items[k + 1] == r[j];
        }
        var s := [items[0]] + r;
        forall i, j | 0 <= i < j < |s| ensures ListedBefore(s[i], s[j]) {
          if i > 0 {
            assert s[i] == r[i - 1] && s[j] == r[j - 1];
          }
        }
      }
    }
  }

  /** `get_object`: the first row of the user's queryset with this id; a row
      outside the queryset is not found. */
  function GetObject(u: RequestUser, items: seq<Item>, id: int): (r: Option<Item>)
    ensures r.Some? ==> r.value in items && Sees(u, r.value) && r.value.id == id
    ensures r == None <==> forall x :: x in items && Sees(u, x) ==> x.id != id
  {
    FirstWithId(GetQueryset(u, items), id)
  }

  /** The first row of `s` with this id: no earlier row has it. */
  function FirstWithId(s: seq<Item>, id: int): (r: Option<Item>)
    ensures r.Some? ==> r.value in s && r.value.id == id
    ensures r.Some? ==> exists i :: 0 <= i < |s| && s[i] == r.value && forall j :: 0 <= j < i ==> s[j].id != id
    ensures r == None <==> forall x :: x in s ==> x.id != id
  {
    if s == [] then None
    else if s[0].id == id then Some(s[0])
    else
      var r := FirstWithId(s[1..], id);
      assert r.Some? ==> exists i :: 0 < i < |s| && s[i] == r.value && forall j :: 0 <= j < i ==> s[j].id != id by {
        if r.Some? {
          var k :| 0 <= k < |s[1..]| && s[1..][k] == r.value && forall j :: 0 <= j < k ==> s[1..][j].id != id;
          assert s[k + 1] == r.value;
          assert forall j :: 0 <= j < k + 1 ==> s[j].id != id by {
            forall j | 0 <= j < k + 1 ensures s[j].id != id {
              if j > 0 { assert s[j] == s[1..][j - 1]; }
            }
          }
        }
      }
      r
  }

  /** The fields a create request carries; `status` is the validated choice, if sent. */
  datatype CreateData = CreateData(title: string, content: string, status: Option<Status>)

  datatype CreateOutcome = CreateDenied(detail: string) | Created(item: TimelineItem)

  /** The row `perform_create` leaves behind: authored by the requester,
      published (and stamped) exactly when publication was requested by a
      user who may publish; any other request ends as a draft. */
  function CreatedRow(u: RequestUser, data: CreateData, id: int, now: Time): (r: Item)
    requires MayCreate(u)
    ensures r.id == id && r.author == u.id && r.title == data.title && r.content == data.content
    ensures r.createdAt == now
    ensures r.status == Published <==> data.status == Some(Published) && CanPublish(u)
    ensures r.status == Draft <==> !(data.status == Some(Published) && CanPublish(u))
    ensures r.publishedAt == (if r.status == Published then Some(now) else None)
  {
    var saved := Item(id, u.id, data.title, data.content,
                      if data.status.Some? then data.status.value else DefaultStatus, now, None);
    if data.status == Some(Published) then
      if CanPublish(u) then saved.(status := Published, publishedAt := Some(now))
      else if saved.status != Draft then saved.(status := Draft)
      else saved
    else
      assert saved.status == Draft by { assert data.status.Some? ==> data.status.value != Published; }
      saved
  }

  /** `perform_create`: refuse anonymous users and users with no creating
      role before saving anything; otherwise save the item under the
      requester and coerce the requested status. */
  method PerformCreate(u: RequestUser, data: CreateData, id: int, now: Time) returns (r: CreateOutcome)
    ensures u.Anonymous? ==> r == CreateDenied(AuthenticationRequired)
    ensures u.Authenticated? && !MayCreate(u) ==> r == CreateDenied(CreateForbidden)
    ensures MayCreate(u) ==> r.Created? && fresh(r.item) && r.item.Row() == CreatedRow(u, data, id, now)
  {
    if u.Anonymous? {
      return CreateDenied(AuthenticationRequired);
    }
    var isAdmin := u.isSuperuser || RoleCheck(u, "is_admin");
    var isManager := RoleCheck(u, "is_manager");
    var isInstructor := RoleCheck(u, "is_instructor") || RoleCheck(u, "is_writer");
    if !(isAdmin || isManager || isInstructor) {
      return CreateDenied(CreateForbidden);
    }
    var item := new TimelineItem(id, u.id, data.title, data.content,
                                 if data.status.Some? then data.status.value else DefaultStatus, now);
    if data.status == Some(Published) {
      if isAdmin || isManager {
        item.status := Published;
        item.publishedAt := Some(now);
      } else if item.status != Draft {
        item.status := Draft;
      }
    }
    r := Created(item);
  }

  /** The fields an update request carries, each optional. */
  datatype UpdateData = UpdateData(title: Option<string>, content: Option<string>, status: Option<Status>)

  /** `update`'s outcomes: the 404 `get_object` raises, the refusal, or the
      loaded instance after the update. */
  datatype UpdateOutcome = NotFound | UpdateDenied(detail: string) | Updated(instance: TimelineItem)

  /** `request.data.get("status", instance.status)`. */
  function EffectiveStatus(data: UpdateData, current: Status): Status {
    if data.status.Some? then data.status.value else current
  }

  /** An update is refused when it would leave the item published and the
      user may not publish. */
  predicate UpdateForbidden(u: RequestUser, current: Status, data: UpdateData) {
    EffectiveStatus(data, current) == Published && !CanPublish(u)
  }

  /** The row after a permitted update: the sent fields are applied, and the
      publication time is stamped only on a move into the published status. */
  function UpdatedRow(it: Item, data: UpdateData, now: Time): (r: Item)
    ensures r.id == it.id && r.author == it.author && r.createdAt == it.createdAt
    ensures r.title == (if data.title.Some? then data.title.value else it.title)
    ensures r.content == (if data.content.Some? then data.content.value else it.content)
    ensures r.status == EffectiveStatus(data, it.status)
    ensures r.publishedAt != it.publishedAt ==> it.status != Published && r.status == Published
    ensures it.status != Published && r.status == Published ==> r.publishedAt == Some(now)
  {
    var stamped := if EffectiveStatus(data, it.status) == Published && it.status != Published
                   then it.(publishedAt := Some(now), status := Published)
                   else it;
    stamped.(title := if data.title.Some? then data.title.value else stamped.title,
             content := if data.content.Some? then data.content.value else stamped.content,
             status := if data.status.Some? then data.status.value else stamped.status)
  }

  /** `update` of the row with this id: `get_object` looks it up in the
      user's queryset (a row outside it is not found), loads it, and the
      loaded instance is then checked, stamped and updated in place. */
  method Update(u: RequestUser, items: seq<Item>, id: int, data: UpdateData, now: Time) returns (r: UpdateOutcome)
    ensures r.NotFound? <==> GetObject(u, items, id) == None
    ensures r.UpdateDenied? <==> GetObject(u, items, id).Some?
                                 && UpdateForbidden(u, GetObject(u, items, id).value.status, data)
    ensures r.UpdateDenied? ==> r.detail == PublishForbidden
    ensures r.Updated? ==> fresh(r.instance) && r.instance.Row() == UpdatedRow(GetObject(u, items, id).value, data, now)
  {
    var found := GetObject(u, items, id);
    if found.None? {
      return NotFound;
    }
    var instance := new TimelineItem.Load(found.value);
    var requested := EffectiveStatus(data, instance.status);
    var isAdminOrManager := u.Authenticated? && (u.isSuperuser || RoleCheck(u, "is_admin") || RoleCheck(u, "is_manager"));
    if requested == Published && !isAdminOrManager {
      return UpdateDenied(PublishForbidden);
    }
    if requested == Published && instance.status != Published {
      instance.publishedAt := Some(now);
      instance.status := Published;
    }
    if data.title.Some? { instance.title := data.title.value; }
    if data.content.Some? { instance.content := data.content.value; }
    if data.status.Some? { instance.status := data.status.value; }
    r := Updated(instance);
  }

  /** A user who may not publish is refused on a published item unless the
      request sends another status. */
  lemma UnprivilegedRefusedOnPublished(u: RequestUser, it: Item, data: UpdateData)
    requires !CanPublish(u) && it.status == Published
    ensures UpdateForbidden(u, it.status, data) <==> data.status != Some(Draft)
  {
  }

  /** Only a superuser, admin or manager ever makes an item published, by
      create or by update. */
  lemma OnlyPrivilegedPublish(u: RequestUser, it: Item, create: CreateData, update: UpdateData, id: int, now: Time)
    ensures MayCreate(u) && CreatedRow(u, create, id, now).status == Published ==> CanPublish(u)
    ensures !UpdateForbidden(u, it.status, update) && UpdatedRow(it, update, now).status == Published
            ==> CanPublish(u)
  {
  }

  /** What a user who may not publish can update: a row they may see, so a
      published one or, as instructor or writer, their own. A published row
      is updatable only by sending DRAFT, and the update then unpublishes it,
      whoever its author is. */
  lemma UnprivilegedUpdateReach(u: RequestUser, items: seq<Item>, id: int, data: UpdateData, now: Time)
    requires u.Authenticated? && !CanPublish(u)
    requires GetObject(u, items, id).Some? && !UpdateForbidden(u, GetObject(u, items, id).value.status, data)
    ensures var x := GetObject(u, items, id).value;
            && x in items
            && (x.status == Published || (IsWriter(u) && x.author == u.id))
            && (x.status == Published ==> data.status == Some(Draft) && UpdatedRow(x, data, now).status == Draft)
  {
    var x := GetObject(u, items, id).value;
    if x.status == Published {
      UnprivilegedRefusedOnPublished(u, x, data);
    }
  }

  /** On an account of the user model: publishing takes a superuser or the
      admin or manager role, and creating takes a superuser or any role of
      the choice list. */
  lemma AccountPermissions(a: Account)
    ensures CanPublish(FromAccount(a)) <==> a.isSuperuser || IsAdmin(a) || IsManager(a)
    ensures MayCreate(FromAccount(a)) <==> a.isSuperuser || a.role in RoleChoices
  {
    RoleCheckOnAccount(a);
    ExactlyOneRoleForChoices(a);
  }
}
