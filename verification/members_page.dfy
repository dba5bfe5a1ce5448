/** `MembersPage`: the signed-in user's card, the role-name lookup, the mount
    effect and logout. */
module MembersPage {
  import opened Js
  import opened Browser
  import opened Session
  import ProtectedRoute

  const UnknownRole := "Unknown"

  /** `const { roles = [] } = state.user`: the default applies only when the field is undefined. */
  function RolesOrDefault(v: RolesValue): (r: RolesValue)
    ensures v.Undefined? ==> r == RoleArray([])
    ensures !v.Undefined? ==> r == v
    ensures !r.Undefined?
  {
    if v.Undefined? then RoleArray([]) else v
  }

  /** `roles.find(role => role._id === roleId)`. */
  function FindRole(roles: seq<Role>, roleId: string): (r: Option<Role>)
    ensures r.Some? ==> exists i :: 0 <= i < |roles| && roles[i] == r.value && r.value.id == roleId
                          && forall j :: 0 <= j < i ==> roles[j].id != roleId
    ensures r.None? <==> forall j :: 0 <= j < |roles| ==> roles[j].id != roleId
    decreases |roles|
  {
    if roles == [] then None
    else if roles[0].id == roleId then Some(roles[0])
    else
      var r := FindRole(roles[1..], roleId);
      assert forall i :: 1 <= i < |roles| ==> roles[i] == roles[1..][i - 1];
      r
  }

  /** `getRoleName(roleId)`: the name of the first role whose `_id` is `roleId`,
      or "Unknown" when `roles` is not an array or no role matches. */
  function GetRoleName(roles: RolesValue, roleId: string): (name: string)
    ensures !roles.RoleArray? ==> name == UnknownRole
    ensures roles.RoleArray? && (forall j :: 0 <= j < |roles.items| ==> roles.items[j].id != roleId)
            ==> name == UnknownRole
    ensures roles.RoleArray? && (exists j :: 0 <= j < |roles.items| && roles.items[j].id == roleId)
            ==> exists i :: 0 <= i < |roles.items| && roles.items[i].id == roleId && name == roles.items[i].name
                  && forall j :: 0 <= j < i ==> roles.items[j].id != roleId
  {
    if !roles.RoleArray? then UnknownRole
    else
      match FindRole(roles.items, roleId)
      case Some(role) => role.name
      case None => UnknownRole
  }

  /** With no roles loaded yet (the store's initial state), every role reads "Unknown". */
  lemma NoRolesLoadedMeansUnknown(roleId: string)
    ensures GetRoleName(RolesOrDefault(InitialState.roles), roleId) == UnknownRole
  {
  }

  /** What the page renders. */
  datatype View = Spinner | ErrorText(text: string) | UserCard(user: UserRecord, roleName: string) | NoUserDetails

  /** Render precedence: loading, then error, then the user card, else "No user details available". */
  function Render(s: SessionState): (v: View)
    ensures v.Spinner? <==> s.loading
    ensures v.ErrorText? <==> !s.loading && Truthy(s.error)
    ensures v.ErrorText? ==> v.text == "Error: " + s.error.value
    ensures v.UserCard? <==> !s.loading && !Truthy(s.error) && s.user.Some?
    ensures v.UserCard? ==> v.user == s.user.value && v.roleName == GetRoleName(RolesOrDefault(s.roles), s.user.value.role)
    ensures v.NoUserDetails? <==> !s.loading && !Truthy(s.error) && s.user.None?
  {
    if s.loading then Spinner
    else if s.error.Some? && s.error.value != "" then ErrorText("Error: " + s.error.value)
    else if s.user.Some? then UserCard(s.user.value, GetRoleName(RolesOrDefault(s.roles), s.user.value.role))
    else NoUserDetails
  }

  /** A thunk the mount effect dispatches. */
  datatype ThunkCall = FetchRolesCall | FetchUserDetailsCall(userId: string)

  /** The mount effect: `fetchRoles()` always, then `fetchUserDetails(userId)`
      only when a (non-empty) `userId` is stored. */
  function MountDispatches(st: Storage): (calls: seq<ThunkCall>)
    ensures |calls| >= 1 && calls[0] == FetchRolesCall
    ensures |calls| == 2 <==> Truthy(GetItem(st, "userId"))
    ensures |calls| <= 2
    ensures |calls| == 2 ==> calls[1] == FetchUserDetailsCall(st["userId"])
  {
    var userId := GetItem(st, "userId");
    if Truthy(userId) then [FetchRolesCall, FetchUserDetailsCall(userId.value)] else [FetchRolesCall]
  }

  /** `handleLogout`: both `token` and `userId` are removed and the browser goes to `/login`. */
  method HandleLogout(w: Window)
    modifies w
    ensures w.storage == old(w.storage) - {"token", "userId"}
    ensures w.location == "/login"
    ensures !ProtectedRoute.IsLoggedIn(w.storage)
    ensures MountDispatches(w.storage) == [FetchRolesCall]
  {
    w.RemoveItem("token");
    w.RemoveItem("userId");
    assert w.storage == old(w.storage) - {"token", "userId"};
    w.Navigate("/login");
  }
}
