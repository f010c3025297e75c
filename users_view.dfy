/** `UserManagementView` and `UserDetailView`: listing, creating and deleting
    staff accounts, all reserved to managers. */
module UsersView {
  import opened Common

  /** One account; `groups` holds the names of its auth groups. The password
      hash is not modelled. */
  datatype User = User(
    id: int, username: string, email: string, isSuperuser: bool, isStaff: bool,
    groups: set<string>, dateJoined: int)

  /** `is_manager`: a superuser or a member of the Manager group. */
  predicate IsManager(u: User)
  {
    u.isSuperuser || "Manager" in u.groups
  }

  /** The role label shown in the user list. */
  function RoleLabel(u: User): (r: string)
    ensures r == "Manager" <==> IsManager(u)
    ensures r == "Sales" <==> !IsManager(u) && "Sales" in u.groups
    ensures r == "Staff/Service" <==> !IsManager(u) && "Sales" !in u.groups
  {
    if u.isSuperuser || "Manager" in u.groups then "Manager"
    else if "Sales" in u.groups then "Sales"
    else "Staff/Service"
  }

  datatype UserRow = UserRow(id: int, username: string, email: string, role: string, dateJoined: int)

  function NewestJoinedKey(u: User): int { -u.dateJoined }

  function RowOf(u: User): UserRow
  {
    UserRow(u.id, u.username, u.email, RoleLabel(u), u.dateJoined)
  }

  /** `User.objects.all().order_by('-date_joined')`. */
  function ByNewestJoined(us: seq<User>): seq<User>
  {
    SortByKey(us, NewestJoinedKey)
  }

  /** `data.get(k)` is truthy: present and not empty. */
  predicate Given(o: Option<string>)
  {
    o.Some? && o.value != ""
  }

  predicate UsernameTaken(us: seq<User>, name: string)
  {
    exists i :: 0 <= i < |us| && us[i].username == name
  }

  /** The status `post` answers with, checks in source order. The 500 of a
      failing `create_user` is not modelled. */
  function CreateStatus(us: seq<User>, me: User, username: Option<string>, password: Option<string>): (status: int)
    ensures status == 403 <==> !IsManager(me)
    ensures status == 400 <==> IsManager(me) && (!Given(username) || !Given(password) || UsernameTaken(us, username.value))
    ensures status == 201 <==> IsManager(me) && Given(username) && Given(password) && !UsernameTaken(us, username.value)
  {
    if !IsManager(me) then 403
    else if !Given(username) || !Given(password) then 400
    else if UsernameTaken(us, username.value) then 400
    else 201
  }

  /** Group assignment by the requested role. */
  function GroupsFor(role: Option<string>): (g: set<string>)
    ensures role == Some("MANAGER") ==> g == {"Manager", "Sales"}
    ensures role == Some("SALES") ==> g == {"Sales"}
    ensures role != Some("MANAGER") && role != Some("SALES") ==> g == {}
  {
    if role == Some("MANAGER") then {"Manager", "Sales"}
    else if role == Some("SALES") then {"Sales"}
    else {}
  }

  function UserId(u: User): int { u.id }

  /** The account `create_user` plus the group step produce. */
  function NewUser(us: seq<User>, username: string, role: Option<string>, now: int): (u: User)
    ensures u.username == username && u.dateJoined == now && !u.isSuperuser
    ensures u.isStaff <==> role == Some("MANAGER")
    ensures IsManager(u) <==> role == Some("MANAGER")
    ensures RoleLabel(u) == (if role == Some("MANAGER") then "Manager" else if role == Some("SALES") then "Sales" else "Staff/Service")
    ensures forall i :: 0 <= i < |us| ==> us[i].id != u.id
  {
    User(NextId(us, UserId), username, "", false, role == Some("MANAGER"), GroupsFor(role), now)
  }

  /** The status `delete` answers with. */
  function DeleteStatus(us: seq<User>, me: User, pk: int): (status: int)
    ensures status == 403 <==> !IsManager(me)
    ensures status == 404 <==> IsManager(me) && forall i :: 0 <= i < |us| ==> us[i].id != pk
    ensures status == 400 <==> IsManager(me) && (exists i :: 0 <= i < |us| && us[i].id == pk) && pk == me.id
    ensures status == 204 <==> IsManager(me) && (exists i :: 0 <= i < |us| && us[i].id == pk) && pk != me.id
  {
    if !IsManager(me) then 403
    else if forall i :: 0 <= i < |us| ==> us[i].id != pk then 404
    else if pk == me.id then 400
    else 204
  }

  /** The table after `user.delete()`: exactly the account with key `pk` is
      gone, the others keep their order. */
  function WithoutUser(us: seq<User>, pk: int): (r: seq<User>)
    ensures forall i :: 0 <= i < |r| ==> r[i].id != pk && r[i] in us
    ensures forall i :: 0 <= i < |us| && us[i].id != pk ==> us[i] in r
    ensures IsSubsequence(r, us)
  {
    FilterIsSubsequence(us, (u: User) => u.id != pk);
    Filter(us, (u: User) => u.id != pk)
  }

  /** Keys and usernames are unique. */
  predicate UniqueUsers(us: seq<User>)
  {
    forall i, j :: 0 <= i < j < |us| ==> us[i].id != us[j].id && us[i].username != us[j].username
  }

  function Differs(a: User, b: User): bool { a.id != b.id && a.username != b.username }

  class UserTable {
    var users: seq<User>

    ghost predicate Valid()
      reads this
    {
      UniqueUsers(users)
    }

    constructor ()
      ensures Valid() && users == []
    {
      users := [];
    }

    /** `UserManagementView.get`: 403 for a non-manager, else every account,
        newest first, with its role label. */
    method List(me: User) returns (status: int, rows: seq<UserRow>)
      ensures status == 403 <==> !IsManager(me)
      ensures status == 403 ==> rows == []
      ensures status == 200 ==> |rows| == |users|
      ensures status == 200 ==> forall i :: 0 <= i < |rows| ==> rows[i] == RowOf(ByNewestJoined(users)[i])
    {
      if !IsManager(me) {
        return 403, [];
      }
      var ordered := ByNewestJoined(users);
      rows := [];
      var i := 0;
      while i < |ordered|
        invariant 0 <= i <= |ordered|
        invariant |rows| == i
        invariant forall k :: 0 <= k < i ==> rows[k] == RowOf(ordered[k])
      {
        var u := ordered[i];
        var role := "Staff/Service";
        if u.isSuperuser || "Manager" in u.groups {
          role := "Manager";
        } else if "Sales" in u.groups {
          role := "Sales";
        }
        rows := rows + [UserRow(u.id, u.username, u.email, role, u.dateJoined)];
        i := i + 1;
      }
      status := 200;
    }

    /** `UserManagementView.post`. */
    method Create(me: User, username: Option<string>, password: Option<string>, role: Option<string>, now: int)
      returns (status: int)
      requires Valid()
      modifies this
      ensures Valid()
      ensures status == CreateStatus(old(users), me, username, password)
      ensures status != 201 ==> users == old(users)
      ensures status == 201 ==> users == old(users) + [NewUser(old(users), username.value, role, now)]
    {
      if !IsManager(me) {
        return 403;
      }
      if username.None? || username.value == "" || password.None? || password.value == "" {
        return 400;
      }
      if exists i :: 0 <= i < |users| && users[i].username == username.value {
        return 400;
      }
      var user := NewUser(users, username.value, role, now);
      users := users + [user];
      status := 201;
    }

    /** `UserDetailView.delete`. */
    method Delete(me: User, pk: int) returns (status: int)
      requires Valid()
      modifies this
      ensures Valid()
      ensures status == DeleteStatus(old(users), me, pk)
      ensures status != 204 ==> users == old(users)
      ensures status == 204 ==> users == WithoutUser(old(users), pk)
    {
      if !(me.isSuperuser || "Manager" in me.groups) {
        return 403;
      }
      if forall i :: 0 <= i < |users| ==> users[i].id != pk {
        return 404;
      }
      if pk == me.id {
        return 400;
      }
      FilterKeepsPairwise(users, (u: User) => u.id != pk, Differs);
      users := WithoutUser(users, pk);
      status := 204;
    }
  }

  /** The listing holds every account once, newest first. */
  lemma ListNewestFirst(us: seq<User>)
    ensures multiset(ByNewestJoined(us)) == multiset(us)
    ensures forall i, j :: 0 <= i < j < |us| ==> ByNewestJoined(us)[j].dateJoined <= ByNewestJoined(us)[i].dateJoined
  {
    SortByKeySorted(us, NewestJoinedKey);
  }
}
