/** `UserService` (web/backend/app/functions/user_service.py): a directory of
    five fixed users standing in for the auth service. Nothing it does is
    stored: creating, updating and deleting only compute an answer. */
module UserService {
  import opened Common

  datatype User = User(
    id: int,
    username: string,
    email: string,
    fullName: string,
    role: string,
    isActive: bool,
    isVerified: bool,
    createdAt: string,
    updatedAt: Option<string>,
    lastLogin: Option<string>)

  /** The `all_users` list. */
  const FixedUsers: seq<User> := [
    User(1, "admin1", "admin@company.com", "Администратор Системы", "admin", true, true,
         "2024-01-01T00:00:00", None, Some("2024-01-15T09:30:00")),
    User(2, "agent1", "agent1@company.com", "Иван Агентов", "agent", true, true,
         "2024-01-02T00:00:00", None, Some("2024-01-15T08:45:00")),
    User(3, "adjuster1", "adjuster1@company.com", "Мария Урегулировщикова", "adjuster", true, true,
         "2024-01-03T00:00:00", None, Some("2024-01-15T10:15:00")),
    User(4, "operator1", "operator1@company.com", "Петр Операторов", "operator", true, true,
         "2024-01-04T00:00:00", None, Some("2024-01-15T07:30:00")),
    User(5, "manager1", "manager1@company.com", "Анна Менеджерова", "manager", true, true,
         "2024-01-05T00:00:00", None, Some("2024-01-15T09:00:00"))
  ]

  function RoleIs(role: string): User -> bool { (u: User) => u.role == role }

  function IsActive(u: User): bool { u.isActive }

  /** The listing of `get_users` over a user list `all`: the role filter
      applies when the role is truthy, then the active filter; the total is
      counted after both filters and before the slice. */
  function ListUsers(all: seq<User>, skip: nat, limit: nat, role: Option<string>, activeOnly: bool): (r: (seq<User>, nat))
    ensures var byRole := if role.Some? && role.value != "" then Filter(all, RoleIs(role.value)) else all;
      var listed := if activeOnly then Filter(byRole, IsActive) else byRole;
      r.1 == |listed| && r.0 == Page(listed, skip, limit)
    ensures |r.0| <= limit && |r.0| <= r.1
    ensures role.Some? && role.value != "" ==> forall k :: 0 <= k < |r.0| ==> r.0[k].role == role.value
    ensures activeOnly ==> forall k :: 0 <= k < |r.0| ==> r.0[k].isActive
    ensures forall k :: 0 <= k < |r.0| ==> r.0[k] in all
  {
    var byRole := if role.Some? && role.value != "" then Filter(all, RoleIs(role.value)) else all;
    var listed := if activeOnly then Filter(byRole, IsActive) else byRole;
    var page := Page(listed, skip, limit);
    assert forall k :: 0 <= k < |page| ==> page[k] in listed;
    (page, |listed|)
  }

  /** `get_users` over the fixed list. */
  function GetUsers(skip: nat, limit: nat, role: Option<string>, activeOnly: bool): (seq<User>, nat) {
    ListUsers(FixedUsers, skip, limit, role, activeOnly)
  }

  /** The fixed users have the ids 1 to 5 in order and are all active. */
  lemma FixedUsersShape()
    ensures |FixedUsers| == 5
    ensures forall k :: 0 <= k < |FixedUsers| ==> FixedUsers[k].id == k + 1 && FixedUsers[k].isActive
  {
  }

  /** Every fixed user is active, so the default listing is the whole list. */
  lemma DefaultListingIsEverything()
    ensures var r := GetUsers(0, 1000, None, true);
      r.1 == 5 && |r.0| == 5 && forall k :: 0 <= k < 5 ==> r.0[k] == FixedUsers[k]
  {
    FixedUsersShape();
    FilterAll(FixedUsers, IsActive);
    WholePage(FixedUsers, 1000);
  }

  /** A page from the start at least as long as the list is the list. */
  lemma WholePage<T>(s: seq<T>, limit: nat)
    requires |s| <= limit
    ensures Page(s, 0, limit) == s
  {
    var r := Page(s, 0, limit);
    assert |r| == |s|;
    assert forall k :: 0 <= k < |r| ==> r[k] == s[k];
  }

  /** What `get_user` finds: the first listed user with that id. */
  function UserById(id: int): (r: Option<User>)
    ensures r.Some? ==> r.value in FixedUsers && r.value.id == id && r.value.isActive
    ensures r.None? <==> forall k :: 0 <= k < |FixedUsers| ==> FixedUsers[k].id != id
  {
    DefaultListingIsEverything();
    FirstWithId(GetUsers(0, 1000, None, true).0, id)
  }

  /** The directory holds exactly the ids 1 to 5, the n-th fixed user
      under id n. */
  lemma DirectoryIds(id: int)
    ensures UserById(id).Some? <==> 1 <= id <= 5
    ensures UserById(id).Some? ==> UserById(id).value == FixedUsers[id - 1]
  {
    FixedUsersShape();
    DefaultListingIsFixedUsers();
    NumberedLookup(FixedUsers, id);
  }

  /** `get_user` searches the fixed list itself. */
  lemma DefaultListingIsFixedUsers()
    ensures GetUsers(0, 1000, None, true).0 == FixedUsers
  {
    DefaultListingIsEverything();
  }

  /** In a list whose n-th user has id n, the ids found are exactly 1 to
      its length. */
  lemma NumberedLookup(users: seq<User>, id: int)
    requires forall k :: 0 <= k < |users| ==> users[k].id == k + 1
    ensures FirstWithId(users, id).Some? <==> 1 <= id <= |users|
    ensures 1 <= id <= |users| ==> FirstWithId(users, id) == Some(users[id - 1])
  {
    if 1 <= id <= |users| {
      FirstIndexAt(users, (u: User) => u.id == id, id - 1);
    }
  }

  /** The user with that id in `users`, as `FirstIndex` names it. */
  function FirstWithId(users: seq<User>, id: int): (r: Option<User>)
    ensures r.Some? ==> exists k :: 0 <= k < |users| && users[k] == r.value && r.value.id == id
    ensures r.None? <==> forall k :: 0 <= k < |users| ==> users[k].id != id
  {
    match FirstIndex(users, (u: User) => u.id == id)
    case Some(i) => Some(users[i])
    case None => None
  }

  /** The loop of `get_user` over a listing: return on the first match. */
  method FindUser(users: seq<User>, id: int) returns (r: Option<User>)
    ensures r == FirstWithId(users, id)
  {
    var i := 0;
    while i < |users|
      invariant 0 <= i <= |users|
      invariant forall j :: 0 <= j < i ==> users[j].id != id
    {
      if users[i].id == id {
        FirstIndexAt(users, (u: User) => u.id == id, i);
        return Some(users[i]);
      }
      i := i + 1;
    }
    return None;
  }

  /** `get_user`: search the default listing (`limit=1000`). */
  method GetUser(id: int) returns (r: Option<User>)
    ensures r == UserById(id)
  {
    var listing := GetUsers(0, 1000, None, true);
    r := FindUser(listing.0, id);
  }

  datatype UserCreate = UserCreate(username: string, email: string, fullName: string, role: string, password: string)

  /** `create_user`: always id 999, active and verified, with the submitted
      fields echoed and fixed timestamps; nothing is added to the directory. */
  function CreateUser(d: UserCreate): (r: User)
    ensures r.id == 999 && r.isActive && r.isVerified && r.lastLogin.None?
    ensures r.username == d.username && r.email == d.email && r.fullName == d.fullName && r.role == d.role
  {
    User(999, d.username, d.email, d.fullName, d.role, true, true, "2024-01-15T12:00:00", Some("2024-01-15T12:00:00"), None)
  }

  /** A created user cannot be read back. */
  lemma CreatedUserNotFound(d: UserCreate)
    ensures UserById(CreateUser(d).id).None?
  {
    DirectoryIds(999);
  }

  /** `UserUpdate` after `dict(exclude_unset=True)`. */
  datatype UserPatch = UserPatch(username: Option<string>, email: Option<string>, fullName: Option<string>, role: Option<string>)

  function PatchUser(u: User, p: UserPatch): (r: User)
    ensures r.id == u.id && r.isActive == u.isActive && r.isVerified == u.isVerified
    ensures r.username == p.username.GetOr(u.username) && r.email == p.email.GetOr(u.email)
    ensures r.fullName == p.fullName.GetOr(u.fullName) && r.role == p.role.GetOr(u.role)
  {
    u.(username := p.username.GetOr(u.username), email := p.email.GetOr(u.email),
       fullName := p.fullName.GetOr(u.fullName), role := p.role.GetOr(u.role))
  }

  function PatchUpTo(p: UserPatch, k: nat): UserPatch {
    UserPatch(if k > 0 then p.username else None, if k > 1 then p.email else None,
              if k > 2 then p.fullName else None, if k > 3 then p.role else None)
  }

  function FieldOf(p: UserPatch, k: nat): UserPatch {
    UserPatch(if k == 0 then p.username else None, if k == 1 then p.email else None,
              if k == 2 then p.fullName else None, if k == 3 then p.role else None)
  }

  /** `update_user`: None for an unknown id; otherwise the found user with the
      sent fields written by the `setattr` loop and the rest kept. The
      directory itself is a constant, so later reads see the old user. */
  method UpdateUser(id: int, patch: UserPatch) returns (r: Option<User>)
    ensures r.None? <==> UserById(id).None?
    ensures r.Some? ==> r.value == PatchUser(UserById(id).value, patch)
  {
    var user := GetUser(id);
    if user.None? {
      return None;
    }
    var u := user.value;
    var k := 0;
    while k < 4  // the four fields of UserUpdate, in declaration order
      invariant 0 <= k <= 4
      invariant u == PatchUser(user.value, PatchUpTo(patch, k))
    {
      PatchUserStep(user.value, patch, k);
      u := PatchUser(u, FieldOf(patch, k));
      k := k + 1;
    }
    return Some(u);
  }

  /** One turn of the `setattr` loop writes the next field of the patch. */
  lemma PatchUserStep(u: User, p: UserPatch, k: nat)
    requires k < 4
    ensures PatchUser(PatchUser(u, PatchUpTo(p, k)), FieldOf(p, k)) == PatchUser(u, PatchUpTo(p, k + 1))
  {
  }

  /** An update leaves the fields it does not send untouched, and an update
      sending nothing returns the stored user. */
  lemma PatchUserKeepsUnsent(u: User, p: UserPatch)
    ensures PatchUser(u, UserPatch(None, None, None, None)) == u
    ensures p.role.None? ==> PatchUser(u, p).role == u.role
  {
  }

  /** `delete_user`: true exactly when `get_user` finds the id; nothing is
      removed. */
  method DeleteUser(id: int) returns (r: bool)
    ensures r <==> UserById(id).Some?
    ensures r <==> 1 <= id <= 5
  {
    var user := GetUser(id);
    DirectoryIds(id);
    r := user.Some?;
  }
}
