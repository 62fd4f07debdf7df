/** `AuthService` of web/auth-service/app/services/auth.py: users kept in
    memory in a dictionary keyed by username, and a counter handing out ids.
    The dictionary is a sequence of its values in insertion order (the order
    in which `users.values()` yields them); assigning to a key already
    present replaces that entry where it stands. Password hashing and
    checking (bcrypt) are parameters. */
module AuthStore {
  import opened Common
  import opened Roles

  datatype AuthUser = AuthUser(
    id: int,
    username: string,
    email: string,
    fullName: string,
    role: UserRole,
    hashedPassword: string,
    createdAt: int,
    isActive: bool)

  function NameIs(name: string): AuthUser -> bool { (u: AuthUser) => u.username == name }

  function EmailIs(email: string): AuthUser -> bool { (u: AuthUser) => u.email == email }

  predicate UniqueNames(users: seq<AuthUser>) {
    forall i, j :: 0 <= i < j < |users| ==> users[i].username != users[j].username
  }

  predicate UniqueIds(users: seq<AuthUser>) {
    forall i, j :: 0 <= i < j < |users| ==> users[i].id != users[j].id
  }

  /** `users.get(username)`. */
  function ByUsername(users: seq<AuthUser>, name: string): (r: Option<AuthUser>)
    ensures r.Some? ==> r.value in users && r.value.username == name
    ensures r.None? <==> forall k :: 0 <= k < |users| ==> users[k].username != name
  {
    match FirstIndex(users, NameIs(name))
    case Some(i) => Some(users[i])
    case None => None
  }

  /** The first stored user, in insertion order, with that email. */
  function ByEmail(users: seq<AuthUser>, email: string): (r: Option<AuthUser>)
    ensures r.Some? ==> exists k :: 0 <= k < |users| && users[k] == r.value && r.value.email == email &&
                          forall j :: 0 <= j < k ==> users[j].email != email
    ensures r.None? <==> forall k :: 0 <= k < |users| ==> users[k].email != email
  {
    match FirstIndex(users, EmailIs(email))
    case Some(i) => Some(users[i])
    case None => None
  }

  /** `users[u.username] = u`. */
  function Put(users: seq<AuthUser>, u: AuthUser): seq<AuthUser> {
    match FirstIndex(users, NameIs(u.username))
    case Some(i) => users[i := u]
    case None => users + [u]
  }

  /** After storing `u` its username finds it, every other username finds
      what it found before, and usernames stay unique. */
  lemma PutThenGet(users: seq<AuthUser>, u: AuthUser, name: string)
    requires UniqueNames(users)
    ensures UniqueNames(Put(users, u))
    ensures ByUsername(Put(users, u), u.username) == Some(u)
    ensures name != u.username ==> ByUsername(Put(users, u), name) == ByUsername(users, name)
  {
    PutFindsIt(users, u);
    if name != u.username {
      PutKeepsOther(users, u, name);
    }
  }

  lemma PutFindsIt(users: seq<AuthUser>, u: AuthUser)
    requires UniqueNames(users)
    ensures UniqueNames(Put(users, u))
    ensures ByUsername(Put(users, u), u.username) == Some(u)
  {
    var after := Put(users, u);
    match FirstIndex(users, NameIs(u.username))
    case Some(i) =>
      FirstIndexAt(after, NameIs(u.username), i);
    case None =>
      FirstIndexAt(after, NameIs(u.username), |users|);
  }

  lemma PutKeepsOther(users: seq<AuthUser>, u: AuthUser, name: string)
    requires name != u.username
    ensures ByUsername(Put(users, u), name) == ByUsername(users, name)
  {
    var after := Put(users, u);
    assert forall k :: 0 <= k < |after| ==> (after[k].username == name <==> k < |users| && users[k].username == name);
    match FirstIndex(users, NameIs(name))
    case Some(j) =>
      assert after[j] == users[j];
      FirstIndexAt(after, NameIs(name), j);
    case None =>
  }

  /** A new username adds one entry at the end; a username already present
      is overwritten where it stands and every other entry stays. */
  lemma PutShape(users: seq<AuthUser>, u: AuthUser)
    requires UniqueNames(users)
    ensures ByUsername(users, u.username).None? ==> Put(users, u) == users + [u]
    ensures ByUsername(users, u.username).Some? ==>
      |Put(users, u)| == |users| &&
      forall k :: 0 <= k < |users| ==> Put(users, u)[k] == if users[k].username == u.username then u else users[k]
  {
  }

  /** Storing a user whose id no existing user has keeps the ids unique. */
  lemma PutFreshId(users: seq<AuthUser>, u: AuthUser)
    requires UniqueIds(users)
    requires forall k :: 0 <= k < |users| ==> users[k].id < u.id
    ensures UniqueIds(Put(users, u))
    ensures forall k :: 0 <= k < |Put(users, u)| ==> Put(users, u)[k].id <= u.id
  {
  }

  /** The fixed test administrator of `authenticate_user`. */
  function TestAdmin(hashed: string, now: int): AuthUser {
    AuthUser(999, "admin", "admin@example.com", "Administrator", Admin, hashed, now, true)
  }

  /** `authenticate_user`: the literal admin/admin pair first; then the user
      stored under that username if the password checks against its hash;
      then the first user with that email if the password checks. `verify`
      is bcrypt's check and `adminHash` the hash made of "admin". */
  function Authenticate(users: seq<AuthUser>, login: string, password: string,
                        verify: (string, string) -> bool, adminHash: string, now: int): (r: Option<AuthUser>)
    ensures r.Some? && r.value.id != 999 ==> r.value in users && verify(password, r.value.hashedPassword)
    ensures r.Some? ==> r == Some(TestAdmin(adminHash, now)) || r.value in users
    ensures r.Some? ==> r.value.username == login || r.value.email == login
    ensures r.None? ==> !(login == "admin" && password == "admin")
  {
    if login == "admin" && password == "admin" then Some(TestAdmin(adminHash, now))
    else
      var byName := ByUsername(users, login);
      if byName.Some? && verify(password, byName.value.hashedPassword) then byName
      else
        var byEmail := ByEmail(users, login);
        if byEmail.Some? && verify(password, byEmail.value.hashedPassword) then byEmail
        else None
  }

  /** admin/admin always yields the test administrator, even when a stored
      user is called "admin" or has other ids. */
  lemma AdminAlwaysAuthenticates(users: seq<AuthUser>, verify: (string, string) -> bool, adminHash: string, now: int)
    ensures Authenticate(users, "admin", "admin", verify, adminHash, now) == Some(TestAdmin(adminHash, now))
    ensures Authenticate(users, "admin", "admin", verify, adminHash, now).value.role == Admin
  {
  }

  /** The username match is tried before the email match: a user stored
      under the login name whose password checks wins over a user whose
      email is that string. */
  lemma UsernameBeforeEmail(users: seq<AuthUser>, login: string, password: string,
                            verify: (string, string) -> bool, adminHash: string, now: int)
    requires !(login == "admin" && password == "admin")
    ensures var byName := ByUsername(users, login);
      byName.Some? && verify(password, byName.value.hashedPassword) ==>
        Authenticate(users, login, password, verify, adminHash, now) == byName
    ensures var byName := ByUsername(users, login);
      var byEmail := ByEmail(users, login);
      (byName.None? || !verify(password, byName.value.hashedPassword)) ==>
        Authenticate(users, login, password, verify, adminHash, now) ==
          (if byEmail.Some? && verify(password, byEmail.value.hashedPassword) then byEmail else None)
  {
  }

  /** Without the admin pair, a login that is neither a stored username nor
      a stored email fails. */
  lemma UnknownLoginFails(users: seq<AuthUser>, login: string, password: string,
                          verify: (string, string) -> bool, adminHash: string, now: int)
    requires !(login == "admin" && password == "admin")
    requires forall k :: 0 <= k < |users| ==> users[k].username != login && users[k].email != login
    ensures Authenticate(users, login, password, verify, adminHash, now).None?
  {
  }

  class AuthService {
    var users: seq<AuthUser>
    var userIdCounter: int

    /** Usernames are the dictionary's keys; every id was handed out by the
        counter, which only grows. */
    ghost predicate Valid()
      reads this
    {
      && userIdCounter >= 1
      && UniqueNames(users)
      && UniqueIds(users)
      && (forall k :: 0 <= k < |users| ==> 1 <= users[k].id < userIdCounter)
    }

    constructor ()
      ensures Valid()
      ensures users == [] && userIdCounter == 1
    {
      users := [];
      userIdCounter := 1;
    }

    /** `create_user`: the new user takes the counter's value as its id, is
        active and is stored under its username; the counter moves on by
        one. */
    method CreateUser(username: string, email: string, fullName: string, password: string, role: UserRole,
                      hash: string -> string, now: int) returns (u: AuthUser)
      requires Valid()
      modifies this
      ensures Valid()
      ensures u == AuthUser(old(userIdCounter), username, email, fullName, role, hash(password), now, true)
      ensures users == Put(old(users), u)
      ensures userIdCounter == old(userIdCounter) + 1
    {
      u := AuthUser(userIdCounter, username, email, fullName, role, hash(password), now, true);
      PutThenGet(users, u, username);
      PutFreshId(users, u);
      users := Put(users, u);
      userIdCounter := userIdCounter + 1;
    }

    /** `get_user_by_username`. */
    function GetUserByUsername(username: string): (r: Option<AuthUser>)
      reads this
      ensures r.Some? ==> r.value in users && r.value.username == username
      ensures r.None? <==> forall k :: 0 <= k < |users| ==> users[k].username != username
    {
      ByUsername(users, username)
    }

    /** `get_user_by_email`: the loop over `users.values()`. */
    method GetUserByEmail(email: string) returns (r: Option<AuthUser>)
      ensures r == ByEmail(users, email)
    {
      var i := 0;
      while i < |users|
        invariant 0 <= i <= |users|
        invariant forall j :: 0 <= j < i ==> users[j].email != email
      {
        if users[i].email == email {
          FirstIndexAt(users, EmailIs(email), i);
          return Some(users[i]);
        }
        i := i + 1;
      }
      return None;
    }

    /** `authenticate_user`; it reads the store and changes nothing. */
    method AuthenticateUser(login: string, password: string, verify: (string, string) -> bool,
                            hash: string -> string, now: int) returns (r: Option<AuthUser>)
      ensures r == Authenticate(users, login, password, verify, hash("admin"), now)
    {
      if login == "admin" && password == "admin" {
        return Some(TestAdmin(hash("admin"), now));
      }
      var user := GetUserByUsername(login);
      if user.Some? && verify(password, user.value.hashedPassword) {
        return user;
      }
      user := GetUserByEmail(login);
      if user.Some? && verify(password, user.value.hashedPassword) {
        return user;
      }
      return None;
    }
  }

  /** Two users created one after the other get strictly increasing ids and
      both can be found by username when the names differ. */
  method CreateTwo(svc: AuthService, a: string, b: string, hash: string -> string, now: int)
      returns (first: AuthUser, second: AuthUser)
    requires svc.Valid() && a != b
    modifies svc
    ensures svc.Valid()
    ensures first.id < second.id && second.id == first.id + 1
    ensures svc.GetUserByUsername(a) == Some(first) && svc.GetUserByUsername(b) == Some(second)
  {
    ghost var before := svc.users;
    first := svc.CreateUser(a, a, a, a, Agent, hash, now);
    PutThenGet(before, first, a);
    ghost var mid := svc.users;
    assert ByUsername(mid, a) == Some(first);
    second := svc.CreateUser(b, b, b, b, Agent, hash, now);
    PutThenGet(mid, second, a);
  }
}
