/** The auth service's user roles (web/auth-service/app/models/user.py) and
    the role to permission table of web/auth-service/app/services/roles.py. */
module Roles {
  import opened Common

  datatype UserRole = Agent | Adjuster | Operator | Manager | Admin

  /** The enum's string values. */
  function RoleValue(r: UserRole): string {
    match r
    case Agent => "agent"
    case Adjuster => "adjuster"
    case Operator => "operator"
    case Manager => "manager"
    case Admin => "admin"
  }

  /** `UserRole(v)`: the member with that value, when there is one. */
  function ParseRole(v: string): (r: Option<UserRole>)
    ensures r.Some? ==> RoleValue(r.value) == v
    ensures r.None? ==> forall q: UserRole :: RoleValue(q) != v
  {
    if v == "agent" then Some(Agent)
    else if v == "adjuster" then Some(Adjuster)
    else if v == "operator" then Some(Operator)
    else if v == "manager" then Some(Manager)
    else if v == "admin" then Some(Admin)
    else None
  }

  lemma RoleValueRoundTrip(r: UserRole)
    ensures ParseRole(RoleValue(r)) == Some(r)
  {
  }

  datatype Permission =
    | ViewClients | CreateClients | EditClients | DeleteClients
    | ViewContracts | CreateContracts | EditContracts | ApproveContracts
    | ViewClaims | CreateClaims | ProcessClaims | ApproveClaims
    | ViewAnalytics | ViewReports
    | ManageUsers | SystemConfig

  /** `[permission for permission in Permission]`: every member in
      declaration order. */
  const AllPermissions: seq<Permission> := [
    ViewClients, CreateClients, EditClients, DeleteClients,
    ViewContracts, CreateContracts, EditContracts, ApproveContracts,
    ViewClaims, CreateClaims, ProcessClaims, ApproveClaims,
    ViewAnalytics, ViewReports,
    ManageUsers, SystemConfig
  ]

  /** `ROLE_PERMISSIONS`. Every role is a key of the dictionary, so the `[]`
      default of `get_user_permissions` is never taken for a `UserRole`. */
  function GetUserPermissions(r: UserRole): seq<Permission> {
    match r
    case Agent => [ViewClients, CreateClients, EditClients,
                   ViewContracts, CreateContracts, EditContracts,
                   ViewClaims, CreateClaims]
    case Adjuster => [ViewClients, ViewContracts, ViewClaims, ProcessClaims, ApproveClaims]
    case Operator => [ViewClients, EditClients, ViewContracts, EditContracts, ViewClaims]
    case Manager => [ViewClients, CreateClients, EditClients, DeleteClients,
                     ViewContracts, CreateContracts, EditContracts, ApproveContracts,
                     ViewClaims, CreateClaims, ProcessClaims, ApproveClaims,
                     ViewAnalytics, ViewReports]
    case Admin => AllPermissions
  }

  /** `has_permission`: a linear membership test over the role's list. */
  function HasPermission(r: UserRole, p: Permission): (b: bool)
    ensures b <==> exists k :: 0 <= k < |GetUserPermissions(r)| && GetUserPermissions(r)[k] == p
  {
    p in GetUserPermissions(r)
  }

  predicate IsCreate(p: Permission) {
    p == CreateClients || p == CreateContracts || p == CreateClaims
  }

  predicate IsAdminOnly(p: Permission) { p == ManageUsers || p == SystemConfig }

  /** No role lists a permission twice. */
  lemma PermissionListsDistinct(r: UserRole)
    ensures forall i, j :: 0 <= i < j < |GetUserPermissions(r)| ==> GetUserPermissions(r)[i] != GetUserPermissions(r)[j]
  {
  }

  /** ADMIN holds every permission. */
  lemma AdminHoldsAll(p: Permission)
    ensures HasPermission(Admin, p)
  {
    match p
    case ViewClients => assert AllPermissions[0] == p;
    case CreateClients => assert AllPermissions[1] == p;
    case EditClients => assert AllPermissions[2] == p;
    case DeleteClients => assert AllPermissions[3] == p;
    case ViewContracts => assert AllPermissions[4] == p;
    case CreateContracts => assert AllPermissions[5] == p;
    case EditContracts => assert AllPermissions[6] == p;
    case ApproveContracts => assert AllPermissions[7] == p;
    case ViewClaims => assert AllPermissions[8] == p;
    case CreateClaims => assert AllPermissions[9] == p;
    case ProcessClaims => assert AllPermissions[10] == p;
    case ApproveClaims => assert AllPermissions[11] == p;
    case ViewAnalytics => assert AllPermissions[12] == p;
    case ViewReports => assert AllPermissions[13] == p;
    case ManageUsers => assert AllPermissions[14] == p;
    case SystemConfig => assert AllPermissions[15] == p;
  }

  /** MANAGE_USERS and SYSTEM_CONFIG belong to ADMIN alone. */
  lemma AdminOnly(r: UserRole, p: Permission)
    requires IsAdminOnly(p)
    ensures HasPermission(r, p) <==> r == Admin
  {
    if r == Admin {
      AdminHoldsAll(p);
    }
  }

  /** MANAGER holds everything except the two admin-only permissions. */
  lemma ManagerHoldsAllButAdmin(p: Permission)
    ensures HasPermission(Manager, p) <==> !IsAdminOnly(p)
  {
    var m := GetUserPermissions(Manager);
    match p
    case ViewClients => assert m[0] == p;
    case CreateClients => assert m[1] == p;
    case EditClients => assert m[2] == p;
    case DeleteClients => assert m[3] == p;
    case ViewContracts => assert m[4] == p;
    case CreateContracts => assert m[5] == p;
    case EditContracts => assert m[6] == p;
    case ApproveContracts => assert m[7] == p;
    case ViewClaims => assert m[8] == p;
    case CreateClaims => assert m[9] == p;
    case ProcessClaims => assert m[10] == p;
    case ApproveClaims => assert m[11] == p;
    case ViewAnalytics => assert m[12] == p;
    case ViewReports => assert m[13] == p;
    case ManageUsers =>
    case SystemConfig =>
  }

  /** Every permission of a role other than ADMIN is also a MANAGER
      permission, and ADMIN's list contains everyone's: the roles form a
      hierarchy at the top. */
  lemma ManagerCoversOthers(r: UserRole, p: Permission)
    ensures r != Admin && HasPermission(r, p) ==> HasPermission(Manager, p)
    ensures HasPermission(r, p) ==> HasPermission(Admin, p)
  {
    ManagerHoldsAllButAdmin(p);
    AdminHoldsAll(p);
  }

  /** Only MANAGER and ADMIN may delete clients. */
  lemma DeleteClientsHolders(r: UserRole)
    ensures HasPermission(r, DeleteClients) <==> r == Manager || r == Admin
  {
    AdminHoldsAll(DeleteClients);
    ManagerHoldsAllButAdmin(DeleteClients);
  }

  /** The claim duties are split: ADJUSTER processes and approves but does
      not file; AGENT files but neither processes nor approves. */
  lemma ClaimDutiesSplit()
    ensures HasPermission(Adjuster, ProcessClaims) && HasPermission(Adjuster, ApproveClaims)
    ensures !HasPermission(Adjuster, CreateClaims)
    ensures HasPermission(Agent, CreateClaims)
    ensures !HasPermission(Agent, ProcessClaims) && !HasPermission(Agent, ApproveClaims)
  {
    assert GetUserPermissions(Adjuster)[3] == ProcessClaims;
    assert GetUserPermissions(Adjuster)[4] == ApproveClaims;
    assert GetUserPermissions(Agent)[7] == CreateClaims;
  }

  /** Every role may view clients, contracts and claims. */
  lemma EveryRoleViews(r: UserRole)
    ensures HasPermission(r, ViewClients) && HasPermission(r, ViewContracts) && HasPermission(r, ViewClaims)
  {
    if r == Admin {
      AdminHoldsAll(ViewClients);
      AdminHoldsAll(ViewContracts);
      AdminHoldsAll(ViewClaims);
    } else if r == Manager {
      ManagerHoldsAllButAdmin(ViewClients);
      ManagerHoldsAllButAdmin(ViewContracts);
      ManagerHoldsAllButAdmin(ViewClaims);
    } else {
      var ps := GetUserPermissions(r);
      assert ps[0] == ViewClients;
      if r == Agent {
        assert ps[3] == ViewContracts && ps[6] == ViewClaims;
      } else if r == Adjuster {
        assert ps[1] == ViewContracts && ps[2] == ViewClaims;
      } else {
        assert ps[2] == ViewContracts && ps[4] == ViewClaims;
      }
    }
  }

  /** OPERATOR edits but creates nothing. */
  lemma OperatorCreatesNothing(p: Permission)
    requires IsCreate(p)
    ensures !HasPermission(Operator, p)
  {
  }
}
