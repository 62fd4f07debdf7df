/** The backend's HTTP layer: `role_checker` of web/backend/app/utils/auth.py
    and the guard sequences of the clients, contracts and claims routers
    (web/backend/app/routers/). The signed-in user is the dictionary the
    auth service's `/verify-token` returns; only its `user_id` and `role`
    entries are read here. A route dependency `require_roles(r1, …)` admits
    exactly the users whose role is one of the listed strings. */
module Routers {
  import opened Common
  import opened Models
  import opened Store
  import Roles
  import ClientService
  import ContractService
  import ClaimService

  datatype CurrentUser = CurrentUser(userId: Option<int>, role: Option<string>)

  /** What a route answers: a refusal by its role dependency (403), an
      `HTTPException` it raises itself, an exception it does not catch
      (status 500), a request it never finishes, or its body. */
  datatype Reply<T> =
    | Forbidden
    | HttpFail(status: int, detail: string)
    | ServerError
    | NoReply
    | Ok(value: T)

  /** `role_checker` of `require_role(required_role)`: the user data comes
      back untouched exactly when its role equals the required one; any
      other role, and a missing one, is refused with 403 naming the
      required role. */
  function RoleChecker(requiredRole: string, user: CurrentUser): (r: Reply<CurrentUser>)
    ensures r.Ok? <==> user.role == Some(requiredRole)
    ensures r.Ok? ==> r.value == user
    ensures !r.Ok? ==> r == HttpFail(403, "Required role: " + requiredRole)
  {
    if user.role != Some(requiredRole) then HttpFail(403, "Required role: " + requiredRole) else Ok(user)
  }

  /** The dependency `require_roles(…)` with the given role strings. */
  predicate Admits(roles: set<string>, user: CurrentUser) {
    user.role.Some? && user.role.value in roles
  }

  /** `role_checker` is the one-role case of the role-set guard. */
  lemma RoleCheckerIsOneRoleGuard(requiredRole: string, user: CurrentUser)
    ensures RoleChecker(requiredRole, user).Ok? <==> Admits({requiredRole}, user)
  {
  }

  // ---------------------------------------------------------------------------
  // The role sets of the routes

  /** List, create, read and update clients. */
  const ClientStaff: set<string> := {"agent", "operator", "admin"}
  /** Delete a client; delete a product. */
  const AdminOnly: set<string> := {"admin"}
  /** Calculate a premium; create a contract. */
  const ContractSellers: set<string> := {"agent", "operator"}
  const ContractEditors: set<string> := {"agent", "manager", "admin"}
  /** Activate a contract; create and update products. */
  const Management: set<string> := {"manager", "admin"}
  /** Pending claims; claim decision. */
  const AdjusterOnly: set<string> := {"adjuster"}
  const ClaimFilers: set<string> := {"agent", "operator", "admin"}
  const ClaimEditors: set<string> := {"adjuster", "manager", "admin"}

  function As(role: string): CurrentUser { CurrentUser(None, Some(role)) }

  /** The route role sets are written out by hand and do not follow the
      permission table of the auth service: a manager holds DELETE_CLIENTS
      but may not delete a client, an adjuster holds APPROVE_CLAIMS but may
      not approve one, a manager holds CREATE_CONTRACTS but may not create a
      contract, and an operator may create clients and contracts without
      holding either CREATE permission. */
  lemma GuardsDisagreeWithPermissionTable()
    ensures Roles.HasPermission(Roles.Manager, Roles.DeleteClients) && !Admits(AdminOnly, As("manager"))
    ensures Roles.HasPermission(Roles.Adjuster, Roles.ApproveClaims) && !(As("adjuster").role.value in ["manager", "admin"])
    ensures Roles.HasPermission(Roles.Manager, Roles.CreateContracts) && !Admits(ContractSellers, As("manager"))
    ensures !Roles.HasPermission(Roles.Operator, Roles.CreateClients) && Admits(ClientStaff, As("operator"))
    ensures !Roles.HasPermission(Roles.Operator, Roles.CreateContracts) && Admits(ContractSellers, As("operator"))
  {
    Roles.DeleteClientsHolders(Roles.Manager);
    Roles.ClaimDutiesSplit();
    Roles.ManagerHoldsAllButAdmin(Roles.CreateContracts);
    Roles.OperatorCreatesNothing(Roles.CreateClients);
    Roles.OperatorCreatesNothing(Roles.CreateContracts);
  }

  // ---------------------------------------------------------------------------
  // Clients

  /** The service's answer to a write, as the route passes it on: a row is
      returned, anything the service raises or the commit refuses escapes
      as a 500. */
  function Passed<T>(o: Outcome<T>): (r: Reply<T>)
    ensures r.Ok? <==> o.Done?
    ensures r.Ok? ==> r.value == o.value
    ensures r.NoReply? <==> o.Diverges?
  {
    match o
    case Done(v) => Ok(v)
    case Diverges => NoReply
    case _ => ServerError
  }

  /** `create_client` route: the role guard, then a 400 when
      `get_client_by_email` finds a client, then the service. The lookup
      compares with `==`, so a request without an email is refused as soon
      as one stored client has none. */
  method CreateClientRoute(db: Db, user: CurrentUser, d: ClientService.NewClient, draws: seq<string>)
      returns (r: Reply<Client>)
    requires db.Valid()
    requires forall k :: 0 <= k < |draws| ==> DrawnFrom(draws[k], 8, UpperAndDigits)
    modifies db
    ensures db.Valid()
    ensures !Admits(ClientStaff, user) ==> r == Forbidden && unchanged(db)
    ensures Admits(ClientStaff, user) && ClientWithEmail(old(db.clients), d.email).Some? ==>
      r == HttpFail(400, "Client with this email already exists") && unchanged(db)
    ensures Admits(ClientStaff, user) && ClientWithEmail(old(db.clients), d.email).None? ==> r.Ok? || r.NoReply?
    ensures r.Ok? ==> && db.clients == old(db.clients) + [r.value]
                      && r.value.createdBy == user.userId && r.value.email == d.email
    ensures !r.Ok? ==> db.clients == old(db.clients)
  {
    if !Admits(ClientStaff, user) {
      return Forbidden;
    }
    if ClientWithEmail(db.clients, d.email).Some? {
      return HttpFail(400, "Client with this email already exists");
    }
    var out := ClientService.CreateClient(db, d, user.userId, draws);
    r := Passed(out);
  }

  /** The email check of the `update_client` route: only a truthy email
      that differs from the client's own is looked up, and only a holder
      with a different id refuses it. */
  predicate EmailClash(clients: seq<Client>, clientId: int, existing: Client, p: ClientService.ClientPatch) {
    && TextTruthy(p.email) && p.email != existing.email
    && var holder := ClientWithEmail(clients, p.email);
       holder.Some? && clients[holder.value].id != clientId
  }

  /** `update_client` route: the role guard, 404 for an unknown id before
      anything else, 400 for an email another client owns (keeping one's own
      email is allowed), then the service's update. */
  method UpdateClientRoute(db: Db, user: CurrentUser, clientId: int, p: ClientService.ClientPatch)
      returns (r: Reply<Client>)
    requires db.Valid()
    modifies db
    ensures db.Valid()
    ensures !Admits(ClientStaff, user) ==> r == Forbidden && unchanged(db)
    ensures Admits(ClientStaff, user) && clientId !in Keys(old(db.clients), ClientId) ==>
      r == HttpFail(404, "Client not found") && unchanged(db)
    ensures Admits(ClientStaff, user) && clientId in Keys(old(db.clients), ClientId) ==>
      var i := ClientIndex(old(db.clients), clientId).value;
      && (EmailClash(old(db.clients), clientId, old(db.clients)[i], p) ==>
            r == HttpFail(400, "Client with this email already exists") && unchanged(db))
      && (!EmailClash(old(db.clients), clientId, old(db.clients)[i], p) ==> r.Ok? || r.ServerError?)
      && (r.Ok? ==> r.value == ClientService.PatchClient(old(db.clients)[i], p) && db.clients == old(db.clients)[i := r.value])
    ensures !r.Ok? ==> db.clients == old(db.clients)
  {
    if !Admits(ClientStaff, user) {
      return Forbidden;
    }
    var at := ClientIndex(db.clients, clientId);
    if at.None? {
      return HttpFail(404, "Client not found");
    }
    var existing := db.clients[at.value];
    if EmailClash(db.clients, clientId, existing, p) {
      return HttpFail(400, "Client with this email already exists");
    }
    var out := ClientService.UpdateClient(db, clientId, p);
    r := Passed(out);
  }

  /** `delete_client` route (admin only): 404 when missing, then 400 while
      the client has an active or draft contract, then the delete. */
  method DeleteClientRoute(db: Db, user: CurrentUser, clientId: int) returns (r: Reply<string>)
    requires db.Valid()
    modifies db
    ensures db.Valid()
    ensures !Admits(AdminOnly, user) ==> r == Forbidden && unchanged(db)
    ensures Admits(AdminOnly, user) && clientId !in Keys(old(db.clients), ClientId) ==>
      r == HttpFail(404, "Client not found") && unchanged(db)
    ensures Admits(AdminOnly, user) && clientId in Keys(old(db.clients), ClientId)
            && ClientService.HasActiveContracts(old(db.contracts), clientId) ==>
      r == HttpFail(400, "Cannot delete client with active contracts") && unchanged(db)
    ensures r.Ok? ==> && r.value == "Client deleted successfully"
                      && Keys(db.clients, ClientId) == Keys(old(db.clients), ClientId) - {clientId}
    ensures Admits(AdminOnly, user) && clientId in Keys(old(db.clients), ClientId)
            && !ClientService.HasActiveContracts(old(db.contracts), clientId) ==>
      (r.Ok? <==> !ClientService.ReferencedBy(old(db.contracts), clientId))
    ensures !r.Ok? ==> db.clients == old(db.clients)
  {
    if !Admits(AdminOnly, user) {
      return Forbidden;
    }
    if ClientIndex(db.clients, clientId).None? {
      return HttpFail(404, "Client not found");
    }
    if ClientService.HasActiveContracts(db.contracts, clientId) {
      return HttpFail(400, "Cannot delete client with active contracts");
    }
    var out := ClientService.DeleteClient(db, clientId);
    if out.Done? && !out.value {
      assert false;
    }
    if out == Done(true) {
      r := Ok("Client deleted successfully");
    } else {
      r := ServerError;
    }
  }

  // ---------------------------------------------------------------------------
  // Contracts

  /** `calculate_premium` route: the role guard, then 404 for an unknown
      product. The service is then called with one argument more than its
      signature takes, so every request that gets that far fails with 500. */
  function CalculatePremiumRoute(products: seq<Product>, user: CurrentUser, productId: int): (r: Reply<Product>)
    ensures !Admits(ContractSellers, user) <==> r == Forbidden
    ensures Admits(ContractSellers, user) && productId !in Keys(products, ProductId) <==>
      r == HttpFail(404, "Insurance product not found")
    ensures Admits(ContractSellers, user) && productId in Keys(products, ProductId) <==> r == ServerError
  {
    if !Admits(ContractSellers, user) then Forbidden
    else if ProductIndex(products, productId).None? then HttpFail(404, "Insurance product not found")
    else ServerError
  }

  /** `create_contract` route: the client is checked before the product and
      the first one missing is the 404; past both, the service is called with
      an `agent_id` argument it does not take, so the request fails with 500
      and stores nothing. */
  function CreateContractRoute(clients: seq<Client>, products: seq<Product>, user: CurrentUser,
                               clientId: int, productId: int): (r: Reply<Contract>)
    ensures !Admits(ContractSellers, user) <==> r == Forbidden
    ensures Admits(ContractSellers, user) && clientId !in Keys(clients, ClientId) <==>
      r == HttpFail(404, "Client not found")
    ensures r == HttpFail(404, "Insurance product not found") <==>
      Admits(ContractSellers, user) && clientId in Keys(clients, ClientId) && productId !in Keys(products, ProductId)
    ensures !r.Ok?
  {
    if !Admits(ContractSellers, user) then Forbidden
    else if ClientIndex(clients, clientId).None? then HttpFail(404, "Client not found")
    else if ProductIndex(products, productId).None? then HttpFail(404, "Insurance product not found")
    else ServerError
  }

  /** `update_contract` route: the role guard and 404 for an unknown
      contract, then the service's `setattr` update. */
  method UpdateContractRoute(db: Db, user: CurrentUser, contractId: int, p: ContractService.ContractPatch)
      returns (r: Reply<Contract>)
    requires db.Valid()
    modifies db
    ensures db.Valid()
    ensures !Admits(ContractEditors, user) ==> r == Forbidden && unchanged(db)
    ensures Admits(ContractEditors, user) && contractId !in Keys(old(db.contracts), ContractId) ==>
      r == HttpFail(404, "Contract not found") && unchanged(db)
    ensures Admits(ContractEditors, user) && contractId in Keys(old(db.contracts), ContractId) ==>
      var i := ContractIndex(old(db.contracts), contractId).value;
      r == Ok(ContractService.PatchContract(old(db.contracts)[i], p)) && db.contracts == old(db.contracts)[i := r.value]
    ensures db.clients == old(db.clients) && db.claims == old(db.claims) && db.products == old(db.products)
  {
    if !Admits(ContractEditors, user) {
      return Forbidden;
    }
    if ContractIndex(db.contracts, contractId).None? {
      return HttpFail(404, "Contract not found");
    }
    var out := ContractService.UpdateContract(db, contractId, p);
    r := Passed(out);
  }

  /** `activate_contract` route: the role guard, 404 for an unknown
      contract, then the service. The service raises for a contract that is
      not a draft instead of returning a falsy value, so that request ends in
      a 500 and the route's own 400 is never sent. */
  method ActivateContractRoute(db: Db, user: CurrentUser, contractId: int) returns (r: Reply<string>)
    requires db.Valid()
    modifies db
    ensures db.Valid()
    ensures r != HttpFail(400, "Cannot activate contract in current state")
    ensures !Admits(Management, user) ==> r == Forbidden && unchanged(db)
    ensures Admits(Management, user) && contractId !in Keys(old(db.contracts), ContractId) ==>
      r == HttpFail(404, "Contract not found") && unchanged(db)
    ensures Admits(Management, user) && contractId in Keys(old(db.contracts), ContractId) ==>
      var i := ContractIndex(old(db.contracts), contractId).value;
      && (old(db.contracts)[i].status == Draft ==>
            r == Ok("Contract activated successfully")
            && db.contracts == old(db.contracts)[i := old(db.contracts)[i].(status := Active)])
      && (old(db.contracts)[i].status != Draft ==> r == ServerError && db.contracts == old(db.contracts))
    ensures db.clients == old(db.clients) && db.claims == old(db.claims) && db.products == old(db.products)
  {
    if !Admits(Management, user) {
      return Forbidden;
    }
    if ContractIndex(db.contracts, contractId).None? {
      return HttpFail(404, "Contract not found");
    }
    var out := ContractService.ActivateContract(db, contractId);
    if out.Done? {
      r := Ok("Contract activated successfully");
    } else {
      r := ServerError;
    }
  }

  // ---------------------------------------------------------------------------
  // Claims

  /** `get_pending_claims` route: adjusters only; the service is then called
      with `skip`/`limit` arguments it does not take. */
  function PendingClaimsRoute(user: CurrentUser): (r: Reply<seq<Claim>>)
    ensures r == Forbidden <==> !Admits(AdjusterOnly, user)
    ensures r != Forbidden ==> r == ServerError
  {
    if !Admits(AdjusterOnly, user) then Forbidden else ServerError
  }

  /** `create_claim` route: the role guard, then a service call with a
      `created_by` argument the service does not take. */
  function CreateClaimRoute(user: CurrentUser): (r: Reply<Claim>)
    ensures r == Forbidden <==> !Admits(ClaimFilers, user)
    ensures r != Forbidden ==> r == ServerError
  {
    if !Admits(ClaimFilers, user) then Forbidden else ServerError
  }

  /** `make_claim_decision` route: adjusters only, 404 for an unknown claim
      before anything else; the service has no `make_decision`, so a found
      claim ends in a 500 with nothing changed. */
  function DecisionRoute(claims: seq<Claim>, user: CurrentUser, claimId: int): (r: Reply<Claim>)
    ensures r == Forbidden <==> !Admits(AdjusterOnly, user)
    ensures r == HttpFail(404, "Claim not found") <==> Admits(AdjusterOnly, user) && claimId !in Keys(claims, ClaimId)
    ensures r == ServerError <==> Admits(AdjusterOnly, user) && claimId in Keys(claims, ClaimId)
  {
    if !Admits(AdjusterOnly, user) then Forbidden
    else if ClaimIndex(claims, claimId).None? then HttpFail(404, "Claim not found")
    else ServerError
  }

  /** The body `update_claim` accepts: the four optional fields of the
      route's `ClaimUpdate` schema. */
  datatype ClaimUpdateBody = ClaimUpdateBody(
    description: Option<string>,
    claimedAmount: Option<int>,
    status: Option<ClaimStatus>,
    adjusterNotes: Option<string>)

  /** The fields a body sends, as the service's patch; the schema has no
      approved amount and no adjuster, so those two are never sent. */
  function BodyPatch(b: ClaimUpdateBody): (p: ClaimService.ClaimPatch)
    ensures p.approvedAmount.None? && p.adjusterId.None?
    ensures p.description == b.description && p.claimedAmount == b.claimedAmount
    ensures p.status == b.status && p.adjusterNotes == b.adjusterNotes
  {
    ClaimService.ClaimPatch(b.description, b.claimedAmount, None, b.status, None, b.adjusterNotes)
  }

  /** `update_claim` route: the role guard and 404 for an unknown claim,
      then the service's `setattr` update of the fields the body sent; the
      approved amount and the adjuster are out of the body's reach. */
  method UpdateClaimRoute(db: Db, user: CurrentUser, claimId: int, b: ClaimUpdateBody) returns (r: Reply<Claim>)
    requires db.Valid()
    modifies db
    ensures db.Valid()
    ensures !Admits(ClaimEditors, user) ==> r == Forbidden && unchanged(db)
    ensures Admits(ClaimEditors, user) && claimId !in Keys(old(db.claims), ClaimId) ==>
      r == HttpFail(404, "Claim not found") && unchanged(db)
    ensures Admits(ClaimEditors, user) && claimId in Keys(old(db.claims), ClaimId) ==>
      var i := ClaimIndex(old(db.claims), claimId).value;
      && r == Ok(ClaimService.PatchClaim(old(db.claims)[i], BodyPatch(b)))
      && db.claims == old(db.claims)[i := r.value]
      && r.value.approvedAmount == old(db.claims)[i].approvedAmount
      && r.value.adjusterId == old(db.claims)[i].adjusterId
    ensures db.clients == old(db.clients) && db.contracts == old(db.contracts) && db.products == old(db.products)
  {
    if !Admits(ClaimEditors, user) {
      return Forbidden;
    }
    if ClaimIndex(db.claims, claimId).None? {
      return HttpFail(404, "Claim not found");
    }
    var out := ClaimService.UpdateClaim(db, claimId, BodyPatch(b));
    r := Passed(out);
  }

  /** `process_claim` route: 403 unless the role is exactly "adjuster";
      otherwise a fixed message. It touches no data. */
  function ProcessClaimRoute(user: CurrentUser): (r: Reply<string>)
    ensures r.Ok? <==> user.role == Some("adjuster")
    ensures r.Ok? ==> r.value == "Claim processed successfully"
    ensures !r.Ok? ==> r == HttpFail(403, "Only adjusters can process claims")
  {
    if user.role != Some("adjuster") then HttpFail(403, "Only adjusters can process claims")
    else Ok("Claim processed successfully")
  }

  /** `approve_claim` route: 403 unless the role is manager or admin;
      otherwise the amount is echoed and no data is touched. */
  function ApproveClaimRoute(user: CurrentUser, amount: int): (r: Reply<(string, int)>)
    ensures r.Ok? <==> user.role == Some("manager") || user.role == Some("admin")
    ensures r.Ok? ==> r.value == ("Claim approved successfully", amount)
    ensures !r.Ok? ==> r == HttpFail(403, "Only managers can approve claims")
  {
    if user.role.None? || user.role.value !in ["manager", "admin"] then HttpFail(403, "Only managers can approve claims")
    else Ok(("Claim approved successfully", amount))
  }

  /** `reject_claim` route: 403 unless the role is adjuster, manager or
      admin; otherwise the reason is echoed and no data is touched. */
  function RejectClaimRoute(user: CurrentUser, reason: string): (r: Reply<(string, string)>)
    ensures r.Ok? <==> user.role == Some("adjuster") || user.role == Some("manager") || user.role == Some("admin")
    ensures r.Ok? ==> r.value == ("Claim rejected", reason)
    ensures !r.Ok? ==> r == HttpFail(403, "Insufficient permissions")
  {
    if user.role.None? || user.role.value !in ["adjuster", "manager", "admin"] then HttpFail(403, "Insufficient permissions")
    else Ok(("Claim rejected", reason))
  }

  /** Of the three claim action routes only rejection is open to every role
      that may approve or process, and an adjuster may process and reject
      but not approve. */
  lemma ClaimActionRolesNest(user: CurrentUser, amount: int, reason: string)
    ensures ApproveClaimRoute(user, amount).Ok? ==> RejectClaimRoute(user, reason).Ok?
    ensures ProcessClaimRoute(user).Ok? ==> RejectClaimRoute(user, reason).Ok? && !ApproveClaimRoute(user, amount).Ok?
  {
  }
}
