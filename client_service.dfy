/** `ClientService` (web/backend/app/functions/client_service.py): the client
    directory with generated identification numbers, the delete guard against
    open contracts, search and paging, and per-client statistics. */
module ClientService {
  import opened Common
  import opened Models
  import opened Store

  // ---------------------------------------------------------------------------
  // Contracts that keep a client

  /** A contract that blocks deleting its client (`[ACTIVE, DRAFT]`). */
  predicate OpenContract(c: Contract) { c.status == Active || c.status == Draft }

  /** `has_active_contracts`. */
  function HasActiveContracts(contracts: seq<Contract>, clientId: int): (r: bool)
    ensures r <==> exists k :: 0 <= k < |contracts| && contracts[k].clientId == clientId && OpenContract(contracts[k])
  {
    var open := Filter(contracts, (c: Contract) => c.clientId == clientId && OpenContract(c));
    assert |open| > 0 ==> open[0] in contracts;
    |open| > 0
  }

  /** Suspended, expired and cancelled contracts never block a delete. */
  lemma ClosedContractsDoNotBlock(contracts: seq<Contract>, clientId: int)
    requires forall k :: 0 <= k < |contracts| && contracts[k].clientId == clientId ==>
               contracts[k].status in {Suspended, Expired, Cancelled}
    ensures !HasActiveContracts(contracts, clientId)
  {
  }

  predicate ReferencedBy(contracts: seq<Contract>, clientId: int) {
    exists k :: 0 <= k < |contracts| && contracts[k].clientId == clientId
  }

  // ---------------------------------------------------------------------------
  // Identification numbers and creation

  function IdentificationNumbers(clients: seq<Client>): set<string> {
    set k | 0 <= k < |clients| && clients[k].identificationNumber.Some? :: clients[k].identificationNumber.value
  }

  /** `generate_client_id`: the first draw of eight characters from A-Z and
      0-9 that no client holds as identification number. */
  method GenerateClientId(clients: seq<Client>, draws: seq<string>) returns (r: Option<string>)
    requires forall k :: 0 <= k < |draws| ==> DrawnFrom(draws[k], 8, UpperAndDigits)
    ensures r.Some? ==> DrawnFrom(r.value, 8, UpperAndDigits)
    ensures r.Some? ==> forall k :: 0 <= k < |clients| ==> clients[k].identificationNumber != Some(r.value)
    ensures r.Some? ==> exists k :: 0 <= k < |draws| && r.value == draws[k]
                           && forall j :: 0 <= j < k ==> draws[j] in IdentificationNumbers(clients)
    ensures r.None? ==> forall k :: 0 <= k < |draws| ==> draws[k] in IdentificationNumbers(clients)
  {
    var at := FirstFresh(draws, IdentificationNumbers(clients));
    if at.None? {
      return None;
    }
    r := Some(draws[at.value]);
    forall k | 0 <= k < |clients| ensures clients[k].identificationNumber != Some(r.value) {
      if clients[k].identificationNumber.Some? {
        assert clients[k].identificationNumber.value in IdentificationNumbers(clients);
      }
    }
  }

  /** `ClientCreate` as it reaches the service. */
  datatype NewClient = NewClient(
    firstName: string,
    lastName: string,
    email: Option<string>,
    phone: Option<string>,
    address: Option<string>,
    dateOfBirth: Option<int>,
    identificationNumber: Option<string>)

  function ClientRow(id: int, d: NewClient, identification: string, createdBy: Option<int>): (r: Client)
    ensures r.id == id && r.email == d.email && r.createdBy == createdBy
    ensures r.identificationNumber == Some(identification)
  {
    Client(id, d.firstName, d.lastName, d.email, d.phone, d.address, d.dateOfBirth, Some(identification), createdBy)
  }

  /** Another client than the one at `except` already holds `email`. */
  predicate EmailTaken(clients: seq<Client>, email: Option<string>, except: int) {
    email.Some? && exists k :: 0 <= k < |clients| && k != except && clients[k].email == email
  }

  lemma AppendClientKeepsValid(db: Db, c: Client)
    requires db.Valid() && c.id == db.nextClientId && !EmailTaken(db.clients, c.email, -1)
    ensures var clients := db.clients + [c];
      && DistinctKeys(clients, ClientId) && KeysBelow(clients, ClientId, db.nextClientId + 1)
      && DistinctEmails(clients)
      && ReferencesHold(clients, db.products, db.contracts, db.claims)
  {
    var clients := db.clients + [c];
    assert forall k :: 0 <= k < |db.clients| ==> clients[k] == db.clients[k];
    KeysAppend(db.clients, ClientId, c);
    assert forall k :: 0 <= k < |db.contracts| ==> db.contracts[k].clientId in Keys(clients, ClientId);
  }

  /** `create_client`: a falsy identification number ("" or none) is replaced
      by a generated one; the unique email constraint refuses a second client
      with the same address. The id sequence advances even when the insert
      is refused. */
  method CreateClient(db: Db, d: NewClient, createdBy: Option<int>, draws: seq<string>) returns (r: Outcome<Client>)
    requires db.Valid()
    requires forall k :: 0 <= k < |draws| ==> DrawnFrom(draws[k], 8, UpperAndDigits)
    modifies db
    ensures db.Valid()
    ensures r.Done? || r.IntegrityError? || r.Diverges?
    ensures db.products == old(db.products) && db.contracts == old(db.contracts) && db.claims == old(db.claims)
    ensures !r.Done? ==> db.clients == old(db.clients)
    ensures r.IntegrityError? <==> !r.Diverges? && EmailTaken(old(db.clients), d.email, -1)
    ensures r.Diverges? ==> !TextTruthy(d.identificationNumber) && db.nextClientId == old(db.nextClientId)
    ensures r.Done? ==> && db.clients == old(db.clients) + [r.value]
                        && r.value.id == old(db.nextClientId) && r.value.createdBy == createdBy
                        && r.value.firstName == d.firstName && r.value.lastName == d.lastName
                        && r.value.email == d.email && r.value.phone == d.phone && r.value.address == d.address
                        && r.value.dateOfBirth == d.dateOfBirth
    ensures r.Done? && TextTruthy(d.identificationNumber) ==> r.value.identificationNumber == d.identificationNumber
    ensures r.Done? && !TextTruthy(d.identificationNumber) ==>
              && r.value.identificationNumber.Some?
              && DrawnFrom(r.value.identificationNumber.value, 8, UpperAndDigits)
              && forall k :: 0 <= k < |old(db.clients)| ==> old(db.clients)[k].identificationNumber != r.value.identificationNumber
    ensures !r.Diverges? ==> db.nextClientId == old(db.nextClientId) + 1
  {
    var identification: string;
    if TextTruthy(d.identificationNumber) {
      identification := d.identificationNumber.value;
    } else {
      var generated := GenerateClientId(db.clients, draws);
      if generated.None? {
        return Diverges;
      }
      identification := generated.value;
    }
    var id := db.nextClientId;
    if d.email.Some? && ClientWithEmail(db.clients, d.email).Some? {
      db.nextClientId := id + 1;
      return IntegrityError("clients_email_key");
    }
    var row := ClientRow(id, d, identification, createdBy);
    AppendClientKeepsValid(db, row);
    db.clients, db.nextClientId := db.clients + [row], id + 1;
    r := Done(row);
  }

  // ---------------------------------------------------------------------------
  // Update

  /** `ClientUpdate` after `dict(exclude_unset=True)`: None means not sent. */
  datatype ClientPatch = ClientPatch(
    firstName: Option<string>,
    lastName: Option<string>,
    email: Option<string>,
    phone: Option<string>,
    address: Option<string>,
    dateOfBirth: Option<int>,
    identificationNumber: Option<string>)

  function Sent<T>(patch: Option<T>, current: Option<T>): Option<T> {
    if patch.Some? then patch else current
  }

  /** The client with every sent field written and the others kept. */
  function PatchClient(c: Client, p: ClientPatch): (r: Client)
    ensures r.id == c.id && r.createdBy == c.createdBy
    ensures r.firstName == p.firstName.GetOr(c.firstName) && r.lastName == p.lastName.GetOr(c.lastName)
    ensures r.email == Sent(p.email, c.email) && r.phone == Sent(p.phone, c.phone)
    ensures r.address == Sent(p.address, c.address) && r.dateOfBirth == Sent(p.dateOfBirth, c.dateOfBirth)
    ensures r.identificationNumber == Sent(p.identificationNumber, c.identificationNumber)
  {
    c.(firstName := p.firstName.GetOr(c.firstName), lastName := p.lastName.GetOr(c.lastName),
       email := Sent(p.email, c.email), phone := Sent(p.phone, c.phone), address := Sent(p.address, c.address),
       dateOfBirth := Sent(p.dateOfBirth, c.dateOfBirth),
       identificationNumber := Sent(p.identificationNumber, c.identificationNumber))
  }

  /** An empty patch changes nothing; a patch leaves every unsent field as it
      was. */
  lemma PatchClientKeepsUnsent(c: Client, p: ClientPatch)
    ensures PatchClient(c, ClientPatch(None, None, None, None, None, None, None)) == c
    ensures p.email.None? ==> PatchClient(c, p).email == c.email
    ensures p.identificationNumber.None? ==> PatchClient(c, p).identificationNumber == c.identificationNumber
  {
  }

  /** The part of a patch that `update_client`'s loop has applied after its
      first `k` fields. */
  function PatchUpTo(p: ClientPatch, k: nat): ClientPatch {
    ClientPatch(if k > 0 then p.firstName else None,
                if k > 1 then p.lastName else None,
                if k > 2 then p.email else None,
                if k > 3 then p.phone else None,
                if k > 4 then p.address else None,
                if k > 5 then p.dateOfBirth else None,
                if k > 6 then p.identificationNumber else None)
  }

  function FieldOf(p: ClientPatch, k: nat): ClientPatch {
    ClientPatch(if k == 0 then p.firstName else None,
                if k == 1 then p.lastName else None,
                if k == 2 then p.email else None,
                if k == 3 then p.phone else None,
                if k == 4 then p.address else None,
                if k == 5 then p.dateOfBirth else None,
                if k == 6 then p.identificationNumber else None)
  }

  lemma ReplaceClientKeepsValid(db: Db, i: nat, c: Client)
    requires db.Valid() && i < |db.clients| && c.id == db.clients[i].id && !EmailTaken(db.clients, c.email, i)
    ensures var clients := db.clients[i := c];
      && DistinctKeys(clients, ClientId) && KeysBelow(clients, ClientId, db.nextClientId)
      && DistinctEmails(clients)
      && ReferencesHold(clients, db.products, db.contracts, db.claims)
  {
    KeysUpdate(db.clients, ClientId, i, c);
  }

  /** `update_client`: the `setattr` loop, then the commit, which the unique
      email constraint refuses when the new address belongs to another client. */
  method UpdateClient(db: Db, clientId: int, patch: ClientPatch) returns (r: Outcome<Client>)
    requires db.Valid()
    modifies db
    ensures db.Valid()
    ensures db.products == old(db.products) && db.contracts == old(db.contracts) && db.claims == old(db.claims)
    ensures db.nextClientId == old(db.nextClientId)
    ensures r.Done? || r.NotFound? || r.IntegrityError?
    ensures r.NotFound? <==> clientId !in Keys(old(db.clients), ClientId)
    ensures !r.Done? ==> db.clients == old(db.clients)
    ensures r.IntegrityError? ==> var i := ClientIndex(old(db.clients), clientId).value;
              EmailTaken(old(db.clients), PatchClient(old(db.clients)[i], patch).email, i)
    ensures r.Done? ==> var i := ClientIndex(old(db.clients), clientId).value;
              && r.value == PatchClient(old(db.clients)[i], patch)
              && db.clients == old(db.clients)[i := r.value]
              && !EmailTaken(old(db.clients), r.value.email, i)
  {
    var at := ClientIndex(db.clients, clientId);
    if at.None? {
      return NotFound;
    }
    var i := at.value;
    var c := db.clients[i];
    var k := 0;
    while k < 7  // the seven fields of ClientUpdate, in declaration order
      invariant 0 <= k <= 7
      invariant c == PatchClient(db.clients[i], PatchUpTo(patch, k))
    {
      c := PatchClient(c, FieldOf(patch, k));
      k := k + 1;
    }
    var holder := ClientWithEmail(db.clients, c.email);
    if c.email.Some? && holder.Some? && holder.value != i {
      return IntegrityError("clients_email_key");
    }
    if c.email.Some? && holder.Some? {
      assert !EmailTaken(db.clients, c.email, i) by {
        forall j | 0 <= j < |db.clients| && j != i ensures db.clients[j].email != c.email {
          if j < i { } else {
            assert db.clients[i].email == c.email;
          }
        }
      }
    }
    ReplaceClientKeepsValid(db, i, c);
    db.clients := db.clients[i := c];
    r := Done(c);
  }

  // ---------------------------------------------------------------------------
  // Delete

  lemma RemoveClientKeepsValid(db: Db, i: nat)
    requires db.Valid() && i < |db.clients| && !ReferencedBy(db.contracts, db.clients[i].id)
    ensures var clients := db.clients[..i] + db.clients[i + 1..];
      && DistinctKeys(clients, ClientId) && KeysBelow(clients, ClientId, db.nextClientId)
      && DistinctEmails(clients)
      && ReferencesHold(clients, db.products, db.contracts, db.claims)
  {
    var clients := db.clients[..i] + db.clients[i + 1..];
    assert forall k :: 0 <= k < |clients| ==> clients[k] == db.clients[if k < i then k else k + 1];
    KeysRemove(db.clients, ClientId, i);
    forall k | 0 <= k < |db.contracts| ensures db.contracts[k].clientId in Keys(clients, ClientId) {
      assert db.contracts[k].clientId != db.clients[i].id;
    }
  }

  /** `delete_client`: an unknown id gives false; a client with an active or
      draft contract is refused; a client some other contract still points at
      cannot be deleted either, because SQLAlchemy clears that contract's
      `client_id`, which is NOT NULL, so the commit fails; otherwise exactly
      that row goes. */
  method DeleteClient(db: Db, clientId: int) returns (r: Outcome<bool>)
    requires db.Valid()
    modifies db
    ensures db.Valid()
    ensures db.products == old(db.products) && db.contracts == old(db.contracts) && db.claims == old(db.claims)
    ensures db.nextClientId == old(db.nextClientId)
    ensures r.Done? || r.Refused? || r.IntegrityError?
    ensures r == Done(false) <==> clientId !in Keys(old(db.clients), ClientId)
    ensures r.Refused? <==> clientId in Keys(old(db.clients), ClientId) && HasActiveContracts(old(db.contracts), clientId)
    ensures r.Refused? ==> r.reason == "Cannot delete client with active contracts"
    ensures r.IntegrityError? <==> && clientId in Keys(old(db.clients), ClientId)
                                   && !HasActiveContracts(old(db.contracts), clientId)
                                   && ReferencedBy(old(db.contracts), clientId)
    ensures r != Done(true) ==> db.clients == old(db.clients)
    ensures r == Done(true) ==> var i := ClientIndex(old(db.clients), clientId).value;
              db.clients == old(db.clients)[..i] + old(db.clients)[i + 1..]
    ensures r == Done(true) ==> Keys(db.clients, ClientId) == Keys(old(db.clients), ClientId) - {clientId}
  {
    var at := ClientIndex(db.clients, clientId);
    if at.None? {
      return Done(false);
    }
    if HasActiveContracts(db.contracts, clientId) {
      return Refused("Cannot delete client with active contracts");
    }
    if exists k :: 0 <= k < |db.contracts| && db.contracts[k].clientId == clientId {
      return IntegrityError("contracts_client_id_not_null");
    }
    var i := at.value;
    RemoveClientKeepsValid(db, i);
    KeysRemove(db.clients, ClientId, i);
    db.clients := db.clients[..i] + db.clients[i + 1..];
    r := Done(true);
  }

  // ---------------------------------------------------------------------------
  // Queries

  /** The search of `get_clients` and `search_clients`: the term is a
      case-insensitive infix of a name, the email or the phone. */
  predicate ClientMatches(c: Client, term: string) {
    || ContainsIgnoreCase(c.firstName, term) || ContainsIgnoreCase(c.lastName, term)
    || OptContainsIgnoreCase(c.email, term) || OptContainsIgnoreCase(c.phone, term)
  }

  predicate ClientListed(c: Client, search: Option<string>, createdBy: Option<int>) {
    && (TextTruthy(search) ==> ClientMatches(c, search.value))
    && (Truthy(createdBy) ==> c.createdBy == createdBy)
  }

  /** `get_clients`: one page of the matching clients and the number of
      matches counted before the page is cut. */
  function GetClients(clients: seq<Client>, skip: nat, limit: nat, search: Option<string>, createdBy: Option<int>): (r: (seq<Client>, nat))
    ensures r.1 == Count(clients, c => ClientListed(c, search, createdBy))
    ensures r.0 == Page(Filter(clients, c => ClientListed(c, search, createdBy)), skip, limit)
    ensures |r.0| <= limit && |r.0| <= r.1
    ensures forall k :: 0 <= k < |r.0| ==> r.0[k] in clients && ClientListed(r.0[k], search, createdBy)
  {
    var matching := Filter(clients, c => ClientListed(c, search, createdBy));
    (Page(matching, skip, limit), |matching|)
  }

  /** `search_clients`: the first `limit` matching clients. */
  function SearchClients(clients: seq<Client>, term: string, limit: nat): (r: seq<Client>)
    ensures r == Page(Filter(clients, c => ClientMatches(c, term)), 0, limit)
    ensures |r| <= limit
    ensures forall k :: 0 <= k < |r| ==> r[k] in clients && ClientMatches(r[k], term)
  {
    Page(Filter(clients, c => ClientMatches(c, term)), 0, limit)
  }

  /** The pattern `%%` of an empty term matches every client, since the first
      name is never NULL. */
  lemma EmptySearchMatchesAll(c: Client)
    ensures ClientMatches(c, "")
  {
    assert InfixAt(Lower(""), Lower(c.firstName), 0);
  }

  // ---------------------------------------------------------------------------
  // Statistics

  datatype ClientStatistics = ClientStatistics(
    totalContracts: nat,
    activeContracts: nat,
    totalPremium: int,
    totalClaims: int,
    totalClaimAmount: int)

  /** `client.contracts`. */
  function ContractsOf(contracts: seq<Contract>, clientId: int): seq<Contract> {
    Filter(contracts, (c: Contract) => c.clientId == clientId)
  }

  /** A claim filed against the contract `contractId`. */
  function OnContract(contractId: int): Claim -> bool {
    (cl: Claim) => cl.contractId == contractId
  }

  /** A claim filed against one of the contracts `own`. */
  function OnAnyOf(own: seq<Contract>): Claim -> bool {
    (cl: Claim) => cl.contractId in Keys(own, ContractId)
  }

  /** `len(contract.claims)`, as the row function that `sum` adds up. */
  function ClaimCountOf(claims: seq<Claim>): Contract -> int {
    (c: Contract) => Count(claims, OnContract(c.id))
  }

  /** `sum(claim.claimed_amount or 0 for claim in contract.claims)`. */
  function ClaimedOf(claims: seq<Claim>): Contract -> int {
    (c: Contract) => Sum(Filter(claims, OnContract(c.id)), (cl: Claim) => AmountOrZero(cl.claimedAmount))
  }

  /** `get_client_statistics` with the claimed amounts summed from
      `claimed_amount`; an unknown client gives NotFound (`{}`). */
  function ClientStatisticsOf(db: Db, clientId: int): (r: Outcome<ClientStatistics>)
    reads db
    requires db.Valid()
    ensures r.NotFound? || r.Done?
    ensures r.NotFound? <==> clientId !in Keys(db.clients, ClientId)
    ensures r.Done? ==> var own := ContractsOf(db.contracts, clientId);
      && r.value.totalContracts == |own|
      && r.value.activeContracts <= r.value.totalContracts
      && r.value.activeContracts == Count(own, (c: Contract) => c.status == Active)
      && r.value.totalPremium == Sum(own, PremiumOf)
      && r.value.totalClaims == Count(db.claims, OnAnyOf(own))
      && r.value.totalClaimAmount == Sum(own, ClaimedOf(db.claims))
  {
    if ClientIndex(db.clients, clientId).None? then NotFound
    else
      var own := ContractsOf(db.contracts, clientId);
      DistinctContractsOf(db.contracts, clientId);
      ClaimsOfContracts(own, db.claims);
      Done(ClientStatistics(|own|, Count(own, (c: Contract) => c.status == Active), Sum(own, PremiumOf),
                            Sum(own, ClaimCountOf(db.claims)), Sum(own, ClaimedOf(db.claims))))
  }

  /** A filter of a table with distinct keys has distinct keys. */
  lemma {:induction false} DistinctContractsOf(contracts: seq<Contract>, clientId: int)
    requires DistinctKeys(contracts, ContractId)
    ensures DistinctKeys(ContractsOf(contracts, clientId), ContractId)
  {
    if |contracts| > 0 {
      var init := contracts[..|contracts| - 1];
      var last := contracts[|contracts| - 1];
      DistinctContractsOf(init, clientId);
      var f := ContractsOf(init, clientId);
      forall k | 0 <= k < |f| ensures f[k].id != last.id {
        var j :| 0 <= j < |init| && init[j] == f[k];
      }
    }
  }

  /** Adding up the claims of each contract counts every claim of the client
      once, because contract ids are distinct. */
  lemma {:induction false} ClaimsOfContracts(own: seq<Contract>, claims: seq<Claim>)
    requires DistinctKeys(own, ContractId)
    ensures Sum(own, ClaimCountOf(claims)) == Count(claims, OnAnyOf(own))
  {
    if |own| == 0 {
      CountPositive(claims, OnAnyOf(own));
    } else {
      var init := own[..|own| - 1];
      var last := own[|own| - 1];
      ClaimsOfContracts(init, claims);
      KeysAppend(init, ContractId, last);
      assert own == init + [last];
      assert last.id !in Keys(init, ContractId);
      CountDisjoint(claims, OnAnyOf(init), OnContract(last.id), OnAnyOf(own));
    }
  }

  /** `get_client_statistics` as written: `claim.claim_amount` names no column
      of Claim, so the sum raises AttributeError as soon as one of the client's
      contracts has a claim. */
  function ClientStatisticsAsWritten(db: Db, clientId: int): (r: Outcome<ClientStatistics>)
    reads db
    requires db.Valid()
    ensures r.Raises? <==> clientId in Keys(db.clients, ClientId)
                           && exists k :: 0 <= k < |db.claims| && db.claims[k].contractId in Keys(ContractsOf(db.contracts, clientId), ContractId)
  {
    CountPositive(db.claims, OnAnyOf(ContractsOf(db.contracts, clientId)));
    var stats := ClientStatisticsOf(db, clientId);
    if stats.Done? && stats.value.totalClaims > 0 then Raises("AttributeError: 'Claim' object has no attribute 'claim_amount'")
    else stats
  }

  /** The sum over the claims per contract meets a claim whenever the client
      has any, so the as-written statistics fail on every client with a claim,
      while the corrected ones give a result for every known client. */
  lemma StatisticsAsWrittenFails(db: Db, clientId: int)
    requires db.Valid()
    ensures clientId in Keys(db.clients, ClientId) ==> ClientStatisticsOf(db, clientId).Done?
    ensures ClientStatisticsAsWritten(db, clientId).Raises? ==> ClientStatisticsOf(db, clientId).Done?
    ensures ClientStatisticsAsWritten(db, clientId).Done? ==> ClientStatisticsAsWritten(db, clientId) == ClientStatisticsOf(db, clientId)
  {
  }
}
