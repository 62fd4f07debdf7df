/** The main database as one object: the four tables of
    web/backend/app/db/models.py, each a sequence of rows in primary-key
    (insertion) order, and the autoincrement counters that hand out new keys.
    `Valid` holds the constraints PostgreSQL enforces on every commit. */
module Store {
  import opened Common
  import opened Models

  /** The primary keys present in a table. */
  function Keys<T>(s: seq<T>, key: T -> int): set<int> {
    set k | 0 <= k < |s| :: key(s[k])
  }

  predicate DistinctKeys<T>(s: seq<T>, key: T -> int) {
    forall i, j :: 0 <= i < j < |s| ==> key(s[i]) != key(s[j])
  }

  /** Every key was handed out by the table's counter (which starts at 1). */
  predicate KeysBelow<T>(s: seq<T>, key: T -> int, next: int) {
    forall k :: 0 <= k < |s| ==> 1 <= key(s[k]) < next
  }

  /** `email = Column(String(100), unique=True)`: NULL may repeat. */
  predicate DistinctEmails(clients: seq<Client>) {
    forall i, j :: 0 <= i < j < |clients| && clients[i].email.Some? ==> clients[i].email != clients[j].email
  }

  predicate DistinctContractNumbers(contracts: seq<Contract>) {
    forall i, j :: 0 <= i < j < |contracts| ==> contracts[i].contractNumber != contracts[j].contractNumber
  }

  predicate DistinctClaimNumbers(claims: seq<Claim>) {
    forall i, j :: 0 <= i < j < |claims| ==> claims[i].claimNumber != claims[j].claimNumber
  }

  /** The foreign keys: contracts.client_id, contracts.product_id, claims.contract_id. */
  predicate ReferencesHold(clients: seq<Client>, products: seq<Product>, contracts: seq<Contract>, claims: seq<Claim>) {
    && (forall k :: 0 <= k < |contracts| ==> contracts[k].clientId in Keys(clients, ClientId))
    && (forall k :: 0 <= k < |contracts| ==> contracts[k].productId in Keys(products, ProductId))
    && (forall k :: 0 <= k < |claims| ==> claims[k].contractId in Keys(contracts, ContractId))
  }

  class Db {
    var clients: seq<Client>
    var products: seq<Product>
    var contracts: seq<Contract>
    var claims: seq<Claim>
    var nextClientId: int
    var nextProductId: int
    var nextContractId: int
    var nextClaimId: int

    ghost predicate Valid()
      reads this
    {
      && nextClientId >= 1 && nextProductId >= 1 && nextContractId >= 1 && nextClaimId >= 1
      && DistinctKeys(clients, ClientId) && KeysBelow(clients, ClientId, nextClientId)
      && DistinctKeys(products, ProductId) && KeysBelow(products, ProductId, nextProductId)
      && DistinctKeys(contracts, ContractId) && KeysBelow(contracts, ContractId, nextContractId)
      && DistinctKeys(claims, ClaimId) && KeysBelow(claims, ClaimId, nextClaimId)
      && DistinctEmails(clients)
      && DistinctContractNumbers(contracts)
      && DistinctClaimNumbers(claims)
      && ReferencesHold(clients, products, contracts, claims)
    }

    constructor ()
      ensures Valid()
      ensures clients == [] && products == [] && contracts == [] && claims == []
      ensures nextClientId == 1 && nextProductId == 1 && nextContractId == 1 && nextClaimId == 1
    {
      clients, products, contracts, claims := [], [], [], [];
      nextClientId, nextProductId, nextContractId, nextClaimId := 1, 1, 1, 1;
    }
  }

  // ---------------------------------------------------------------------------
  // Lookups: `db.query(X).filter(X.id == id).first()` and friends

  function ClientIndex(clients: seq<Client>, id: int): (r: Option<nat>)
    ensures r.Some? ==> r.value < |clients| && clients[r.value].id == id
    ensures r.None? <==> id !in Keys(clients, ClientId)
  {
    FirstIndex(clients, (c: Client) => c.id == id)
  }

  function ProductIndex(products: seq<Product>, id: int): (r: Option<nat>)
    ensures r.Some? ==> r.value < |products| && products[r.value].id == id
    ensures r.None? <==> id !in Keys(products, ProductId)
  {
    FirstIndex(products, (p: Product) => p.id == id)
  }

  function ContractIndex(contracts: seq<Contract>, id: int): (r: Option<nat>)
    ensures r.Some? ==> r.value < |contracts| && contracts[r.value].id == id
    ensures r.None? <==> id !in Keys(contracts, ContractId)
  {
    FirstIndex(contracts, (c: Contract) => c.id == id)
  }

  function ClaimIndex(claims: seq<Claim>, id: int): (r: Option<nat>)
    ensures r.Some? ==> r.value < |claims| && claims[r.value].id == id
    ensures r.None? <==> id !in Keys(claims, ClaimId)
  {
    FirstIndex(claims, (c: Claim) => c.id == id)
  }

  /** `get_client_by_email`: the first client holding that address. */
  function ClientWithEmail(clients: seq<Client>, email: Option<string>): (r: Option<nat>)
    ensures r.Some? ==> r.value < |clients| && clients[r.value].email == email
    ensures r.None? <==> forall k :: 0 <= k < |clients| ==> clients[k].email != email
  {
    FirstIndex(clients, (c: Client) => c.email == email)
  }

  // ---------------------------------------------------------------------------
  // How the key set of a table moves when a row is replaced, added or removed

  lemma KeysUpdate<T>(s: seq<T>, key: T -> int, i: nat, x: T)
    requires i < |s| && key(x) == key(s[i])
    ensures Keys(s[i := x], key) == Keys(s, key)
  {
    var s' := s[i := x];
    forall v | v in Keys(s, key) ensures v in Keys(s', key) {
      var k :| 0 <= k < |s| && key(s[k]) == v;
      assert key(s'[k]) == v;
    }
  }

  lemma KeysAppend<T>(s: seq<T>, key: T -> int, x: T)
    ensures Keys(s + [x], key) == Keys(s, key) + {key(x)}
  {
    var s' := s + [x];
    assert key(s'[|s|]) == key(x);
    forall v | v in Keys(s, key) ensures v in Keys(s', key) {
      var k :| 0 <= k < |s| && key(s[k]) == v;
      assert key(s'[k]) == v;
    }
  }

  lemma KeysRemove<T>(s: seq<T>, key: T -> int, i: nat)
    requires i < |s| && DistinctKeys(s, key)
    ensures Keys(s[..i] + s[i + 1..], key) == Keys(s, key) - {key(s[i])}
  {
    var s' := s[..i] + s[i + 1..];
    forall v | v in Keys(s', key) ensures v in Keys(s, key) - {key(s[i])} {
      var k :| 0 <= k < |s'| && key(s'[k]) == v;
      if k < i { assert s'[k] == s[k]; } else { assert s'[k] == s[k + 1]; }
    }
    forall v | v in Keys(s, key) - {key(s[i])} ensures v in Keys(s', key) {
      var k :| 0 <= k < |s| && key(s[k]) == v;
      if k < i { assert s'[k] == s[k]; } else { assert k > i && s'[k - 1] == s[k]; }
    }
  }
}
