/** `ContractService` (web/backend/app/functions/contract_service.py): the
    contract lifecycle draft → active → suspended / expired, cancellation, the
    expiry sweep, listing and statistics, and the contract-number generator. */
module ContractService {
  import opened Common
  import opened Models
  import opened Store

  // ---------------------------------------------------------------------------
  // The guarded steps on one contract row

  /** `activate_contract` on a found contract. */
  function ActivateStep(c: Contract): (r: Outcome<Contract>)
    ensures r.Done? || r.Refused?
    ensures r.Done? <==> c.status == Draft
    ensures r.Refused? ==> r.reason == "Only draft contracts can be activated"
    ensures r.Done? ==> r.value.status == Active && r.value.(status := Draft) == c
  {
    if c.status != Draft then Refused("Only draft contracts can be activated") else Done(c.(status := Active))
  }

  /** `suspend_contract` on a found contract; the reason is not stored. */
  function SuspendStep(c: Contract): (r: Outcome<Contract>)
    ensures r.Done? || r.Refused?
    ensures r.Done? <==> c.status == Active
    ensures r.Refused? ==> r.reason == "Only active contracts can be suspended"
    ensures r.Done? ==> r.value.status == Suspended && r.value.(status := Active) == c
  {
    if c.status != Active then Refused("Only active contracts can be suspended") else Done(c.(status := Suspended))
  }

  /** `cancel_contract` on a found contract; the reason is not stored. */
  function CancelStep(c: Contract): (r: Outcome<Contract>)
    ensures r.Done? || r.Refused?
    ensures r.Done? <==> c.status != Expired && c.status != Cancelled
    ensures r.Refused? ==> r.reason == "Contract is already cancelled or expired"
    ensures r.Done? ==> r.value.status == Cancelled && r.value.(status := c.status) == c
  {
    if c.status == Expired || c.status == Cancelled then Refused("Contract is already cancelled or expired")
    else Done(c.(status := Cancelled))
  }

  /** `ContractUpdate` after `dict(exclude_unset=True)`: None means not sent. */
  datatype ContractPatch = ContractPatch(
    premiumAmount: Option<int>,
    coverageAmount: Option<int>,
    startDate: Option<int>,
    endDate: Option<int>,
    status: Option<ContractStatus>,
    termsConditions: Option<string>)

  /** `update_contract` on a found contract: every sent field is written and
      none is checked. */
  function PatchContract(c: Contract, p: ContractPatch): (r: Contract)
    ensures r.id == c.id && r.contractNumber == c.contractNumber && r.clientId == c.clientId
    ensures r.productId == c.productId && r.agentId == c.agentId && r.createdAt == c.createdAt
    ensures r.premiumAmount == p.premiumAmount.GetOr(c.premiumAmount)
    ensures r.coverageAmount == p.coverageAmount.GetOr(c.coverageAmount)
    ensures r.startDate == p.startDate.GetOr(c.startDate) && r.endDate == p.endDate.GetOr(c.endDate)
    ensures r.status == p.status.GetOr(c.status)
    ensures r.termsConditions == (if p.termsConditions.Some? then p.termsConditions else c.termsConditions)
  {
    c.(premiumAmount := p.premiumAmount.GetOr(c.premiumAmount),
       coverageAmount := p.coverageAmount.GetOr(c.coverageAmount),
       startDate := p.startDate.GetOr(c.startDate),
       endDate := p.endDate.GetOr(c.endDate),
       status := p.status.GetOr(c.status),
       termsConditions := if p.termsConditions.Some? then p.termsConditions else c.termsConditions)
  }

  /** The part of a patch that `update_contract`'s loop has applied after its
      first `k` fields. */
  function PatchUpTo(p: ContractPatch, k: nat): ContractPatch {
    ContractPatch(if k > 0 then p.premiumAmount else None,
                  if k > 1 then p.coverageAmount else None,
                  if k > 2 then p.startDate else None,
                  if k > 3 then p.endDate else None,
                  if k > 4 then p.status else None,
                  if k > 5 then p.termsConditions else None)
  }

  /** The `k`-th field of a patch alone. */
  function FieldOf(p: ContractPatch, k: nat): ContractPatch {
    ContractPatch(if k == 0 then p.premiumAmount else None,
                  if k == 1 then p.coverageAmount else None,
                  if k == 2 then p.startDate else None,
                  if k == 3 then p.endDate else None,
                  if k == 4 then p.status else None,
                  if k == 5 then p.termsConditions else None)
  }

  // ---------------------------------------------------------------------------
  // The lifecycle as a transition relation

  /** End of term: what `check_expired_contracts` does to one row. */
  predicate PastDue(c: Contract, today: int) { c.endDate < today && c.status == Active }

  function Expire(c: Contract, today: int): Contract {
    if PastDue(c, today) then c.(status := Expired) else c
  }

  /** The status moves the lifecycle methods and the expiry sweep can make. */
  predicate LifecycleMove(from: ContractStatus, to: ContractStatus) {
    || (from == Draft && to == Active)
    || (from == Active && to == Suspended)
    || (from == Active && to == Expired)
    || (from in {Draft, Active, Suspended} && to == Cancelled)
  }

  /** The moves the guarded methods make are exactly the lifecycle relation. */
  lemma StepsAreLifecycle(c: Contract, today: int)
    ensures ActivateStep(c).Done? ==> LifecycleMove(c.status, Active)
    ensures SuspendStep(c).Done? ==> LifecycleMove(c.status, Suspended)
    ensures CancelStep(c).Done? ==> LifecycleMove(c.status, Cancelled)
    ensures Expire(c, today).status != c.status ==> LifecycleMove(c.status, Expired)
    ensures forall to :: LifecycleMove(c.status, to) ==>
      || (to == Active && ActivateStep(c).Done?)
      || (to == Suspended && SuspendStep(c).Done?)
      || (to == Cancelled && CancelStep(c).Done?)
      || (to == Expired && Expire(c, c.endDate + 1).status == Expired)
  {
  }

  /** Nothing brings a suspended contract back to active, and expired and
      cancelled contracts are terminal. */
  lemma NoWayBack(c: Contract, today: int)
    ensures c.status == Suspended ==> !ActivateStep(c).Done? && Expire(c, today) == c
    ensures c.status in {Expired, Cancelled} ==>
      !ActivateStep(c).Done? && !SuspendStep(c).Done? && !CancelStep(c).Done? && Expire(c, today) == c
    ensures forall from :: !LifecycleMove(from, Draft) && (LifecycleMove(from, Active) ==> from == Draft)
  {
  }

  /** `update_contract` bypasses the lifecycle: any status can be written over
      any other, and the end date can be moved before the start date, which
      `ContractCreate` would refuse. */
  lemma UpdateBypassesLifecycle(c: Contract, to: ContractStatus)
    ensures PatchContract(c, ContractPatch(None, None, None, None, Some(to), None)).status == to
    ensures var moved := PatchContract(c, ContractPatch(None, None, None, Some(c.startDate - 1), None, None));
      moved.endDate < moved.startDate
  {
  }

  // ---------------------------------------------------------------------------
  // The expiry sweep

  /** The table after `check_expired_contracts`. */
  function SweepExpired(contracts: seq<Contract>, today: int): (r: seq<Contract>)
    ensures |r| == |contracts|
  {
    if |contracts| == 0 then []
    else SweepExpired(contracts[..|contracts| - 1], today) + [Expire(contracts[|contracts| - 1], today)]
  }

  /** The rows `check_expired_contracts` returns, with their new status. */
  function ExpiredNow(contracts: seq<Contract>, today: int): seq<Contract> {
    if |contracts| == 0 then []
    else
      var last := contracts[|contracts| - 1];
      ExpiredNow(contracts[..|contracts| - 1], today) + if PastDue(last, today) then [Expire(last, today)] else []
  }

  /** Row by row: exactly the active rows past their end date become expired;
      every other row, suspended ones past their end date included, is kept. */
  lemma {:induction false} SweepExpiredAt(contracts: seq<Contract>, today: int, k: nat)
    requires k < |contracts|
    ensures SweepExpired(contracts, today)[k] == Expire(contracts[k], today)
    ensures PastDue(contracts[k], today) ==> SweepExpired(contracts, today)[k] == contracts[k].(status := Expired)
    ensures !PastDue(contracts[k], today) ==> SweepExpired(contracts, today)[k] == contracts[k]
  {
    if k < |contracts| - 1 {
      SweepExpiredAt(contracts[..|contracts| - 1], today, k);
    }
  }

  /** The sweep returns exactly the past-due rows, in table order, now expired. */
  lemma {:induction false} ExpiredNowIsPastDue(contracts: seq<Contract>, today: int)
    ensures ExpiredNow(contracts, today)
         == Map(Filter(contracts, (c: Contract) => PastDue(c, today)), (c: Contract) => c.(status := Expired))
  {
    if |contracts| > 0 {
      var init := contracts[..|contracts| - 1];
      ExpiredNowIsPastDue(init, today);
      MapConcat(Filter(init, (c: Contract) => PastDue(c, today)),
                if PastDue(contracts[|contracts| - 1], today) then [contracts[|contracts| - 1]] else [],
                (c: Contract) => c.(status := Expired));
    }
  }

  /** After a sweep no active contract is past its end date, so a second sweep
      finds nothing and changes nothing. */
  lemma {:induction false} SweepIdempotent(contracts: seq<Contract>, today: int)
    ensures ExpiredNow(SweepExpired(contracts, today), today) == []
    ensures SweepExpired(SweepExpired(contracts, today), today) == SweepExpired(contracts, today)
  {
    if |contracts| > 0 {
      var init := contracts[..|contracts| - 1];
      SweepIdempotent(init, today);
      var swept := SweepExpired(contracts, today);
      assert swept[..|swept| - 1] == SweepExpired(init, today);
    }
  }

  /** `check_expired_contracts`: the loop over the past-due rows setting each
      to EXPIRED. */
  method CheckExpiredContracts(db: Db, today: int) returns (expired: seq<Contract>)
    requires db.Valid()
    modifies db
    ensures db.Valid() && OnlyContractsChanged(db)
    ensures db.contracts == SweepExpired(old(db.contracts), today)
    ensures expired == ExpiredNow(old(db.contracts), today)
  {
    var rows;
    rows, expired := ExpireRows(db.contracts, today);
    SweepKeepsKeys(db.contracts, today);
    RewriteContractsKeepsValid(db, rows);
    db.contracts := rows;  // the commit
  }

  /** The loop of `check_expired_contracts` over the session's copies of the
      rows: each past-due row is set to EXPIRED and collected. */
  method ExpireRows(contracts: seq<Contract>, today: int) returns (rows: seq<Contract>, expired: seq<Contract>)
    ensures rows == SweepExpired(contracts, today)
    ensures expired == ExpiredNow(contracts, today)
  {
    rows := contracts;
    expired := [];
    var i := 0;
    while i < |rows|
      invariant 0 <= i <= |rows| == |contracts|
      invariant rows == SweepExpired(contracts[..i], today) + contracts[i..]
      invariant expired == ExpiredNow(contracts[..i], today)
    {
      SweepRowStep(contracts, today, i, rows);
      var c := rows[i];
      if PastDue(c, today) {
        rows := rows[i := c.(status := Expired)];
        expired := expired + [c.(status := Expired)];
      }
      i := i + 1;
    }
    assert contracts[..i] == contracts;
  }

  /** One turn of the sweep's loop extends the swept prefix by one row. */
  lemma SweepRowStep(contracts: seq<Contract>, today: int, i: nat, rows: seq<Contract>)
    requires i < |contracts| && rows == SweepExpired(contracts[..i], today) + contracts[i..]
    ensures i < |rows| && rows[i] == contracts[i]
    ensures (if PastDue(rows[i], today) then rows[i := rows[i].(status := Expired)] else rows)
         == SweepExpired(contracts[..i + 1], today) + contracts[i + 1..]
    ensures ExpiredNow(contracts[..i + 1], today)
         == ExpiredNow(contracts[..i], today) + if PastDue(rows[i], today) then [rows[i].(status := Expired)] else []
  {
    SweepPrefixStep(contracts, today, i);
    var done := SweepExpired(contracts[..i], today);
    var c := contracts[i];
    assert rows[i] == c;
    var next := if PastDue(c, today) then rows[i := c.(status := Expired)] else rows;
    assert |next| == |done| + 1 + |contracts[i + 1..]|;
    forall k | 0 <= k < |next| ensures next[k] == ((done + [Expire(c, today)]) + contracts[i + 1..])[k] {
      if k > i { assert next[k] == contracts[i..][k - i] == contracts[k]; }
    }
  }

  /** One more row of the sweep. */
  lemma SweepPrefixStep(contracts: seq<Contract>, today: int, i: nat)
    requires i < |contracts|
    ensures SweepExpired(contracts[..i + 1], today) == SweepExpired(contracts[..i], today) + [Expire(contracts[i], today)]
    ensures ExpiredNow(contracts[..i + 1], today)
         == ExpiredNow(contracts[..i], today) + if PastDue(contracts[i], today) then [Expire(contracts[i], today)] else []
    ensures contracts[i..] == [contracts[i]] + contracts[i + 1..]
  {
    assert contracts[..i + 1][..i] == contracts[..i];
  }

  // ---------------------------------------------------------------------------
  // The lifecycle methods on the contracts table

  /** Only the contracts table changed. */
  twostate predicate OnlyContractsChanged(db: Db)
    reads db
  {
    && db.clients == old(db.clients) && db.products == old(db.products) && db.claims == old(db.claims)
    && db.nextClientId == old(db.nextClientId) && db.nextProductId == old(db.nextProductId)
    && db.nextContractId == old(db.nextContractId) && db.nextClaimId == old(db.nextClaimId)
  }

  /** The columns the constraints of the contracts table are about. */
  predicate SameKeys(a: Contract, b: Contract) {
    a.id == b.id && a.contractNumber == b.contractNumber && a.clientId == b.clientId && a.productId == b.productId
  }

  /** Rewriting the contracts table row by row with every key column
      unchanged keeps every constraint of the database. */
  lemma RewriteContractsKeepsValid(db: Db, contracts: seq<Contract>)
    requires db.Valid() && |contracts| == |db.contracts|
    requires forall k :: 0 <= k < |contracts| ==> SameKeys(contracts[k], db.contracts[k])
    ensures && DistinctKeys(contracts, ContractId) && KeysBelow(contracts, ContractId, db.nextContractId)
            && DistinctContractNumbers(contracts)
            && ReferencesHold(db.clients, db.products, contracts, db.claims)
  {
    assert Keys(contracts, ContractId) == Keys(db.contracts, ContractId) by {
      forall v | v in Keys(db.contracts, ContractId) ensures v in Keys(contracts, ContractId) {
        var k :| 0 <= k < |db.contracts| && db.contracts[k].id == v;
        assert contracts[k].id == v;
      }
    }
  }

  lemma ReplaceContractKeepsValid(db: Db, i: nat, c: Contract)
    requires db.Valid() && i < |db.contracts| && SameKeys(db.contracts[i], c)
    ensures var contracts := db.contracts[i := c];
      && DistinctKeys(contracts, ContractId) && KeysBelow(contracts, ContractId, db.nextContractId)
      && DistinctContractNumbers(contracts)
      && ReferencesHold(db.clients, db.products, contracts, db.claims)
  {
    RewriteContractsKeepsValid(db, db.contracts[i := c]);
  }

  /** The sweep changes only statuses. */
  lemma SweepKeepsKeys(contracts: seq<Contract>, today: int)
    ensures forall k :: 0 <= k < |contracts| ==> SameKeys(SweepExpired(contracts, today)[k], contracts[k])
  {
    forall k | 0 <= k < |contracts| ensures SameKeys(SweepExpired(contracts, today)[k], contracts[k]) {
      SweepExpiredAt(contracts, today, k);
    }
  }

  method WriteBack(db: Db, at: Option<nat>, out: Outcome<Contract>)
    requires db.Valid()
    requires at.Some? ==> at.value < |db.contracts|
    requires out.Done? ==> at.Some? && SameKeys(db.contracts[at.value], out.value)
    modifies db
    ensures db.Valid() && OnlyContractsChanged(db)
    ensures db.contracts == (if out.Done? then old(db.contracts)[at.value := out.value] else old(db.contracts))
  {
    if out.Done? {
      ReplaceContractKeepsValid(db, at.value, out.value);
      db.contracts := db.contracts[at.value := out.value];
    }
  }

  method ActivateContract(db: Db, contractId: int) returns (r: Outcome<Contract>)
    requires db.Valid()
    modifies db
    ensures db.Valid() && OnlyContractsChanged(db)
    ensures (db.contracts, r) == UpdateRow(old(db.contracts), ContractIndex(old(db.contracts), contractId), ActivateStep)
  {
    var at := ContractIndex(db.contracts, contractId);
    r := if at.None? then NotFound else ActivateStep(db.contracts[at.value]);
    WriteBack(db, at, r);
  }

  method SuspendContract(db: Db, contractId: int) returns (r: Outcome<Contract>)
    requires db.Valid()
    modifies db
    ensures db.Valid() && OnlyContractsChanged(db)
    ensures (db.contracts, r) == UpdateRow(old(db.contracts), ContractIndex(old(db.contracts), contractId), SuspendStep)
  {
    var at := ContractIndex(db.contracts, contractId);
    r := if at.None? then NotFound else SuspendStep(db.contracts[at.value]);
    WriteBack(db, at, r);
  }

  method CancelContract(db: Db, contractId: int) returns (r: Outcome<Contract>)
    requires db.Valid()
    modifies db
    ensures db.Valid() && OnlyContractsChanged(db)
    ensures (db.contracts, r) == UpdateRow(old(db.contracts), ContractIndex(old(db.contracts), contractId), CancelStep)
  {
    var at := ContractIndex(db.contracts, contractId);
    r := if at.None? then NotFound else CancelStep(db.contracts[at.value]);
    WriteBack(db, at, r);
  }

  /** `update_contract`: the `setattr` loop over the sent fields. */
  method UpdateContract(db: Db, contractId: int, patch: ContractPatch) returns (r: Outcome<Contract>)
    requires db.Valid()
    modifies db
    ensures db.Valid() && OnlyContractsChanged(db)
    ensures (db.contracts, r) == UpdateRow(old(db.contracts), ContractIndex(old(db.contracts), contractId),
                                           c => Done(PatchContract(c, patch)))
  {
    var at := ContractIndex(db.contracts, contractId);
    if at.None? {
      r := NotFound;
    } else {
      var c := db.contracts[at.value];
      var k := 0;
      while k < 6  // the six fields of ContractUpdate, in declaration order
        invariant 0 <= k <= 6
        invariant c == PatchContract(db.contracts[at.value], PatchUpTo(patch, k))
      {
        c := PatchContract(c, FieldOf(patch, k));
        k := k + 1;
      }
      r := Done(c);
    }
    WriteBack(db, at, r);
  }

  // ---------------------------------------------------------------------------
  // Contract numbers and creation

  /** `f"CON-{year}-{random_part}"`. */
  function ContractNumberOf(year: nat, digits: string): string {
    "CON-" + DecimalText(year) + "-" + digits
  }

  function ContractNumbers(contracts: seq<Contract>): set<string> {
    set k | 0 <= k < |contracts| :: contracts[k].contractNumber
  }

  /** `generate_contract_number`: the first draw whose number no contract
      holds. `draws` are the successive six-digit strings `secrets.choice`
      yields. */
  method GenerateContractNumber(contracts: seq<Contract>, year: nat, draws: seq<string>) returns (r: Option<string>)
    requires forall k :: 0 <= k < |draws| ==> DrawnFrom(draws[k], 6, Digits)
    ensures r.Some? ==> forall k :: 0 <= k < |contracts| ==> contracts[k].contractNumber != r.value
    ensures r.Some? ==> exists k :: 0 <= k < |draws| && r.value == ContractNumberOf(year, draws[k])
                           && forall j :: 0 <= j < k ==> ContractNumberOf(year, draws[j]) in ContractNumbers(contracts)
    ensures r.None? ==> forall k :: 0 <= k < |draws| ==> ContractNumberOf(year, draws[k]) in ContractNumbers(contracts)
  {
    var candidates := seq(|draws|, k requires 0 <= k < |draws| => ContractNumberOf(year, draws[k]));
    var at := FirstFresh(candidates, ContractNumbers(contracts));
    assert forall j :: 0 <= j < |draws| ==> candidates[j] == ContractNumberOf(year, draws[j]);
    if at.None? {
      return None;
    }
    r := Some(candidates[at.value]);
    forall k | 0 <= k < |contracts| ensures contracts[k].contractNumber != r.value {
      assert contracts[k].contractNumber in ContractNumbers(contracts);
    }
  }

  /** `ContractCreate` as it reaches the service; an omitted status is None.
      `contract_number` is replaced by a generated one. */
  datatype NewContract = NewContract(
    clientId: int,
    productId: int,
    agentId: int,
    premiumAmount: int,
    coverageAmount: int,
    startDate: int,
    endDate: int,
    status: Option<ContractStatus>,
    termsConditions: Option<string>)

  /** The row `create_contract` inserts: a draft unless a status was given. */
  function ContractRow(id: int, number: string, d: NewContract, now: int): (r: Contract)
    ensures r.id == id && r.contractNumber == number && r.clientId == d.clientId && r.productId == d.productId
    ensures r.status == d.status.GetOr(Draft)
    ensures d.status.None? ==> r.status == Draft
  {
    Contract(id, number, d.clientId, d.productId, d.agentId, d.premiumAmount, d.coverageAmount,
             d.startDate, d.endDate, d.status.GetOr(Draft), d.termsConditions, now)
  }

  /** A row with the next id and a fresh number keeps the contracts table's
      own constraints and adds its id to the keys. */
  lemma AppendContractRow(contracts: seq<Contract>, next: int, c: Contract)
    requires DistinctKeys(contracts, ContractId) && KeysBelow(contracts, ContractId, next)
    requires DistinctContractNumbers(contracts)
    requires 1 <= next && c.id == next && c.contractNumber !in ContractNumbers(contracts)
    ensures var after := contracts + [c];
      && DistinctKeys(after, ContractId) && KeysBelow(after, ContractId, next + 1)
      && DistinctContractNumbers(after)
      && Keys(after, ContractId) == Keys(contracts, ContractId) + {c.id}
  {
    var after := contracts + [c];
    assert forall k :: 0 <= k < |contracts| ==> after[k] == contracts[k];
    assert forall k :: 0 <= k < |contracts| ==> contracts[k].contractNumber in ContractNumbers(contracts);
    KeysAppend(contracts, ContractId, c);
  }

  lemma AppendContractKeepsValid(db: Db, c: Contract)
    requires db.Valid() && c.id == db.nextContractId
    requires c.contractNumber !in ContractNumbers(db.contracts)
    requires c.clientId in Keys(db.clients, ClientId) && c.productId in Keys(db.products, ProductId)
    ensures var contracts := db.contracts + [c];
      && DistinctKeys(contracts, ContractId) && KeysBelow(contracts, ContractId, db.nextContractId + 1)
      && DistinctContractNumbers(contracts)
      && ReferencesHold(db.clients, db.products, contracts, db.claims)
  {
    var before, claims := db.contracts, db.claims;
    AppendContractRow(before, db.nextContractId, c);
    var contracts := before + [c];
    assert forall k :: 0 <= k < |before| ==> contracts[k] == before[k];
    assert forall k :: 0 <= k < |claims| ==> claims[k].contractId in Keys(before, ContractId);
  }

  /** `create_contract`. The insert fails on a missing client or product (the
      two foreign keys); the id sequence advances either way. */
  method CreateContract(db: Db, d: NewContract, year: nat, draws: seq<string>, now: int) returns (r: Outcome<Contract>)
    requires db.Valid()
    requires forall k :: 0 <= k < |draws| ==> DrawnFrom(draws[k], 6, Digits)
    modifies db
    ensures db.Valid()
    ensures r.Done? || r.IntegrityError? || r.Diverges?
    ensures db.clients == old(db.clients) && db.products == old(db.products) && db.claims == old(db.claims)
    ensures r.Diverges? ==> db.contracts == old(db.contracts) && db.nextContractId == old(db.nextContractId)
    ensures r.IntegrityError? ==> db.contracts == old(db.contracts)
    ensures r.IntegrityError? <==> !r.Diverges? && (d.clientId !in Keys(old(db.clients), ClientId) || d.productId !in Keys(old(db.products), ProductId))
    ensures r.Done? ==> && r.value.contractNumber !in ContractNumbers(old(db.contracts))
                        && r.value == ContractRow(old(db.nextContractId), r.value.contractNumber, d, now)
                        && db.contracts == old(db.contracts) + [r.value]
    ensures !r.Diverges? ==> db.nextContractId == old(db.nextContractId) + 1
  {
    var number := GenerateContractNumber(db.contracts, year, draws);
    if number.None? {
      return Diverges;
    }
    var id := db.nextContractId;
    if ClientIndex(db.clients, d.clientId).None? {
      db.nextContractId := id + 1;
      return IntegrityError("contracts_client_id_fkey");
    }
    if ProductIndex(db.products, d.productId).None? {
      db.nextContractId := id + 1;
      return IntegrityError("contracts_product_id_fkey");
    }
    var row := ContractRow(id, number.value, d, now);
    assert row.contractNumber !in ContractNumbers(db.contracts);
    AppendContractKeepsValid(db, row);
    db.contracts, db.nextContractId := db.contracts + [row], id + 1;
    r := Done(row);
  }

  // ---------------------------------------------------------------------------
  // Queries

  /** The filters of `get_contracts`; a falsy id (None or 0) does not filter. */
  predicate ContractListed(c: Contract, clientId: Option<int>, agentId: Option<int>, status: Option<ContractStatus>, productId: Option<int>) {
    && (Truthy(clientId) ==> c.clientId == clientId.value)
    && (Truthy(agentId) ==> c.agentId == agentId.value)
    && (status.Some? ==> c.status == status.value)
    && (Truthy(productId) ==> c.productId == productId.value)
  }

  /** `get_contracts`: one page of the matching contracts and the number of
      matches counted before the page is cut. */
  function GetContracts(contracts: seq<Contract>, skip: nat, limit: nat, clientId: Option<int>, agentId: Option<int>,
                        status: Option<ContractStatus>, productId: Option<int>): (r: (seq<Contract>, nat))
    ensures r.1 == Count(contracts, c => ContractListed(c, clientId, agentId, status, productId))
    ensures r.0 == Page(Filter(contracts, c => ContractListed(c, clientId, agentId, status, productId)), skip, limit)
    ensures |r.0| <= limit && |r.0| <= r.1
    ensures forall k :: 0 <= k < |r.0| ==> r.0[k] in contracts && ContractListed(r.0[k], clientId, agentId, status, productId)
  {
    var matching := Filter(contracts, c => ContractListed(c, clientId, agentId, status, productId));
    (Page(matching, skip, limit), |matching|)
  }

  /** `get_contracts_expiring_soon`: the active contracts ending on or before
      `today + days`, already past-due ones included. */
  function ExpiringSoon(contracts: seq<Contract>, today: int, days: int): (r: seq<Contract>)
    ensures forall k :: 0 <= k < |r| ==> r[k] in contracts && r[k].status == Active && r[k].endDate <= today + days
    ensures forall k :: 0 <= k < |contracts| && contracts[k].status == Active && contracts[k].endDate <= today + days
              ==> contracts[k] in r
  {
    Filter(contracts, (c: Contract) => c.endDate <= today + days && c.status == Active)
  }

  datatype ContractStatistics = ContractStatistics(
    totalContracts: nat,
    activeContracts: nat,
    draftContracts: nat,
    suspendedContracts: nat,
    expiredContracts: nat,
    cancelledContracts: nat,
    totalPremium: int,
    averagePremium: real,
    totalCoverage: int)

  /** `get_contract_statistics`, over one agent's contracts when a truthy
      agent id is given. */
  function ContractStatisticsOf(contracts: seq<Contract>, agentId: Option<int>): (r: ContractStatistics)
    ensures var scope := Filter(contracts, (c: Contract) => Truthy(agentId) ==> c.agentId == agentId.value);
      && r.totalContracts == |scope|
      && r.totalPremium == Sum(scope, PremiumOf) && r.totalCoverage == Sum(scope, CoverageOf)
      && r.activeContracts == ContractsWithStatus(scope, Active)
      && r.draftContracts == ContractsWithStatus(scope, Draft)
      && r.suspendedContracts == ContractsWithStatus(scope, Suspended)
      && r.expiredContracts == ContractsWithStatus(scope, Expired)
      && r.cancelledContracts == ContractsWithStatus(scope, Cancelled)
    ensures r.activeContracts + r.draftContracts + r.suspendedContracts + r.expiredContracts + r.cancelledContracts
            == r.totalContracts
    ensures r.totalContracts == 0 ==> r.averagePremium == 0.0 && r.totalPremium == 0
    ensures r.totalContracts > 0 ==> r.averagePremium == r.totalPremium as real / r.totalContracts as real
  {
    var scope := Filter(contracts, (c: Contract) => Truthy(agentId) ==> c.agentId == agentId.value);
    ContractStatusCountsSum(scope);
    ContractStatistics(
      |scope|,
      ContractsWithStatus(scope, Active),
      ContractsWithStatus(scope, Draft),
      ContractsWithStatus(scope, Suspended),
      ContractsWithStatus(scope, Expired),
      ContractsWithStatus(scope, Cancelled),
      Sum(scope, PremiumOf),
      Ratio(Sum(scope, PremiumOf), |scope|),
      Sum(scope, CoverageOf))
  }
}
