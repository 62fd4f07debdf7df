/** The records of the main database (web/backend/app/db/models.py) and the two
    status enumerations. Dates are day numbers, timestamps are seconds since the
    same epoch, money is an integer amount (it is only compared and summed). */
module Models {
  import opened Common

  datatype ContractStatus = Draft | Active | Suspended | Expired | Cancelled

  datatype ClaimStatus = Submitted | UnderReview | Approved | Rejected | Paid

  /** The string each enumeration member stands for (both enums derive from `str`). */
  function ContractStatusValue(s: ContractStatus): string {
    match s
    case Draft => "draft"
    case Active => "active"
    case Suspended => "suspended"
    case Expired => "expired"
    case Cancelled => "cancelled"
  }

  function ClaimStatusValue(s: ClaimStatus): string {
    match s
    case Submitted => "submitted"
    case UnderReview => "under_review"
    case Approved => "approved"
    case Rejected => "rejected"
    case Paid => "paid"
  }

  /** `ContractStatus(v)`: a stored or submitted status string is exactly one of
      the five values, or it is rejected. */
  function ParseContractStatus(v: string): (r: Option<ContractStatus>)
    ensures r.Some? ==> ContractStatusValue(r.value) == v
    ensures r.None? <==> forall s :: ContractStatusValue(s) != v
  {
    if v == "draft" then Some(Draft)
    else if v == "active" then Some(Active)
    else if v == "suspended" then Some(Suspended)
    else if v == "expired" then Some(Expired)
    else if v == "cancelled" then Some(Cancelled)
    else None
  }

  function ParseClaimStatus(v: string): (r: Option<ClaimStatus>)
    ensures r.Some? ==> ClaimStatusValue(r.value) == v
    ensures r.None? <==> forall s :: ClaimStatusValue(s) != v
  {
    if v == "submitted" then Some(Submitted)
    else if v == "under_review" then Some(UnderReview)
    else if v == "approved" then Some(Approved)
    else if v == "rejected" then Some(Rejected)
    else if v == "paid" then Some(Paid)
    else None
  }

  /** Distinct members have distinct values, so parsing a member's value gives
      that member back. */
  lemma StatusValuesRoundTrip(c: ContractStatus, k: ClaimStatus)
    ensures ParseContractStatus(ContractStatusValue(c)) == Some(c)
    ensures ParseClaimStatus(ClaimStatusValue(k)) == Some(k)
  {
  }

  const AllClaimStatuses: seq<ClaimStatus> := [Submitted, UnderReview, Approved, Rejected, Paid]

  const SecondsPerDay: int := 86400

  /** PostgreSQL compares a timestamp with a date by promoting the date to
      midnight of that day. */
  function Midnight(day: int): int { day * SecondsPerDay }

  /** Python truthiness of an optional integer filter (`if agent_id:`): None
      and 0 are both false. */
  predicate Truthy(o: Option<int>) { o.Some? && o.value != 0 }

  /** Python truthiness of an optional amount (`if claim.claimed_amount`). */
  predicate AmountTruthy(o: Option<int>) { o.Some? && o.value != 0 }

  /** `amount or 0`. */
  function AmountOrZero(o: Option<int>): int { if o.Some? then o.value else 0 }

  datatype Client = Client(
    id: int,
    firstName: string,
    lastName: string,
    email: Option<string>,              // unique; NULLs may repeat
    phone: Option<string>,
    address: Option<string>,
    dateOfBirth: Option<int>,
    identificationNumber: Option<string>,
    createdBy: Option<int>)

  datatype Product = Product(
    id: int,
    name: string,
    description: Option<string>,
    basePremium: int,
    coverageAmount: Option<int>,
    isActive: bool)

  datatype Contract = Contract(
    id: int,
    contractNumber: string,             // unique, not null
    clientId: int,                      // references a client
    productId: int,                     // references a product
    agentId: int,
    premiumAmount: int,
    coverageAmount: int,
    startDate: int,
    endDate: int,
    status: ContractStatus,
    termsConditions: Option<string>,
    createdAt: int)

  datatype Claim = Claim(
    id: int,
    claimNumber: string,                // unique, not null
    contractId: int,                    // references a contract
    incidentDate: int,
    reportedDate: int,
    description: string,
    claimedAmount: Option<int>,
    approvedAmount: Option<int>,
    status: ClaimStatus,
    adjusterId: Option<int>,
    adjusterNotes: Option<string>,
    createdAt: int)

  /** Python truthiness of an optional string (`if approval_notes:`): None and
      "" are both false. */
  predicate TextTruthy(o: Option<string>) { o.Some? && o.value != "" }

  /** `text or ""`. */
  function TextOrEmpty(o: Option<string>): string { if o.Some? then o.value else "" }

  // ---------------------------------------------------------------------------
  // Per-status partition counts (`len([c for c in rows if c.status == S])`)

  function ClaimsWithStatus(claims: seq<Claim>, s: ClaimStatus): nat {
    Count(claims, (c: Claim) => c.status == s)
  }

  /** Every claim has exactly one of the five statuses, so the five counts
      partition the rows. */
  lemma {:induction false} ClaimStatusCountsSum(claims: seq<Claim>)
    ensures ClaimsWithStatus(claims, Submitted) + ClaimsWithStatus(claims, UnderReview)
          + ClaimsWithStatus(claims, Approved) + ClaimsWithStatus(claims, Rejected)
          + ClaimsWithStatus(claims, Paid) == |claims|
  {
    if |claims| > 0 {
      ClaimStatusCountsSum(claims[..|claims| - 1]);
    }
  }

  function ContractsWithStatus(contracts: seq<Contract>, s: ContractStatus): nat {
    Count(contracts, (c: Contract) => c.status == s)
  }

  lemma {:induction false} ContractStatusCountsSum(contracts: seq<Contract>)
    ensures ContractsWithStatus(contracts, Draft) + ContractsWithStatus(contracts, Active)
          + ContractsWithStatus(contracts, Suspended) + ContractsWithStatus(contracts, Expired)
          + ContractsWithStatus(contracts, Cancelled) == |contracts|
  {
    if |contracts| > 0 {
      ContractStatusCountsSum(contracts[..|contracts| - 1]);
    }
  }

  function ClientId(c: Client): int { c.id }
  function ProductId(p: Product): int { p.id }
  function ContractId(c: Contract): int { c.id }
  function ClaimId(c: Claim): int { c.id }
  function PremiumOf(c: Contract): int { c.premiumAmount }
  function CoverageOf(c: Contract): int { c.coverageAmount }
}
