/** `ClaimService` (web/backend/app/functions/claim_service.py): the claim
    lifecycle submitted → under_review → approved / rejected → paid, the
    listing and statistics queries, the eligibility check and the claim-number
    generator. Each lifecycle method is a guarded step on one claim row
    (`…Step`, a pure function) applied in place to the claims table. */
module ClaimService {
  import opened Common
  import opened Models
  import opened Store

  /** The statuses from which an adjuster may still be assigned or a decision
      recorded (`[ClaimStatus.SUBMITTED, ClaimStatus.UNDER_REVIEW]`). */
  predicate Pending(s: ClaimStatus) { s == Submitted || s == UnderReview }

  /** The columns that no lifecycle method writes: the claim as filed. */
  predicate SameFiling(a: Claim, b: Claim) {
    && a.id == b.id && a.claimNumber == b.claimNumber && a.contractId == b.contractId
    && a.incidentDate == b.incidentDate && a.reportedDate == b.reportedDate
    && a.description == b.description && a.claimedAmount == b.claimedAmount
    && a.createdAt == b.createdAt
  }

  /** Adjuster notes only ever grow: the old notes (or "" when there were none)
      are a prefix of the new ones, or the notes did not change. */
  predicate NotesExtend(before: Option<string>, after: Option<string>) {
    after == before || (after.Some? && TextOrEmpty(before) <= after.value)
  }

  // ---------------------------------------------------------------------------
  // The guarded steps on one claim row

  /** `assign_adjuster` on a found claim. */
  function AssignStep(c: Claim, adjusterId: int): (r: Outcome<Claim>)
    ensures r.Done? || r.Refused?
    ensures r.Done? <==> Pending(c.status)
    ensures r.Refused? ==> r.reason == "Cannot assign adjuster to processed claim"
    ensures r.Done? ==> && SameFiling(c, r.value)
                        && r.value.adjusterId == Some(adjusterId) && r.value.status == UnderReview
                        && r.value.approvedAmount == c.approvedAmount && r.value.adjusterNotes == c.adjusterNotes
  {
    if !Pending(c.status) then Refused("Cannot assign adjuster to processed claim")
    else Done(c.(adjusterId := Some(adjusterId), status := UnderReview))
  }

  /** `process_claim` on a found claim: the decision is written verbatim, with
      no check of the amount and any target status. */
  function ProcessStep(c: Claim, notes: string, amount: Option<int>, status: ClaimStatus): (r: Outcome<Claim>)
    ensures r.Done? || r.Refused?
    ensures r.Done? <==> Pending(c.status)
    ensures r.Refused? ==> r.reason == "Claim is not in a processable status"
    ensures r.Done? ==> && SameFiling(c, r.value) && r.value.adjusterId == c.adjusterId
                        && r.value.adjusterNotes == Some(notes) && r.value.approvedAmount == amount
                        && r.value.status == status
  {
    if !Pending(c.status) then Refused("Claim is not in a processable status")
    else Done(c.(adjusterNotes := Some(notes), approvedAmount := amount, status := status))
  }

  /** Why `approve_claim` refuses, in the order it checks. The claimed-amount
      cap applies only when the claimed amount is truthy (set and non-zero);
      the coverage cap only when the claim's contract row exists. */
  function ApprovalRefusal(c: Claim, coverage: Option<int>, amount: int): Option<string> {
    if c.status != UnderReview then Some("Only claims under review can be approved")
    else if AmountTruthy(c.claimedAmount) && amount > c.claimedAmount.value then
      Some("Approved amount cannot exceed claimed amount")
    else if coverage.Some? && amount > coverage.value then
      Some("Approved amount cannot exceed contract coverage")
    else None
  }

  /** `approve_claim` on a found claim whose contract has coverage `coverage`. */
  function ApproveStep(c: Claim, coverage: Option<int>, amount: int, notes: Option<string>): (r: Outcome<Claim>)
    ensures r.Done? || r.Refused?
    ensures r.Done? <==> && c.status == UnderReview
                         && (AmountTruthy(c.claimedAmount) ==> amount <= c.claimedAmount.value)
                         && (coverage.Some? ==> amount <= coverage.value)
    ensures r.Refused? ==> Some(r.reason) == ApprovalRefusal(c, coverage, amount)
    ensures r.Done? ==> && SameFiling(c, r.value) && r.value.adjusterId == c.adjusterId
                        && r.value.status == Approved && r.value.approvedAmount == Some(amount)
                        && NotesExtend(c.adjusterNotes, r.value.adjusterNotes)
    ensures r.Done? ==> r.value.adjusterNotes == if TextTruthy(notes)
                                                 then Some(TextOrEmpty(c.adjusterNotes) + "\nApproval: " + notes.value)
                                                 else c.adjusterNotes
  {
    match ApprovalRefusal(c, coverage, amount)
    case Some(why) => Refused(why)
    case None =>
      var approved := c.(approvedAmount := Some(amount), status := Approved);
      if TextTruthy(notes) then
        Done(approved.(adjusterNotes := Some(TextOrEmpty(c.adjusterNotes) + "\nApproval: " + notes.value)))
      else Done(approved)
  }

  /** The note `reject_claim` appends: the reason, then the optional notes. */
  function RejectionNote(reason: string, notes: Option<string>): (r: string)
    ensures "REJECTED: " + reason <= r
  {
    "REJECTED: " + reason + (if TextTruthy(notes) then "\nNotes: " + notes.value else "")
  }

  /** `reject_claim` on a found claim. */
  function RejectStep(c: Claim, reason: string, notes: Option<string>): (r: Outcome<Claim>)
    ensures r.Done? || r.Refused?
    ensures r.Done? <==> c.status == UnderReview
    ensures r.Refused? ==> r.reason == "Only claims under review can be rejected"
    ensures r.Done? ==> && SameFiling(c, r.value) && r.value.adjusterId == c.adjusterId
                        && r.value.status == Rejected && r.value.approvedAmount == Some(0)
                        && NotesExtend(c.adjusterNotes, r.value.adjusterNotes)
                        && r.value.adjusterNotes == Some(TextOrEmpty(c.adjusterNotes) + "\n" + RejectionNote(reason, notes))
  {
    if c.status != UnderReview then Refused("Only claims under review can be rejected")
    else Done(c.(status := Rejected, approvedAmount := Some(0),
                 adjusterNotes := Some(TextOrEmpty(c.adjusterNotes) + "\n" + RejectionNote(reason, notes))))
  }

  /** `mark_as_paid` on a found claim. */
  function MarkPaidStep(c: Claim): (r: Outcome<Claim>)
    ensures r.Done? || r.Refused?
    ensures r.Done? <==> c.status == Approved
    ensures r.Refused? ==> r.reason == "Only approved claims can be marked as paid"
    ensures r.Done? ==> r.value.status == Paid && r.value.(status := Approved) == c
  {
    if c.status != Approved then Refused("Only approved claims can be marked as paid")
    else Done(c.(status := Paid))
  }

  /** `ClaimUpdate` after `dict(exclude_unset=True)`: None means the field was
      not sent. */
  datatype ClaimPatch = ClaimPatch(
    description: Option<string>,
    claimedAmount: Option<int>,
    approvedAmount: Option<int>,
    status: Option<ClaimStatus>,
    adjusterId: Option<int>,
    adjusterNotes: Option<string>)

  /** `update_claim` on a found claim: every sent field is written, no guard. */
  function PatchClaim(c: Claim, p: ClaimPatch): (r: Claim)
    ensures r.id == c.id && r.claimNumber == c.claimNumber && r.contractId == c.contractId
    ensures r.incidentDate == c.incidentDate && r.reportedDate == c.reportedDate && r.createdAt == c.createdAt
    ensures r.description == p.description.GetOr(c.description)
    ensures r.status == p.status.GetOr(c.status)
    ensures r.claimedAmount == (if p.claimedAmount.Some? then p.claimedAmount else c.claimedAmount)
    ensures r.approvedAmount == (if p.approvedAmount.Some? then p.approvedAmount else c.approvedAmount)
    ensures r.adjusterId == (if p.adjusterId.Some? then p.adjusterId else c.adjusterId)
    ensures r.adjusterNotes == (if p.adjusterNotes.Some? then p.adjusterNotes else c.adjusterNotes)
  {
    c.(description := p.description.GetOr(c.description),
       claimedAmount := if p.claimedAmount.Some? then p.claimedAmount else c.claimedAmount,
       approvedAmount := if p.approvedAmount.Some? then p.approvedAmount else c.approvedAmount,
       status := p.status.GetOr(c.status),
       adjusterId := if p.adjusterId.Some? then p.adjusterId else c.adjusterId,
       adjusterNotes := if p.adjusterNotes.Some? then p.adjusterNotes else c.adjusterNotes)
  }

  /** An empty patch changes nothing. */
  lemma PatchClaimEmpty(c: Claim)
    ensures PatchClaim(c, ClaimPatch(None, None, None, None, None, None)) == c
  {
  }

  // ---------------------------------------------------------------------------
  // The lifecycle as a transition relation

  /** The status moves the guarded lifecycle methods can make. */
  predicate LifecycleMove(from: ClaimStatus, to: ClaimStatus) {
    || (Pending(from) && to == UnderReview)      // assign_adjuster
    || (from == UnderReview && to == Approved)   // approve_claim
    || (from == UnderReview && to == Rejected)   // reject_claim
    || (from == Approved && to == Paid)          // mark_as_paid
    || Pending(from)                             // process_claim writes any status
  }

  /** Rejected and paid claims are terminal under the lifecycle methods: every
      one of them refuses such a claim and leaves it unchanged. */
  lemma TerminalClaims(c: Claim, adjusterId: int, notes: string, amount: Option<int>, status: ClaimStatus,
                       coverage: Option<int>, approved: int, approvalNotes: Option<string>,
                       reason: string, rejectionNotes: Option<string>)
    requires c.status == Rejected || c.status == Paid
    ensures AssignStep(c, adjusterId).Refused?
    ensures ProcessStep(c, notes, amount, status).Refused?
    ensures ApproveStep(c, coverage, approved, approvalNotes).Refused?
    ensures RejectStep(c, reason, rejectionNotes).Refused?
    ensures MarkPaidStep(c).Refused?
    ensures forall to :: !LifecycleMove(c.status, to)
  {
  }

  /** Every successful lifecycle step moves the status along the relation. */
  lemma StepsFollowLifecycle(c: Claim, adjusterId: int, notes: string, amount: Option<int>, status: ClaimStatus,
                             coverage: Option<int>, approved: int, approvalNotes: Option<string>,
                             reason: string, rejectionNotes: Option<string>)
    ensures AssignStep(c, adjusterId).Done? ==> LifecycleMove(c.status, AssignStep(c, adjusterId).value.status)
    ensures ProcessStep(c, notes, amount, status).Done? ==> LifecycleMove(c.status, status)
    ensures ApproveStep(c, coverage, approved, approvalNotes).Done? ==> LifecycleMove(c.status, Approved)
    ensures RejectStep(c, reason, rejectionNotes).Done? ==> LifecycleMove(c.status, Rejected)
    ensures MarkPaidStep(c).Done? ==> LifecycleMove(c.status, Paid)
  {
  }

  /** `update_claim` bypasses the lifecycle: it moves any claim, a paid one
      included, to any status. */
  lemma UpdateBypassesLifecycle(c: Claim, to: ClaimStatus)
    ensures PatchClaim(c, ClaimPatch(None, None, None, Some(to), None, None)).status == to
    ensures c.status == Paid && to == Submitted ==> !LifecycleMove(c.status, to)
  {
  }

  // ---------------------------------------------------------------------------
  // The lifecycle methods on the claims table

  /** The coverage `claim.contract.coverage_amount` a claim of contract
      `contractId` is capped by, if that contract row exists. */
  function CoverageFor(contracts: seq<Contract>, contractId: int): (r: Option<int>)
    ensures r.Some? <==> contractId in Keys(contracts, ContractId)
    ensures r.Some? ==> exists k :: 0 <= k < |contracts| && contracts[k].id == contractId && contracts[k].coverageAmount == r.value
  {
    match ContractIndex(contracts, contractId)
    case None => None
    case Some(k) => Some(contracts[k].coverageAmount)
  }

  /** The columns the constraints of the claims table are about. */
  predicate SameKeys(a: Claim, b: Claim) {
    a.id == b.id && a.claimNumber == b.claimNumber && a.contractId == b.contractId
  }

  /** Writing back a claim row with its key columns unchanged keeps every
      constraint of the database. */
  lemma ReplaceClaimKeepsValid(db: Db, i: nat, c: Claim)
    requires db.Valid() && i < |db.claims| && SameKeys(db.claims[i], c)
    ensures var claims := db.claims[i := c];
      && DistinctKeys(claims, ClaimId) && KeysBelow(claims, ClaimId, db.nextClaimId)
      && DistinctClaimNumbers(claims)
      && ReferencesHold(db.clients, db.products, db.contracts, claims)
  {
    var claims := db.claims[i := c];
    assert forall k :: 0 <= k < |claims| ==> SameKeys(claims[k], db.claims[k]);
  }

  /** Appending a row with the next id, a fresh number and an existing
      contract keeps every constraint of the database. */
  lemma AppendClaimKeepsValid(db: Db, c: Claim)
    requires db.Valid() && c.id == db.nextClaimId
    requires c.claimNumber !in ClaimNumbers(db.claims) && c.contractId in Keys(db.contracts, ContractId)
    ensures var claims := db.claims + [c];
      && DistinctKeys(claims, ClaimId) && KeysBelow(claims, ClaimId, db.nextClaimId + 1)
      && DistinctClaimNumbers(claims)
      && ReferencesHold(db.clients, db.products, db.contracts, claims)
  {
    var before := db.claims;
    AppendClaimRow(before, db.nextClaimId, c);
    var claims := before + [c];
    assert forall k :: 0 <= k < |before| ==> claims[k] == before[k];
  }

  /** A row with the next id and a fresh number keeps the claims table's
      own constraints. */
  lemma AppendClaimRow(claims: seq<Claim>, next: int, c: Claim)
    requires DistinctKeys(claims, ClaimId) && KeysBelow(claims, ClaimId, next) && DistinctClaimNumbers(claims)
    requires 1 <= next && c.id == next && c.claimNumber !in ClaimNumbers(claims)
    ensures var after := claims + [c];
      && DistinctKeys(after, ClaimId) && KeysBelow(after, ClaimId, next + 1)
      && DistinctClaimNumbers(after)
  {
    var after := claims + [c];
    assert forall k :: 0 <= k < |claims| ==> after[k] == claims[k];
    assert forall k :: 0 <= k < |claims| ==> claims[k].claimNumber in ClaimNumbers(claims);
  }

  /** Write back the result of a guarded step whose changed row keeps its
      key columns. */
  method WriteBack(db: Db, at: Option<nat>, out: Outcome<Claim>)
    requires db.Valid()
    requires at.Some? ==> at.value < |db.claims|
    requires out.Done? ==> at.Some? && SameKeys(db.claims[at.value], out.value)
    modifies db
    ensures db.Valid() && OnlyClaimsChanged(db)
    ensures db.claims == (if out.Done? then old(db.claims)[at.value := out.value] else old(db.claims))
  {
    if out.Done? {
      ReplaceClaimKeepsValid(db, at.value, out.value);
      db.claims := db.claims[at.value := out.value];
    }
  }

  /** Only the claims table changed. */
  twostate predicate OnlyClaimsChanged(db: Db)
    reads db
  {
    && db.clients == old(db.clients) && db.products == old(db.products) && db.contracts == old(db.contracts)
    && db.nextClientId == old(db.nextClientId) && db.nextProductId == old(db.nextProductId)
    && db.nextContractId == old(db.nextContractId) && db.nextClaimId == old(db.nextClaimId)
  }

  method AssignAdjuster(db: Db, claimId: int, adjusterId: int) returns (r: Outcome<Claim>)
    requires db.Valid()
    modifies db
    ensures db.Valid() && OnlyClaimsChanged(db)
    ensures (db.claims, r) == UpdateRow(old(db.claims), ClaimIndex(old(db.claims), claimId), c => AssignStep(c, adjusterId))
  {
    var at := ClaimIndex(db.claims, claimId);
    r := if at.None? then NotFound else AssignStep(db.claims[at.value], adjusterId);
    WriteBack(db, at, r);
  }

  method ProcessClaim(db: Db, claimId: int, notes: string, amount: Option<int>, status: ClaimStatus) returns (r: Outcome<Claim>)
    requires db.Valid()
    modifies db
    ensures db.Valid() && OnlyClaimsChanged(db)
    ensures (db.claims, r) == UpdateRow(old(db.claims), ClaimIndex(old(db.claims), claimId), c => ProcessStep(c, notes, amount, status))
  {
    var at := ClaimIndex(db.claims, claimId);
    r := if at.None? then NotFound else ProcessStep(db.claims[at.value], notes, amount, status);
    WriteBack(db, at, r);
  }

  method ApproveClaim(db: Db, claimId: int, amount: int, notes: Option<string>) returns (r: Outcome<Claim>)
    requires db.Valid()
    modifies db
    ensures db.Valid() && OnlyClaimsChanged(db)
    ensures var contracts := old(db.contracts);
      (db.claims, r) == UpdateRow(old(db.claims), ClaimIndex(old(db.claims), claimId),
                                  (c: Claim) => ApproveStep(c, CoverageFor(contracts, c.contractId), amount, notes))
  {
    var at := ClaimIndex(db.claims, claimId);
    if at.None? {
      r := NotFound;
    } else {
      var c := db.claims[at.value];
      r := ApproveStep(c, CoverageFor(db.contracts, c.contractId), amount, notes);
    }
    WriteBack(db, at, r);
  }

  method RejectClaim(db: Db, claimId: int, reason: string, notes: Option<string>) returns (r: Outcome<Claim>)
    requires db.Valid()
    modifies db
    ensures db.Valid() && OnlyClaimsChanged(db)
    ensures (db.claims, r) == UpdateRow(old(db.claims), ClaimIndex(old(db.claims), claimId), c => RejectStep(c, reason, notes))
  {
    var at := ClaimIndex(db.claims, claimId);
    r := if at.None? then NotFound else RejectStep(db.claims[at.value], reason, notes);
    WriteBack(db, at, r);
  }

  method MarkAsPaid(db: Db, claimId: int) returns (r: Outcome<Claim>)
    requires db.Valid()
    modifies db
    ensures db.Valid() && OnlyClaimsChanged(db)
    ensures (db.claims, r) == UpdateRow(old(db.claims), ClaimIndex(old(db.claims), claimId), MarkPaidStep)
  {
    var at := ClaimIndex(db.claims, claimId);
    r := if at.None? then NotFound else MarkPaidStep(db.claims[at.value]);
    WriteBack(db, at, r);
  }

  /** `update_claim`: the `setattr` loop over the sent fields. */
  method UpdateClaim(db: Db, claimId: int, patch: ClaimPatch) returns (r: Outcome<Claim>)
    requires db.Valid()
    modifies db
    ensures db.Valid() && OnlyClaimsChanged(db)
    ensures (db.claims, r) == UpdateRow(old(db.claims), ClaimIndex(old(db.claims), claimId), c => Done(PatchClaim(c, patch)))
  {
    var at := ClaimIndex(db.claims, claimId);
    if at.None? {
      r := NotFound;
    } else {
      var c := db.claims[at.value];
      var k := 0;
      while k < 6  // the six fields of ClaimUpdate, in declaration order
        invariant 0 <= k <= 6
        invariant c == PatchClaim(db.claims[at.value], PatchUpTo(patch, k))
      {
        c := PatchClaim(c, FieldOf(patch, k));
        k := k + 1;
      }
      r := Done(c);
    }
    WriteBack(db, at, r);
  }

  /** The part of a patch that `update_claim`'s loop has applied after its
      first `k` fields. */
  function PatchUpTo(p: ClaimPatch, k: nat): ClaimPatch {
    ClaimPatch(if k > 0 then p.description else None,
               if k > 1 then p.claimedAmount else None,
               if k > 2 then p.approvedAmount else None,
               if k > 3 then p.status else None,
               if k > 4 then p.adjusterId else None,
               if k > 5 then p.adjusterNotes else None)
  }

  /** The `k`-th field of a patch alone. */
  function FieldOf(p: ClaimPatch, k: nat): ClaimPatch {
    ClaimPatch(if k == 0 then p.description else None,
               if k == 1 then p.claimedAmount else None,
               if k == 2 then p.approvedAmount else None,
               if k == 3 then p.status else None,
               if k == 4 then p.adjusterId else None,
               if k == 5 then p.adjusterNotes else None)
  }

  // ---------------------------------------------------------------------------
  // Claim numbers and creation

  /** `f"CLM-{year}-{random_part}"`. */
  function ClaimNumberOf(year: nat, digits: string): string {
    "CLM-" + DecimalText(year) + "-" + digits
  }

  function ClaimNumbers(claims: seq<Claim>): set<string> {
    set k | 0 <= k < |claims| :: claims[k].claimNumber
  }

  /** `generate_claim_number`: the first draw whose number no claim holds.
      `draws` are the successive seven-digit strings `secrets.choice` yields. */
  method GenerateClaimNumber(claims: seq<Claim>, year: nat, draws: seq<string>) returns (r: Option<string>)
    requires forall k :: 0 <= k < |draws| ==> DrawnFrom(draws[k], 7, Digits)
    ensures r.Some? ==> forall k :: 0 <= k < |claims| ==> claims[k].claimNumber != r.value
    ensures r.Some? ==> exists k :: 0 <= k < |draws| && r.value == ClaimNumberOf(year, draws[k])
                           && forall j :: 0 <= j < k ==> ClaimNumberOf(year, draws[j]) in ClaimNumbers(claims)
    ensures r.None? ==> forall k :: 0 <= k < |draws| ==> ClaimNumberOf(year, draws[k]) in ClaimNumbers(claims)
  {
    var candidates := seq(|draws|, k requires 0 <= k < |draws| => ClaimNumberOf(year, draws[k]));
    var at := FirstFresh(candidates, ClaimNumbers(claims));
    assert forall j :: 0 <= j < |draws| ==> candidates[j] == ClaimNumberOf(year, draws[j]);
    if at.None? {
      return None;
    }
    r := Some(candidates[at.value]);
    forall k | 0 <= k < |claims| ensures claims[k].claimNumber != r.value {
      assert claims[k].claimNumber in ClaimNumbers(claims);
    }
  }

  /** `ClaimCreate` as it reaches the service; omitted fields with a default
      are None. `claim_number` is replaced by a generated one. */
  datatype NewClaim = NewClaim(
    contractId: int,
    incidentDate: int,
    reportedDate: Option<int>,
    description: string,
    claimedAmount: Option<int>,
    approvedAmount: Option<int>,
    status: Option<ClaimStatus>,
    adjusterId: Option<int>,
    adjusterNotes: Option<string>)

  /** The row `create_claim` inserts: reported today unless a date was given,
      status submitted unless one was given. */
  function ClaimRow(id: int, number: string, d: NewClaim, today: int, now: int): (r: Claim)
    ensures r.id == id && r.claimNumber == number && r.contractId == d.contractId
    ensures r.reportedDate == d.reportedDate.GetOr(today) && r.status == d.status.GetOr(Submitted)
    ensures d.status.None? ==> r.status == Submitted
  {
    Claim(id, number, d.contractId, d.incidentDate, d.reportedDate.GetOr(today), d.description,
          d.claimedAmount, d.approvedAmount, d.status.GetOr(Submitted), d.adjusterId, d.adjusterNotes, now)
  }

  /** `create_claim`. The new id is drawn from the table's sequence, which
      advances even when the insert is refused. */
  method CreateClaim(db: Db, d: NewClaim, year: nat, draws: seq<string>, today: int, now: int) returns (r: Outcome<Claim>)
    requires db.Valid()
    requires forall k :: 0 <= k < |draws| ==> DrawnFrom(draws[k], 7, Digits)
    modifies db
    ensures db.Valid()
    ensures r.Done? || r.IntegrityError? || r.Diverges?
    ensures db.clients == old(db.clients) && db.products == old(db.products) && db.contracts == old(db.contracts)
    ensures r.Diverges? ==> db.claims == old(db.claims) && db.nextClaimId == old(db.nextClaimId)
    ensures r.IntegrityError? ==> d.contractId !in Keys(old(db.contracts), ContractId) && db.claims == old(db.claims)
    ensures r.Done? ==> && d.contractId in Keys(old(db.contracts), ContractId)
                        && r.value.claimNumber !in ClaimNumbers(old(db.claims))
                        && r.value == ClaimRow(old(db.nextClaimId), r.value.claimNumber, d, today, now)
                        && db.claims == old(db.claims) + [r.value]
    ensures !r.Diverges? ==> db.nextClaimId == old(db.nextClaimId) + 1
  {
    var number := GenerateClaimNumber(db.claims, year, draws);
    if number.None? {
      return Diverges;
    }
    var id := db.nextClaimId;
    if ContractIndex(db.contracts, d.contractId).None? {
      db.nextClaimId := id + 1;
      return IntegrityError("claims_contract_id_fkey");
    }
    var row := ClaimRow(id, number.value, d, today, now);
    assert row.claimNumber !in ClaimNumbers(db.claims);
    AppendClaimKeepsValid(db, row);
    db.claims, db.nextClaimId := db.claims + [row], id + 1;
    r := Done(row);
  }

  // ---------------------------------------------------------------------------
  // Queries

  /** The filters of `get_claims`; a falsy id (None or 0) and an empty search
      term do not filter. */
  predicate ClaimListed(c: Claim, contractId: Option<int>, adjusterId: Option<int>, status: Option<ClaimStatus>, search: Option<string>) {
    && (Truthy(contractId) ==> c.contractId == contractId.value)
    && (Truthy(adjusterId) ==> c.adjusterId == adjusterId)
    && (status.Some? ==> c.status == status.value)
    && (TextTruthy(search) ==> ContainsIgnoreCase(c.claimNumber, search.value) || ContainsIgnoreCase(c.description, search.value))
  }

  /** `get_claims`: one page of the matching claims and the number of matches. */
  function GetClaims(claims: seq<Claim>, skip: nat, limit: nat, contractId: Option<int>, adjusterId: Option<int>,
                     status: Option<ClaimStatus>, search: Option<string>): (r: (seq<Claim>, nat))
    ensures r.1 == Count(claims, c => ClaimListed(c, contractId, adjusterId, status, search))
    ensures r.0 == Page(Filter(claims, c => ClaimListed(c, contractId, adjusterId, status, search)), skip, limit)
    ensures |r.0| <= limit && |r.0| <= r.1
    ensures forall k :: 0 <= k < |r.0| ==> r.0[k] in claims && ClaimListed(r.0[k], contractId, adjusterId, status, search)
  {
    var matching := Filter(claims, c => ClaimListed(c, contractId, adjusterId, status, search));
    (Page(matching, skip, limit), |matching|)
  }

  /** `get_pending_claims`: the submitted or under-review claims, of one
      adjuster when a truthy adjuster id is given. */
  function PendingClaims(claims: seq<Claim>, adjusterId: Option<int>): (r: seq<Claim>)
    ensures forall k :: 0 <= k < |r| ==> r[k] in claims && Pending(r[k].status)
    ensures forall k :: 0 <= k < |r| && Truthy(adjusterId) ==> r[k].adjusterId == adjusterId
    ensures forall k :: 0 <= k < |claims| && Pending(claims[k].status) && (Truthy(adjusterId) ==> claims[k].adjusterId == adjusterId)
              ==> claims[k] in r
  {
    Filter(claims, (c: Claim) => Pending(c.status) && (Truthy(adjusterId) ==> c.adjusterId == adjusterId))
  }

  datatype ClaimStatistics = ClaimStatistics(
    totalClaims: nat,
    submittedClaims: nat,
    underReviewClaims: nat,
    approvedClaims: nat,
    rejectedClaims: nat,
    paidClaims: nat,
    totalClaimedAmount: int,
    totalApprovedAmount: int,
    averageClaimAmount: real,
    approvalRate: real,
    paymentRate: real)

  /** The claims `get_claim_statistics` looks at. */
  function StatisticsScope(claims: seq<Claim>, adjusterId: Option<int>, contractId: Option<int>): seq<Claim> {
    Filter(claims, (c: Claim) => (Truthy(adjusterId) ==> c.adjusterId == adjusterId) && (Truthy(contractId) ==> c.contractId == contractId.value))
  }

  function ClaimedOrZero(c: Claim): int { AmountOrZero(c.claimedAmount) }

  function ApprovedOrZero(c: Claim): int { AmountOrZero(c.approvedAmount) }

  /** `get_claim_statistics`. */
  function ClaimStatisticsOf(claims: seq<Claim>, adjusterId: Option<int>, contractId: Option<int>): (r: ClaimStatistics)
    ensures var scope := StatisticsScope(claims, adjusterId, contractId);
      && r.totalClaims == |scope|
      && r.totalClaimedAmount == Sum(scope, ClaimedOrZero)
      && r.totalApprovedAmount == Sum(scope, ApprovedOrZero)
      && r.submittedClaims == ClaimsWithStatus(scope, Submitted)
      && r.underReviewClaims == ClaimsWithStatus(scope, UnderReview)
      && r.approvedClaims == ClaimsWithStatus(scope, Approved)
      && r.rejectedClaims == ClaimsWithStatus(scope, Rejected)
      && r.paidClaims == ClaimsWithStatus(scope, Paid)
      && r.averageClaimAmount == Ratio(r.totalClaimedAmount, r.totalClaims)
    ensures r.approvalRate == Ratio(r.approvedClaims, r.totalClaims)
    ensures r.paymentRate == Ratio(r.paidClaims, r.approvedClaims)
    ensures r.submittedClaims + r.underReviewClaims + r.approvedClaims + r.rejectedClaims + r.paidClaims == r.totalClaims
    ensures r.totalClaims == 0 ==> r.averageClaimAmount == 0.0 && r.approvalRate == 0.0
    ensures r.approvedClaims == 0 ==> r.paymentRate == 0.0
    ensures 0.0 <= r.approvalRate <= 1.0
  {
    var scope := StatisticsScope(claims, adjusterId, contractId);
    var total := |scope|;
    var approved := ClaimsWithStatus(scope, Approved);
    var approvedTotal := Sum(Filter(scope, (c: Claim) => AmountTruthy(c.approvedAmount)), ApprovedOrZero);
    ClaimStatusCountsSum(scope);
    SumSkippingFalsy(scope);
    RatioAtMostOne(approved, total);
    ClaimStatistics(
      total,
      ClaimsWithStatus(scope, Submitted),
      ClaimsWithStatus(scope, UnderReview),
      approved,
      ClaimsWithStatus(scope, Rejected),
      ClaimsWithStatus(scope, Paid),
      Sum(scope, ClaimedOrZero),
      approvedTotal,
      Ratio(Sum(scope, ClaimedOrZero), total),
      Ratio(approved, total),
      Ratio(ClaimsWithStatus(scope, Paid), approved))
  }

  /** Leaving out the claims whose approved amount is falsy does not change
      the sum of approved amounts (`sum(c.approved_amount or 0 for c in claims
      if c.approved_amount)`). */
  lemma {:induction false} SumSkippingFalsy(s: seq<Claim>)
    ensures Sum(Filter(s, (c: Claim) => AmountTruthy(c.approvedAmount)), ApprovedOrZero) == Sum(s, ApprovedOrZero)
  {
    if |s| > 0 {
      var s' := s[..|s| - 1];
      var last := s[|s| - 1];
      SumSkippingFalsy(s');
      SumConcat(Filter(s', (c: Claim) => AmountTruthy(c.approvedAmount)),
                if AmountTruthy(last.approvedAmount) then [last] else [], ApprovedOrZero);
    }
  }

  lemma RatioAtMostOne(n: nat, d: nat)
    requires n <= d
    ensures 0.0 <= Ratio(n, d) <= 1.0
  {
    if d > 0 {
      assert (n as real) / (d as real) <= (d as real) / (d as real);
    }
  }

  // ---------------------------------------------------------------------------
  // Eligibility

  datatype Eligibility = Eligibility(eligible: bool, reason: string)

  /** `validate_claim_eligibility`: the checks run in order and the first one
      that fails gives the reason. */
  function ValidateClaimEligibility(contracts: seq<Contract>, contractId: int, incidentDate: int, today: int): (r: Eligibility)
    ensures ContractIndex(contracts, contractId).None? ==> r == Eligibility(false, "Contract not found")
    ensures ContractIndex(contracts, contractId).Some? ==>
      var c := contracts[ContractIndex(contracts, contractId).value];
      && (r.eligible <==> c.status == Active && c.startDate <= incidentDate <= c.endDate && incidentDate <= today)
      && (c.status != Active ==> r.reason == "Contract is not active")
      && (c.status == Active && incidentDate < c.startDate ==> r.reason == "Incident occurred before contract start date")
      && (c.status == Active && c.startDate <= incidentDate && incidentDate > c.endDate ==>
            r.reason == "Incident occurred after contract end date")
      && (c.status == Active && c.startDate <= incidentDate <= c.endDate && incidentDate > today ==>
            r.reason == "Incident date cannot be in the future")
    ensures r.eligible ==> r.reason == "Claim is eligible for processing"
  {
    match ContractIndex(contracts, contractId)
    case None => Eligibility(false, "Contract not found")
    case Some(k) =>
      var c := contracts[k];
      if c.status != Active then Eligibility(false, "Contract is not active")
      else if incidentDate < c.startDate then Eligibility(false, "Incident occurred before contract start date")
      else if incidentDate > c.endDate then Eligibility(false, "Incident occurred after contract end date")
      else if incidentDate > today then Eligibility(false, "Incident date cannot be in the future")
      else Eligibility(true, "Claim is eligible for processing")
  }
}
