/** The request models of web/backend/app/modules/, with their field
    validators, and the client body of web/backend/app/schemas/client.py.
    Pydantic runs every field's validators and reports all the failures
    together, each tagged with its field, so a model either comes
    back validated (with the values the validators return) or is rejected
    with the set of failures. Fields are already of their declared types
    here; the type coercion itself is not part of this model. */
module Validators {
  import opened Common
  import opened Models

  datatype FieldError = FieldError(field: string, message: string)

  datatype Checked<T> = Invalid(errors: set<FieldError>) | Validated(value: T)

  /** The failure of one check when its condition holds. */
  function FailIf(cond: bool, field: string, message: string): set<FieldError> {
    if cond then {FieldError(field, message)} else {}
  }

  function Conclude<T>(errors: set<FieldError>, value: T): (r: Checked<T>)
    ensures r.Validated? <==> errors == {}
    ensures r.Validated? ==> r.value == value
    ensures r.Invalid? ==> r.errors == errors
  {
    if errors == {} then Validated(value) else Invalid(errors)
  }

  // ---------------------------------------------------------------------------
  // Claims (modules/claim.py)

  /** The fields of `ClaimCreate`; `status` is None when not sent. */
  datatype ClaimCreateInput = ClaimCreateInput(
    claimNumber: string,
    contractId: int,
    incidentDate: int,
    reportedDate: Option<int>,
    description: string,
    claimedAmount: Option<int>,
    approvedAmount: Option<int>,
    status: Option<ClaimStatus>,
    adjusterId: Option<int>,
    adjusterNotes: Option<string>)

  datatype ClaimCreateData = ClaimCreateData(
    claimNumber: string,
    contractId: int,
    incidentDate: int,
    reportedDate: Option<int>,
    description: string,
    claimedAmount: Option<int>,
    approvedAmount: Option<int>,
    status: ClaimStatus,
    adjusterId: Option<int>,
    adjusterNotes: Option<string>)

  function ClaimCreateErrors(d: ClaimCreateInput, today: int): set<FieldError> {
    FailIf(d.incidentDate > today, "incident_date", "Incident date cannot be in the future")
    + FailIf(IsBlank(d.description), "description", "Description cannot be empty")
    + FailIf(d.claimedAmount.Some? && d.claimedAmount.value <= 0, "claimed_amount", "Claimed amount must be positive")
  }

  /** `ClaimCreate`: a description that is not blank once stripped (and is
      stored stripped), a claimed amount that is absent or positive, an
      incident date not after today; the status defaults to submitted. */
  function ValidateClaimCreate(d: ClaimCreateInput, today: int): (r: Checked<ClaimCreateData>)
    ensures r.Validated? <==>
      && !IsBlank(d.description)
      && (d.claimedAmount.None? || d.claimedAmount.value > 0)
      && d.incidentDate <= today
    ensures r.Validated? ==>
      && r.value.description == Strip(d.description) && |r.value.description| > 0
      && r.value.status == d.status.GetOr(Submitted)
      && r.value.incidentDate == d.incidentDate && r.value.claimedAmount == d.claimedAmount
      && r.value.contractId == d.contractId && r.value.claimNumber == d.claimNumber
    ensures r.Invalid? ==> (FieldError("description", "Description cannot be empty") in r.errors <==> IsBlank(d.description))
    ensures r.Invalid? ==> (FieldError("incident_date", "Incident date cannot be in the future") in r.errors <==> d.incidentDate > today)
  {
    Conclude(ClaimCreateErrors(d, today),
      ClaimCreateData(d.claimNumber, d.contractId, d.incidentDate, d.reportedDate, Strip(d.description),
                      d.claimedAmount, d.approvedAmount, d.status.GetOr(Submitted), d.adjusterId, d.adjusterNotes))
  }

  /** Stripping is idempotent, so a validated description validates again
      unchanged. */
  lemma ClaimDescriptionStable(d: ClaimCreateInput, today: int)
    requires ValidateClaimCreate(d, today).Validated?
    ensures var v := ValidateClaimCreate(d, today).value;
      ValidateClaimCreate(d.(description := v.description), today) == ValidateClaimCreate(d, today)
  {
    StripIdempotent(d.description);
    var s := Strip(d.description);
    assert !IsBlank(s) by {
      assert s != [];
    }
    var d2 := d.(description := s);
    assert ClaimCreateErrors(d2, today) == {} == ClaimCreateErrors(d, today);
    assert Strip(d2.description) == Strip(d.description);
  }

  datatype ClaimProcessingData = ClaimProcessingData(adjusterNotes: string, approvedAmount: Option<int>, status: ClaimStatus)

  /** `ClaimProcessingData`: the approved amount may be absent or zero but
      not negative. */
  function ValidateProcessing(d: ClaimProcessingData): (r: Checked<ClaimProcessingData>)
    ensures r.Validated? <==> d.approvedAmount.None? || d.approvedAmount.value >= 0
    ensures r.Validated? ==> r.value == d
    ensures r.Invalid? ==> r.errors == {FieldError("approved_amount", "Approved amount cannot be negative")}
  {
    Conclude(FailIf(d.approvedAmount.Some? && d.approvedAmount.value < 0, "approved_amount",
                    "Approved amount cannot be negative"), d)
  }

  datatype ClaimApproval = ClaimApproval(approvedAmount: int, approvalNotes: Option<string>)

  /** `ClaimApproval`: the approved amount must be positive. */
  function ValidateApproval(d: ClaimApproval): (r: Checked<ClaimApproval>)
    ensures r.Validated? <==> d.approvedAmount > 0
    ensures r.Validated? ==> r.value == d
    ensures r.Invalid? ==> r.errors == {FieldError("approved_amount", "Approved amount must be positive")}
  {
    Conclude(FailIf(d.approvedAmount <= 0, "approved_amount", "Approved amount must be positive"), d)
  }

  /** Approval is the stricter check: every amount an approval accepts is
      accepted for processing, and zero is accepted only for processing. */
  lemma ApprovalStricterThanProcessing(amount: int, notes: string, status: ClaimStatus)
    ensures ValidateApproval(ClaimApproval(amount, None)).Validated? ==>
      ValidateProcessing(ClaimProcessingData(notes, Some(amount), status)).Validated?
    ensures ValidateProcessing(ClaimProcessingData(notes, Some(0), status)).Validated?
    ensures ValidateApproval(ClaimApproval(0, None)).Invalid?
  {
  }

  datatype ClaimRejection = ClaimRejection(rejectionReason: string, rejectionNotes: Option<string>)

  /** `ClaimRejection`: a reason that is not blank, stored stripped. */
  function ValidateRejection(d: ClaimRejection): (r: Checked<ClaimRejection>)
    ensures r.Validated? <==> !IsBlank(d.rejectionReason)
    ensures r.Validated? ==> r.value == d.(rejectionReason := Strip(d.rejectionReason)) && |r.value.rejectionReason| > 0
    ensures r.Invalid? ==> r.errors == {FieldError("rejection_reason", "Rejection reason cannot be empty")}
  {
    Conclude(FailIf(IsBlank(d.rejectionReason), "rejection_reason", "Rejection reason cannot be empty"),
             d.(rejectionReason := Strip(d.rejectionReason)))
  }

  // ---------------------------------------------------------------------------
  // Contracts (modules/contract.py)

  datatype ContractCreateInput = ContractCreateInput(
    contractNumber: string,
    clientId: int,
    productId: int,
    agentId: int,
    premiumAmount: int,
    coverageAmount: int,
    startDate: int,
    endDate: int,
    status: Option<ContractStatus>,
    termsConditions: Option<string>)

  datatype ContractCreateData = ContractCreateData(
    contractNumber: string,
    clientId: int,
    productId: int,
    agentId: int,
    premiumAmount: int,
    coverageAmount: int,
    startDate: int,
    endDate: int,
    status: ContractStatus,
    termsConditions: Option<string>)

  function ContractCreateErrors(d: ContractCreateInput): set<FieldError> {
    FailIf(d.premiumAmount <= 0, "premium_amount", "Amount must be positive")
    + FailIf(d.coverageAmount <= 0, "coverage_amount", "Amount must be positive")
    + FailIf(d.endDate <= d.startDate, "end_date", "End date must be after start date")
  }

  /** `ContractCreate`: both amounts positive and the end strictly after the
      start; the status defaults to draft. */
  function ValidateContractCreate(d: ContractCreateInput): (r: Checked<ContractCreateData>)
    ensures r.Validated? <==> d.premiumAmount > 0 && d.coverageAmount > 0 && d.endDate > d.startDate
    ensures r.Validated? ==>
      && r.value.status == d.status.GetOr(Draft)
      && r.value.premiumAmount == d.premiumAmount && r.value.coverageAmount == d.coverageAmount
      && r.value.startDate == d.startDate && r.value.endDate == d.endDate
    ensures r.Invalid? ==> (FieldError("end_date", "End date must be after start date") in r.errors <==> d.endDate <= d.startDate)
    ensures r.Invalid? ==> (FieldError("premium_amount", "Amount must be positive") in r.errors <==> d.premiumAmount <= 0)
    ensures r.Invalid? ==> (FieldError("coverage_amount", "Amount must be positive") in r.errors <==> d.coverageAmount <= 0)
  {
    Conclude(ContractCreateErrors(d),
      ContractCreateData(d.contractNumber, d.clientId, d.productId, d.agentId, d.premiumAmount, d.coverageAmount,
                         d.startDate, d.endDate, d.status.GetOr(Draft), d.termsConditions))
  }

  /** `PremiumCalculationParams`: the risk factors and discounts default to
      empty dictionaries. */
  datatype PremiumCalculationParams = PremiumCalculationParams(
    basePremium: real, coverageAmount: real, riskFactors: map<string, real>, discounts: map<string, real>)

  function PremiumParams(basePremium: real, coverageAmount: real,
                         riskFactors: Option<map<string, real>>, discounts: Option<map<string, real>>): (r: PremiumCalculationParams)
    ensures riskFactors.None? ==> r.riskFactors == map[]
    ensures discounts.None? ==> r.discounts == map[]
    ensures riskFactors.Some? ==> r.riskFactors == riskFactors.value
    ensures discounts.Some? ==> r.discounts == discounts.value
  {
    PremiumCalculationParams(basePremium, coverageAmount, riskFactors.GetOr(map[]), discounts.GetOr(map[]))
  }

  // ---------------------------------------------------------------------------
  // Products (modules/product.py)

  datatype ProductCreateInput = ProductCreateInput(
    name: string, description: Option<string>, basePremium: int, coverageAmount: Option<int>, isActive: Option<bool>)

  datatype ProductCreateData = ProductCreateData(
    name: string, description: Option<string>, basePremium: int, coverageAmount: Option<int>, isActive: bool)

  function ProductCreateErrors(d: ProductCreateInput): set<FieldError> {
    FailIf(IsBlank(d.name), "name", "Product name cannot be empty")
    + FailIf(d.basePremium <= 0, "base_premium", "Base premium must be positive")
    + FailIf(d.coverageAmount.Some? && d.coverageAmount.value <= 0, "coverage_amount", "Coverage amount must be positive")
  }

  /** `ProductCreate`: a name that is not blank (stored stripped), a positive
      base premium, a coverage that is absent or positive; active unless
      the request says otherwise. */
  function ValidateProductCreate(d: ProductCreateInput): (r: Checked<ProductCreateData>)
    ensures r.Validated? <==> !IsBlank(d.name) && d.basePremium > 0 && (d.coverageAmount.None? || d.coverageAmount.value > 0)
    ensures r.Validated? ==>
      && r.value.name == Strip(d.name) && |r.value.name| > 0
      && r.value.basePremium == d.basePremium && r.value.coverageAmount == d.coverageAmount
      && r.value.description == d.description && r.value.isActive == d.isActive.GetOr(true)
    ensures r.Invalid? ==> (FieldError("name", "Product name cannot be empty") in r.errors <==> IsBlank(d.name))
    ensures r.Invalid? ==> (FieldError("base_premium", "Base premium must be positive") in r.errors <==> d.basePremium <= 0)
  {
    Conclude(ProductCreateErrors(d),
      ProductCreateData(Strip(d.name), d.description, d.basePremium, d.coverageAmount, d.isActive.GetOr(true)))
  }

  // ---------------------------------------------------------------------------
  // Clients (modules/client.py)

  /** The fields of `ClientCreate` / `ClientUpdate`; the names are optional
      only in the update. */
  datatype ClientInput = ClientInput(
    firstName: Option<string>,
    lastName: Option<string>,
    email: Option<string>,
    phone: Option<string>,
    address: Option<string>,
    dateOfBirth: Option<int>,
    identificationNumber: Option<string>)

  /** `EmailStr`'s check, done by an outside library: `isEmail`. */
  function EmailErrors(email: Option<string>, isEmail: string -> bool): set<FieldError> {
    FailIf(email.Some? && !isEmail(email.value), "email", "value is not a valid email address")
  }

  function NameErrors(field: string, name: Option<string>): set<FieldError> {
    if name.None? then {FieldError(field, "Field required")}
    else FailIf(IsBlank(name.value), field, "Name cannot be empty")
  }

  function StripName(name: Option<string>): Option<string> {
    if name.Some? then Some(Strip(name.value)) else None
  }

  /** `ClientCreate`: both names are required and must not be blank; they
      are stored stripped. The email may be left out. */
  function ValidateClientCreate(d: ClientInput, isEmail: string -> bool): (r: Checked<ClientInput>)
    ensures r.Validated? <==>
      && d.firstName.Some? && !IsBlank(d.firstName.value)
      && d.lastName.Some? && !IsBlank(d.lastName.value)
      && (d.email.Some? ==> isEmail(d.email.value))
    ensures r.Validated? ==>
      && r.value.firstName == Some(Strip(d.firstName.value))
      && r.value.lastName == Some(Strip(d.lastName.value))
      && r.value == d.(firstName := r.value.firstName, lastName := r.value.lastName)
    ensures d.firstName.Some? && IsBlank(d.firstName.value) ==>
      r.Invalid? && FieldError("first_name", "Name cannot be empty") in r.errors
    ensures d.lastName.Some? && IsBlank(d.lastName.value) ==>
      r.Invalid? && FieldError("last_name", "Name cannot be empty") in r.errors
  {
    Conclude(NameErrors("first_name", d.firstName) + NameErrors("last_name", d.lastName) + EmailErrors(d.email, isEmail),
             d.(firstName := StripName(d.firstName), lastName := StripName(d.lastName)))
  }

  /** `ClientUpdate`: no name check at all, only the email type. */
  function ValidateClientUpdate(d: ClientInput, isEmail: string -> bool): (r: Checked<ClientInput>)
    ensures r.Validated? <==> d.email.Some? ==> isEmail(d.email.value)
    ensures r.Validated? ==> r.value == d
  {
    Conclude(EmailErrors(d.email, isEmail), d)
  }

  /** A blank name that the create model refuses passes the update model,
      and a client without an email passes the create model. */
  lemma UpdateSkipsNameCheck(d: ClientInput, isEmail: string -> bool)
    requires d.firstName == Some("   ") && d.email.None?
    ensures ValidateClientCreate(d, isEmail).Invalid?
    ensures ValidateClientUpdate(d, isEmail).Validated?
    ensures ValidateClientCreate(d.(firstName := Some("A"), lastName := Some("B")), isEmail).Validated?
  {
    assert IsBlank(d.firstName.value) by {
      assert forall k :: 0 <= k < 3 ==> d.firstName.value[k] == ' ';
    }
    var e := d.(firstName := Some("A"), lastName := Some("B"));
    assert !IsBlank("A") by { assert !IsPySpace("A"[0]); }
    assert !IsBlank("B") by { assert !IsPySpace("B"[0]); }
  }

  // ---------------------------------------------------------------------------
  // Clients as the client routes accept them (schemas/client.py)

  function RequiredErrors(field: string, value: Option<string>): set<FieldError> {
    FailIf(value.None?, field, "Field required")
  }

  /** The `ClientCreate` body of the client routes: both names and the email
      are required, the names may be anything (no validator, nothing
      stripped) and the email must pass `EmailStr`'s check. */
  function ValidateClientBody(d: ClientInput, isEmail: string -> bool): (r: Checked<ClientInput>)
    ensures r.Validated? <==> d.firstName.Some? && d.lastName.Some? && d.email.Some? && isEmail(d.email.value)
    ensures r.Validated? ==> r.value == d
    ensures d.email.None? ==> r.Invalid? && FieldError("email", "Field required") in r.errors
    ensures d.firstName.None? ==> r.Invalid? && FieldError("first_name", "Field required") in r.errors
    ensures d.lastName.None? ==> r.Invalid? && FieldError("last_name", "Field required") in r.errors
  {
    Conclude(RequiredErrors("first_name", d.firstName) + RequiredErrors("last_name", d.lastName)
             + RequiredErrors("email", d.email) + EmailErrors(d.email, isEmail), d)
  }

  /** The two `ClientCreate` models disagree both ways: a blank first name
      passes the routes' body and is refused by the validated model, and a
      client without an email is refused by the body and passes the model. */
  lemma ClientBodiesDisagree(d: ClientInput, isEmail: string -> bool)
    requires d.firstName == Some("   ") && d.lastName == Some("B") && d.email.Some? && isEmail(d.email.value)
    ensures ValidateClientBody(d, isEmail).Validated?
    ensures ValidateClientCreate(d, isEmail).Invalid?
    ensures ValidateClientBody(d.(firstName := Some("A"), email := None), isEmail).Invalid?
    ensures ValidateClientCreate(d.(firstName := Some("A"), email := None), isEmail).Validated?
  {
    assert IsBlank(d.firstName.value) by {
      assert forall k :: 0 <= k < 3 ==> d.firstName.value[k] == ' ';
    }
    assert !IsBlank("A") by { assert !IsPySpace("A"[0]); }
    assert !IsBlank("B") by { assert !IsPySpace("B"[0]); }
  }

  // ---------------------------------------------------------------------------
  // Analytics (modules/analytics.py)

  datatype ReportType = SalesReport | ClaimsReport | FinancialReport | PerformanceReport

  datatype TimeRange = Day | Week | Month | Quarter | Year

  datatype AnalyticsRequest = AnalyticsRequest(
    reportType: ReportType, startDate: int, endDate: int, timeRange: TimeRange, filters: map<string, string>)

  /** `AnalyticsRequest`: the end date may equal the start date but not
      precede it, and comes back unchanged; the time range defaults to a
      month and the filters to none. */
  function ValidateAnalyticsRequest(reportType: ReportType, startDate: int, endDate: int,
                                    timeRange: Option<TimeRange>, filters: Option<map<string, string>>): (r: Checked<AnalyticsRequest>)
    ensures r.Validated? <==> endDate >= startDate
    ensures r.Validated? ==>
      && r.value.endDate == endDate && r.value.startDate == startDate
      && r.value.timeRange == timeRange.GetOr(Month)
      && r.value.filters == filters.GetOr(map[])
    ensures r.Invalid? ==> r.errors == {FieldError("end_date", "End date must be after start date")}
  {
    Conclude(FailIf(endDate < startDate, "end_date", "End date must be after start date"),
             AnalyticsRequest(reportType, startDate, endDate, timeRange.GetOr(Month), filters.GetOr(map[])))
  }

  /** The two date checks differ on a one-day window: a contract may not
      start and end on the same day, an analytics window may. Both use the
      same message. */
  lemma SameDayWindows(c: ContractCreateInput, kind: ReportType)
    requires c.premiumAmount > 0 && c.coverageAmount > 0 && c.endDate == c.startDate
    ensures ValidateContractCreate(c).Invalid?
    ensures ValidateAnalyticsRequest(kind, c.startDate, c.endDate, None, None).Validated?
  {
  }
}
