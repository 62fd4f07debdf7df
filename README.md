# Insurance back office, modelled in Dafny

This project models the business rules of an insurance back office. The system has three parts:

- A FastAPI backend over a PostgreSQL database with four tables: clients, insurance products, contracts and claims.
- A separate authentication service that keeps its users in memory.
- A React registration form.

The model covers:

- **Database** (`models.dfy`, `store.dfy`): the records, the two status enumerations, and the database as one `Db` object. `Db` holds the four tables as sequences in primary-key order plus the autoincrement counters. `Db.Valid` holds the key constraints PostgreSQL enforces at commit: distinct keys, unique email, contract number and claim number, and foreign keys. Column lengths and the nullability of the response fields are not part of it.
- **Claims** (`claim_service.dfy`): the claim lifecycle. Adjuster assignment, processing, approval with its amount caps, rejection with notes that only grow, and payment. Also the setattr-loop update, number generation, creation, the filtered and paginated listing, statistics and the ordered eligibility check.
- **Contracts** (`contract_service.dfy`): the contract lifecycle (activate, suspend, cancel), the expiry sweep, field updates, number generation, creation, listings and statistics.
- **Clients** (`client_service.dfy`): the client store. Creation with an auto-filled identification number, update, delete blocked by open contracts, the case-insensitive search and the per-client statistics.
- **Calendar** (`calendar.dfy`): the proleptic Gregorian calendar of Python's `date`, as day numbers and their year, month and day.
- **Analytics** (`analytics.dfy`): the accumulating group-by loops of the analytics service, the stable descending sorts, the monthly breakdown, and the guarded ratios of the sales, claims, financial and dashboard reports.
- **Users** (`user_service.dfy`): the fixed five-entry user directory of the backend's user service.
- **Request validation** (`validators.dfy`): the pydantic request models of the backend and their field validators. Every failed field check is collected, as pydantic does.
- **Access control** (`roles.dfy`, `routers.dfy`, `products.dfy`): the role/permission table of the authentication service, the backend's role guards and the 404/400/403 order of the client, contract, claim and product routes.
- **Authentication** (`auth_store.dfy`, `auth_routes.dfy`): the authentication service's user store and its register, login, verify and refresh decisions.
- **Registration form** (`register_form.dfy`): the form's check chain and its submit handler.

Common conventions:

- Dates are day numbers and timestamps are seconds.
- Money is an integer amount, since it is only compared and summed.
- "today", "now" and the current year are parameters.
- A service operation answers with an `Outcome`:
  - `NotFound`: the source returns None.
  - `Refused(reason)`: the source raises `ValueError(reason)`.
  - `IntegrityError`: the commit violates a table constraint.
  - `Raises`: any other exception.
  - `Diverges`: the random draws given ran out where the source would keep drawing.
  - `Done(value)`: success.
- Random draws are a parameter: a sequence of candidate strings.
- Password hashing, password checking and JWT encoding are abstract. A token is represented by the claims it carries.

## Model

| member | source | states |
|---|---|---|
| Models.ParseContractStatus | web/backend/app/db/models.py:7-12 | a status string parses exactly when it is one of the five contract status values, and parses to the member with that value |
| Models.ParseClaimStatus | web/backend/app/db/models.py:14-19 | a status string parses exactly when it is one of the five claim status values, and parses to the member with that value |
| Models.StatusValuesRoundTrip | web/backend/app/db/models.py:7-19 | parsing a member's value gives that member back, so distinct statuses have distinct values |
| Models.ClaimStatusCountsSum | web/backend/app/db/models.py:14-19 | the five per-status claim counts add up to the number of claims |
| Models.ContractStatusCountsSum | web/backend/app/db/models.py:7-12 | the five per-status contract counts add up to the number of contracts |
| Store.Db.constructor | web/backend/app/db/models.py:21-99 | an empty database satisfies every table constraint and every counter starts at 1 |
| Store.ClientIndex | web/backend/app/db/models.py:21-34 | finds the row with a given client id, or reports that no row has it |
| Store.ProductIndex | web/backend/app/db/models.py:42-50 | finds the row with a given product id, or reports that no row has it |
| Store.ContractIndex | web/backend/app/db/models.py:59-74 | finds the row with a given contract id, or reports that no row has it |
| Store.ClaimIndex | web/backend/app/db/models.py:84-99 | finds the row with a given claim id, or reports that no row has it |
| Store.ClientWithEmail | web/backend/app/functions/client_service.py:34-36 | the first client holding an email, or none exactly when no client holds it |
| Common.Page | web/backend/app/functions/claim_service.py:71-73 | offset/limit: at most `limit` rows, exactly the rows of the input from `skip` on, in order |
| Common.PageWithin | web/backend/app/functions/claim_service.py:71-73 | every row on a page is a row of the full result |
| Common.FirstIndex | web/auth-service/app/services/auth.py:95-100 | the first position that matches, or none exactly when nothing matches |
| Common.UpdateRow | web/backend/app/functions/claim_service.py:75-87 | a missing row gives NotFound and changes nothing; a refused change leaves the table as it was; only the found row is written |
| Common.FirstFresh | web/backend/app/functions/claim_service.py:184-198 | the retry loop stops at the first unused candidate; every earlier candidate was taken; no result means every candidate was taken |
| Common.Strip | web/backend/app/modules/claim.py:24-28 | `str.strip`: empty exactly for a blank string, no whitespace at either end, and the result sits inside the input with only whitespace around it |
| Common.StripIdempotent | web/backend/app/modules/claim.py:24-28 | stripping a stripped string changes nothing |
| ClaimService.AssignStep | web/backend/app/functions/claim_service.py:89-103 | succeeds exactly on a submitted or under-review claim and then sets the adjuster and under_review, keeping the filing; otherwise refuses with the source's message |
| ClaimService.ProcessStep | web/backend/app/functions/claim_service.py:105-120 | succeeds exactly on a submitted or under-review claim and then writes the notes, the amount and any status verbatim; otherwise refuses |
| ClaimService.ApproveStep | web/backend/app/functions/claim_service.py:122-146 | succeeds exactly when the claim is under review, the amount is at most a set claimed amount and at most the contract's coverage; the result is approved with that amount, and the old notes are a prefix of the new ones |
| ClaimService.RejectionNote | web/backend/app/functions/claim_service.py:159-161 | the rejection note starts with "REJECTED: " and the reason |
| ClaimService.RejectStep | web/backend/app/functions/claim_service.py:148-167 | succeeds exactly on an under-review claim and then sets rejected and an approved amount of 0, appending the rejection note after the old notes |
| ClaimService.MarkPaidStep | web/backend/app/functions/claim_service.py:169-182 | succeeds exactly on an approved claim and changes only its status, to paid |
| ClaimService.PatchClaim | web/backend/app/functions/claim_service.py:75-87 | every sent field is written and every other column is kept |
| ClaimService.PatchClaimEmpty | web/backend/app/functions/claim_service.py:75-87 | an update that sends nothing changes nothing |
| ClaimService.TerminalClaims | web/backend/app/functions/claim_service.py:89-182 | every lifecycle method refuses a rejected or paid claim, and the lifecycle allows no move out of those states |
| ClaimService.StepsFollowLifecycle | web/backend/app/functions/claim_service.py:89-182 | every successful lifecycle method moves the status along the lifecycle relation |
| ClaimService.UpdateBypassesLifecycle | web/backend/app/functions/claim_service.py:75-87 | `update_claim` can write any status, including a move from paid back to submitted that no lifecycle method allows |
| ClaimService.CoverageFor | web/backend/app/functions/claim_service.py:134-137 | the coverage of the claim's contract, present exactly when that contract row exists |
| ClaimService.WriteBack | web/backend/app/functions/claim_service.py:75-182 | a committed change replaces only the changed row and keeps every table constraint |
| ClaimService.AssignAdjuster | web/backend/app/functions/claim_service.py:89-103 | the claims table and the answer are those of the guarded assignment on the found row; nothing else changes |
| ClaimService.ProcessClaim | web/backend/app/functions/claim_service.py:105-120 | the claims table and the answer are those of the guarded processing step on the found row |
| ClaimService.ApproveClaim | web/backend/app/functions/claim_service.py:122-146 | the claims table and the answer are those of the approval step, given the coverage of the claim's contract |
| ClaimService.RejectClaim | web/backend/app/functions/claim_service.py:148-167 | the claims table and the answer are those of the rejection step on the found row |
| ClaimService.MarkAsPaid | web/backend/app/functions/claim_service.py:169-182 | the claims table and the answer are those of the payment step on the found row |
| ClaimService.UpdateClaim | web/backend/app/functions/claim_service.py:75-87 | the setattr loop over the sent fields yields the patched claim, written back without any lifecycle guard |
| ClaimService.GenerateClaimNumber | web/backend/app/functions/claim_service.py:184-198 | the number is CLM-year-digits from the first draw that no claim holds, so it is held by no claim |
| ClaimService.ClaimRow | web/backend/app/functions/claim_service.py:14-31 | the inserted row is reported today unless a date was given, and is submitted unless a status was given |
| ClaimService.CreateClaim | web/backend/app/functions/claim_service.py:14-31 | a claim on a missing contract fails the commit; otherwise exactly one row with a fresh number and the next id is appended |
| ClaimService.GetClaims | web/backend/app/functions/claim_service.py:41-73 | the total counts every matching claim before slicing; the page is the matching claims sliced by skip and limit, each one meeting every given filter |
| ClaimService.PendingClaims | web/backend/app/functions/claim_service.py:200-209 | exactly the submitted and under-review claims, of the given adjuster when one is given |
| ClaimService.ClaimStatisticsOf | web/backend/app/functions/claim_service.py:211-248 | totals over the scope; each of the five status fields is the number of scoped claims with that status, and they add up to the total; the average is the claimed sum over the total, the approval rate the approved count over the total and the payment rate the paid count over the approved count, each 0 on a zero denominator; the approval rate lies between 0 and 1 |
| ClaimService.SumSkippingFalsy | web/backend/app/functions/claim_service.py:232-232 | leaving out claims with a falsy approved amount does not change the approved sum |
| ClaimService.RatioAtMostOne | web/backend/app/functions/claim_service.py:243-245 | a guarded rate whose numerator is at most its denominator lies between 0 and 1 |
| ClaimService.ValidateClaimEligibility | web/backend/app/functions/claim_service.py:254-277 | eligible exactly when the contract exists and is active, and the incident lies inside the term and not in the future; the first failed check names the reason |
| ContractService.ActivateStep | web/backend/app/functions/contract_service.py:81-93 | succeeds exactly on a draft and changes only the status, to active |
| ContractService.SuspendStep | web/backend/app/functions/contract_service.py:95-108 | succeeds exactly on an active contract and changes only the status, to suspended |
| ContractService.CancelStep | web/backend/app/functions/contract_service.py:110-122 | succeeds exactly on a contract neither expired nor cancelled and changes only the status, to cancelled |
| ContractService.PatchContract | web/backend/app/functions/contract_service.py:67-79 | every sent field is written and every other column is kept |
| ContractService.StepsAreLifecycle | web/backend/app/functions/contract_service.py:81-140 | the moves of activate, suspend, cancel and the expiry sweep are exactly draft to active, active to suspended or expired, and anything open to cancelled |
| ContractService.NoWayBack | web/backend/app/functions/contract_service.py:81-140 | no lifecycle method or sweep brings a suspended contract back to active, leaves expired or cancelled, or returns to draft |
| ContractService.UpdateBypassesLifecycle | web/backend/app/functions/contract_service.py:67-79 | `update_contract` writes any status and can even end a contract before its start |
| ContractService.SweepExpired | web/backend/app/functions/contract_service.py:124-140 | the sweep keeps the number of rows |
| ContractService.SweepExpiredAt | web/backend/app/functions/contract_service.py:124-140 | row by row, exactly the active contracts past their end date become expired and every other row is unchanged |
| ContractService.ExpiredNowIsPastDue | web/backend/app/functions/contract_service.py:124-140 | the sweep returns exactly the past-due active rows in table order, now expired |
| ContractService.SweepIdempotent | web/backend/app/functions/contract_service.py:124-140 | after a sweep nothing is past due, so a second sweep returns nothing and changes nothing |
| ContractService.CheckExpiredContracts | web/backend/app/functions/contract_service.py:124-140 | the loop leaves the table as the sweep prescribes and returns the rows it expired |
| ContractService.ExpireRows | web/backend/app/functions/contract_service.py:127-138 | the loop over the rows computes the swept table and the expired rows |
| ContractService.WriteBack | web/backend/app/functions/contract_service.py:81-122 | a committed change replaces only the changed row and keeps every table constraint |
| ContractService.ActivateContract | web/backend/app/functions/contract_service.py:81-93 | the contracts table and the answer are those of the activation step on the found row |
| ContractService.SuspendContract | web/backend/app/functions/contract_service.py:95-108 | the contracts table and the answer are those of the suspension step on the found row |
| ContractService.CancelContract | web/backend/app/functions/contract_service.py:110-122 | the contracts table and the answer are those of the cancellation step on the found row |
| ContractService.UpdateContract | web/backend/app/functions/contract_service.py:67-79 | the setattr loop over the sent fields yields the patched contract, written back without any guard |
| ContractService.GenerateContractNumber | web/backend/app/functions/contract_service.py:209-223 | the number is CON-year-digits from the first draw that no contract holds |
| ContractService.ContractRow | web/backend/app/functions/contract_service.py:14-27 | the inserted row is a draft unless a status was given |
| ContractService.CreateContract | web/backend/app/functions/contract_service.py:14-27 | the commit fails exactly on a missing client or product; otherwise one row with a fresh number and the next id is appended |
| ContractService.GetContracts | web/backend/app/functions/contract_service.py:37-65 | the total counts every matching contract before slicing; the page is the matching contracts sliced by skip and limit |
| ContractService.ExpiringSoon | web/backend/app/functions/contract_service.py:225-234 | exactly the active contracts ending on or before today plus the given days |
| ContractService.ContractStatisticsOf | web/backend/app/functions/contract_service.py:236-257 | each of the five status fields is the number of scoped contracts with that status, and they add up to the total; the premium and coverage sums; an average that is the premium sum over the count, or 0 without contracts |
| ClientService.HasActiveContracts | web/backend/app/functions/client_service.py:94-102 | true exactly when some contract of the client is active or draft |
| ClientService.ClosedContractsDoNotBlock | web/backend/app/functions/client_service.py:94-102 | suspended, expired and cancelled contracts never block a delete |
| ClientService.GenerateClientId | web/backend/app/functions/client_service.py:115-127 | eight characters from A-Z and 0-9, taken from the first draw no client holds |
| ClientService.ClientRow | web/backend/app/functions/client_service.py:13-28 | the inserted row carries the given email, the caller as creator and the identification number |
| ClientService.CreateClient | web/backend/app/functions/client_service.py:13-28 | a duplicate email fails the commit; otherwise one client is appended with the caller as creator, a truthy identification number kept and a fresh generated one otherwise |
| ClientService.PatchClient | web/backend/app/functions/client_service.py:66-78 | every sent field is written and every other column is kept |
| ClientService.PatchClientKeepsUnsent | web/backend/app/functions/client_service.py:66-78 | an empty patch changes nothing, and an unsent email or identification number stays |
| ClientService.UpdateClient | web/backend/app/functions/client_service.py:66-78 | an unknown id gives NotFound; a patched email another client holds fails the commit; otherwise only that row becomes the patched client |
| ClientService.DeleteClient | web/backend/app/functions/client_service.py:80-92 | an unknown id gives false; an open contract refuses; any other referencing contract fails the commit; otherwise exactly that client is removed |
| ClientService.GetClients | web/backend/app/functions/client_service.py:38-64 | the total counts every client matching the search and creator filters; the page is those clients sliced by skip and limit |
| ClientService.SearchClients | web/backend/app/functions/client_service.py:104-113 | the first `limit` clients whose name, email or phone contains the term, ignoring case |
| ClientService.EmptySearchMatchesAll | web/backend/app/functions/client_service.py:104-113 | an empty term matches every client |
| ClientService.ClientStatisticsOf | web/backend/app/functions/client_service.py:129-146 | unknown client gives `{}`; otherwise contract count, active count at most that count, premium sum and the claims of the client's contracts counted once each |
| ClientService.ClaimsOfContracts | web/backend/app/functions/client_service.py:139-139 | summing the claim count of each contract counts every claim of those contracts exactly once |
| ClientService.ClientStatisticsAsWritten | web/backend/app/functions/client_service.py:140-143 | as written, the statistics raise exactly when the client exists and one of its contracts has a claim |
| ClientService.StatisticsAsWrittenFails | web/backend/app/functions/client_service.py:129-146 | where the as-written statistics raise the corrected ones give a result, and elsewhere the two agree |
| Analytics.Lookup | web/backend/app/functions/analytics_service.py:34-46 | a group key's entry, or an empty entry for a key with none |
| Analytics.AddTo | web/backend/app/functions/analytics_service.py:37-46 | one loop step adds the row's key, keeps keys distinct, adds one to the counts and the amount to the totals |
| Analytics.Tally | web/backend/app/functions/analytics_service.py:34-46 | the dictionary has one entry per distinct key; its counts add up to the rows and its totals to the amounts |
| Analytics.TallyExact | web/backend/app/functions/analytics_service.py:34-46 | each entry holds exactly the number of rows with its key and the sum of their amounts |
| Analytics.Accumulate | web/backend/app/functions/analytics_service.py:34-46 | the accumulating loop builds that dictionary |
| Analytics.SortDesc | web/backend/app/functions/analytics_service.py:48-48 | `sorted(…, reverse=True)`: non-increasing, a permutation of the entries, with the same keys and totals |
| Analytics.SortDescStable | web/backend/app/functions/analytics_service.py:48-48 | `sorted` is stable: the entries of each rank come out in their dictionary order, so ties for the top five go to the earlier keys |
| Analytics.SortedEntryExact | web/backend/app/functions/analytics_service.py:48-64 | a sorted entry is an entry of the dictionary, with its exact count and total |
| Calendar.CivilFromDaysEpoch | web/backend/app/functions/analytics_service.py:240-240 | day 0 is 1970-01-01 |
| Calendar.CivilFromDaysLeapDay | web/backend/app/functions/analytics_service.py:240-240 | day 19782 is 2024-02-29 |
| Calendar.DayOfMonthBounds | web/backend/app/functions/analytics_service.py:210-210 | every day number's day of the month lies between 1 and 31 |
| Calendar.FirstOfSameMonth | web/backend/app/functions/analytics_service.py:210-210 | going back `day - 1` days lands on day 1 of the same year and month |
| Analytics.Named | web/backend/app/functions/analytics_service.py:41-46 | each product entry gets its product's name, or "Unknown" |
| Analytics.ProductSalesPartition | web/backend/app/functions/analytics_service.py:26-46 | the product entries' counts add up to the contracts of the window and their premiums to the total premium |
| Analytics.TopProductsFacts | web/backend/app/functions/analytics_service.py:48-48 | at most five entries with distinct products, highest premium first, each the exact entry of its product |
| Analytics.SalesByAgentFacts | web/backend/app/functions/analytics_service.py:51-64 | one entry per distinct agent, highest premium first, each with that agent's exact count and premium |
| Analytics.GetSalesAnalytics | web/backend/app/functions/analytics_service.py:15-73 | totals over the window, the product and agent breakdowns, and an average and a conversion rate that are 0 without contracts, the rate at most 1 |
| Analytics.ClaimsByStatus | web/backend/app/functions/analytics_service.py:97-99 | one entry per claim status, in enumeration order, with its count |
| Analytics.ClaimsByStatusSum | web/backend/app/functions/analytics_service.py:97-99 | every status has an entry and the entries add up to the number of claims |
| Analytics.ClaimsAnalyticsAsWritten | web/backend/app/functions/analytics_service.py:75-126 | as written, the report raises exactly when a claim falls in the window |
| Analytics.GetClaimsAnalytics | web/backend/app/functions/analytics_service.py:75-126 | totals over the window, status and adjuster breakdowns, and rates that are 0 without claims, the approval rate at most 1 |
| Analytics.ClaimsByAdjusterFacts | web/backend/app/functions/analytics_service.py:102-116 | the adjuster entries count exactly the claims that have an adjuster, one entry per adjuster |
| Analytics.AsMonths | web/backend/app/functions/analytics_service.py:246-249 | each month entry becomes a month and its revenue |
| Analytics.MonthlyBreakdown | web/backend/app/functions/analytics_service.py:235-249 | the loop and the sort give the monthly revenue list |
| Analytics.MonthlyFacts | web/backend/app/functions/analytics_service.py:235-249 | one entry per distinct month, months strictly ascending, revenues adding up to the premiums |
| Analytics.RevenueOf | web/backend/app/functions/analytics_service.py:156-168 | each product entry gets its name and revenue |
| Analytics.GetFinancialAnalytics | web/backend/app/functions/analytics_service.py:128-180 | revenue, claims paid in the window, a profit margin and an expense ratio that are 0 without revenue |
| Analytics.RevenueByProductFacts | web/backend/app/functions/analytics_service.py:156-168 | the product revenues add up to the total revenue, one entry per product, highest first |
| Analytics.MonthStart | web/backend/app/functions/analytics_service.py:210-210 | `today.replace(day=1)` lies between 30 days before today and today |
| Analytics.MonthStartIsFirst | web/backend/app/functions/analytics_service.py:210-210 | the month start is day 1 of today's year and month |
| Analytics.MonthStartOnLeapDay | web/backend/app/functions/analytics_service.py:210-210 | on 2024-02-29 the month starts on 2024-02-01, and the first of a month is its own month start |
| Analytics.DashboardSummaryOf | web/backend/app/functions/analytics_service.py:199-233 | active contracts, pending claims, the month's revenue so far, and a claims ratio that is 0 without revenue |
| UserService.ListUsers | web/backend/app/functions/user_service.py:77-86 | the total counts the users left by the role and active filters; the page is those users sliced by skip and limit, each with the role and active when asked |
| UserService.FixedUsersShape | web/backend/app/functions/user_service.py:18-74 | five users with the ids 1 to 5 in order, all active |
| UserService.DefaultListingIsEverything | web/backend/app/functions/user_service.py:9-91 | the default listing returns all five users |
| UserService.UserById | web/backend/app/functions/user_service.py:93-100 | the active fixed user with that id, or none exactly when no user has it |
| UserService.DirectoryIds | web/backend/app/functions/user_service.py:93-100 | the directory finds exactly the ids 1 to 5, the n-th user under id n |
| UserService.FindUser | web/backend/app/functions/user_service.py:96-100 | the search loop returns the first user with that id |
| UserService.GetUser | web/backend/app/functions/user_service.py:93-100 | `get_user` finds what the directory holds under that id |
| UserService.CreateUser | web/backend/app/functions/user_service.py:102-117 | always id 999, active, verified, never logged in, echoing the input |
| UserService.CreatedUserNotFound | web/backend/app/functions/user_service.py:102-117 | a created user cannot be read back |
| UserService.PatchUser | web/backend/app/functions/user_service.py:119-131 | every sent field is written and every other one is kept |
| UserService.UpdateUser | web/backend/app/functions/user_service.py:119-131 | none for an unknown id; otherwise the found user with the sent fields written |
| UserService.PatchUserKeepsUnsent | web/backend/app/functions/user_service.py:119-131 | an empty update changes nothing, and an unsent role stays |
| UserService.DeleteUser | web/backend/app/functions/user_service.py:133-137 | true exactly when the directory holds the id, that is for the ids 1 to 5 |
| Validators.Conclude | web/backend/app/modules/claim.py:20-40 | a model validates exactly when no field check failed, and otherwise reports every failure |
| Validators.ValidateClaimCreate | web/backend/app/modules/claim.py:20-40 | valid exactly with a non-blank description, a claimed amount absent or positive and an incident not after today; the description is stored stripped and the status defaults to submitted |
| Validators.ClaimDescriptionStable | web/backend/app/modules/claim.py:24-28 | a validated description validates again unchanged |
| Validators.ValidateProcessing | web/backend/app/modules/claim.py:75-84 | valid exactly when the approved amount is absent or not negative |
| Validators.ValidateApproval | web/backend/app/modules/claim.py:87-95 | valid exactly when the approved amount is positive |
| Validators.ApprovalStricterThanProcessing | web/backend/app/modules/claim.py:75-95 | every amount approval accepts processing accepts too, and zero passes processing but not approval |
| Validators.ValidateRejection | web/backend/app/modules/claim.py:98-106 | valid exactly with a non-blank reason, which is stored stripped |
| Validators.ValidateContractCreate | web/backend/app/modules/contract.py:7-31 | valid exactly with both amounts positive and the end strictly after the start; status defaults to draft; each failure names its field |
| Validators.PremiumParams | web/backend/app/modules/contract.py:68-72 | risk factors and discounts default to empty |
| Validators.ValidateProductCreate | web/backend/app/modules/product.py:6-34 | valid exactly with a non-blank name, a positive base premium and a coverage absent or positive; the name is stored stripped and the product is active by default |
| Validators.ValidateClientCreate | web/backend/app/modules/client.py:16-24 | valid exactly with a valid or absent email and both names present and not blank; the names are stored stripped |
| Validators.ValidateClientUpdate | web/backend/app/modules/client.py:27-29 | only the email type is checked |
| Validators.UpdateSkipsNameCheck | web/backend/app/modules/client.py:16-29 | a blank name refused on create passes an update |
| Validators.ValidateClientBody | web/backend/app/schemas/client.py:5-15 | the client routes' create body is valid exactly with both names present, whatever they hold, and a present email that passes the email check; nothing is stripped; each missing field is reported |
| Validators.ClientBodiesDisagree | web/backend/app/schemas/client.py:5-15 | a blank first name passes the routes' body but not the validated model, and a missing email the other way round |
| Validators.ValidateAnalyticsRequest | web/backend/app/modules/analytics.py:20-31 | valid exactly when the end is not before the start; the range defaults to a month and the filters to empty |
| Validators.SameDayWindows | web/backend/app/modules/analytics.py:27-31 | a one-day window is refused for a contract but accepted for a report |
| Roles.ParseRole | web/auth-service/app/models/user.py:8-13 | a role string parses to the member with that value, or to none when no member has it |
| Roles.RoleValueRoundTrip | web/auth-service/app/models/user.py:8-13 | parsing a role's value gives the role back |
| Roles.HasPermission | web/auth-service/app/services/roles.py:81-84 | true exactly when the permission is in the role's list |
| Roles.PermissionListsDistinct | web/auth-service/app/services/roles.py:33-75 | no role lists a permission twice |
| Roles.AdminHoldsAll | web/auth-service/app/services/roles.py:74-74 | the administrator holds every permission |
| Roles.AdminOnly | web/auth-service/app/services/roles.py:33-75 | user management and system configuration belong to the administrator alone |
| Roles.ManagerHoldsAllButAdmin | web/auth-service/app/services/roles.py:58-73 | the manager holds everything except the two administrator-only permissions |
| Roles.ManagerCoversOthers | web/auth-service/app/services/roles.py:33-75 | every permission of a non-admin role is a manager's, and every permission is the administrator's |
| Roles.DeleteClientsHolders | web/auth-service/app/services/roles.py:33-75 | only the manager and the administrator may delete clients |
| Roles.ClaimDutiesSplit | web/auth-service/app/services/roles.py:34-50 | the adjuster processes and approves claims but does not file them; the agent files but neither processes nor approves |
| Roles.EveryRoleViews | web/auth-service/app/services/roles.py:33-75 | every role may view clients, contracts and claims |
| Roles.OperatorCreatesNothing | web/auth-service/app/services/roles.py:51-57 | the operator holds no create permission |
| AuthStore.ByUsername | web/auth-service/app/services/auth.py:91-93 | the stored user under that username, or none exactly when no user has it |
| AuthStore.ByEmail | web/auth-service/app/services/auth.py:95-100 | the first stored user with that email, or none exactly when no user has it |
| AuthStore.PutThenGet | web/auth-service/app/services/auth.py:86-93 | after storing a user its username finds it and every other username finds what it found before |
| AuthStore.PutShape | web/auth-service/app/services/auth.py:86-86 | a new username adds one entry at the end; a present one is overwritten in place |
| AuthStore.PutFreshId | web/auth-service/app/services/auth.py:75-87 | storing a user with a fresh highest id keeps the ids unique |
| AuthStore.Authenticate | web/auth-service/app/services/auth.py:102-127 | a stored user is returned only with a verified password and a matching username or email; admin/admin always succeeds |
| AuthStore.AdminAlwaysAuthenticates | web/auth-service/app/services/auth.py:105-115 | admin/admin yields the test administrator with id 999, whatever the store holds |
| AuthStore.UsernameBeforeEmail | web/auth-service/app/services/auth.py:118-125 | the username match is tried before the email match |
| AuthStore.UnknownLoginFails | web/auth-service/app/services/auth.py:118-127 | a login that is neither a stored username nor a stored email fails, unless it is the admin pair |
| AuthStore.AuthService.constructor | web/auth-service/app/services/auth.py:62-69 | the store starts empty with the counter at 1 |
| AuthStore.AuthService.CreateUser | web/auth-service/app/services/auth.py:71-89 | the new user is active, takes the counter's value as its id and is stored under its username; the counter goes up by one |
| AuthStore.AuthService.GetUserByUsername | web/auth-service/app/services/auth.py:91-93 | the stored user under that username, or none |
| AuthStore.AuthService.GetUserByEmail | web/auth-service/app/services/auth.py:95-100 | the loop over the users returns the first with that email |
| AuthStore.AuthService.AuthenticateUser | web/auth-service/app/services/auth.py:102-127 | authentication as specified, changing nothing |
| AuthStore.CreateTwo | web/auth-service/app/services/auth.py:71-89 | two users created in a row get consecutive ids and are both found by name |
| AuthRoutes.Decode | web/auth-service/app/routes/auth.py:179-195 | a token's claims decode until its expiry and not after |
| AuthRoutes.RegisterUser | web/auth-service/app/routes/auth.py:80-124 | a taken username, then a taken email, refuses with the 400 rewrapped as a 500; otherwise exactly one user is added and echoed |
| AuthRoutes.DuplicateIsNot400 | web/auth-service/app/routes/auth.py:120-124 | a rewrapped refusal has status 500 and a detail starting with "400: " |
| AuthRoutes.LoginReplyFor | web/auth-service/app/routes/auth.py:126-168 | failed authentication gives 401; otherwise the access claims carry name, id and role, the refresh claims name and id only, and expires_in is minutes times 60 |
| AuthRoutes.LoginUser | web/auth-service/app/routes/auth.py:126-168 | the login reply is the one for what authentication found |
| AuthRoutes.VerifyToken | web/auth-service/app/routes/auth.py:170-195 | refused with 401 exactly when the token does not decode or lacks the name or id; otherwise its claims with valid true |
| AuthRoutes.RefreshToken | web/auth-service/app/routes/auth.py:197-228 | refused with 401 exactly when the token does not decode or lacks the name or id; otherwise a new access token with role "agent" |
| AuthRoutes.LoginThenVerify | web/auth-service/app/routes/auth.py:141-193 | a login's access token verifies as that user within its lifetime and is refused after it |
| AuthRoutes.RefreshDowngradesRole | web/auth-service/app/routes/auth.py:197-228 | a refresh within seven days always yields role "agent", so every other role is lost |
| AuthRoutes.TokenKindsInterchangeable | web/auth-service/app/routes/auth.py:170-228 | an access token is accepted for a refresh, and a refresh token verifies with no role |
| Routers.RoleChecker | web/backend/app/utils/auth.py:43-55 | the user data passes unchanged exactly when its role is the required one; otherwise 403 naming that role |
| Routers.RoleCheckerIsOneRoleGuard | web/backend/app/utils/auth.py:43-55 | the single-role checker is the role-set guard with one role |
| Routers.GuardsDisagreeWithPermissionTable | web/backend/app/routers/clients.py:98-123 | the hand-written role sets disagree with the permission table: a manager may not delete clients, while an operator may create them |
| Routers.Passed | web/backend/app/routers/clients.py:30-48 | a route passes a service success on as 200 with its value and an unfinished draw loop as no reply |
| Routers.CreateClientRoute | web/backend/app/routers/clients.py:30-48 | role guard, then 400 for an email on record, then the service's creation; nothing is stored on a refusal |
| Routers.UpdateClientRoute | web/backend/app/routers/clients.py:68-96 | role guard, 404 for an unknown id, 400 only when the email changes to another client's, then the service's update |
| Routers.DeleteClientRoute | web/backend/app/routers/clients.py:98-123 | administrators only; 404 when missing, 400 while a contract is open, then the removal |
| Routers.CalculatePremiumRoute | web/backend/app/routers/contracts.py:39-60 | agents and operators only; 404 for an unknown product; otherwise the route fails with a server error |
| Routers.CreateContractRoute | web/backend/app/routers/contracts.py:62-93 | agents and operators only; the client is checked before the product, each giving 404 when missing |
| Routers.UpdateContractRoute | web/backend/app/routers/contracts.py:113-132 | agent, manager or admin; 404 for an unknown contract; then the service's update |
| Routers.ActivateContractRoute | web/backend/app/routers/contracts.py:134-158 | manager or admin; 404 for an unknown contract; a refused activation surfaces the service's error, never the 400 branch |
| Routers.PendingClaimsRoute | web/backend/app/routers/claims.py:54-70 | adjusters only |
| Routers.CreateClaimRoute | web/backend/app/routers/claims.py:72-81 | agent, operator or admin |
| Routers.DecisionRoute | web/backend/app/routers/claims.py:101-125 | adjusters only; 404 for an unknown claim before the service is called |
| Routers.BodyPatch | web/backend/app/schemas/claim.py:27-31 | the route's body sends description, claimed amount, status and notes and never an approved amount or an adjuster |
| Routers.UpdateClaimRoute | web/backend/app/routers/claims.py:127-146 | adjuster, manager or admin; 404 for an unknown claim; then the service's update of the body's fields, leaving the approved amount and the adjuster as they were |
| Routers.ProcessClaimRoute | web/backend/app/routers/claims.py:148-162 | 403 unless the role is adjuster; changes nothing |
| Routers.ApproveClaimRoute | web/backend/app/routers/claims.py:164-179 | 403 unless the role is manager or admin; echoes the amount |
| Routers.RejectClaimRoute | web/backend/app/routers/claims.py:181-196 | 403 unless the role is adjuster, manager or admin; echoes the reason |
| Routers.ClaimActionRolesNest | web/backend/app/routers/claims.py:148-196 | whoever may approve or process may reject, and no one may both process and approve |
| ProductsRouter.ActiveProducts | web/backend/app/routers/products.py:28-35 | exactly the active products |
| ProductsRouter.Overwrite | web/backend/app/routers/products.py:54-75 | name, description, base premium and coverage are written; id and activity are kept |
| ProductsRouter.SetAllIsOverwrite | web/backend/app/routers/products.py:62-75 | the setattr loop over the four fields is the overwrite |
| ProductsRouter.CreateProductRoute | web/backend/app/routers/products.py:37-52 | manager or admin; the given fields are stored, active, under the next id |
| ProductsRouter.UpdateProductRoute | web/backend/app/routers/products.py:54-75 | manager or admin; 404 for an unknown id; otherwise only that row is overwritten |
| ProductsRouter.DeleteProductRoute | web/backend/app/routers/products.py:77-95 | admin only; 404 for an unknown id; otherwise only the row's activity becomes false |
| ProductsRouter.SoftDeleteHides | web/backend/app/routers/products.py:77-95 | a deleted product keeps its row but leaves the listing, and every other active product stays listed |
| ProductsRouter.OverwriteKeepsListing | web/backend/app/routers/products.py:54-75 | an update neither revives nor hides a product |
| RegisterForm.Utf16Length | frontend/src/components/RegisterForm.tsx:38-40 | JavaScript's length lies between the number of characters and twice that |
| RegisterForm.AstralLength | frontend/src/components/RegisterForm.tsx:38-40 | a string of characters outside the basic plane is twice as long for JavaScript |
| RegisterForm.EmailTestSound | frontend/src/components/RegisterForm.tsx:46-49 | every address the scan accepts matches the email pattern |
| RegisterForm.EmailTestComplete | frontend/src/components/RegisterForm.tsx:46-49 | every address matching the email pattern is accepted by the scan |
| RegisterForm.EmailTestIsPattern | frontend/src/components/RegisterForm.tsx:46-49 | the scan accepts exactly the addresses the pattern matches |
| RegisterForm.EmailAccepted | frontend/src/components/RegisterForm.tsx:46-49 | "a@b.c" passes, and so does "a@..c", whose dot follows the `@` directly |
| RegisterForm.EmailRefused | frontend/src/components/RegisterForm.tsx:46-49 | "a@b" and "a@b." do not pass: the dot needs something on both sides |
| RegisterForm.ValidateForm | frontend/src/components/RegisterForm.tsx:33-52 | no message exactly when the required fields are filled, the password is long enough and confirmed, and the email passes |
| RegisterForm.FirstFailureWins | frontend/src/components/RegisterForm.tsx:33-52 | each message appears exactly when its check fails after every earlier check passed |
| RegisterForm.DefaultsRefused | frontend/src/components/RegisterForm.tsx:14-21 | the initial form asks for the required fields |
| RegisterForm.ThreeAstralCharactersSuffice | frontend/src/components/RegisterForm.tsx:38-40 | three characters outside the basic plane pass the six-character length check |
| RegisterForm.WithField | frontend/src/components/RegisterForm.tsx:26-31 | the named field takes the value and every other field is kept |
| RegisterForm.FormState.constructor | frontend/src/components/RegisterForm.tsx:14-24 | the form starts with the defaults, no messages and not loading |
| RegisterForm.FormState.HandleChange | frontend/src/components/RegisterForm.tsx:26-31 | one field changes and nothing else |
| RegisterForm.FormState.HandleSubmit | frontend/src/components/RegisterForm.tsx:54-88 | a failing check shows its message and sends nothing; otherwise the payload is sent and the form resets on success or shows the error or the fallback |
| RegisterForm.SubmitTwice | frontend/src/components/RegisterForm.tsx:54-88 | after a successful registration a second submit sends nothing and asks for the required fields |

## Left out

- Premium calculation (`calculate_premium`, web/backend/app/functions/contract_service.py:142-207): floating-point multiplier arithmetic. Only its route's guards are modelled.
- Ratios are reals with the source's zero-denominator guard. Float rounding is not modelled.
- Money columns are `Numeric`/`Float` in the database; the model uses integers, since amounts are only compared and summed.
- Password hashing and checking are function parameters, and JWT signing is abstract. `Decode` only applies the expiry check that decoding makes on a token this service signed; forged or malformed tokens are not modelled.
- `EmailStr` validation is an outside library and is the `isEmail` parameter of the client validators.
- ClientService.CreateClient, ClientService.UpdateClient and Routers.CreateClientRoute: `EmailStr` also normalises the address (it lowercases the domain), so `u@X.COM` after `u@x.com` is a duplicate in the source; the model stores the email as sent and treats such an address as new.
- Randomness: the `secrets` draws are a given sequence of candidates. When it runs out the result is `Diverges`, where the source would keep drawing.
- `updated_at` is kept by the database's `onupdate` and is a map parameter of the financial report.
- An explicit JSON `null` in an update body is not modelled: a patch field is either sent with a value or not sent.
- Pagination takes natural `skip` and `limit`; negative values are not modelled.
- ILIKE: only ASCII case folding is modelled, and `%` or `_` inside a search term are treated as ordinary characters.
- Type coercion by pydantic (strings to numbers or dates) is not modelled; the validators receive typed fields.
- Request bodies: the client routes and the client service take the `ClientCreate`/`ClientUpdate` of web/backend/app/schemas/client.py. Its create body (Validators.ValidateClientBody) requires an email and does not check or strip the names; its update body checks only the email, as Validators.ValidateClientUpdate does. The claim and contract services import the validated models of web/backend/app/modules/, while the claim and contract routes take the schemas/ models, which have no validators. The claim update route takes the four-field body `Routers.ClaimUpdateBody`; the contract update body has the same six fields in both; the claim and contract create routes answer `ServerError` whatever the body. Validators.ValidateClientCreate and Validators.ValidateProductCreate model web/backend/app/modules/client.py and web/backend/app/modules/product.py, which nothing imports. The service models take an already validated body.
- ClientService.CreateClient, ClientService.UpdateClient, ProductsRouter.CreateProductRoute and ProductsRouter.UpdateProductRoute: column lengths are not modelled. The names and identification number of a client are `String(50)`, its email `String(100)` and its phone `String(20)`, and a product name is `String(100)` (web/backend/app/db/models.py:25-31 and 46). PostgreSQL refuses a longer value, which the source answers with a 500, where the model succeeds. Contract and claim numbers are generated well within their `String(50)`.
- ProductsRouter.ActiveProducts: the response model declares `description` and `coverage_amount` as required, but both columns are nullable (web/backend/app/db/models.py:47 and 49); a product with a NULL there makes the listing fail with a 500, which the model does not capture.
- No query has an ORDER BY, so PostgreSQL may return rows in any order. The model fixes primary-key order, and so fixes which rows a page holds, which row a first-hit lookup finds, and the order of the analytics dictionaries and of their ties.
- Performance analytics (`get_performance_analytics` and the agent, adjuster and product performance helpers, web/backend/app/functions/analytics_service.py:182-197 and 251-326) are left out. Their results are not part of the grouping and counting modelled here.
- Analytics.DashboardSummaryOf: the dashboard's constant fields are not modelled.
- Analytics.MonthlyBreakdown: the YYYY-MM month key is the number YYYYMM, which sorts the same way; the text rendering is not modelled.
- All clocks are UTC day and second numbers; time zones are not modelled.
- Routes that call service methods or signatures that do not exist answer `ServerError` (500) after their guards. This covers `get_pending_claims`, `create_claim`, `make_claim_decision`, `calculate_premium` and `create_contract`. The listing and single-row GET routes of clients, contracts and claims are not modelled.
- The analytics and users routers (role-guarded stubs and HTTP forwarding) are not modelled.
- `require_roles` is missing from web/backend/app/utils/auth.py; the routes' guards are modelled as the literal role sets they name.
- The products routes resolve the current user over the network; the model takes that user as a parameter.
- The login route's generic 500 for an unexpected exception is not modelled, since no modelled step raises one.
- The database helper functions at the end of web/auth-service/app/services/auth.py (lines 130-160) are not used by the routes and are not modelled.
- Settings that are read from the environment (`access_token_expire_minutes`) are a parameter.
- The register form's rendering, and the loading state while the request is pending, are not modelled; only the state after `handleSubmit` completes is.
- RegisterForm.FormState.HandleChange: an input is named by a `Field` value rather than an arbitrary `name` string, so a change to a field the form does not render is not modelled.

## Findings

| source | as written | input that shows it | evidently intended | confidence | as-written member | corrected member |
|---|---|---|---|---|---|---|
| web/backend/app/functions/client_service.py:141 | the claim sum reads `claim.claim_amount`, which is no column of Claim, so it raises AttributeError | a client with one contract that has one claim | sum `claim.claimed_amount` | not executed | ClientService.ClientStatisticsAsWritten | ClientService.ClientStatisticsOf |
| web/backend/app/functions/analytics_service.py:89 | the claims report reads `c.claim_amount`, which is no column of Claim, so it raises AttributeError | one claim created inside the report window | sum `c.claimed_amount` | not executed | Analytics.ClaimsAnalyticsAsWritten | Analytics.GetClaimsAnalytics |
