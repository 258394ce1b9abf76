# gms complaint portal — a verified Dafny model of its core

gms is a civic complaint portal. Citizens file complaints against a
category. Complaints are listed, paged and upvoted. The newest upvote
counts are pushed to every connected viewer. A language model
standardises each free-text sub-category, and the category learns it.
On the admin side, agents change a complaint's status or have a complaint
assigned to them. The three admin dashboards (agent, municipal admin, super
admin) group, filter and toggle the complaints they show. The citizen's
complaint form validates its five steps one at a time.

This project models those pieces:

| file | module | what it holds |
|---|---|---|
| `wrappers.dfy` | `Wrappers` | `Option` and the array `find` |
| `text.dfy` | `Text` | JavaScript string helpers: `trim` whitespace, ASCII lower-casing and single-character upper-casing, `indexOf`, single `replace`, `join` |
| `validators.dfy` | `Validators` | the UUID check on route ids, the sign-up/sign-in field rules (phone regex, minimum lengths) |
| `viewers.dfy` | `Viewers` | the WebSocket viewer registry (`connectedClients`): heartbeat sweep and broadcast as loops over the map |
| `upvotes.dfy` | `Upvotes` | the upvote toggle: refusals, toggling the row, recounting the denormalised counter, broadcast |
| `subcategory.dfy` | `SubCategory` | the cached access token, standardisation with one retry on 401, the set-union learning of sub-categories |
| `listing.dfy` | `Listing` | `parseInt`, page/limit clamping, offset and page count, the sort choice, description truncation |
| `agent_routes.dfy` | `AgentRoutes` | the agent status update and automatic assignment over complaint and agent tables, and the workload accounting |
| `admin_auth.dfy` | `AdminAuth` | the admin back end's four authentication guards |
| `complaint_form.dfy` | `ComplaintForm` | the multi-step complaint form: field merging, per-step validation, navigation, category picker, PIN filter |
| `dashboards.dfy` | `Dashboards` | grouping, filtering and per-id status updates shared by the dashboards, and the agent dashboard's status labels |
| `super_admin_dashboard.dfy` | `SuperAdminDashboard` | delete, escalation toggle and the confirmation popup |
| `municipal_dashboard.dfy` | `MunicipalDashboard` | the fetch transform and the escalation modal |
| `admin_roster.dfy` | `AdminRoster` | status capitalisation and the activate/deactivate toggle of the admin list |
| `complaint_tab.dfy` | `ComplaintTab` | colour lookups, status label, selector visibility and the local status update of the agent's complaint list |

State the source changes in place becomes a `class`: the viewer registry,
the upvote and category tables, the token cache, the agent desk, the form,
and the dashboards' React state. Each class has `modifies` clauses. Each
method's `ensures` gives its new state as a function of the old one. The
pure computations (paging, validation, grouping, colour lookups) are
functions, and lemmas relate them.

Everything outside the program is a parameter:

- The clock is `now`.
- Socket state is the sets `open`, `pingFails` and `sendFails`.
- The token minting command is `gcloud(k)`: the k-th token minted during a call.
- The language-model endpoint is `vertex(attempt, token)`.
- JWT verification is `verify(token)`.
- `Number(...)` and `new URL(...)` are `isNumeric` and `isUrl`.
- Whether an admin-side request succeeded is the `success` flag.

## Model

The reference definitions `Listing.ParseInt`, `Validators.IsUuid`, `Validators.MatchesPhone`, `Viewers.Swept` and `Viewers.AfterBroadcast` have no row of their own; their properties are stated by the rows for `Listing.ParseIntSign`, `Listing.ParseIntSkipsSpace`, `Listing.ParseHex`, `Validators.UuidMatchesLayout`, `Validators.PhonePatternIsE164Shape`, `Viewers.SweptKeeps` and `Viewers.BroadcastOnlyDropsFailures`.

| member | source | states |
|---|---|---|
| `Text.Trim` | apps/api/user-be/src/routes/complaintRoutes.ts:264-268 | the result neither starts nor ends with white space (ECMAScript white space and line terminators); it is the input's characters from the end of the leading white space on, and everything cut at either end is white space |
| `Text.TrimStart` | apps/api/user-be/src/routes/complaintRoutes.ts:312 | the result is a suffix of the input; everything dropped is whitespace and the result does not start with whitespace |
| `Text.TrimEnd` | apps/api/user-be/src/routes/complaintRoutes.ts:312 | the result is a prefix of the input; everything dropped is whitespace and the result does not end with whitespace |
| `Text.ToLower` | apps/api/user-be/src/routes/complaintRoutes.ts:398-404 | same length, each character lower-cased (ASCII) |
| `Text.LeadingSpace` | apps/api/user-be/src/routes/complaintRoutes.ts:312 | the length of the white-space prefix: every character before it is white space and the one at it is not |
| `Text.TrailingSpace` | apps/api/user-be/src/routes/complaintRoutes.ts:312 | the length of the white-space suffix: every character in it is white space and the one before it is not |
| `Text.LeadingSpaceAfterSpace` | apps/api/user-be/src/routes/complaintRoutes.ts:312 | white space put in front of a string lengthens its white-space prefix by exactly that much |
| `Text.ToLowerIdempotent` | apps/web/admin-fe/app/dashboards/agent/components/ComplaintTab/index.tsx:60 | lower-casing twice is lower-casing once |
| `Text.IndexOf` | apps/web/admin-fe/app/dashboards/agent/components/ComplaintTab/index.tsx:179 | -1 exactly when the character is absent; otherwise the first position holding it |
| `Text.ReplaceFirst` | apps/web/admin-fe/app/dashboards/agent/components/ComplaintTab/index.tsx:179 | same length; only the first occurrence is replaced and every other character is kept |
| `Text.Join` | apps/api/admin-be/src/middleware/adminAuth.ts:119 | an empty list joins to "", a single part to itself, and a longer list starts with the first part and the separator |
| `Text.JoinSnoc` | apps/api/admin-be/src/middleware/adminAuth.ts:119 | appending a part appends the separator and the part: with `Join` of the empty and one-part lists, this fixes the whole joined text |
| `Validators.UuidMatchesLayout` | apps/api/user-be/src/routes/complaintRoutes.ts:748 | the UUID predicate holds exactly when the string matches the regex's 8-4-4-4-12 hex groups separated by hyphens |
| `Validators.UuidIgnoresCase` | apps/api/user-be/src/routes/complaintRoutes.ts:1010-1013 | the `/i` flag: a string is accepted exactly when its lower-cased form is |
| `Validators.PhonePatternIsE164Shape` | apps/api/user-be/src/schemas/authSchema.ts:5 | `^\+?[1-9]\d{1,14}$` matches exactly an optional `+` followed by 2 to 15 digits, the first non-zero |
| `Validators.PhoneRejectsLeadingZero` | apps/api/user-be/src/schemas/authSchema.ts:5 | a number whose first digit is 0 is rejected |
| `Validators.PhoneRejectsNonDigit` | apps/api/user-be/src/schemas/authSchema.ts:5 | any non-digit after the optional `+` is rejected |
| `Validators.SignupIssues` | apps/api/user-be/src/schemas/authSchema.ts:3-8 | each field is reported exactly when its rule fails (valid email, phone regex, name length at least 1, password length at least 8); no issues exactly when all hold |
| `Validators.SigninIssues` | apps/api/user-be/src/schemas/authSchema.ts:10-13 | email is reported exactly when invalid, password exactly when empty; phone and name are never checked |
| `Validators.SigninWeakerThanSignup` | apps/api/user-be/src/schemas/authSchema.ts:3-13 | for every input, an email and password accepted at sign-up pass sign-in, and every valid email with a non-empty password passes sign-in; the one-character password shows sign-in is strictly weaker |
| `Wrappers.Find` | apps/web/admin-fe/app/dashboards/super-admin/page.tsx:26 | `find` by a key: none exactly when no element has the key; otherwise an element with the key at a position before which none has it |
| `Wrappers.FindIsFirstHit` | apps/web/admin-fe/app/dashboards/municipal-admin/components/DashboardTab/index.tsx:118 | `find` returns exactly the element at the first position with the key |
| `Viewers.SweptKeeps` | apps/api/user-be/src/routes/complaintRoutes.ts:154-177 | a viewer survives the heartbeat exactly when its socket is open, it is not stale and its ping does not fail; survivors keep their info |
| `Viewers.SweepIdempotent` | apps/api/user-be/src/routes/complaintRoutes.ts:154-177 | a second sweep at the same instant removes nothing more |
| `Viewers.StalenessIsMonotone` | apps/api/user-be/src/routes/complaintRoutes.ts:150-155 | a viewer stale at one time (no ping for more than 60000 ms) is stale at every later time |
| `Viewers.RefreshedSurvivesSweep` | apps/api/user-be/src/routes/complaintRoutes.ts:98-104 | a connection refreshed at most 60000 ms before a heartbeat, still open and answering pings, survives it with its info |
| `Viewers.Registry.constructor` | apps/api/user-be/src/routes/complaintRoutes.ts:45-46 | no server, not listening, and no viewers at start |
| `Viewers.Registry.Start` | apps/api/user-be/src/routes/complaintRoutes.ts:48-56 | the server now exists and accepts connections; the registry is kept |
| `Viewers.Registry.Connect` | apps/api/user-be/src/routes/complaintRoutes.ts:58-67 | only while the server listens: a new connection is registered under its generated id with the current time as last ping, and nothing else changes |
| `Viewers.Registry.Disconnect` | apps/api/user-be/src/routes/complaintRoutes.ts:86-96 | a closed or failed connection is removed, every other entry kept |
| `Viewers.Registry.Refresh` | apps/api/user-be/src/routes/complaintRoutes.ts:98-104 | a pong or heartbeat sets a registered connection's last ping to now and keeps its id; an unknown socket changes nothing |
| `Viewers.Registry.Close` | apps/api/user-be/src/routes/complaintRoutes.ts:180-184 | the server's close event stops the heartbeat and new connections and empties the registry; the server reference stays set |
| `Viewers.Registry.Sweep` | apps/api/user-be/src/routes/complaintRoutes.ts:146-178 | before the start or after the close nothing changes; otherwise the registry becomes the swept map and exactly the open, stale sockets are terminated |
| `Viewers.Registry.Broadcast` | apps/api/user-be/src/routes/complaintRoutes.ts:199-237 | without a server nothing changes; otherwise the message goes to exactly the open sockets whose send succeeds, and those whose send fails are removed |
| `Viewers.BroadcastOnlyDropsFailures` | apps/api/user-be/src/routes/complaintRoutes.ts:221-234 | a broadcast removes exactly the open sockets whose send failed and leaves every other entry unchanged |
| `Upvotes.ToggleTwiceRestores` | apps/api/user-be/src/routes/complaintRoutes.ts:1057-1089 | toggling the same (user, complaint) row twice restores the upvote table |
| `Upvotes.ToggleCount` | apps/api/user-be/src/routes/complaintRoutes.ts:1057-1089 | a toggle changes the complaint's number of upvote rows by exactly one: down when the row existed, up otherwise |
| `Upvotes.ToggleLeavesOthers` | apps/api/user-be/src/routes/complaintRoutes.ts:1057-1089 | a toggle leaves every other complaint's upvote rows unchanged |
| `Upvotes.RecountHeals` | apps/api/user-be/src/routes/complaintRoutes.ts:1057-1089 | after the toggle and the recount, every counter equals its number of rows exactly when every other complaint's counter already did |
| `Upvotes.DoubleToggleRestoresCounter` | apps/api/user-be/src/routes/complaintRoutes.ts:1057-1089 | with consistent counters, two toggles by the same user restore the complaint table |
| `Upvotes.Store.ToggleUpvote` | apps/api/user-be/src/routes/complaintRoutes.ts:1000-1104 | refused with 401 "Authentication required", 400 "Invalid complaint ID format", 404 "Complaint not found", 403 "Cannot upvote private complaints" or 403 "Cannot upvote your own complaint", checked in that order, and then nothing changes and nothing is sent; otherwise the row is toggled, the counter recounted and the reply names the action and new count; with a running server the broadcast carries the complaint id, new count, new upvote state and user id and reaches exactly the registered open sockets whose send succeeds; consistent counters stay consistent |
| `SubCategory.Settle` | apps/api/user-be/src/routes/complaintRoutes.ts:304-314 | a non-2xx reply or an empty text yields the raw input; otherwise the trimmed, non-empty model text |
| `SubCategory.StandardizedIsRawOrModelText` | apps/api/user-be/src/routes/complaintRoutes.ts:279-320 | standardisation returns either the raw input or non-empty trimmed model text |
| `SubCategory.CachedTokenReused` | apps/api/user-be/src/routes/complaintRoutes.ts:261-271 | with a cached token that is not refused, no token is minted and the cache is unchanged |
| `SubCategory.AtMostTwoAttempts` | apps/api/user-be/src/routes/complaintRoutes.ts:284-315 | the outcome depends only on the endpoint's first two answers |
| `SubCategory.UnauthorizedTwiceFallsBack` | apps/api/user-be/src/routes/complaintRoutes.ts:297-308 | two 401 replies yield the raw input and leave the second token cached |
| `SubCategory.TokenCache.constructor` | apps/api/user-be/src/routes/complaintRoutes.ts:255 | the cache starts empty |
| `SubCategory.TokenCache.GetToken` | apps/api/user-be/src/routes/complaintRoutes.ts:261-271 | a cached token is returned as is; otherwise the trimmed minted token is cached and returned |
| `SubCategory.TokenCache.Invalidate` | apps/api/user-be/src/routes/complaintRoutes.ts:273-275 | the cache is cleared |
| `SubCategory.TokenCache.Standardize` | apps/api/user-be/src/routes/complaintRoutes.ts:279-320 | the retry loop returns, and leaves in the cache, exactly what the two-attempt specification gives |
| `SubCategory.Dedup` | apps/api/user-be/src/routes/complaintRoutes.ts:469-477 | `Array.from(new Set(...))`: no duplicates, the same elements, never longer |
| `SubCategory.DedupKeepsFirstOccurrenceOrder` | apps/api/user-be/src/routes/complaintRoutes.ts:469-477 | the de-duplicated list keeps the elements in the order of their first occurrences |
| `SubCategory.FirstIndex` | apps/api/user-be/src/routes/complaintRoutes.ts:469-477 | the first position of an element: it holds the element and no earlier one does |
| `SubCategory.DedupOfDistinct` | apps/api/user-be/src/routes/complaintRoutes.ts:469-477 | a list without duplicates is its own de-duplication |
| `SubCategory.AddUnique` | apps/api/user-be/src/routes/complaintRoutes.ts:469-477 | the union is the de-duplicated old list followed by the new element when it was absent |
| `SubCategory.AddUniqueKeepsOrder` | apps/api/user-be/src/routes/complaintRoutes.ts:469-477 | on a duplicate-free list the union keeps the order and appends the element only when absent |
| `SubCategory.Learn` | apps/api/user-be/src/routes/complaintRoutes.ts:468-485 | name and department unchanged; the raw entry joins `subCategories`, the standardised one joins `learnedSubCategories`, both stay duplicate-free |
| `SubCategory.LearnIdempotent` | apps/api/user-be/src/routes/complaintRoutes.ts:468-485 | learning the same pair twice changes nothing more |
| `SubCategory.FailedStandardisationLearnsRaw` | apps/api/user-be/src/routes/complaintRoutes.ts:304-308 | when the endpoint fails, the raw text is learned into both lists |
| `SubCategory.CategoryTable.Submit` | apps/api/user-be/src/routes/complaintRoutes.ts:398-485 | an unknown category name (ignoring case) changes nothing; otherwise the matching category learns the raw and the standardised text, and the token cache follows the specification |
| `Listing.DigitValue` | apps/api/user-be/src/routes/complaintRoutes.ts:549-550 | a hex digit's value is below 16, a decimal digit's below 10 |
| `Listing.LeadingDigits` | apps/api/user-be/src/routes/complaintRoutes.ts:549-550 | the length of the longest digit prefix `parseInt` consumes |
| `Listing.AllDigitsLead` | apps/api/user-be/src/routes/complaintRoutes.ts:549-550 | an all-digit string is consumed whole |
| `Listing.ParseDecimal` | apps/api/user-be/src/routes/complaintRoutes.ts:549-550 | `parseInt` of a non-empty decimal digit string is its value |
| `Listing.ParseIntSkipsSpace` | apps/api/user-be/src/routes/complaintRoutes.ts:549-550 | leading white space does not change what `parseInt` reads |
| `Listing.ParseIntSign` | apps/api/user-be/src/routes/complaintRoutes.ts:549-550 | a leading `+` keeps the digits' value, a leading `-` negates it, and a second sign gives NaN |
| `Listing.ParseHex` | apps/api/user-be/src/routes/complaintRoutes.ts:549-550 | `0x` followed by hexadecimal digits reads them in base 16 |
| `Listing.ParseIntOr` | apps/api/user-be/src/routes/complaintRoutes.ts:549-550 | `parseInt(s) \|\| fallback`: a non-zero parse is kept; NaN and 0 both give the fallback |
| `Listing.PageNumber` | apps/api/user-be/src/routes/complaintRoutes.ts:549 | at least 1; the parsed page when that is at least 1, otherwise 1 (absent, NaN, 0 or negative) |
| `Listing.LimitNumber` | apps/api/user-be/src/routes/complaintRoutes.ts:550 | between 1 and 50; 10 when absent, NaN or 0; negatives become 1 and values over 50 become 50 |
| `Listing.Offset` | apps/api/user-be/src/routes/complaintRoutes.ts:551 | non-negative, and zero exactly on page 1 |
| `Listing.TotalPages` | apps/api/user-be/src/routes/complaintRoutes.ts:701 | `Math.ceil(total / limit)`: the fewest pages of `limit` rows holding `total` rows |
| `Listing.HasNextIffRowsRemain` | apps/api/user-be/src/routes/complaintRoutes.ts:701-727 | `hasNext` (page below the page count) holds exactly when rows remain after this page |
| `Listing.PageWithinCount` | apps/api/user-be/src/routes/complaintRoutes.ts:696-724 | a page whose offset lies inside the result is within the page count |
| `Listing.List` | apps/api/user-be/src/routes/complaintRoutes.ts:549-728 | 404 exactly when the offset is past the rows; otherwise offset `(page - 1) * limit` for the clamped page and limit, `min(limit, total - offset)` rows, current page the clamped page, page count `ceil(total / limit)`, total count `total`, `hasNext` exactly when the page is below the page count (so exactly when rows remain) and `hasPrev` exactly when the page is above 1 |
| `Listing.OrderBy` | apps/api/user-be/src/routes/complaintRoutes.ts:632-648 | "upvotes" sorts by upvote count, "urgent" by urgency then date, anything else by date; urgency is never the last key |
| `Listing.Truncate` | apps/api/user-be/src/routes/complaintRoutes.ts:718-720 | descriptions up to 100 characters are unchanged; longer ones become their first 100 characters followed by "..." |
| `Listing.TruncateIdempotent` | apps/api/user-be/src/routes/complaintRoutes.ts:718-720 | truncating twice is truncating once |
| `AgentRoutes.ChooseStatus` | apps/api/admin-be/src/routes/agent.ts:255-272 | `escalate === true` forces ESCALATED_TO_MUNICIPAL_LEVEL; otherwise the requested status is accepted exactly when it is one of the seven valid ones |
| `AgentRoutes.Stamped` | apps/api/admin-be/src/routes/agent.ts:285-291 | the new status is written; the resolution date is set exactly on COMPLETED and the escalation date exactly on escalation; the assignment is kept |
| `AgentRoutes.PickAgent` | apps/api/admin-be/src/routes/agent.ts:357-366 | none exactly when no agent is ACTIVE, under 10 open complaints and "At Work"; otherwise an eligible agent with the latest last login |
| `AgentRoutes.Desk.UpdateStatus` | apps/api/admin-be/src/routes/agent.ts:250-332 | 400 with the list of valid statuses before any lookup; 404 for an unknown complaint; otherwise (a valid status on an existing complaint is never refused) the complaint is stamped, and a move to COMPLETED decrements the assigned agent's workload (500 after the complaint write if that agent is missing); the message says "escalated" for any truthy `escalate` |
| `AgentRoutes.Desk.Assign` | apps/api/admin-be/src/routes/agent.ts:335-405 | 400 for an empty id, 404 for an unknown complaint, 400 when already assigned, 404 when no agent is eligible, with nothing changed; otherwise the best agent is assigned and its workload incremented |
| `AgentRoutes.AssignKeepsBalance` | apps/api/admin-be/src/routes/agent.ts:353-389 | for every complaint the route accepts (no assigned agent, or the empty id), assigning it keeps every workload equal to its agent's open assigned complaints exactly when it is not COMPLETED and its empty agent id names no agent: a COMPLETED complaint is still charged to the new agent |
| `AgentRoutes.AssignedLoad` | apps/api/admin-be/src/routes/agent.ts:373-389 | assigning a complaint moves it, when not COMPLETED, out of its previous agent's open load and into the new agent's, and changes no other load |
| `AgentRoutes.OtherAgentsUnaffected` | apps/api/admin-be/src/routes/agent.ts:285-314 | a status update leaves every other agent's count in step with its open complaints |
| `AgentRoutes.OwnerBalance` | apps/api/admin-be/src/routes/agent.ts:307-314 | the assigned agent's workload stays in step exactly when the complaint was not already COMPLETED |
| `AgentRoutes.StatusUpdateBalance` | apps/api/admin-be/src/routes/agent.ts:285-314 | workloads stay balanced under a status update exactly when the complaint was not already COMPLETED: completing twice decrements twice, and reopening adds load without an increment |
| `AdminAuth.ExtractToken` | apps/api/admin-be/src/middleware/adminAuth.ts:12-16 | with a `Bearer ` header the token is the text up to the next space, ignoring the cookie; otherwise the cookie |
| `AdminAuth.Authenticate` | apps/api/admin-be/src/middleware/adminAuth.ts:6-129 | 401 exactly when no token is found; 403 "Invalid or expired token" when it does not verify; admitted exactly when it verifies with the claims the guard needs; otherwise 403 with the guard's message |
| `AdminAuth.BearerHeaderHidesCookie` | apps/api/admin-be/src/middleware/adminAuth.ts:12-16 | with a `Bearer ` header the cookie never matters |
| `AdminAuth.EmptyBearerIsNoToken` | apps/api/admin-be/src/middleware/adminAuth.ts:12-20 | the header `Bearer ` alone gives 401 even with a cookie |
| `AdminAuth.OtherSchemeUsesCookie` | apps/api/admin-be/src/middleware/adminAuth.ts:12-16 | a header without the exact, case-sensitive `Bearer ` prefix falls back to the cookie |
| `AdminAuth.BearerTokenRoundTrip` | apps/api/admin-be/src/middleware/adminAuth.ts:13 | a token without spaces sent as `Bearer <token>` is extracted unchanged |
| `AdminAuth.MultipleGeneralisesAdminGuards` | apps/api/admin-be/src/middleware/adminAuth.ts:36-129 | the multiple-level guard with one level admits the same requests as the state or the municipal admin guard |
| `AdminAuth.AdminGuardsAreDisjoint` | apps/api/admin-be/src/middleware/adminAuth.ts:25-57 | no payload passes both the state and the municipal admin guard |
| `AdminAuth.AgentGuardNeedsTypeClaim` | apps/api/admin-be/src/middleware/adminAuth.ts:85-121 | the agent guard also needs `type === 'AGENT'`, so it is strictly stronger than listing AGENT in the multiple-level guard |
| `ComplaintForm.CatalogEntryFor` | apps/web/user-fe/components/multi-step-form.tsx:132 | none exactly when no catalog entry has the id; otherwise the first entry with it |
| `ComplaintForm.DepartmentFor` | apps/web/user-fe/components/multi-step-form.tsx:131-138 | `category?.name \|\| ""`: empty exactly for an id no catalog entry has; otherwise the name of the first entry with the id |
| `ComplaintForm.DepartmentEmptyIffUnknown` | apps/web/user-fe/components/multi-step-form.tsx:131-138 | the department taken from the `find` result is empty exactly when no catalog entry has the id |
| `ComplaintForm.AvailableSubCategories` | apps/web/user-fe/components/multi-step-form.tsx:140-143 | an unknown category offers no sub-categories; a known one offers the sub-categories of the first catalog entry with its id |
| `ComplaintForm.CategoryStepErrors` | apps/web/user-fe/components/multi-step-form.tsx:74-76 | the step-0 errors, field by field |
| `ComplaintForm.LocationStepErrors` | apps/web/user-fe/components/multi-step-form.tsx:77-82 | the step-1 errors, field by field |
| `ComplaintForm.DetailStepErrors` | apps/web/user-fe/components/multi-step-form.tsx:83-86 | the step-2 errors, the length message overriding the empty one |
| `ComplaintForm.UrgencyStepErrors` | apps/web/user-fe/components/multi-step-form.tsx:87-88 | the step-3 error |
| `ComplaintForm.ReviewRequiredErrors` | apps/web/user-fe/components/multi-step-form.tsx:89-92 | the first four review-step errors |
| `ComplaintForm.ReviewStepErrors` | apps/web/user-fe/components/multi-step-form.tsx:89-97 | the review-step errors, field by field |
| `ComplaintForm.CategoryError` | apps/web/user-fe/components/multi-step-form.tsx:74-76 | step 0 reports only the category and sub-category |
| `ComplaintForm.LocationError` | apps/web/user-fe/components/multi-step-form.tsx:77-82 | step 1 reports only the PIN, district, city, latitude and longitude |
| `ComplaintForm.DetailError` | apps/web/user-fe/components/multi-step-form.tsx:83-86 | step 2 reports only the description and the attachment URL |
| `ComplaintForm.UrgencyError` | apps/web/user-fe/components/multi-step-form.tsx:87-88 | step 3 reports only the urgency |
| `ComplaintForm.ReviewRequiredError` | apps/web/user-fe/components/multi-step-form.tsx:89-93 | the first four review checks report only the category, sub-category, PIN and district |
| `ComplaintForm.ReviewError` | apps/web/user-fe/components/multi-step-form.tsx:89-97 | the review step reports only the seven required fields |
| `ComplaintForm.FieldError` | apps/web/user-fe/components/multi-step-form.tsx:71-97 | `validateStep`'s error for one field: none for a step number outside 0 to 4, and each step reports only the fields its branch checks |
| `ComplaintForm.StepPasses` | apps/web/user-fe/components/multi-step-form.tsx:71-100 | `Object.keys(newErrors).length === 0`: any other step number passes; step 2 passes exactly with a description of 1 to 500 characters and an empty or parsable URL; step 3 exactly with an urgency |
| `ComplaintForm.DetailAndUrgencyFields` | apps/web/user-fe/components/multi-step-form.tsx:83-88 | steps 2 and 3 pass exactly when the fields they check have no error |
| `ComplaintForm.LocationStepPassesIff` | apps/web/user-fe/components/multi-step-form.tsx:77-82 | step 1 passes exactly with a 6-character PIN, a district, a city and numeric coordinates where given |
| `ComplaintForm.CategoryStepPassesIff` | apps/web/user-fe/components/multi-step-form.tsx:74-76 | step 0 passes exactly with both category and sub-category; the sub-category is reported only once a category is set |
| `ComplaintForm.ReviewStepPassesIff` | apps/web/user-fe/components/multi-step-form.tsx:89-97 | step 4 passes exactly with category, sub-category, a 6-character PIN, district, city, description and urgency |
| `ComplaintForm.ReviewStepIsWeaker` | apps/web/user-fe/components/multi-step-form.tsx:84-97 | passing review implies passing steps 0 and 3, but a description over 500 characters passes review while failing step 2 |
| `ComplaintForm.StripNonDigits` | apps/web/user-fe/components/multi-step-form.tsx:272 | the result holds only digits and is no longer than the input; an all-digit input is unchanged, a single character is kept exactly when it is a digit |
| `ComplaintForm.StripNonDigitsAppend` | apps/web/user-fe/components/multi-step-form.tsx:272 | the filter of a concatenation is the concatenation of the filters; with the one-character case, exactly the input's digits are kept, in order |
| `ComplaintForm.Form.constructor` | apps/web/user-fe/components/multi-step-form.tsx:40-58 | step 0, no errors, every text field empty and the complaint public |
| `ComplaintForm.Form.UpdateFields` | apps/web/user-fe/components/multi-step-form.tsx:62-69 | the given fields override the data and exactly their errors are deleted; other errors and the step are kept |
| `ComplaintForm.Form.ValidateStep` | apps/web/user-fe/components/multi-step-form.tsx:71-101 | the error map is replaced by exactly the step's errors, and the answer is true exactly when there are none |
| `ComplaintForm.Form.NextStep` | apps/web/user-fe/components/multi-step-form.tsx:112-116 | advances by one, capped at step 4, exactly when the current step validates; the step stays within 0 to 4 |
| `ComplaintForm.Form.PrevStep` | apps/web/user-fe/components/multi-step-form.tsx:118-121 | goes back one, floored at 0, and clears every error |
| `ComplaintForm.Form.Submit` | apps/web/user-fe/components/multi-step-form.tsx:123-129 | submits exactly when the review step validates |
| `ComplaintForm.Form.CategoryChange` | apps/web/user-fe/components/multi-step-form.tsx:131-138 | sets the category, clears the sub-category, and sets the department to the catalog name or "" for an unknown id |
| `ComplaintForm.Form.PinInput` | apps/web/user-fe/components/multi-step-form.tsx:271-276 | keeps the digits and stores them only when at most six, so a well-formed PIN stays well-formed |
| `Dashboards.Where` | apps/web/admin-fe/app/dashboards/super-admin/components/DashboardTab/index.tsx:93-100 | `filter`: exactly the kept elements of the list, never longer |
| `Dashboards.WhereAppend` | apps/web/admin-fe/app/dashboards/super-admin/components/DashboardTab/index.tsx:93-100 | filtering keeps relative order: it distributes over concatenation |
| `Dashboards.WhereAll` | apps/web/admin-fe/app/dashboards/super-admin/components/DashboardTab/index.tsx:93-96 | a filter that keeps every element returns the list |
| `Dashboards.WhereNone` | apps/web/admin-fe/app/dashboards/agent/components/DashboardTab/index.tsx:84 | a filter that keeps nothing returns the empty list |
| `Dashboards.Select` | apps/web/admin-fe/app/dashboards/agent/components/DashboardTab/index.tsx:84 | exactly the entries with the status |
| `Dashboards.Group` | apps/web/admin-fe/app/dashboards/agent/components/DashboardTab/index.tsx:70-74 | `reduce` into groups: no status gets an empty group |
| `Dashboards.GroupIsSelection` | apps/web/admin-fe/app/dashboards/agent/components/DashboardTab/index.tsx:70-74 | a status is a key exactly when some entry has it, and its list is those entries in order |
| `Dashboards.Filtered` | apps/web/admin-fe/app/dashboards/agent/components/DashboardTab/index.tsx:83-84 | 'All' returns the list; one status returns that status's group, or nothing |
| `Dashboards.Restatus` | apps/web/admin-fe/app/dashboards/municipal-admin/components/DashboardTab/index.tsx:175-177 | same length, ids and texts; only entries with the id change status |
| `Dashboards.RestatusTwice` | apps/web/admin-fe/app/dashboards/super-admin/components/DashboardTab/index.tsx:105-115 | two status updates of the same id compose |
| `Dashboards.SelectionsPartition` | apps/web/admin-fe/app/dashboards/agent/components/DashboardTab/index.tsx:70-74 | the four status selections have sizes summing to the list length |
| `Dashboards.CardCountsSum` | apps/web/admin-fe/app/dashboards/agent/components/DashboardTab/index.tsx:70-74 | the four summary cards together count every complaint once |
| `Dashboards.NoCardWithoutEntries` | apps/web/admin-fe/app/dashboards/agent/components/DashboardTab/index.tsx:70-74 | a status no entry has gets no group |
| `Dashboards.MapStatus` | apps/web/admin-fe/app/dashboards/agent/components/DashboardTab/index.tsx:57-68 | In Progress exactly for UNDER_PROCESSING, Solved exactly for RESOLVED, Escalated exactly for ESCALATED, and Pending exactly for every other text |
| `Dashboards.MapStatusOfStoredStatuses` | apps/web/admin-fe/app/dashboards/agent/components/DashboardTab/index.tsx:57-68 | of the statuses the back end stores, only UNDER_PROCESSING shows as In Progress; all others, COMPLETED included, show as Pending |
| `Dashboards.AgentView` | apps/web/admin-fe/app/dashboards/agent/components/DashboardTab/index.tsx:39-44 | one entry per row, with the row's id and description and its mapped status |
| `Dashboards.AgentCardsOfStoredStatuses` | apps/web/admin-fe/app/dashboards/agent/components/DashboardTab/index.tsx:39-74 | complaints with stored statuses never fill the agent's Solved or Escalated card |
| `SuperAdminDashboard.Deleted` | apps/web/admin-fe/app/dashboards/super-admin/components/DashboardTab/index.tsx:99-102 | exactly the cards with a different id remain |
| `SuperAdminDashboard.DeleteAbsentId` | apps/web/admin-fe/app/dashboards/super-admin/components/DashboardTab/index.tsx:99-102 | deleting an id no card has changes nothing |
| `SuperAdminDashboard.DeleteKeepsOrder` | apps/web/admin-fe/app/dashboards/super-admin/components/DashboardTab/index.tsx:99-102 | deletion keeps the order of the remaining cards |
| `SuperAdminDashboard.Toggled` | apps/web/admin-fe/app/dashboards/super-admin/components/DashboardTab/index.tsx:105-115 | same length; matching cards keep their id and text while Escalated goes to Pending and anything else to Escalated; other cards are unchanged |
| `SuperAdminDashboard.ToggleTwice` | apps/web/admin-fe/app/dashboards/super-admin/components/DashboardTab/index.tsx:105-115 | two toggles restore Escalated and Pending, but Solved and In Progress come back as Pending |
| `SuperAdminDashboard.Board.constructor` | apps/web/admin-fe/app/dashboards/super-admin/components/DashboardTab/index.tsx:21-75 | the loaded cards, their count and a closed popup |
| `SuperAdminDashboard.Board.HandleDelete` | apps/web/admin-fe/app/dashboards/super-admin/components/DashboardTab/index.tsx:99-102 | the list loses the id's cards and the total follows |
| `SuperAdminDashboard.Board.HandleToggleEscalation` | apps/web/admin-fe/app/dashboards/super-admin/components/DashboardTab/index.tsx:105-115 | the list is toggled for the id and the total follows |
| `SuperAdminDashboard.Board.ConfirmPopup` | apps/web/admin-fe/app/dashboards/super-admin/components/DashboardTab/index.tsx:118-120 | the popup holds the card and the action |
| `SuperAdminDashboard.Board.ClosePopup` | apps/web/admin-fe/app/dashboards/super-admin/components/DashboardTab/index.tsx:123 | the popup is reset to a delete without a card |
| `SuperAdminDashboard.Board.ExecutePopupAction` | apps/web/admin-fe/app/dashboards/super-admin/components/DashboardTab/index.tsx:126-134 | nothing without a card; otherwise delete or toggle its id and close the popup |
| `MunicipalDashboard.Transform` | apps/web/admin-fe/app/dashboards/municipal-admin/components/DashboardTab/index.tsx:65-73 | the text is the description, else the details, else ""; the status is the row's, else 'Pending', and never empty |
| `MunicipalDashboard.TransformAll` | apps/web/admin-fe/app/dashboards/municipal-admin/components/DashboardTab/index.tsx:65-73 | one transformed item per row, in order |
| `MunicipalDashboard.TargetStatus` | apps/web/admin-fe/app/dashboards/municipal-admin/components/DashboardTab/index.tsx:143-148 | 'Escalated' exactly for the escalate action, 'Pending' exactly for de-escalation |
| `MunicipalDashboard.Board.constructor` | apps/web/admin-fe/app/dashboards/municipal-admin/components/DashboardTab/index.tsx:34-46 | an empty list and a closed modal |
| `MunicipalDashboard.Board.Load` | apps/web/admin-fe/app/dashboards/municipal-admin/components/DashboardTab/index.tsx:50-94 | a good response gives the transformed list; a failure gives the empty list and an error |
| `MunicipalDashboard.Board.RequestToggle` | apps/web/admin-fe/app/dashboards/municipal-admin/components/DashboardTab/index.tsx:117-125 | an unknown id changes nothing; otherwise the modal opens for the id, de-escalating exactly an Escalated complaint |
| `MunicipalDashboard.Board.CloseModal` | apps/web/admin-fe/app/dashboards/municipal-admin/components/DashboardTab/index.tsx:159-163 | visibility, id and action are cleared together |
| `MunicipalDashboard.Board.ConfirmToggle` | apps/web/admin-fe/app/dashboards/municipal-admin/components/DashboardTab/index.tsx:128-157 | nothing without an id and an action; otherwise the id's items become Escalated or Pending, the rest unchanged, and the modal closes |
| `MunicipalDashboard.Board.HandleStatusChange` | apps/web/admin-fe/app/dashboards/municipal-admin/components/DashboardTab/index.tsx:165-183 | only the items with the id change, and the list keeps its length |
| `MunicipalDashboard.RequestedActionToggles` | apps/web/admin-fe/app/dashboards/municipal-admin/components/DashboardTab/index.tsx:121-146 | confirming the requested action turns Escalated into Pending and anything else into Escalated |
| `AdminRoster.Capitalize` | apps/web/admin-fe/app/dashboards/super-admin/page.tsx:72 | same length; first character upper-cased, the rest lower-cased |
| `AdminRoster.CapitalizeIdempotent` | apps/web/admin-fe/app/dashboards/super-admin/page.tsx:42 | capitalising a displayed status again changes nothing |
| `AdminRoster.ToggleTarget` | apps/web/admin-fe/app/dashboards/super-admin/page.tsx:29 | the button requests 'INACTIVE' exactly for an admin displayed as 'Active', and 'ACTIVE' otherwise |
| `AdminRoster.CapitalizedTargets` | apps/web/admin-fe/app/dashboards/super-admin/page.tsx:42 | 'INACTIVE' and 'ACTIVE' are displayed as 'Inactive' and 'Active' |
| `AdminRoster.AfterToggle` | apps/web/admin-fe/app/dashboards/super-admin/page.tsx:29-43 | a successful toggle shows 'Inactive' exactly when the admin showed 'Active', and 'Active' otherwise |
| `AdminRoster.ToggleTwice` | apps/web/admin-fe/app/dashboards/super-admin/page.tsx:29-43 | two toggles return 'Active' to 'Active', and any other status ends at 'Inactive' |
| `AdminRoster.FormatAdmins` | apps/web/admin-fe/app/dashboards/super-admin/page.tsx:70-73 | every admin kept, with only its status capitalised |
| `AdminRoster.FormatAdminsIdempotent` | apps/web/admin-fe/app/dashboards/super-admin/page.tsx:70-73 | formatting a formatted list changes nothing |
| `AdminRoster.WithStatus` | apps/web/admin-fe/app/dashboards/super-admin/page.tsx:41-43 | same length; only admins with the id get the status |
| `AdminRoster.Roster.constructor` | apps/web/admin-fe/app/dashboards/super-admin/page.tsx:21 | the list starts empty |
| `AdminRoster.Roster.Fetch` | apps/web/admin-fe/app/dashboards/super-admin/page.tsx:59-81 | a successful response replaces the list with its formatted admins; otherwise nothing changes |
| `AdminRoster.Roster.DeactivateAdmin` | apps/web/admin-fe/app/dashboards/super-admin/page.tsx:25-51 | an unknown id or a failed request changes nothing; on success the id's admins show the toggled status |
| `ComplaintTab.PriorityColor` | apps/web/admin-fe/app/dashboards/agent/components/ComplaintTab/index.tsx:59-70 | lower-cased "high", "medium" and "low" get the red, yellow and green classes; anything else, and a missing priority, get the default class |
| `ComplaintTab.StatusColor` | apps/web/admin-fe/app/dashboards/agent/components/ComplaintTab/index.tsx:72-85 | lower-cased "resolved", "in_progress", "pending" and "rejected" get the green, blue, yellow and red classes; anything else, and a missing status, get the default class |
| `ComplaintTab.ColorsIgnoreCase` | apps/web/admin-fe/app/dashboards/agent/components/ComplaintTab/index.tsx:59-85 | both colour lookups give the same class for a text and its lower-cased form |
| `ComplaintTab.StatusLabel` | apps/web/admin-fe/app/dashboards/agent/components/ComplaintTab/index.tsx:179 | a missing or empty status shows 'Pending'; otherwise the status with only its first underscore turned into a space |
| `ComplaintTab.LabelKeepsLaterUnderscores` | apps/web/admin-fe/app/dashboards/agent/components/ComplaintTab/index.tsx:179 | every underscore after the first is kept |
| `ComplaintTab.SelectorIsCaseSensitive` | apps/web/admin-fe/app/dashboards/agent/components/ComplaintTab/index.tsx:72-85 | for every text that lower-cases to "resolved", the colour is the resolved class, and the selector is shown exactly when the text is not the exact lower-case "resolved" |
| `ComplaintTab.UpperCaseResolvedKeepsSelector` | apps/web/admin-fe/app/dashboards/agent/components/ComplaintTab/index.tsx:187 | "RESOLVED" gets the resolved colour yet keeps its selector, which "resolved" hides |
| `ComplaintTab.ShowsSelector` | apps/web/admin-fe/app/dashboards/agent/components/ComplaintTab/index.tsx:187 | the selector is hidden exactly for the status text "resolved", compared case-sensitively; a hidden selector goes with the resolved colour, and every status not coloured as resolved keeps its selector |
| `ComplaintTab.WithStatus` | apps/web/admin-fe/app/dashboards/agent/components/ComplaintTab/index.tsx:37-39 | same length; only the rows with the id get the new status |
| `ComplaintTab.Tab.constructor` | apps/web/admin-fe/app/dashboards/agent/components/ComplaintTab/index.tsx:22 | the list starts empty |
| `ComplaintTab.Tab.UpdateStatus` | apps/web/admin-fe/app/dashboards/agent/components/ComplaintTab/index.tsx:26-47 | an accepted update changes only the rows with the id; a failed one changes nothing |

## Left out

- Database access (Prisma) is not modelled as such. Tables are maps held in classes. Each `$transaction` is one atomic step, and isolation levels and concurrent requests are not modelled.
- The assignment route's two writes are not in a transaction. The model performs them in sequence and does not model a crash between them.
- The agent pick orders by `lastLogin` descending. The model takes some eligible agent with the latest login. The database's tie order and its placement of agents without a login are not modelled.
- Network and process I/O are parameters, not behaviour:
  - the WebSocket server, the `fetch` calls to the language model and the back ends, `execSync` of the token command;
  - mail, timers and `console` logging.
- `generateClientId` is the `id` parameter of `Viewers.Registry.Connect`; the welcome and `pong` replies, message parsing and the server's options are not modelled. The heartbeat interval's timer is not modelled: `Sweep` is one tick.
- JWT signatures and expiry are the `verify` oracle; bcrypt hashing is not part of this model.
- zod's e-mail check is the `emailOk` flag. JavaScript `Number` parsing of coordinates is the `isNumeric` oracle (floating point). `new URL` is the `isUrl` oracle.
- Validators.SignupIssues: lengths are counted in Dafny characters, while JavaScript counts UTF-16 code units, so the two can differ for characters outside the Basic Multilingual Plane.
- Text.ToLower: only ASCII letters change case. JavaScript's full Unicode case mapping is not modelled.
- Text.UpperChar: only ASCII letters change case; JavaScript's `toUpperCase` can turn one character into several ("ß" into "SS"), which is not modelled.
- AdminRoster.Capitalize: the first Dafny character is upper-cased as ASCII; `charAt(0)` on a character outside the Basic Multilingual Plane takes half of a surrogate pair, and full Unicode upper-casing can lengthen the string, neither of which is modelled.
- Listing.Truncate: lengths and the 100-character cut count Dafny characters, while JavaScript's `length` and `substring` count UTF-16 code units, so the two differ for characters outside the Basic Multilingual Plane.
- ComplaintForm.DetailStepErrors: the 500-character limit counts Dafny characters, not UTF-16 code units.
- ComplaintForm.DetailError: the 500-character limit counts Dafny characters, not UTF-16 code units.
- ComplaintForm.StepPasses: the step-2 length bound counts Dafny characters, not UTF-16 code units.
- Upvotes.Store.ToggleUpvote: the broadcast's `type`, `timestamp` and `serverTime` fields are not modelled, nor is the JSON text of the message.
- Listing.ParseDecimal: `parseInt` is exact on unbounded integers. The loss of precision JavaScript numbers suffer beyond 2^53 is not modelled.
- Query parameters given as arrays or objects rather than strings are not modelled.
- The search and filter clauses of the listing's `where` object are not modelled. So are the row fetch itself and the `include`d relations. The listing is modelled by its row count.
- Date formatting with `toLocaleString` and display-only fields (titles, categories, complainants, timestamps) are not modelled.
- Failures while sending a JSON response, and the 500 replies for unexpected exceptions, are not modelled, except the agent-row write in the status update.
- The file-upload route and the complaint creation fields other than category and sub-category are not part of this model.
- Alerts, router navigation and loading flags of the front ends are not modelled.
- Dashboards.Group: the groups are a map, so the order in which `Object.entries` lists the statuses on the "Complaints by Status" card (the order each status first occurs) is not modelled. The same holds for the super admin and municipal dashboards.
