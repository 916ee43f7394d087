# Donation tracker: a Dafny model of its rules

This is a model of the rules inside a small web application. A coffee shop
uses the application to track donation requests from schools, nonprofits,
teams and other community groups. The model covers:

- **Dashboard statistics** (`DashboardStats`, dashboard.dfy). From the joined
  listing of requests it derives:
  - the amount donated this year;
  - the requests created this month;
  - the requests awaiting review;
  - the rounded approval rate;
  - per-status counts;
  - the ten most recent rows.

  The per-status counts are built by the source's loop. Each count is kept as
  an association list in first-seen order. That is the order a JavaScript
  object shows for keys that are neither integer-like nor names inherited
  from `Object.prototype`, which covers every declared status.
  `DashboardView` holds the hook's `stats`/`loading` state.
- **Public intake** (`PublicIntake`, intake.dfy). This is the endpoint a
  requester submits the public form to. It validates four required fields,
  then finds the requester by exact contact email or creates one, and then
  writes one donation request with forced and defaulted fields.
  - The hosted store is an in-memory requester table plus the list of written
    request payloads.
  - What the store answers at each step (lookup failure, write failures, the
    new id) is an input.
  - `Intake` is the specification. `IntakeStore.Submit` performs the writes one
    after another and is proved equal to it.
- **Reply drafting** (`DraftRoute`, draft.dfy). It checks the draft request and
  builds the status sentence and the prompt's fallbacks. It takes the draft
  from the model's first content block and builds the subject line. The
  language model itself is a function parameter.
- **Reply dialog** (`EmailReply`, reply_modal.dfy). This covers the recipient
  and its name fallback, the dialog's own initial subject rule, the handling of
  a draft, the send guards and their order, and the send button's disabled
  state. Each asynchronous handler is split at its `await` into a `Begin…` and
  a `Complete…` method.
- **Route classification**. `SessionMiddleware` (middleware.dfy) classifies
  protected routes and authentication pages and decides on a redirect, with
  `URLSearchParams.set` semantics for the `redirect` parameter. `HeaderNav`
  (header.dfy) decides which navigation item is highlighted.
- **Request list** (`DonationRequestList`, request_list.dfy). It applies the
  status filter, updates the hook's state on a load, and shapes the result of
  create/update/delete.
- **Toasts** (`Toasts`, toast.dfy). The provider's list is appended to by
  `showToast` and filtered by `hideToast`. `useToast` fails outside a
  provider.
- **Shared vocabulary**. `Database` (database.dfy) holds the record shapes and
  the three closed vocabularies. `Constants` (constants.dfy) holds the display
  tables and the option lists derived from them. `Js` (js.dfy) holds the
  JavaScript behaviour the rules rely on: truthiness, `||` fallbacks,
  `Array.prototype.filter`, `String.prototype.trim` with the ECMAScript
  whitespace set, and decimal rendering.

Some choices of representation:

- Records carry status, category and donation type as the strings the store
  sends. Nothing checks the declared unions at run time, and the dashboard
  counts an undeclared status under its literal value, provided that value is
  not the name of an `Object.prototype` property.
- Instants are integers. ISO-8601 strings of one format order like the
  instants they denote.
- Money is an integer.
- The dialog reads `email_sent_at` and `email_subject`, which the declared
  request type lacks. The model adds them as optional fields.

Behaviour worth noting:

- **Recent rows are not re-sorted.** The dashboard's recent requests are the
  first ten rows in the order received
  (src/lib/hooks/useDashboardStats.ts:72). Newest-first order comes only from
  the listing query (src/app/api/dashboard/route.ts:15).
- **Blank values pass intake.** The required-field check is a truthiness test
  (src/app/api/public-request/route.ts:22), so a field made only of spaces
  passes it (`PublicIntake.MissingFieldsRejected`).
- **Email matching is exact and case-sensitive.** The requester lookup is an
  equality filter with the store's single-row query
  (src/app/api/public-request/route.ts:37-41). When two requesters already
  share an email, the single-row query finds none and the route creates a
  third (`PublicIntake.DuplicateEmailAddsRequester`).
- **Lifecycle timestamps are stamped by the client.** The request detail page
  sets `reviewed_at` when it saves an approved or denied status and
  `fulfilled_at` when it saves a fulfilled one
  (src/app/(dashboard)/requests/[id]/page.tsx:89-90); its quick-action buttons
  do the same. The dashboard route passes the update through verbatim
  (src/app/api/dashboard/route.ts:39), so none of the modelled files holds a
  lifecycle rule.

## Model

| member | source | states |
|---|---|---|
| Database.ParseStatus | src/lib/types/database.ts:2 | a string parses to a status exactly when it is that status's name, so the five names are the only statuses |
| Database.ParseCategory | src/lib/types/database.ts:5 | the six category names are exactly the strings that parse, each to its own category |
| Database.ParseDonationType | src/lib/types/database.ts:8 | the six donation-type names are exactly the strings that parse, each to its own type |
| Constants.OptionsOf | src/lib/utils/constants.ts:27-40 | `Object.entries(...).map`: one option per table entry, same order, value = key, label = entry label |
| Constants.StatusConfigCoversStatuses | src/lib/utils/constants.ts:1-7 | the status table's keys are the five status names in declaration order; a string is a key iff it names a status |
| Constants.CategoryConfigCoversCategories | src/lib/utils/constants.ts:9-16 | the category table's keys are the six category names in order; a string is a key iff it names a category |
| Constants.DonationTypeConfigCoversTypes | src/lib/utils/constants.ts:18-25 | the donation-type table's keys are the six type names in order; a string is a key iff it names a type |
| Constants.OptionsFollowKeys | src/lib/utils/constants.ts:27-40 | any list derived this way has the table's keys as values, in order, each with its own entry's label |
| Constants.OptionListsFollowConfig | src/lib/utils/constants.ts:27-40 | each option list has one entry per table key, in order, with the key as value and the entry's label |
| DashboardStats.RoundedPercent | src/lib/hooks/useDashboardStats.ts:63 | `Math.round(100 * part / whole)` with halves rounding up: the result r satisfies 2·whole·r ≤ 200·part + whole < 2·whole·(r+1), and r ≤ 100 |
| DashboardStats.ApprovalRate | src/lib/hooks/useDashboardStats.ts:61-63 | the approval rate lies in [0, 100] and is 0 when nothing is decided |
| DashboardStats.ApprovalRateMeaning | src/lib/hooks/useDashboardStats.ts:61-63 | the rate is the rounded percentage of approved among decided requests, or 0 when none is decided |
| DashboardStats.ApprovedWithinDecided | src/lib/hooks/useDashboardStats.ts:61-62 | the approved requests are a sub-multiset of the decided ones, and filtering decided then approved equals filtering approved |
| DashboardStats.PendingReviewFromCounts | src/lib/hooks/useDashboardStats.ts:56-58 | pending review = count of `new` + count of `under_review`, absent keys reading 0 |
| DashboardStats.SumApprovedAppend | src/lib/hooks/useDashboardStats.ts:48 | the `reduce` sum of approved amounts (null as 0) is additive over concatenation |
| DashboardStats.SumApprovedNonNegative | src/lib/hooks/useDashboardStats.ts:48 | with non-negative amounts the sum is non-negative |
| DashboardStats.TotalDonatedNonNegative | src/lib/hooks/useDashboardStats.ts:46-48 | the year's donated total is non-negative when no approved amount is negative |
| DashboardStats.TotalDonatedAdditive | src/lib/hooks/useDashboardStats.ts:46-48 | the year's donated total of a concatenated listing is the sum of the parts' totals |
| DashboardStats.LookupPut | src/lib/hooks/useDashboardStats.ts:68 | writing `counts[key] = n` changes the value read at that key only |
| DashboardStats.KeysOfPut | src/lib/hooks/useDashboardStats.ts:68 | writing an existing key keeps the key order; a new key is appended last (first-seen order; see Left out) |
| DashboardStats.TotalCountPut | src/lib/hooks/useDashboardStats.ts:68 | a write changes the sum of the values by the new value minus the old |
| DashboardStats.CountStatusSnoc | src/lib/hooks/useDashboardStats.ts:67-69 | one more request adds one to its own status's count and nothing to any other |
| DashboardStats.StatusCountsLookup | src/lib/hooks/useDashboardStats.ts:66-69 | each key of `statusCounts` maps to the number of requests with exactly that status string, undeclared ones included (see Left out for `Object.prototype` names) |
| DashboardStats.StatusCountsKeys | src/lib/hooks/useDashboardStats.ts:66-69 | the keys are exactly the statuses that occur, each once |
| DashboardStats.StatusCountsTotal | src/lib/hooks/useDashboardStats.ts:66-69 | the counts add up to the number of requests |
| DashboardStats.CountByStatus | src/lib/hooks/useDashboardStats.ts:66-69 | the `forEach` loop builds the specified counts: per-status counts, distinct keys for exactly the occurring statuses, total = number of requests |
| DashboardStats.ComputeStats | src/lib/hooks/useDashboardStats.ts:39-72 | the six figures: month count ≤ n, pending = new + under_review counts, rate ≤ 100, counts per status summing to n, recent rows = the first min(10, n) rows unsorted |
| DashboardStats.MissingRequestsGiveInitialStats | src/lib/hooks/useDashboardStats.ts:39 | a reply without `requests` yields all-zero figures, empty counts and no recent rows |
| DashboardStats.DashboardView.constructor | src/lib/hooks/useDashboardStats.ts:16-24 | the hook starts with the all-zero figures and loading |
| DashboardStats.DashboardView.FetchStats | src/lib/hooks/useDashboardStats.ts:26-87 | a failed or thrown fetch leaves `stats` unchanged; a good one sets the figures of `data.requests \|\| []`; `loading` always ends false |
| PublicIntake.UpdateContact | src/app/api/public-request/route.ts:48-56 | the update by id rewrites the contact columns of rows with that id and no other row |
| PublicIntake.MissingFieldsRejected | src/app/api/public-request/route.ts:22-27 | 400 "Please fill in all required fields." iff a required field is missing or empty, with the store untouched |
| PublicIntake.ExistingRequesterReused | src/app/api/public-request/route.ts:37-56 | a single email match keeps its id and email, gets its contact columns refreshed when the update succeeds, others unchanged, and the update's outcome never changes the response |
| PublicIntake.NewRequesterCreated | src/app/api/public-request/route.ts:57-79 | without a match exactly one requester carrying the email is appended, or the insert fails with 500 and nothing is written |
| PublicIntake.RequesterWriteSurvivesFailedInsert | src/app/api/public-request/route.ts:95-101 | when the request insert fails the answer is 500 but the requester write stays (not atomic) |
| PublicIntake.OneRequestPerSuccess | src/app/api/public-request/route.ts:82-103 | success iff exactly one request is appended; it references an existing requester, has status `new` and today's request date; any failure appends nothing |
| PublicIntake.PayloadDefaults | src/app/api/public-request/route.ts:84-93 | forced status and date; empty phone, event name, event date and amount become null; type defaults to `gift_card`, category to `other` |
| PublicIntake.FilterUpdateContact | src/app/api/public-request/route.ts:48-56 | refreshing contact columns never changes which rows carry a given email |
| PublicIntake.ResubmissionReusesRequester | src/app/api/public-request/route.ts:36-79 | a second submission with the same new email reuses the requester the first created: one new row, two requests |
| PublicIntake.DuplicateEmailAddsRequester | src/app/api/public-request/route.ts:37-41 | with two rows already sharing the email, the single-row lookup finds nothing and a further row with that email is added |
| PublicIntake.IntakeStore.Submit | src/app/api/public-request/route.ts:4-111 | the step-by-step writes leave the store and give the response that `Intake` specifies |
| DraftRoute.NoKeyFailsFirst | src/app/api/generate-draft/route.ts:6-9 | without an API key the answer is 500 "Anthropic API key not configured" whatever the body |
| DraftRoute.MissingFieldsIff | src/app/api/generate-draft/route.ts:14-16 | 400 "Missing required fields" iff organisation or status is missing or empty |
| DraftRoute.StatusContextAmount | src/app/api/generate-draft/route.ts:20-26 | the amount appears only for approved/fulfilled and only when truthy (0 reads like none); denied is fixed; other statuses are echoed |
| DraftRoute.PromptFallbacks | src/app/api/generate-draft/route.ts:30-35 | missing contact → "the requester", missing amount → "an unspecified amount", missing type → "monetary" |
| DraftRoute.DraftFromFirstBlock | src/app/api/generate-draft/route.ts:55-68 | the draft is the first block's text if it is text, else empty; the subject is the route's subject |
| DraftRoute.SubjectShape | src/app/api/generate-draft/route.ts:58-66 | the subject is one of three prefixes by status, followed by " - " + event name exactly when the event name is non-empty, for every status |
| EmailReply.RecipientName | src/components/ui/EmailReplyModal.tsx:14 | contact name, else organisation name, else ""; empty exactly when both are |
| EmailReply.SubjectRulesAgreeIff | src/components/ui/EmailReplyModal.tsx:16-22 | the dialog's subject equals the route's iff there is no event name or the status is approved/fulfilled |
| EmailReply.DialogRequestPassesFieldCheck | src/components/ui/EmailReplyModal.tsx:37-47 | the dialog's draft body for a request with organisation and status never gets the route's 400 |
| EmailReply.EmailReplyModal.constructor | src/components/ui/EmailReplyModal.tsx:16-27 | initial state: the dialog's subject, empty body, nothing in progress, no error, no success |
| EmailReply.EmailReplyModal.BeginGenerateDraft | src/components/ui/EmailReplyModal.tsx:30-48 | marks generating, clears the error, posts the request's draft body |
| EmailReply.EmailReplyModal.CompleteGenerateDraft | src/components/ui/EmailReplyModal.tsx:49-59 | a draft replaces the body and the subject only when non-empty; a failure sets the error (route message or fallback); generating ends false |
| EmailReply.EmailReplyModal.BeginSend | src/components/ui/EmailReplyModal.tsx:62-85 | no address → that error, whatever the body; else a blank body (after `trim`) → that error; else sends to the recipient and the button is disabled |
| Js.TrimEmptyIffBlank | src/components/ui/EmailReplyModal.tsx:67 | `body.trim()` is empty iff every character is ECMAScript whitespace |
| EmailReply.EmailReplyModal.CompleteSend | src/components/ui/EmailReplyModal.tsx:86-99 | delivery sets success and keeps the button disabled; a failure sets the error with fallback "Failed to send email"; sending ends false |
| SessionMiddleware.SetParamGetAll | src/lib/supabase/middleware.ts:44 | after `searchParams.set`, the parameter has exactly the new value and every other parameter keeps its values in order |
| SessionMiddleware.ProtectedAndAuthDisjoint | src/lib/supabase/middleware.ts:35-51 | no path is both protected and an authentication page |
| SessionMiddleware.DecisionIff | src/lib/supabase/middleware.ts:41-59 | login redirect iff protected and signed out; dashboard redirect iff auth page and signed in; pass-through otherwise |
| SessionMiddleware.LoginRedirectCarriesPath | src/lib/supabase/middleware.ts:42-45 | the login redirect keeps origin and hash, carries the requested path as the only `redirect` value and keeps other parameters |
| SessionMiddleware.NoRedirectChain | src/lib/supabase/middleware.ts:41-57 | the target of a redirect never redirects again for the same visitor |
| HeaderNav.RequestsPrefixesExclusive | src/components/layout/Header.tsx:48 | no path starts with both "/requests" and "/requesters" |
| HeaderNav.ActiveItemsIff | src/components/layout/Header.tsx:45-48 | Dashboard active iff path is "/", Requests/Requesters iff the path starts with their href; at most one item active |
| HeaderNav.RawPrefixMatch | src/components/layout/Header.tsx:48 | the match is a raw prefix: any continuation of "/requests" highlights Requests |
| HeaderNav.ActiveImpliesProtected | src/components/layout/Header.tsx:9-13 | every nav target, and every path that highlights an item, is a protected route of the middleware |
| DonationRequestList.FilterByStatusContents | src/lib/hooks/useDonationRequests.ts:29-33 | with a status: only rows with that status, each as often as fetched; without one: the fetched list itself |
| DonationRequestList.FilterByStatusIdempotent | src/lib/hooks/useDonationRequests.ts:31-33 | filtering the filtered list again changes nothing |
| DonationRequestList.FilteredLengthIsStatusCount | src/lib/hooks/useDonationRequests.ts:31-33 | the filtered list is as long as the dashboard's count for that status |
| DonationRequestList.MutationIgnoresErrorField | src/lib/hooks/useDonationRequests.ts:55 | an `ok` answer is a success even when it carries an error field |
| DonationRequestList.RequestList.constructor | src/lib/hooks/useDonationRequests.ts:13-15 | the hook starts empty, loading, without error |
| DonationRequestList.RequestList.FetchRequests | src/lib/hooks/useDonationRequests.ts:17-41 | a good answer sets the filtered `requests \|\| []` and clears the error; a failure keeps the list and sets the error; loading ends false |
| DonationRequestList.RequestList.Mutate | src/lib/hooks/useDonationRequests.ts:47-93 | never throws; after `ok` it reloads and succeeds whatever the reload brings, and a failed reload keeps the list and records the reload's message (fallback "Failed to fetch"); after a failed POST nothing changes |
| Toasts.WithoutIdContents | src/components/ui/Toast.tsx:29-31 | hiding removes every toast with the id and keeps each other toast as often as before |
| Toasts.WithoutIdAbsentAndIdempotent | src/components/ui/Toast.tsx:30 | hiding an absent id changes nothing; hiding twice equals hiding once |
| Toasts.WithoutIdAppend | src/components/ui/Toast.tsx:30 | hiding distributes over concatenation, so survivors keep their order |
| Toasts.ShowThenHide | src/components/ui/Toast.tsx:29-36 | showing then hiding that id restores the list when no other toast shares the millisecond |
| Toasts.SameMillisecondToastsHideTogether | src/components/ui/Toast.tsx:34-35 | toasts shown in the same millisecond share an id, and one hide removes both |
| Toasts.ToastProvider.ShowToast | src/components/ui/Toast.tsx:33-37 | appends exactly one toast at the end and returns its id |
| Toasts.ToastProvider.HideToast | src/components/ui/Toast.tsx:29-31 | the list becomes the old list without the toasts with that id |

## Left out

- Store calls other than the intake flow: the listing, create, update and
  delete endpoints and the requester hooks. They are thin wrappers over a
  hosted database whose semantics are not shown. The POST bodies of
  create/update/delete are not modelled, only their answers.
- Columns the store fills in itself (ids of requests, `created_at`,
  `updated_at`, database defaults). The intake model records the payload the
  route writes.
- PublicIntake.NewRequester: the route's insert sends no `created_at` or
  `updated_at`. The model fills both with the parameter `now`, which stands
  for the store's column default.
- Authentication and cookies. The session refresh and `auth.getUser` are
  foreign I/O, and the middleware takes "signed in" as a boolean.
- The language-model call and the email transport. The model's answer and the
  send endpoint's answer are inputs.
- Timers. The toast's three-second timer would call the modelled
  `HideToast`, but its scheduling is not modelled. The dialog's timer, two
  seconds after a send, calls the `onSent` and `onClose` callbacks of its
  parent, and neither the callbacks nor the timer is modelled.
- The React lifecycle (`useEffect`, `useCallback`), and the logging to the
  console.
- Rendering and styling, including the "previously emailed" notice and toast
  colours.
- PublicIntake.RequestPayload: `parseFloat` is the parameter `parseAmount`,
  because floating-point parsing is out of scope.
- DashboardStats.RoundedPercent: computes round-half-up on exact rationals. It
  does not model the floating-point error of `approved / decided * 100` before
  `Math.round`.
- Dates: the clock, `toISOString` and the year and month starts are
  parameters (`today`, `now`, `yearStart`, `monthStart`). `created_at` is
  compared as an integer instant rather than as ISO text.
- Money is an integer, so fractional amounts are not represented.
- Optional chaining on the joined requester (`request.requester?.…`). The
  model always has a requester, so the `undefined` case is not represented.
- Thrown values that are not `Error` objects, and their fallback messages:
  "Failed to fetch requests", "Failed to create request", "Failed to update
  request", "Failed to delete request", and the dialog's catch-block
  fallbacks. Every failure in these handlers throws an `Error`, and a thrown
  error is modelled by its message.
- A body that is not JSON. For the intake and draft endpoints it is the `None`
  body and answers 500. For the hooks it is a thrown error.
- Status lifecycle timestamps (`reviewed_at`, `fulfilled_at`). They are
  stamped client-side by the request detail page
  (src/app/(dashboard)/requests/[id]/page.tsx), which is not part of this
  model. The dashboard route passes them through verbatim.
- DashboardStats.KeysOfPut: keys are kept in first-seen order. A JavaScript
  object lists integer-like keys (such as "1") first, in ascending order,
  and this is not modelled.
- DashboardStats.StatusCountsLookup: a status named like an inherited
  `Object.prototype` property is not modelled. "toString" would start from a
  function rather than 0, and "__proto__" would create no key. The rendered
  page reads only the five declared statuses
  (src/app/(dashboard)/page.tsx:92), which none of this affects.
- DashboardStats.StatusCountsKeys: the same two gaps apply. Integer-like
  statuses are listed in first-seen order, and `Object.prototype` names are
  treated as ordinary keys.
- `Profile`, `DonationRequestNote` and `RequesterWithStats` are declared but
  used by none of the modelled rules.
