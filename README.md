# RFP management system: vendor comparison, invitation and selection logic

This project models, in Dafny, the deterministic logic of an RFP (request for
proposal) management application. In the application a language model turns a
buyer's free-text need into a structured RFP, vendors are invited by email, their
proposals are structured by the model as well, and the proposals are compared.
The model covers four pieces:

- **The heuristic vendor scorer** (`rfp-backend/src/ai/compareProposals.ts`). Each
  proposal scores 60, plus `30 - min(p/1000, 30)` when a numeric price `p` is known,
  plus `max(0, 20 - min(d, 20))/2` when a numeric delivery time `d` is known. The sum
  is clamped to [0, 100]. Each proposal also gets a `"; "`-joined summary, and the
  first proposal with the best score is recommended. `compareProposalsWithAI` returns
  the model's reply when `JSON.parse` accepts its trimmed text. Otherwise it returns
  the heuristic result.
- **`formatValue`** (`rfp-backend/src/utils/helper.ts`). It renders a stored RFP
  field for the invitation email.
- **The handler logic of `rfp-backend/src/routes/rfpRoutes.ts`**: the 400-level
  request guards, the coercion of a generated RFP before it is stored, the summary
  lines, subject and body of the invitation email, and the per-vendor send loop with
  its attempted/sent tally.
- **The vendors page state** (`rfp-frontend/app/vendors/page.tsx`). The page holds
  the vendor list, the selected vendor ids, the chosen RFP, the form fields and the
  error/info messages. Its handlers toggle a selection, delete a vendor, create a
  vendor and send an RFP.

Files:

- `common.dfy` holds `Option` and `Result`.
- `js.dfy` holds the JavaScript value semantics the code relies on: a `Json`
  datatype, truthiness, property reads, `String(v)`, `Number(v)`, `trim` and `join`.
- `helper.dfy`, `compare_proposals.dfy`, `rfp_routes.dfy` and `vendors_page.dfy`
  follow the four source files.

Scores are exact `real`s. Everything outside the code is an input:

- the language model's reply (`None` when the call rejects) and `JSON.parse`
  (a function `string -> Option<Json>`, `None` when it throws);
- the database lookups (the RFP row found, the vendor and proposal rows found);
- the outcome of each email send (`delivered(i)` for the i-th send);
- the outcome of each frontend API call (`Outcome<T>`);
- three host operations that have no source here, collected in `Js.Runtime`:
  `Number.prototype.toString`, `JSON.stringify` and `Number(s)` on a string.

Behaviour of the code that a reader might not expect, and that the model keeps:

- A failing model call propagates. The call at compareProposals.ts:152-156 is outside
  the `try`, so its rejection is not caught. The model returns
  `Failure(ModelCallFailed)`.
- The reply is handed to plain `JSON.parse` after trimming (compareProposals.ts:158-161).
  No code fences are stripped and no braces are matched.
- A parsed reply is cast to the result type without any check
  (compareProposals.ts:161). The model's `Parsed` branch carries the raw JSON value.
- In the heuristic summary, price and delivery count only when they are numbers, and
  warranty and payment terms only when they are truthy (compareProposals.ts:66-71).
- `heuristicCompare` on no proposals throws, because `reduce` has no initial value
  (compareProposals.ts:83-85). The model requires non-empty input there, and
  `CompareProposalsWithAI` returns `Failure(EmptyReduce)` for that case. The
  analysis route's guard excludes it (`AnalysisNeverReducesEmpty`).

## Model

| member | source | states |
|---|---|---|
| `Js.Get` | rfp-backend/src/ai/compareProposals.ts:41-43 | a property read yields a value exactly when the value is an object that has the key, and then yields that key's value |
| `Js.TrimStart` | rfp-backend/src/ai/compareProposals.ts:158 | the result is a suffix of the input that does not start with whitespace, and everything removed was whitespace |
| `Js.TrimEnd` | rfp-backend/src/ai/compareProposals.ts:158 | the result is a prefix of the input that does not end with whitespace, and everything removed was whitespace |
| `Js.TrimEmptyIff` | rfp-backend/src/routes/rfpRoutes.ts:108 | a string trims to "" exactly when all of its characters are whitespace |
| `Js.Trim` | rfp-frontend/app/vendors/page.tsx:73 | the trimmed text is the slice of the input that starts after the leading whitespace; every character before and after that slice is whitespace, and the slice neither starts nor ends with whitespace |
| `Js.FalsyValues` | rfp-backend/src/ai/compareProposals.ts:39 | a JSON value is falsy exactly when it is null, false, 0 or "" (the truthiness that `if`, `!` and the logical or test) |
| `Js.ArrayToText` | rfp-backend/src/ai/compareProposals.ts:69-71 | `String` of an empty array is "", and of a one-element array is its element's text, a null element giving "" |
| `Js.Join` | rfp-backend/src/ai/compareProposals.ts:78 | joining no parts gives "", and a join always starts with its first part |
| `Js.JoinConcat` | rfp-backend/src/routes/rfpRoutes.ts:315-330 | joining two non-empty lists puts exactly one separator between their joins |
| `Helper.FormatValueCases` | rfp-backend/src/utils/helper.ts:2-37 | the case table of `Helper.FormatValue`: null and undefined give "Not specified"; a number gives its `toString`; a string is returned unchanged; an array gives its JSON serialisation; an object with both `amount` and `currency` gives "amount currency", and any other object its JSON serialisation; a boolean gives "true" or "false" |
| `Helper.ArrayNeverAmountCurrency` | rfp-backend/src/utils/helper.ts:12-18 | an array is always serialised, never rendered as an amount with a currency |
| `Helper.AmountCurrencyRendering` | rfp-backend/src/utils/helper.ts:21-25 | an object with a numeric amount and a string currency gives "<amount> <currency>", whatever its other keys |
| `CompareProposals.ProposalData` | rfp-backend/src/ai/compareProposals.ts:39 | the data read is always truthy: the extracted JSON itself when truthy, and `{}` otherwise |
| `CompareProposals.NumberField` | rfp-backend/src/ai/compareProposals.ts:41-43 | a field is read as a number exactly when it is present and a JSON number, and then it is that number |
| `CompareProposals.HeuristicScore` | rfp-backend/src/ai/compareProposals.ts:49-63 | the heuristic score lies in [0, 100] for every price and delivery time, negative ones included |
| `CompareProposals.PriceTermProperties` | rfp-backend/src/ai/compareProposals.ts:51-55 | the price term does not increase as the price grows, lies in [0, 30] for a non-negative price, is 0 from 30000 on, and is 29 for a price of 1000 |
| `CompareProposals.DeliveryTermProperties` | rfp-backend/src/ai/compareProposals.ts:57-60 | the delivery term does not increase as delivery slows, is 0 from 20 days on, and lies in [0, 10] for a non-negative time |
| `CompareProposals.ScoreExamples` | rfp-backend/src/ai/compareProposals.ts:49-63 | price 1000 with 5 days scores 96.5; price 500 with 30 days scores 89.5 |
| `CompareProposals.SummaryParts` | rfp-backend/src/ai/compareProposals.ts:65-71 | at most four parts, none empty, and none at all exactly when no numeric price, no numeric delivery time, no truthy warranty and no truthy payment terms are present |
| `CompareProposals.Summary` | rfp-backend/src/ai/compareProposals.ts:77-78 | the summary is never empty |
| `CompareProposals.SummaryLimitedIff` | rfp-backend/src/ai/compareProposals.ts:65-78 | the summary is the fixed "limited data" notice exactly when no numeric price, no numeric delivery time, no truthy warranty and no truthy payment terms are present |
| `CompareProposals.ScoreOf` | rfp-backend/src/ai/compareProposals.ts:38-80 | each entry carries its proposal's vendor id and name, a score in [0, 100] and a non-empty summary |
| `CompareProposals.ScoreProposal` | rfp-backend/src/ai/compareProposals.ts:39-79 | the step-by-step scoring yields the proposal's vendor id and name, the closed-form heuristic score (within [0, 100]) and the summary (never empty) |
| `CompareProposals.NoNumbersScoresSixty` | rfp-backend/src/ai/compareProposals.ts:41-60 | a proposal with neither a numeric price nor a numeric delivery time scores exactly 60 |
| `CompareProposals.FalsyProposalScore` | rfp-backend/src/ai/compareProposals.ts:39 | a falsy `extractedJson` (null, false, 0, "") is read as `{}`, scores 60 and gets the fixed notice |
| `CompareProposals.ReduceBest` | rfp-backend/src/ai/compareProposals.ts:83-85 | the reduce picks an index whose score is at least every score and strictly greater than every earlier score |
| `CompareProposals.FirstMaximumUnique` | rfp-backend/src/ai/compareProposals.ts:83-85 | only one index is a first maximum, so the scores determine the recommendation |
| `CompareProposals.HeuristicCompare` | rfp-backend/src/ai/compareProposals.ts:37-96 | there is one score per proposal, in input order, each that proposal's score; the recommendation names the vendor at the first maximal score, with the fixed heuristic reason |
| `CompareProposals.CompareProposalsWithAI` | rfp-backend/src/ai/compareProposals.ts:152-166 | a rejected model call fails; a trimmed reply that parses is returned unchanged; an unparsable one gives the heuristic result for non-empty input, and fails on the empty `reduce` for empty input |
| `CompareProposals.DegradedGuarantees` | rfp-backend/src/ai/compareProposals.ts:160-166 | on an unparsable reply the result has one entry per proposal with its vendor id, in order, every score in [0, 100], and the first best-scoring vendor recommended |
| `CompareProposals.ParsedIgnoresProposals` | rfp-backend/src/ai/compareProposals.ts:161 | a parsed reply is returned whatever the proposals are: it is not checked against them |
| `RfpRoutes.CheckNaturalText` | rfp-backend/src/routes/rfpRoutes.ts:16-20 | the request passes exactly when `natural_text` is a non-empty string; otherwise it is a 400 "natural_text is required" |
| `RfpRoutes.CoerceRfp` | rfp-backend/src/routes/rfpRoutes.ts:27-51 | a null generated RFP is a 500. Otherwise: budget and delivery days are kept exactly when they are numbers, else null; warranty is kept exactly when it is a string; payment terms are kept, a missing one as null; the stored title is the generated title when truthy and "Untitled RFP" otherwise, so never falsy |
| `RfpRoutes.CreateRfp` | rfp-backend/src/routes/rfpRoutes.ts:14-66 | a bad `natural_text` is a 400 before generation; a failed generation is a 500; a valid text with a generated RFP gives the coercion of that RFP when the row creation succeeds, and a 500 when it is rejected; a record is returned only in that first case |
| `RfpRoutes.CheckProposalRequest` | rfp-backend/src/routes/rfpRoutes.ts:94-110 | the checks run in order: a NaN RFP id is a 400; then a missing, falsy or NaN vendor id is a 400; then a missing, falsy or blank `rawText` is a 400 "rawText is required", and a truthy `rawText` that is not a string is a 500 "Failed to create proposal". The request passes exactly when the RFP id is a number, the vendor id is valid and `rawText` is a string that is not blank after trimming. A 500 happens only for a truthy non-string `rawText` |
| `RfpRoutes.ZeroVendorIdRejected` | rfp-backend/src/routes/rfpRoutes.ts:103-107 | a vendor id of 0 is rejected as missing |
| `RfpRoutes.AcceptedTextNotBlank` | rfp-backend/src/routes/rfpRoutes.ts:108-110 | an accepted proposal text has a character that is not whitespace |
| `RfpRoutes.AnalysisInput` | rfp-backend/src/routes/rfpRoutes.ts:210-220 | the comparison input has one proposal per stored proposal, in order, with that proposal's vendor id, vendor name and extracted JSON |
| `RfpRoutes.Analyze` | rfp-backend/src/routes/rfpRoutes.ts:187-247 | a NaN id is a 400, a missing RFP a 404, and an RFP without proposals a 400; otherwise the answer is the comparison's, and a comparison that throws is a 500 |
| `RfpRoutes.AnalysisNeverReducesEmpty` | rfp-backend/src/routes/rfpRoutes.ts:204-222 | with the lookups taken as returning, the analysis is a 500 only when the model call failed; an unparsable reply yields the heuristic result with one score per proposal |
| `RfpRoutes.CheckSendRequest` | rfp-backend/src/routes/rfpRoutes.ts:256-279 | the send checks run in order: NaN id (400), then a missing, non-array or empty `vendorIds` (400), then an unknown RFP (404), then no matching vendors (404). The request passes exactly when none applies |
| `RfpRoutes.RejectedBeforeLookup` | rfp-backend/src/routes/rfpRoutes.ts:259-266 | a request rejected with a 400 gets the same answer whatever the lookups would find |
| `RfpRoutes.TitleLine` | rfp-backend/src/routes/rfpRoutes.ts:284-288 | without a structured `title`, the line is "Title: " followed by the stored title unchanged |
| `RfpRoutes.FieldLines` | rfp-backend/src/routes/rfpRoutes.ts:290-312 | the optional lines are at most one per table entry |
| `RfpRoutes.SummaryLines` | rfp-backend/src/routes/rfpRoutes.ts:281-312 | there are between one and five lines, and the first is the title line |
| `RfpRoutes.BuildSummaryLines` | rfp-backend/src/routes/rfpRoutes.ts:281-312 | the conditional pushes yield the title line, then the lines for budget, delivery, payment terms and warranty whose keys are defined, in that order |
| `RfpRoutes.PushIfDefined` | rfp-backend/src/routes/rfpRoutes.ts:293-311 | one conditional push adds the field's line exactly when the key is defined on the object |
| `RfpRoutes.FirstLineIsTitle` | rfp-backend/src/routes/rfpRoutes.ts:284-288 | the first line is "Title: " with the structured title when the structured RFP is an object with a `title` key, and with the stored title otherwise |
| `RfpRoutes.FieldLinePresent` | rfp-backend/src/routes/rfpRoutes.ts:290-312 | each defined key gives its line, showing the formatted value |
| `RfpRoutes.FieldLineOnlyIfPresent` | rfp-backend/src/routes/rfpRoutes.ts:290-312 | each optional line belongs to a defined key of the table |
| `RfpRoutes.NonObjectSummary` | rfp-backend/src/routes/rfpRoutes.ts:284-290 | a structured RFP that is not an object gives only "Title: " plus the stored title |
| `RfpRoutes.NullBudgetLine` | rfp-backend/src/routes/rfpRoutes.ts:293-295 | a null budget still gives the line "Budget: Not specified" |
| `RfpRoutes.Subject` | rfp-backend/src/routes/rfpRoutes.ts:314 | the subject is "RFP: " followed by the stored title |
| `RfpRoutes.Body` | rfp-backend/src/routes/rfpRoutes.ts:315-330 | the body always starts with "Dear Vendor," |
| `RfpRoutes.BodyLayout` | rfp-backend/src/routes/rfpRoutes.ts:315-330 | the body is the joined preamble, a newline, the joined summary lines, a newline and the joined footer |
| `RfpRoutes.SendToVendors` | rfp-backend/src/routes/rfpRoutes.ts:332-346 | one email and one result per vendor, in vendor order; the result records the vendor's id, email and whether its send succeeded |
| `RfpRoutes.CountSent` | rfp-backend/src/routes/rfpRoutes.ts:348 | the success count never exceeds the number of results |
| `RfpRoutes.CountSentExtremes` | rfp-backend/src/routes/rfpRoutes.ts:348-353 | sent equals attempted exactly when every send succeeded, and sent is 0 exactly when none did |
| `RfpRoutes.Tally` | rfp-backend/src/routes/rfpRoutes.ts:348-354 | attempted is the number of results, sent is the number of successful results (so at most attempted), and the results are returned unchanged |
| `RfpRoutes.SendRfp` | rfp-backend/src/routes/rfpRoutes.ts:256-355 | a rejected request sends nothing and returns the guard's error. An accepted one sends each found vendor the same subject and body, and reports attempted = number of vendors, sent = number of successes ≤ attempted, and the per-vendor results in order |
| `VendorsPage.Filter` | rfp-frontend/app/vendors/page.tsx:103-104 | filtering keeps exactly the elements that satisfy the test |
| `VendorsPage.FilterCounts` | rfp-frontend/app/vendors/page.tsx:103-104 | filtering keeps every occurrence of a value that passes and none of one that fails |
| `VendorsPage.FilterIsSubsequence` | rfp-frontend/app/vendors/page.tsx:103-104 | filtering keeps the relative order of what it keeps |
| `VendorsPage.FilterConcat` | rfp-frontend/app/vendors/page.tsx:118 | filtering distributes over concatenation |
| `VendorsPage.FilterKeepsAll` | rfp-frontend/app/vendors/page.tsx:118 | filtering a list whose elements all pass changes nothing |
| `VendorsPage.FilterNoDuplicates` | rfp-frontend/app/vendors/page.tsx:104 | filtering a duplicate-free list gives a duplicate-free list |
| `VendorsPage.Without` | rfp-frontend/app/vendors/page.tsx:104 | the removed id no longer occurs |
| `VendorsPage.RemoveVendor` | rfp-frontend/app/vendors/page.tsx:103 | no remaining vendor has the removed id |
| `VendorsPage.Toggled` | rfp-frontend/app/vendors/page.tsx:117-118 | the toggled id is in the new selection exactly when it was not in the old one |
| `VendorsPage.ToggleFlipsMembership` | rfp-frontend/app/vendors/page.tsx:117-118 | toggling flips the membership of the toggled id and leaves every other id's membership unchanged |
| `VendorsPage.ToggleShape` | rfp-frontend/app/vendors/page.tsx:116-120 | an absent id is appended at the end; a present id loses all its occurrences, with the rest in order |
| `VendorsPage.ToggleKeepsNoDuplicates` | rfp-frontend/app/vendors/page.tsx:117-118 | toggling keeps the selection free of duplicates |
| `VendorsPage.ToggleTwiceRestores` | rfp-frontend/app/vendors/page.tsx:117-118 | toggling an absent id twice restores the selection exactly |
| `VendorsPage.RemoveVendorProperties` | rfp-frontend/app/vendors/page.tsx:103 | a delete keeps exactly the vendors with another id, each as often as before, in their original order |
| `VendorsPage.CountText` | rfp-frontend/app/vendors/page.tsx:140-142 | a missing or null count shows as 0, and a numeric count shows as that number |
| `VendorsPage.SentNotice` | rfp-frontend/app/vendors/page.tsx:140-142 | the notice starts with "RFP sent to " |
| `VendorsPage.Page.constructor` | rfp-frontend/app/vendors/page.tsx:9-22 | the page starts with no vendors, no selection, no RFP chosen, empty form fields and no messages |
| `VendorsPage.Page.ToggleVendorSelection` | rfp-frontend/app/vendors/page.tsx:116-120 | the selection becomes the toggled selection, and stays free of duplicates |
| `VendorsPage.Page.HandleDeleteVendor` | rfp-frontend/app/vendors/page.tsx:98-114 | a successful delete removes the id from both the vendor list and the selection and shows "Vendor deleted."; a failed one changes neither list and shows the error |
| `VendorsPage.Page.HandleCreateVendor` | rfp-frontend/app/vendors/page.tsx:68-96 | a request is made exactly when neither name nor email trims to empty; a created vendor is prepended and the form cleared; otherwise the list and form are kept and the error shown |
| `VendorsPage.Page.ApplyCreateOutcome` | rfp-frontend/app/vendors/page.tsx:79-95 | a created vendor is prepended and the form cleared with the success notice; a failure keeps the list and the form and shows the error |
| `VendorsPage.Page.HandleSendRfp` | rfp-frontend/app/vendors/page.tsx:122-153 | a request is made exactly when an RFP (non-zero id) is chosen and some vendor is selected, and then carries that id and the selection; each guard shows its own error; a reply shows the sent/attempted notice |

## Left out

- HTTP routing and response envelopes are not modelled. The handlers are modelled by
  their decisions: the status and error message of an early exit, the stored record,
  and the tally. The success payloads (ids, timestamps, the echoed proposals) are not.
- Prisma queries are not modelled, because they are persistence with no algorithm.
  Their results are inputs: the RFP found, the vendors found by
  `where: { id: { in: vendorIds } }`, and the proposals in creation order. The same
  holds for `vendorRoutes.ts` and `db/prisma.ts`.
- The mailer (`email/mailer.ts`) is left out. Each send is an input `delivered(i)`,
  and the email handed to it is an output.
- The language-model clients (`ollama.ts`, `openRouter.ts`) and the prompt text
  (compareProposals.ts:101-150) are left out. The reply is an input.
- `generateRfp.ts` and `parseProposal.ts` are left out. They call the model, then
  parse or throw. Their outcome is an input of `CreateRfp`. The proposal-creation
  steps after the guards are not modelled: the RFP and vendor lookups (404),
  `parseVendorProposal` and the row creation.
- `extractJson` is left out. It is imported at generateRfp.ts:10, but its definition
  is not part of this model. No fence stripping or brace matching is modelled.
- `JSON.parse`, `JSON.stringify`, `Number.prototype.toString` and `Number(s)` on
  strings are abstract functions. They are JavaScript library code, not part of the
  repository.
- IEEE-754 doubles are not modelled. Scores, prices and days are exact reals, so
  rounding in `p / 1000` and the halving are not captured. Neither are JSON numbers
  that overflow to Infinity, or the infinities that `Number(s)` can return (the guards
  treat them like any number that is not NaN).
- Object key order and duplicate keys are not modelled, because objects are maps.
  Only `JSON.stringify`'s output depends on key order, and it is abstract. Properties
  that strings and arrays inherit (`length`) are not modelled, because none of the
  keys read here is one.
- The `catch` branches of `formatValue` after `JSON.stringify` (helper.ts:15-17,
  29-31) are not modelled. Stringifying a JSON value cannot throw.
- Database lookups are taken to return. In the code a throwing `prisma.rfp.findUnique`
  or `prisma.proposal.findMany` (rfpRoutes.ts:193, 198) is also answered with a 500
  (rfpRoutes.ts:242-246), and so are throwing send lookups (rfpRoutes.ts:268, 273 and
  356-358). `Analyze`, `AnalysisNeverReducesEmpty`, `CheckSendRequest` and `SendRfp`
  state their outcomes for lookups that return.
- The vendors-page handlers are modelled as single atomic steps, each with the
  outcome of its awaited call as an input. In the code they `await`
  (page.tsx:80, 102, 138), and other events can run in between. The functional
  updaters at page.tsx:82 and 103-104 apply to the state current when the call
  resolves. The model applies them to the state the handler started from.
- Console logging is not modelled, because it has no effect on results.
- On the vendors page, the `loading` and `sending` flags are not modelled. They are
  set before an awaited call and reset after it, and only disable buttons. Nor are
  `fetchVendors`, `fetchRfps` (including the default choice of the first RFP), the
  RFP selector's `onChange` or the rendering.
- The other frontend files (`comparison/page.tsx`, `RfpCreator.tsx`, `app/page.tsx`,
  `Navbar.tsx`, `lib/api.ts`, `lib/config.ts`) are left out. They are rendering and
  fetch wrappers. `lib/types.ts` only shaped the datatypes.
- Environment loading (`utils/config.ts`) and `app.ts` are left out. They are
  configuration.
