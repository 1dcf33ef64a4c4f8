# Monthly AI-query quota of the credit-analysis backend

This project is a Dafny model of the usage-metering core of a small Express and
Mongoose backend. That core does four things:

- A user record (`Models/User.js`) holds a subscription tier (free,
  professional, business or enterprise), two monthly counters and the date of
  the last monthly reset.
- Three methods act on that record:
  - `resetMonthlyUsage` zeroes the counters when the calendar month or year has
    changed since the last reset.
  - `canMakeAIQuery` compares the query count with the tier's limit: 10, 100,
    500 or unbounded.
  - `incrementAIUsage` adds one query and saves the record.
- The AI routes (`routes/ai.js`) run these in a fixed order before each
  `/analyze` request. They find the user, or create a free user on first
  contact. Then they roll the month over and apply the gate. A denial answers
  429 with the limit, the count and the tier. A permit consumes one query.
- Only after consuming does `/analyze` check the prompt. It then builds the
  message list for the upstream model: an optional system message, the
  caller's earlier messages, and the prompt last. `/usage` reports the
  rolled-over counts without saving them.

The model has three modules:

- `UserModel` (`user_model.dfy`) holds the record's value types and the pure
  rollover and limit functions. It also holds a `User` class whose methods
  change the loaded document in place, and a `UserCollection` class. The
  collection stands for the database: a map from auth0Id to the stored record.
- `AiRoute` (`ai_route.dfy`) holds the plan-limit table and the tracking step.
  The tracking step exists as a function on the stored records (`Track`) and as
  the method that runs it on the objects (`TrackUsage`). The module also holds
  the `/analyze` handler up to the upstream call, and `/usage`.
- `QuotaRuns` (`quota_runs.dfy`) covers sequences of requests from one
  identity. It proves that the quota is never exceeded, that denials are
  idempotent, that the enterprise tier is never denied, and the free-tier
  scenario: ten permits, a denial, then a new month.

Where the model departs from the JavaScript:

- Time is a parameter. An `Instant` keeps the local year, month (0 to 11, as
  `getMonth` returns it) and day. One `now` per request stands for every
  `new Date()` that request makes.
- One might expect the reset anchor to move only forward. The code resets
  whenever the month or year differs, so an earlier clock also resets.
  `AnchorMovesForward` proves forward movement when the clock does not run
  backwards.
- Also per the code: a denial saves nothing, so the login time set by that
  request is lost. A record whose validation fails answers 500.

## Model

| member | source | states |
|---|---|---|
| `UserModel.QueryLimit` | Models/User.js:82-87 | only enterprise is unbounded; every finite limit is at least 10, so a zeroed account may always query |
| `UserModel.RolledOver` | Models/User.js:66-78 | after a rollover the anchor lies in now's month, and neither counter has grown |
| `UserModel.Lowercase` | Models/User.js:13-17 | the stored email has the same length; each upper-case ASCII letter becomes its lower-case letter and every other character is unchanged |
| `UserModel.NewDoc` | Models/User.js:21-49 | a fresh record has both counters 0, anchor and creation time now, status trialing, tier free unless given; it passes validation iff auth0Id and email are non-empty |
| `UserModel.User.Create` | Models/User.js:3-63 | `new User({...})` builds exactly the record of `NewDoc`, email lowercased and defaults filled in |
| `UserModel.User.ResetMonthlyUsage` | Models/User.js:66-78 | returns true iff now's month or year differs from the anchor's; then both counters are 0 and the anchor is now; otherwise nothing changes; no other field is touched |
| `UserModel.User.CanMakeAIQuery` | Models/User.js:81-90 | true iff the count is below 10, 100 or 500 for free, professional or business; always true for enterprise |
| `UserModel.User.IncrementAIUsage` | Models/User.js:93-96 | the query count rises by exactly 1; the other usage fields are unchanged; the save succeeds iff the record validates, and then stores it under its auth0Id |
| `UserModel.UserCollection.FindOne` | routes/ai.js:37 | null iff no record has that auth0Id; otherwise a fresh in-memory copy of the stored record |
| `UserModel.UserCollection.Save` | Models/User.js:95 | saves iff the record passes the required validators; then the record is stored under its auth0Id; the store keeps every record under its own id |
| `UserModel.RolloverWithinPeriodIsNoOp` | Models/User.js:71-77 | within the anchor's month and year a rollover changes nothing |
| `UserModel.RolloverOnNewPeriodResets` | Models/User.js:71-75 | in any other month both counters become 0 and the anchor becomes now |
| `UserModel.RolloverAtMonthBoundary` | Models/User.js:71 | the comparison is by calendar month: day 31 of a month followed by day 1 of the next resets |
| `UserModel.RolloverInSameMonthOfOtherYear` | Models/User.js:71 | the same calendar month in another year resets |
| `UserModel.ManyMissedMonthsResetOnce` | Models/User.js:71-75 | after any number of missed months the result is one reset, independent of the old anchor and counts |
| `UserModel.RolloverIdempotent` | Models/User.js:71-74 | a second rollover anywhere in the same month changes nothing |
| `UserModel.AnchorMovesForward` | Models/User.js:74 | when the clock has not gone back, the anchor's month never moves back |
| `AiRoute.PlanLimit` | routes/ai.js:21-26 | the route's limit table agrees tier for tier with the gate's table |
| `AiRoute.Track` | routes/ai.js:29-87 | a denial saves nothing and never hits a new identity; its 429 body quotes the limit that denied it and a count not below it; a permit leaves a count between 1 and the limit and saves what it passes on; store validity and "no record over quota" are preserved |
| `AiRoute.TrackUsage` | routes/ai.js:29-87 | the in-place find-or-create, last-login, reset, gate and increment sequence leaves the store and the outcome exactly as `Track` says |
| `AiRoute.NewIdentityIsCreatedFree` | routes/ai.js:32-49 | an unknown identity fails only without a subject; otherwise it is saved as free and trialing, email falling back to the subject (lowercased), name to that email; its first query is consumed; nothing else in the store changes |
| `AiRoute.NewMonthIsNeverBlocked` | routes/ai.js:55-59 | rollover precedes the gate: the first request of a new month is permitted with count 1, whatever the old count |
| `AiRoute.PermitConsumesExactlyOne` | routes/ai.js:71-72 | a permitted request adds exactly one query to the rolled-over count, changes only that and the login time, and saves it |
| `AiRoute.GateDecidesStoredUser` | routes/ai.js:56-69 | for a stored user the request is permitted iff the rolled-over count is below the tier's limit; a denial carries that limit, that count and the tier |
| `AiRoute.MessageList` | routes/ai.js:109-125 | length is (system message ? 1 : 0) + number of array messages + 1; the system message comes first when present, the caller's array messages follow in order, and the user prompt is last |
| `AiRoute.BuildMessages` | routes/ai.js:108-125 | the push-by-push construction yields exactly `MessageList` |
| `AiRoute.Analyze` | routes/ai.js:90-125 | the store changes only through tracking; then 429 and 500 come from tracking, 400 for a missing prompt, 500 for a missing key, and otherwise the upstream request with the saved usage |
| `AiRoute.MissingPromptStillConsumes` | routes/ai.js:90-99 | quota is consumed before the prompt check: a permitted request without a prompt gets 400 and the saved count still rises by one |
| `AiRoute.ForwardReportsSavedUsage` | routes/ai.js:163-166 | a forwarded request reports the count just saved and the tier's limit, the count minus one was below that limit, and the prompt is the last message |
| `AiRoute.GetUsage` | routes/ai.js:181-198 | 404 iff the user is unknown; otherwise the rolled-over count, the tier's limit, the tier and the rolled-over reset date; nothing is saved |
| `AiRoute.UsageReportPredictsGate` | routes/ai.js:190-195 | the count and limit /usage reports decide the next request at the same time: permitted iff count is below limit |
| `QuotaRuns.Run` | routes/ai.js:29-87 | a sequence of tracked requests yields one outcome per request and keeps the store valid |
| `QuotaRuns.RunAppend` | routes/ai.js:29-87 | running two batches of requests one after the other equals running them together |
| `QuotaRuns.QuotaNeverExceeded` | routes/ai.js:59-72 | if no stored count is over its limit, none is after any sequence of requests, and no permitted request leaves its user over the limit |
| `QuotaRuns.DenialsChangeNothing` | routes/ai.js:59-69 | at the limit and within the month, any number of further requests are all denied and the store stays exactly as it was |
| `QuotaRuns.RequestsWithinOneMonth` | routes/ai.js:56-79 | within one month, starting at count k ≤ L, request i is permitted with count k+i+1 while k+i < L and then denied with used = limit = L; the count ends at min(k+n, L), tier and anchor unchanged |
| `QuotaRuns.EnterpriseNeverDenied` | Models/User.js:86-89 | the unbounded tier is permitted on every request of any sequence |
| `QuotaRuns.FirstMonthOfFreeAccount` | routes/ai.js:39-79 | from first contact, ten requests in that month are permitted with counts 1 to 10 and the eleventh is denied with used 10 and limit 10 |
| `QuotaRuns.FreeTierScenario` | routes/ai.js:39-79 | the same ten permits and one denial, then a request in another month rolls over and is permitted with count 1 |
| `QuotaRuns.March2024Scenario` | routes/ai.js:39-79 | the scenario with first contact on 15 March 2024 and a request on 1 April 2024 |

## Left out

- Token verification (routes/ai.js:8-18) is a foreign library call. The model takes its result, the claims `sub`, `email` and `name`, as input.
- The upstream chat-completion call and the reshaping of its answer (routes/ai.js:127-169) are network I/O. `/analyze` is modelled up to the request it would send, together with the usage block it returns.
- The `percentage` field (routes/ai.js:167, 196) is left out. It is floating-point division, and for enterprise a division by Infinity.
- Console logging, the `/test` endpoint, services/aiPrompts.js and server.js are left out: they hold no quota logic, only I/O wiring and prompt templates.
- Concurrency is left out; the model is single-threaded. Two parallel requests can both pass the gate before either saves.
- Persistence failures other than the schema's `required` validators are left out. Mongoose's `_id`, the `updatedAt` timestamp and the race on the unique index are left out too.
- `UserModel.UserCollection.Save`: Mongoose inserts a new document and updates a loaded one by `_id`. The model upserts under the record's auth0Id. The two agree because auth0Id is never changed.
- Dates are local (year, month, day) triples. Time zones and times of day are not modelled.
- The Stripe fields (`stripeCustomerId`, `stripeSubscriptionId`, `currentPeriodEnd`) are left out: nothing in the core reads or writes them. `modelData` in the `/analyze` body is left out for the same reason.
- Message elements are (role, content) pairs. The code forwards any JSON value found in the array unchanged. `prompt`, `systemMessage`, `email` and `name` are optional strings: absent or empty counts as falsy. Non-string JSON values are not modelled.
- Counters are unbounded naturals. JavaScript numbers lose precision above 2^53, which no monthly count reaches.
- `reportsThisMonth` is only ever zeroed by the core. Nothing in the modelled files increments it.
- `UserModel.Lowercase`: folds ASCII letters only, where `toLowerCase` folds all Unicode letters.
