# Push-notification admin console, modelled in Dafny

This project models the server-side core of a Firebase push-notification
admin console. The console has these parts:

- **Two ad hoc send endpoints.** One is the web application's
  `POST /api/notification`; the other is the standalone express server's
  `POST /send-notification`. Each composes one message and addresses it by
  a single provider token, by a list of tokens, or by a platform topic
  condition, in that order of precedence.
- **Event-automation registration** on the express server. It validates a
  request and writes one rule document per event type of the catalog.
- **The rule list** of the web application (`GET /api/automation/list`). It
  has an authentication gate, parameter defaults, status and platform
  equality filters and an ordering applied by the document store, then a
  case-insensitive search.
- **The Cloud Functions back end for audience rules.** It covers the
  message builder, the create, toggle, delete and test-send handlers, the
  scheduled sweep that sends every enabled rule to its audience topic and
  counts the outcome, the list statistics with the success rate, and the
  merged list of built-in and analytics-provided audience segments.
- **The analytics endpoint** (`GET /api/analytics/segments`). It computes
  per-platform user totals from a report, a histogram of three user
  properties, the ten most frequent recent events, and the user count of
  each of three fixed segments.

The document store, the messaging provider and the analytics providers are
not part of the model. Their answers enter as inputs:

- store contents are a `seq` or a `map`;
- provider replies are a datatype, or a function from the send made to the
  reply;
- report rows are a `seq`;
- wall-clock timestamps are opaque strings or integers supplied by the
  caller.

Where the handlers change the store, the model is a class whose methods
update a `map` field: `Server.EventAutomationStore` and
`Automations.RuleStore`. The sweep, the histogram, the event counts, the
device totals and the message builder are methods; the first four are loops.
Each method is proved against a specification function, and the properties
are then proved about those functions. The token filters, the search and
the orderings are `filter` and `sort` calls in the code, and are recursive
functions here.

The modules follow the source files:

| file | module | source |
|---|---|---|
| common.dfy | `Common` | JavaScript helpers: truthiness, `toLowerCase`, `includes`, `filter`, `reduce` |
| sorting.dfy | `Sorting` | `Array.prototype.sort`, `orderBy` and `slice(0, n)` |
| events.dfy | `Events` | src/types/events.ts |
| messaging.dfy | `Messaging` | the request, message and reply shapes the two send endpoints share |
| notification_route.dfy | `NotificationRoute` | src/app/api/notification/route.ts |
| server.dfy | `Server` | src/server.ts |
| automation_list.dfy | `AutomationList` | src/app/api/automation/list/route.ts |
| automations.dfy | `Automations` | functions/src/automations.ts, rules and statistics |
| audience_segments.dfy | `AudienceSegments` | functions/src/automations.ts, segments |
| segments_route.dfy | `SegmentsRoute` | src/app/api/analytics/segments/route.ts |

Some things the surrounding program implies do not hold in the handlers,
and the model follows the handlers:

- **Sweep counters.** The rule list page shows the success and failure
  rates as `success / sent` and `failure / sent`
  (src/app/automation/page.tsx:344-353), as if every send were either a
  success or a failure. In the sweep, a failed send increments `failure`
  alone, and an accepted send increments `success` only when the returned
  id is truthy. `Automations.FailureBreaksSentBalance` shows that both steps
  lose `sent == success + failure` from any state that has it. The weaker
  invariant `success <= sent` is proved instead.
- **Send targets.** The send endpoints accept any combination of `token`,
  `tokens` and `platform` in one body and apply a precedence among them, so
  the model proves the precedence.
- **Sort fields.** The rule list page offers `sent` and `success` as sort
  fields (src/app/automation/page.tsx:21). The list handler passes the
  parameter straight to `orderBy`. No rule has a top-level `sent` field, so
  such an ordering lists no rule.
- **Platforms.** The page offers `all`, `ios` and `android`
  (src/app/automation/page.tsx:19). The handler filters on
  `target.<platform>` for any other value too, which matches no rule.

## Model

| member | source | states |
|---|---|---|
| NotificationRoute.ValidTokens | src/app/api/notification/route.ts:51 | the filtered list holds exactly the submitted string tokens longer than 20 characters, and is no longer than the submission |
| NotificationRoute.ValidTokensAppend | src/app/api/notification/route.ts:51 | filtering commutes with concatenation, so valid tokens keep their submitted order |
| NotificationRoute.ValidTokensCount | src/app/api/notification/route.ts:51 | each valid token appears as often as it was submitted; an invalid one never appears |
| NotificationRoute.BaseMessage | src/app/api/notification/route.ts:15-26 | title and body as given; the image only when truthy; data keeps the caller's keys and values and always has `timestamp` set to now |
| NotificationRoute.PlatformCondition | src/app/api/notification/route.ts:79-89 | a condition exists exactly for `ios`, `android` and `all`, and it is `'<platform>' in topics` |
| NotificationRoute.Dispatch | src/app/api/notification/route.ts:30-106 | in each precedence branch: a send exactly when the token, token list or platform is acceptable, the address it goes to, and the 400 error otherwise; with no target, 400 "token or platform required"; every send carries the base message |
| NotificationRoute.TokenTakesPrecedence | src/app/api/notification/route.ts:31-48 | with a truthy `token`, changing `tokens` or `platform` changes nothing |
| NotificationRoute.TokensTakePrecedence | src/app/api/notification/route.ts:50-77 | with no token and a non-empty `tokens`, changing `platform` changes nothing |
| NotificationRoute.SendAddressWellFormed | src/app/api/notification/route.ts:39-94 | every send goes to a valid token, to a non-empty list of valid tokens no longer than the submission, or to one of the three conditions |
| Messaging.Respond | src/app/api/notification/route.ts:44-113 | a refusal is answered as decided; a single send is answered with the provider's message id; a multicast with the provider's success and failure counts, `validTokens` as the number sent and `totalTokens` as the number submitted; a provider exception gives 500 with its message, or "알림 전송 실패" when that is empty |
| Server.SameTokenCheck | src/server.ts:21-23 | the server's token check accepts exactly what the web route's check accepts |
| Server.FilterTokensAgrees | src/server.ts:65 | the server's token filter equals the web route's |
| Server.SendNotificationMatchesRoute | src/server.ts:26-113 | `/send-notification` decides every request exactly as the web route does: same precedence, same errors, same message |
| Server.Validate | src/server.ts:126-142 | a refusal is 400; a missing event type or notification is refused with its own message first; then a missing or untruthy title or body is refused with the title/body message; then an event type outside the catalog is refused with the unknown-type message; an accepted request has a catalog event type and truthy title and body |
| Server.ValidateAcceptsExactly | src/server.ts:128-142 | a registration is accepted if and only if both fields are present, title and body are truthy, and the event type is a catalog key |
| Server.TitleCheckedBeforeCatalog | src/server.ts:128-142 | a request with a missing title is refused for the title, whatever its event type |
| Server.AfterRegister | src/server.ts:144-151 | a refused request leaves the store as it was; an accepted one adds or replaces only the document under its event type |
| Server.AfterRegisterKeyed | src/server.ts:139-151 | every document stays stored under its own event type, which is a catalog key |
| Server.ReRegisterReplaces | src/server.ts:146-151 | registering the same event type twice leaves only the second rule |
| Server.EventAutomationStore.Register | src/server.ts:124-161 | the answer is the validation result, and the new store is the old one with that one document set |
| AutomationList.DefaultQuery | src/app/api/automation/list/route.ts:17-21 | no parameters means status `all`, platform `all`, no search, newest first by `createdAt` |
| AutomationList.RuleOrderIsTotalPreorder | src/app/api/automation/list/route.ts:40 | the ordering by any field and direction is a total preorder |
| AutomationList.OrderBy | src/app/api/automation/list/route.ts:40-42 | the ordered rules are a permutation of those that have the sort field, each as often as stored, ordered by it |
| AutomationList.SearchKeepsExactlyMatches | src/app/api/automation/list/route.ts:49-55 | the search keeps exactly the rules whose lower-cased name or event type contains the lower-cased text |
| AutomationList.SearchAppend | src/app/api/automation/list/route.ts:49-55 | searching a concatenation concatenates the searches, so the search keeps the store's order |
| AutomationList.SearchEmptyKeepsAll | src/app/api/automation/list/route.ts:49-55 | searching for the empty text keeps every rule |
| AutomationList.SearchIdempotent | src/app/api/automation/list/route.ts:49-55 | searching twice for the same text is searching once |
| AutomationList.SearchIgnoresCase | src/app/api/automation/list/route.ts:50-54 | the search ignores the case of the search text |
| AutomationList.List | src/app/api/automation/list/route.ts:8-68 | without a session, 401; with a session, 500 exactly when the store refuses to build the query (a platform or sort field that is not a valid field path, or a direction that is not `asc` or `desc` in any letter case) or the read of the collection fails, otherwise always a list, ordered by the sort field in the lower-cased direction |
| AutomationList.DefaultQueryLists | src/app/api/automation/list/route.ts:17-21 | with a session, no parameters and a successful read, the rules are listed |
| AutomationList.DirectionIgnoresCase | src/app/api/automation/list/route.ts:40 | `DESC` gives the same answer as `desc` |
| AutomationList.SlashedSortFieldFails | src/app/api/automation/list/route.ts:40-66 | a sort field containing `/` is answered with 500 |
| AutomationList.ListedExactly | src/app/api/automation/list/route.ts:23-55 | a rule is listed if and only if the read succeeded and the rule is stored, passes the status and platform filters, has the sort field, and matches the search |
| AutomationList.UnauthorizedIgnoresStore | src/app/api/automation/list/route.ts:9-13 | without a session the answer is 401, whatever the store holds |
| Automations.MessageFor | functions/src/automations.ts:48-62 | the message copies title, body and data, and has an image if and only if the rule's image is truthy |
| Automations.CreateFcmMessage | functions/src/automations.ts:48-62 | the in-place construction yields the message of the rule |
| Automations.AttemptCountedOnce | functions/src/automations.ts:174-190 | each attempt adds exactly one to `sent + failure`; `success` grows by at most one and only together with `sent`; only a throw counts a failure; an accepted send adds one to `sent`, one to `success` exactly when its id is non-empty, stamps `lastRun` and changes nothing else; a throw adds one to `failure` and changes nothing else |
| Automations.AttemptKeepsSuccessBounded | functions/src/automations.ts:174-190 | `success <= sent` is kept by every attempt |
| Automations.FailureBreaksSentBalance | functions/src/automations.ts:174-190 | from any counters with `sent == success + failure`, a failed send, and an accepted send with an empty id, each lead to counters without it |
| Automations.SweepTouchesOnlyEnabledStats | functions/src/automations.ts:158-191 | a sweep keeps the keys, leaves disabled rules untouched, changes only the counters of enabled rules, and counts one attempt for each |
| Automations.SweepIsolatesRules | functions/src/automations.ts:163-191 | a rule's outcome depends only on that rule and on the reply to its own send |
| Automations.SweepKeepsInvariants | functions/src/automations.ts:163-191 | the sweep keeps ids equal to keys, and keeps `success <= sent` for every rule |
| Automations.RuleStore.ProcessAutomationRules | functions/src/automations.ts:157-192 | the loop leaves the collection as the sweep function does; it attempts exactly the enabled rules, each once |
| Automations.NewRule | functions/src/automations.ts:75-88 | a new rule keeps the submitted fields, has its own id, is disabled, is stamped with the creation time, and has zeroed counters |
| Automations.NewRuleSkippedBySweep | functions/src/automations.ts:80 | a rule just created is left untouched by the next sweep |
| Automations.RuleStore.CreateAutomationRule | functions/src/automations.ts:65-100 | POST only (405 otherwise); the new rule is stored under the generated id and returned |
| Automations.WithEnabled | functions/src/automations.ts:270-275 | only `enabled` changes |
| Automations.ToggleRoundTrip | functions/src/automations.ts:270-275 | toggling back restores the rule; the last toggle wins |
| Automations.RuleStore.ToggleAutomationRule | functions/src/automations.ts:257-290 | PATCH only (405); a missing id is 400; an id with no stored rule is the store's 500; a stored rule has only `enabled` changed and is returned; every other case leaves the store unchanged |
| Automations.RuleStore.DeleteAutomationRule | functions/src/automations.ts:231-254 | DELETE only (405); a missing id is 400; otherwise the key is removed, present or not |
| Automations.TestSend | functions/src/automations.ts:293-325 | POST only (405); a missing token is 400; with a token, a send happens exactly when `notification` is present (500 otherwise); the send goes to the token with the notification's title, body and data and no image |
| Automations.RoundedPercentNearest | functions/src/automations.ts:332 | the rounded rate is the nearest integer to `100 * success / sent`, with halves rounded up |
| Automations.SuccessRate | functions/src/automations.ts:328-333 | the rate is 0 when nothing was sent; otherwise it is the nearest integer to 100 times summed successes over summed sends, halves rounded up |
| Automations.SumsNonNegative | functions/src/automations.ts:329-330 | both sums are non-negative |
| Automations.SuccessSumBounded | functions/src/automations.ts:329-330 | summed successes do not exceed summed sends when each rule's do not |
| Automations.SuccessRateIsPercentage | functions/src/automations.ts:328-333 | the rate is at most 100 when no rule counts more successes than sends |
| Automations.RoundedPercentAtMost100 | functions/src/automations.ts:332 | rounding `100 * success / sent` with `success <= sent` gives at most 100 |
| Automations.CreatedLaterIsTotalPreorder | functions/src/automations.ts:123 | newest-first by `createdAt` is a total preorder |
| Automations.GetAutomationRules | functions/src/automations.ts:103-142 | OPTIONS is 204; a method other than GET is 405; the listed rules are the stored rules, newest first |
| Automations.FilterEnabledCount | functions/src/automations.ts:133 | the length of the enabled filter is the number of enabled rules |
| Automations.CountEnabledPermutation | functions/src/automations.ts:133 | the number of enabled rules does not depend on their order |
| Automations.ListStatsDescribeCollection | functions/src/automations.ts:126-136 | `total`, `active`, `todaySent` and `successRate` describe the collection, whatever order it is listed in |
| AudienceSegments.LastPathSegment | functions/src/automations.ts:400 | the id is the suffix after the last `/` and holds no `/` |
| AudienceSegments.ToSegment | functions/src/automations.ts:396-403 | a listed audience becomes a custom segment with its display name or "", its number or 0, its description exactly when that is not empty, its id exactly when the last path segment of its resource name is not empty (and then that segment), stamped now |
| AudienceSegments.ToSegments | functions/src/automations.ts:396-403 | one segment per audience, in order |
| AudienceSegments.CustomSegments | functions/src/automations.ts:385-408 | a missing property id or a failed call gives no custom segment; a successful call gives one segment per listed audience, in order; every segment returned is custom |
| AudienceSegments.SegmentOrderIsTotalPreorder | functions/src/automations.ts:425-430 | built-in before custom, then by name, is a total preorder |
| AudienceSegments.GetAnalyticsSegments | functions/src/automations.ts:411-446 | a method other than GET is 405; the list is a permutation of built-in plus custom segments, ordered, with the stated counts and user total |
| AudienceSegments.MergedSegments | functions/src/automations.ts:422-440 | built-in segments come first; each group is ordered by name; `total = default + custom = 5 + custom`; `totalUsers` is the sum of both groups' counts |
| AudienceSegments.FailedFetchListsDefaultsOnly | functions/src/automations.ts:404-407 | a failed call lists the built-in segments alone |
| SegmentsRoute.AccumulateDeviceStats | src/app/api/analytics/segments/route.ts:108-122 | the loop's totals are the sums of users over the rows |
| SegmentsRoute.DeviceStatsAreFilteredSums | src/app/api/analytics/segments/route.ts:113-122 | the iOS (Android) total is the sum of users over exactly the rows whose platform lower-cases to `ios` (`android`) |
| SegmentsRoute.OtherRowsCountNothing | src/app/api/analytics/segments/route.ts:114-121 | a row of another platform, or with a non-numeric value, changes neither total |
| SegmentsRoute.PropValues | src/app/api/analytics/segments/route.ts:136-139 | a value is collected exactly when some document carries it as a non-empty value of the property; no more values than documents |
| SegmentsRoute.FirstIndex | src/app/api/analytics/segments/route.ts:140 | the first bucket holding the value, or the end of the list |
| SegmentsRoute.Tally | src/app/api/analytics/segments/route.ts:140-145 | the search loop and the update agree with the find-or-push specification |
| SegmentsRoute.AddDoc | src/app/api/analytics/segments/route.ts:138-147 | the inner loop tallies each of the three properties of one document and keeps the three keys |
| SegmentsRoute.TallyDocStep | src/app/api/analytics/segments/route.ts:136-147 | tallying one more document extends each histogram by that document's value |
| SegmentsRoute.BuildUserProperties | src/app/api/analytics/segments/route.ts:130-148 | the nested loops build, for each property, the histogram of its truthy values |
| SegmentsRoute.HistogramValues | src/app/api/analytics/segments/route.ts:140-145 | the histogram's values are the distinct values in order of first occurrence |
| SegmentsRoute.HistogramDistinct | src/app/api/analytics/segments/route.ts:140-145 | no two buckets hold the same value |
| SegmentsRoute.HistogramAppendsNew | src/app/api/analytics/segments/route.ts:143-145 | a new value adds a bucket of one at the end; a known value adds no bucket |
| SegmentsRoute.HistogramCounts | src/app/api/analytics/segments/route.ts:140-145 | every bucket counts exactly the occurrences of its value |
| SegmentsRoute.HistogramTotal | src/app/api/analytics/segments/route.ts:140-145 | the counts add up to the number of values |
| SegmentsRoute.PropValuesCount | src/app/api/analytics/segments/route.ts:136-139 | the number of values is the number of documents where the property is truthy |
| SegmentsRoute.PropertyCountsMatchDocs | src/app/api/analytics/segments/route.ts:136-148 | for each property, the counts add up to the number of documents where it is truthy |
| SegmentsRoute.CountEvents | src/app/api/analytics/segments/route.ts:157-161 | each name seen is counted exactly as often as it occurs; keys are listed in order of first occurrence |
| SegmentsRoute.EventEntries | src/app/api/analytics/segments/route.ts:163-168 | one entry per distinct name, with its true count |
| SegmentsRoute.CountOrderIsTotalPreorder | src/app/api/analytics/segments/route.ts:169 | larger-count-first is a total preorder |
| SegmentsRoute.TopTen | src/app/api/analytics/segments/route.ts:169-170 | at most ten entries, or all when fewer; in non-increasing count; taken from the input; no entry left out has a larger count than one kept |
| SegmentsRoute.RecentEventsAreTopTen | src/app/api/analytics/segments/route.ts:157-170 | at most ten events, each named once, in non-increasing count, each with its true count; no event left out occurs more often than one listed |
| SegmentsRoute.EmptyReportThrows | src/app/api/analytics/segments/route.ts:179 | as written, an empty report makes the user-count expression throw, while an absent report yields 0 |
| SegmentsRoute.UserCountCorrected | src/app/api/analytics/segments/route.ts:178-182 | the corrected count is 0 for an absent or empty report, and agrees with the written expression wherever that does not throw, which is everywhere but the empty report |
| SegmentsRoute.ThreeSegments | src/app/api/analytics/segments/route.ts:173-183 | exactly three segments in the built-in order; metric 0 for `all_users`, 1 for `active_users`, 2 otherwise, and the corrected count of 0 for an empty or absent report; all share the same device totals, properties and recent events |
| SegmentsRoute.Get | src/app/api/analytics/segments/route.ts:36-193 | without a session, 401 whatever else holds; a missing property id or a failed provider or store call gives 500; otherwise the three computed segments, with the corrected user count |

## Left out

- I/O, the document store, the messaging and analytics clients, session lookup and logging are not modelled. Their results are inputs.
- Firestore composite-index errors and store write failures are not modelled. A write is assumed to succeed, except for an update of a missing document in the toggle handler.
- Concurrency is not modelled: atomic increments under concurrent writers, the sweep's 5-minute schedule, its 120-second timeout, `retryCount`, instance limits and CORS headers.
- The sweep's visiting order is not modelled: the model visits enabled rules in an arbitrary order, where the store returns them in its own. No rule's result depends on another's.
- The 1000-document limits, the seven-day window on events and the `select` of user properties are applied by the store. The model receives what the queries returned.
- Floating point is not modelled. `Math.round` is modelled exactly over rationals, so rounding error at a .5 boundary is not captured. Report metrics are whole numbers.
- `localeCompare` and the store's string order are approximated by code-point lexicographic order. `toLowerCase` is modelled for ASCII letters only.
- Token length is counted in characters, not UTF-16 code units.
- JSON values other than strings are modelled only as far as their truthiness: non-string tokens, platforms and titles. Non-string user property values and event names are not modelled.
- Event names that collide with `Object.prototype` members, and the ordering of integer-like keys by `Object.entries`, are not modelled. Event keys are listed in order of first occurrence.
- Timestamps (`new Date().toISOString()`, server timestamps) are opaque values supplied by the caller.
- `Automations.TestSend`: when `notification` is missing, the 500 carries an empty text rather than the runtime's own message.
- Report rows with an empty dimension or metric array are not modelled. Reading them throws in the source, and the model assumes the provider returns the requested columns.
- `AutomationList.FieldValue`: the fields that can be ordered by are the scalar fields of the rule type of src/types/events.ts, top-level or dotted. Ordering by a map- or array-valued field (`notification`, `notification.data`, `notification.translations`, `schedule`, `schedule.daysOfWeek`, `target`, `stats`, `createdBy`, `history`) is treated as if no rule had it, so the ordering lists nothing, where the store would order by the map or array values. `__name__` orders by the document id; a stored rule is assumed to carry its document id as its `id` field.
- `SegmentsRoute.Get`: answers with the corrected user count (0) when the report has an empty `rows`, where the code as written throws and answers 500; see the Findings table.
- `Messaging.Respond`: a provider exception is one text. The choice the code makes between the exception's `errorInfo.message` and its `message` is not modelled. The multicast reply also carries the provider's per-token `responses` array unchanged; the model answers with the counts only.
- `Automations.GetAutomationRules`: a failed read of the collection, which the handler answers with 500 and the exception's message, is not modelled; the model always receives the stored rules.
- Sorting: `Array.prototype.sort` is stable and the store orders ties in its own way. The model's sort is proved sorted and a permutation; the order among equal elements is not stated.
- `updateAutomationRule` applies an arbitrary caller-supplied patch. It is not modelled, because its effect has no structure beyond "the store now holds what the patch says".
- Segment counts: the specific built-in segment counts are carried as constants, but no property depends on their values. A custom segment's count comes from `membershipDurationDays`, as the code reads it.
- The React pages and components, NextAuth configuration, middleware and the proxy and stub routes are user interface or configuration. They are not part of this model.

## Findings

| source | as written | input that shows it | evidently intended | confidence | as-written member | corrected member |
|---|---|---|---|---|---|---|
| src/app/api/analytics/segments/route.ts:179 | `response.rows?.[0].metricValues?.[k].value` guards only an absent `rows`; with an empty `rows` array, `[0]` is undefined, reading `metricValues` of it throws, and the whole request answers 500 | a report whose `rows` is `[]` (no data in the date range) | no rows means a user count of 0, as for an absent `rows` | medium, not executed | SegmentsRoute.EmptyReportThrows | SegmentsRoute.UserCountCorrected |
