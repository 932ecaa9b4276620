# Subscription handlers: `isPremium` and `subscribe`

This project models the decision logic of a mobile subscription backend made of two serverless
handlers. It proves properties of that logic in Dafny.

- `isPremium` answers whether the logged-in user's subscription is active today. It tries three
  sources in a fixed order: the user's stored record with the latest expiry, a re-verification of the
  latest stored Apple receipt, and a re-verification of the latest stored Google purchase token. A
  re-verification that finds an expiry after today stores a new record.
- `subscribe` checks the login, then that the user exists, then that input is present. It verifies a
  new Apple receipt (which takes precedence) or Google purchase token, and stores one record.

Files:

- `wrappers.dfy`: the `Option` type.
- `store.dfy`: the external data store. It holds the `Subscription` attributes, the stored `Record`,
  the "latest matching record" query `Latest`, and the `SubscriptionTable` class. The class has a
  `Create` method that models the `createSubscription` mutation.
- `collaborators.dfy`: the shape of Apple's `verifyReceipt` answer and of Google's
  `SubscriptionPurchase`, plus the trace of calls each handler makes (`Call`). It also defines
  JavaScript truthiness of optional strings (`Truthy`).
- `is_premium.dfy`, `subscribe.dfy`: one module per handler. Each has a pure reference function
  `Decide`. It returns the answer, the subscription stored (if any) and the calls made. Each also has an
  imperative `Handle` method that performs the same early-return sequence against a
  `SubscriptionTable`. Its `ensures` ties the answer, the trace and the new table contents to
  `Decide`. The listed properties are proved as lemmas about `Decide`.
- `interplay.dfy`: lemmas relating the two handlers.

Collaborators are parameters:

- Apple's endpoint is a function from the receipt sent to the parsed answer.
- Google's endpoint is a function from (product id, token) to `Option<GooglePurchase>`. Every rejection
  of `purchases.subscriptions.get` is `None`, because `verifyGoogle` turns it into null.
- `accepts` says whether `createSubscription` returns an id for the given attributes.
- Today's time (`today`, `now`) is an input in milliseconds.

## Model

| member | source | states |
|---|---|---|
| `Store.Latest` | payment/subscription/src/isPremium.ts:154-226 | the answer of a "filter by user, order by expiryDate descending, first 1" query: a matching record whose expiry no other matching record exceeds, or None exactly when nothing matches |
| `Store.LatestIgnoresOthers` | payment/subscription/src/isPremium.ts:154-205 | storing a record a query's filter rejects (another user, or no receipt / no token) leaves that query's answer unchanged |
| `Store.LatestTakesNewMaximum` | payment/subscription/src/isPremium.ts:176-205 | a stored record that expires after every earlier match becomes the query's answer |
| `Store.Matches` | payment/subscription/src/isPremium.ts:154-226 | no contract: the three query filters (the user's records; with `receipt_not: null`; with `purchaseToken_not: null`) |
| `Store.Persist` | payment/subscription/src/isPremium.ts:228-274 | the table after `createSubscription`: the old records are kept as a prefix, and one record carrying the given attributes follows exactly when the store returned an id |
| `Store.SubscriptionTable.Create` | payment/subscription/src/isPremium.ts:228-274 | `createSubscription`: when the store returns an id, exactly one record with fresh id `|records|` and the given attributes is appended; the new id differs from every stored one; otherwise nothing changes |
| `Collaborators.Truthy` | payment/subscription/src/isPremium.ts:23 | no contract: JavaScript truthiness of an optional string (present and non-empty), used for the login guard here and at subscribe.ts lines 33, 51 and 98 |
| `Collaborators.StartMillis` | payment/subscription/src/isPremium.ts:93 | no contract: Google's `startTimeMillis` parsed with "0" as the default, so 0 when missing (also subscribe.ts line 104) |
| `Collaborators.ExpiryMillis` | payment/subscription/src/isPremium.ts:94 | no contract: Google's `expiryTimeMillis` parsed with "0" as the default, so 0 when missing (also subscribe.ts line 105) |
| `IsPremium.Message` | payment/subscription/src/isPremium.ts:24-120 | no contract: the handler's two error strings, "Login required!" and the generic catch message |
| `IsPremium.Decide` | payment/subscription/src/isPremium.ts:18-122 | no contract: the handler as a function of the table and the collaborators' answers, the definition the lemmas below are about |
| `IsPremium.CacheActive` | payment/subscription/src/isPremium.ts:32-41 | no contract: the latest-expiry record exists and expires after today |
| `IsPremium.AppleAttempt` | payment/subscription/src/isPremium.ts:42-84 | no contract: the Apple re-verification step (renewal, no renewal, or a throw) and its calls |
| `IsPremium.GoogleAttempt` | payment/subscription/src/isPremium.ts:86-115 | no contract: the Google re-verification step (renewal or no renewal) and its calls |
| `IsPremium.AppleRenewal` | payment/subscription/src/isPremium.ts:69-76 | no contract: the attributes of an Apple renewal (entry 0's dates, start today, latest receipt) |
| `IsPremium.GoogleRenewal` | payment/subscription/src/isPremium.ts:98-107 | no contract: the attributes of a Google renewal (Google's times, purchase today, stored token and product id) |
| `IsPremium.AppleDeclines` | payment/subscription/src/isPremium.ts:42-84 | no contract: every way the Apple step ends without answering |
| `IsPremium.GoogleRenews` | payment/subscription/src/isPremium.ts:86-115 | no contract: Google confirms the stored token with a future expiry and the create returns an id |
| `IsPremium.AppleLacksInfo` | payment/subscription/src/isPremium.ts:56-59 | no contract: Apple answers status 0 without `latest_receipt_info`, so line 59 throws |
| `IsPremium.TryApple` | payment/subscription/src/isPremium.ts:42-84 | the Apple re-verification against the table: the renewal, the calls and the new table agree with `AppleAttempt` on the old table |
| `IsPremium.TryGoogle` | payment/subscription/src/isPremium.ts:86-115 | the Google re-verification against the table: the renewal, the calls and the new table agree with `GoogleAttempt` on the old table |
| `IsPremium.Handle` | payment/subscription/src/isPremium.ts:18-122 | the handler's answer and call trace are those of `Decide` on the old table, and the table gains exactly the subscription `Decide` stores |
| `IsPremium.LoginRequiredFirst` | payment/subscription/src/isPremium.ts:23-25 | without a truthy auth node id the answer is "Login required!", with no call and no record |
| `IsPremium.CachedExpiryWins` | payment/subscription/src/isPremium.ts:32-41 | when the latest-expiry record expires after today, the answer is active with exactly that expiry, only that query is made, and nothing is stored |
| `IsPremium.AppleRenewalRecorded` | payment/subscription/src/isPremium.ts:56-81 | Apple status 0 with entry 0 expiring after today and an id from the create: one record with entry 0's expiry and purchase date, start today, Apple's latest receipt and no token or product id; active with entry 0's expiry; Google is not asked |
| `IsPremium.OnlyEntryZeroCounts` | payment/subscription/src/isPremium.ts:56-67 | two Apple answers that agree in status, latest receipt and entry 0 give identical outcomes: later entries of latest_receipt_info are ignored |
| `IsPremium.AppleFallsThroughToGoogle` | payment/subscription/src/isPremium.ts:42-92 | when there is no receipt, a bad status, an empty list, an entry 0 not after today, or no id from the create, the token query is made and the answer is active exactly when Google renews |
| `IsPremium.GoogleRenewalRecorded` | payment/subscription/src/isPremium.ts:92-111 | Google data with an expiry after today and an id from the create: the record has Google's expiry and start (0 when missing), purchase date today, no receipt, and the stored token and product id; active with that expiry |
| `IsPremium.NoSourceIsInactive` | payment/subscription/src/isPremium.ts:86-117 | with no stored token, no data from Google (any rejection of `purchases.subscriptions.get`), an expiry not after today, or no id, the answer is inactive dated today and nothing is stored |
| `IsPremium.ResponseShape` | payment/subscription/src/isPremium.ts:36-120 | on all inputs: active answers expire after today, inactive ones are dated today, "Login required!" exactly without login, the generic error exactly when Apple answers the stored receipt with status 0 and no latest_receipt_info after a cache miss, and a stored record implies an active answer with its expiry, for the logged-in user, after a cache miss |
| `IsPremium.RenewalIsCachedNextTime` | payment/subscription/src/isPremium.ts:32-41 | after a renewal is stored, the next call on the same day answers from the table alone with exactly the renewed expiry, whatever Apple and Google say |
| `IsPremium.OtherUsersUntouched` | payment/subscription/src/isPremium.ts:69-107 | every query answer for any user other than the logged-in one is unchanged by the call |
| `Subscribe.Message` | payment/subscription/src/subscribe.ts:34-132 | no contract: the handler's eight error strings, "Apple responded with: " followed by Apple's answer as JSON |
| `Subscribe.Decide` | payment/subscription/src/subscribe.ts:30-134 | no contract: the handler as a function of the users, the input and the collaborators' answers, the definition the lemmas below are about |
| `Subscribe.AppleOutcome` | payment/subscription/src/subscribe.ts:51-97 | no contract: the Apple path's outcome and calls |
| `Subscribe.GoogleOutcome` | payment/subscription/src/subscribe.ts:98-124 | no contract: the Google path's outcome and calls |
| `Subscribe.GoogleSubscription` | payment/subscription/src/subscribe.ts:104-118 | no contract: the attributes of a Google purchase (Google's times defaulting to 0, purchase now, submitted token and product id) |
| `Subscribe.ExpiryDates` | payment/subscription/src/subscribe.ts:70-72 | no contract: `latest_receipt_info.map(v => parseInt(v.expires_date_ms))`; the bounds are stated on `AppleSubscription` |
| `Subscribe.PurchaseDates` | payment/subscription/src/subscribe.ts:77-79 | no contract: `latest_receipt_info.map(v => parseInt(v.purchase_date_ms))`; the bounds are stated on `AppleSubscription` |
| `Subscribe.MaxOf` | payment/subscription/src/subscribe.ts:69-73 | `Math.max` of a non-empty list: an element of it that no element exceeds |
| `Subscribe.MinOf` | payment/subscription/src/subscribe.ts:76-80 | `Math.min` of a non-empty list: an element of it that no element is below |
| `Subscribe.AppleSubscription` | payment/subscription/src/subscribe.ts:69-89 | the stored expiry is at least every expires_date_ms and equal to one of them; the purchase date is at most every purchase_date_ms and equal to one; start equals purchase date; the receipt is Apple's latest receipt |
| `Subscribe.Handle` | payment/subscription/src/subscribe.ts:30-134 | the handler's answer and call trace are those of `Decide` for the table's users, and the table gains exactly the subscription `Decide` stores |
| `Subscribe.LoginRequiredFirst` | payment/subscription/src/subscribe.ts:33-35 | without a truthy auth node id the answer is "Login required!", with no call and no record |
| `Subscribe.UserCheckedBeforeInput` | payment/subscription/src/subscribe.ts:43-49 | for a logged-in user the store does not know, the answer is "User not found!" after only the user lookup, whatever the input |
| `Subscribe.ReceiptTakesPrecedence` | payment/subscription/src/subscribe.ts:51 | with a receipt, the outcome does not depend on the token or product id, and Google is never asked |
| `Subscribe.MissingInputExactly` | payment/subscription/src/subscribe.ts:98-127 | for a known user, "Missing input." is the answer exactly when there is no receipt and not both a token and a product id; nothing is then stored |
| `Subscribe.AppleAggregateStored` | payment/subscription/src/subscribe.ts:64-92 | Apple status 0 with entries: one create with the max expiry, min purchase date, start = purchase date and Apple's latest receipt; success iff it returned an id, otherwise the restore error |
| `Subscribe.AppleRejectionReported` | payment/subscription/src/subscribe.ts:93-96 | a status other than 0 or an empty latest_receipt_info gives "Apple responded with: ..." carrying Apple's answer, and nothing is stored |
| `Subscribe.AppleMissingInfoIsUnexpected` | payment/subscription/src/subscribe.ts:64-68 | status 0 with latest_receipt_info missing throws and gives the generic error; nothing is stored |
| `Subscribe.GoogleOutcomes` | payment/subscription/src/subscribe.ts:98-124 | no data from Google gives the verification error and no create; with data, one create with the given token and product id, no receipt, purchase date now and Google's times, with no check that the expiry lies ahead |
| `Subscribe.SubscribedExactlyAfterOneCreate` | payment/subscription/src/subscribe.ts:82-129 | success is answered exactly when a create returned an id; that create is the last call and the only one; no trace holds two creates |
| `Subscribe.AggregationExample` | payment/subscription/src/subscribe.ts:69-88 | entries with expiry 100 and 200 and purchase 10 and 20 store expiry 200, purchase date 10 and start 10 |
| `Interplay.SubscribedUserIsPremium` | payment/subscription/src/subscribe.ts:82-118 | a subscription stored by `subscribe` that expires after today makes `isPremium` answer active from the table alone, with an expiry no earlier than it |
| `Interplay.EntryZeroVersusAggregate` | payment/subscription/src/isPremium.ts:61-67 | for every non-empty latest_receipt_info, `isPremium` stores entry 0's expiry, and it differs from the expiry `subscribe` stores exactly when some entry expires after entry 0 |
| `Interplay.SingleEntryAgrees` | payment/subscription/src/subscribe.ts:69-80 | with one entry in latest_receipt_info, both handlers store the same expiry, purchase date and receipt |

## Left out

- Network I/O is left out: the HTTPS POST to Apple, the JSON request body and `r.json()` parsing. The
  Apple answer is an input, already parsed.
- The `googleapis` OAuth client, the key file and the package name are left out. Only the result of
  `purchases.subscriptions.get` is modelled, as an `Option`.
- GraphQL query and mutation texts and `GraphQLClient.request` are left out. The data store is the
  sequence of records in `SubscriptionTable`, plus its set of user ids.
- `parseInt`, `new Date` and `toISOString` are left out. Timestamps are integers in milliseconds.
  This also leaves out non-numeric strings (NaN) and times outside the JavaScript `Date` range (±8.64e15
  ms); for those, comparisons are false and `toISOString` throws.
- `process.env` configuration, `console.log` and the suspension at each `await` are left out.
- Top-level `catch`: the only modelled cause of a throw is an Apple status 0 answer that lacks
  `latest_receipt_info` (indexing `undefined`). It maps to the generic error. Throws from the
  network, the GraphQL client or the mutation are not modelled.
- A failure of `google.auth.getClient` (the key file or the OAuth exchange) is not modelled. It happens
  outside the `.catch` of `verifyGoogle`, so it reaches the top-level catch: `isPremium` then answers
  "An unexpected error occured during authentication." and `subscribe` answers "An unexpected error
  occured during subscribe.". The model's Google answer can only be data or `None`.
- `Store.SubscriptionTable.Create`: a create that returns no id is modelled as writing nothing. The
  source cannot tell whether the store wrote anything in that case.
- `Store.Latest`: among records with equal expiry, the earliest stored one is chosen. The real data
  store does not define which record `first: 1` returns on a tie.
- The JSON text in "Apple responded with: ..." is carried as a field of the Apple answer
  (`AppleResponse.json`), not computed by `JSON.stringify`.
- The data-model invariant that a record holds either a receipt or a token and product id is not
  enforced: the code never checks it. The Google re-verification in `isPremium` therefore passes the
  stored product id through as optional.
