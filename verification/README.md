# Glitch payments: order lifecycle model

A Dafny model of the order lifecycle of the glitch-payments API (`api/index.js`).
The service sells downloadable course bundles. It lists a fixed course catalog,
creates Razorpay orders for a chosen course, and records each order in an in-memory
array (`ordersData`). When the payment callback carries a valid HMAC-SHA256
signature, it marks the order paid and releases the course's download link.

Without the Razorpay client, the crypto library and the HTTP handler, what is left
is a small state machine over one sequence of order records. The model has these modules:

- `Wrappers`: the `Option` type.
- `Seqs`: `FindFirst`, the first-match search of `Array.prototype.find`.
- `Courses`: the catalog as an ordered sequence of `(id, course)` pairs. `Glitch` is the shipped
  `coursesDictionary`. The module also holds the lookup, the public get-notes listing,
  and the create-order guard as written.
- `Decimal`: the receipt token `order_<Date.now()>`. It holds the decimal rendering of a
  millisecond reading and its inverse.
- `Signature`: the signed message `orderId|paymentId` and `verifySignature`. The keyed
  hash is a function parameter `Hmac`.
- `Orders`: the order record and the store. Create-order and verify-payment are pure
  functions returning `(response, new store)`. The gateway is a function parameter
  from the order options to a minted order or a failure.
- `Handler`: dispatch over the three routes, runs over sequences of requests, the
  lifecycle invariants, and the purchase scenario.

Facts about the code that the model keeps:

- The service has three routes: get-notes, create-order and verify-payment.
- The digest comparison is a plain `===`.
- A repeated verified callback succeeds again and rewrites `payment_id` and `paid_at`.
  Nothing checks the record's current status.

## Model

| member | source | states |
|---|---|---|
| Seqs.FindFirst | api/index.js:140 | The result is the index of the first element satisfying the predicate. No earlier element satisfies it. It is None exactly when no element satisfies it. |
| Courses.GlitchWellFormed | api/index.js:11-48 | The shipped catalog has four distinct course ids and every price is positive. |
| Courses.Lookup | api/index.js:93-97 | A lookup misses exactly when no catalog key equals the id. A hit returns the course stored under that id. |
| Courses.LookupFindsEntry | api/index.js:11-48 | With distinct keys, looking up the key at any position yields the course at that position. |
| Courses.Listings | api/index.js:77-84 | The listing has one entry per catalog key, in key order. Each entry carries the key as id, plus name, price, image, description and readMoreLink. |
| Courses.ListingAgreesWithLookup | api/index.js:77-84 | An id appears in the listing exactly when a lookup finds it. Its entry is the public view of that course. |
| Courses.ListingIgnoresDownloadLinks | api/index.js:77-84 | Two catalogs that differ only in download links give equal listings, so the listing never exposes a download link. |
| Courses.LookupAsWritten | api/index.js:93-97 | `catalog[id]` as JavaScript evaluates it. An own key gives its course. A name inherited from `Object.prototype` gives the inherited value. Any other id gives undefined, which is the only case the guard rejects. |
| Courses.AsWrittenGuardAdmitsConstructor | api/index.js:93-95 | The lookup as written gives a value for "constructor", so the guard admits it, yet "constructor" is not a course id (finding 1). |
| Decimal.Digits | api/index.js:103 | Rendering a millisecond reading gives a non-empty string of decimal digits with no leading zero. |
| Decimal.ValueOfDigits | api/index.js:103 | Reading a rendered numeral back gives the original number. |
| Decimal.DigitsInjective | api/index.js:103 | Different readings render to different strings. |
| Decimal.Receipt | api/index.js:103 | The receipt is "order_" followed by the clock value's shortest decimal numeral: digits only, no leading zero, reading back to the clock value. |
| Decimal.ReceiptsDistinct | api/index.js:103 | Requests at different milliseconds get different receipts. |
| Signature.Message | api/index.js:57 | The message is the order id, then one pipe, then the payment id, with no escaping. |
| Signature.Split | api/index.js:57 | Splitting at the first pipe fails exactly when there is no pipe. On success, rebuilding the message from the parts gives the input. |
| Signature.SplitMessage | api/index.js:57 | For a pipe-free order id, splitting the message returns the pair it was built from. |
| Signature.MessageUnambiguous | api/index.js:57 | When order ids are pipe-free, equal messages imply equal (order id, payment id) pairs. |
| Signature.MessageAmbiguousWithPipe | api/index.js:57 | When an order id contains a pipe, two different pairs share one message. |
| Signature.VerifySignature | api/index.js:56-60 | A signature is accepted exactly when it equals the HMAC of `orderId|paymentId` under the secret. |
| Signature.ReplayNeedsCollision | api/index.js:56-60 | A signature made for one pair passes for a different pair (pipe-free ids) only if the HMAC collides on two different messages. |
| Orders.OrderOptions | api/index.js:98-113 | The options sent to the gateway carry amount = price × 100 paise, currency INR and receipt "order_" followed by the clock value with no leading zero. Their notes hold the course id, name, download link, customer fields and venture "Glitch". |
| Orders.CreateOrder | api/index.js:89-124 | An unknown course id gives "Invalid course selected" and an unchanged store. A gateway failure gives the internal error and an unchanged store. A catalog hit with a minted reply creates the order. A record is appended only in that case, and the old records stay untouched. The new record carries the gateway id, status created, price × 100 in INR, and exactly the notes sent to the gateway: course id, name, link, customer fields and venture "Glitch". No download link is in the response (corrected, finding 2). |
| Orders.CreateRejectsPrototypeName | api/index.js:93-95 | The corrected check rejects "constructor" with the invalid-course answer and an unchanged store (finding 1). |
| Orders.CreateOrderStatus | api/index.js:94-126 | Create order answers 400 exactly for an unknown course. It answers 500 exactly when the gateway fails, and 200 exactly when a record is appended. |
| Orders.CreateOrderAsWritten | api/index.js:89-126 | It rejects only ids whose lookup as written is undefined. Every other id is sent to the gateway, including inherited names, which use the inherited value as their course. A failed reply gives the internal error and an unchanged store. A minted reply appends the record built from the options and answers with the gateway's order object verbatim. For catalog ids and for ids that are not inherited names, its store transition equals that of CreateOrder. |
| Orders.AsWrittenCreateStoresPrototypeName | api/index.js:93-124 | As written, "constructor" reaches the gateway. If the gateway mints an order, a record is stored for product "constructor", which no catalog entry prices (finding 1). |
| Orders.AsWrittenCreateLeaksDownloadLink | api/index.js:100-126 | If the gateway keeps the notes it was sent, the response as written carries the course's download link while the new record is still created (finding 2). |
| Orders.HttpStatus | api/index.js:85-162 | A response is sent with 400 exactly for an invalid course or a failed verification. It is sent with 404 for a missing order, 500 for an internal error, and 200 for the listing, a created order and a verified payment. |
| Orders.OrderIndex | api/index.js:140 | The result is the first record with the order id, or None exactly when no record has it. |
| Orders.MarkPaid | api/index.js:145-147 | The paid transition sets status paid, the payment id and the paid time. All creation-time data stays as it was. |
| Orders.VerifyPayment | api/index.js:130-155 | A bad signature gives verification_failed and an unchanged store, whether or not the order exists. A good signature with no matching record gives "Order not found" and an unchanged store. Otherwise only the first matching record changes: it becomes paid with the payment id and time. The store length stays the same. The response echoes both ids and the link and name stored in that record. |
| Orders.VerifyPaymentStatus | api/index.js:136-155 | Verify payment answers 400 exactly when the signature is wrong. It answers 404 exactly when the signature is right and no record matches, and 200 exactly when the signature is right and a record matches. |
| Orders.OrderIndexOnlyReadsIds | api/index.js:140 | Two stores with the same order ids in the same places give the same search result. |
| Orders.RepeatVerifySucceedsAgain | api/index.js:140-155 | Repeating a verified callback gives the same success answer. It changes only the paid time of the same record. |
| Orders.CreateKeepsIdsUnique | api/index.js:115-124 | If the gateway mints an id not already in the store, order ids stay unique after a create. |
| Handler.Handle | api/index.js:74-156 | Each request only appends records, keeps creation data and never moves a record out of paid. get-notes returns the listing and leaves the store alone. A download link appears in a response only on a validly signed verify-payment whose record is now paid with that link. Each request keeps records well formed and amounts priced. |
| Handler.RunEvolves | api/index.js:117-147 | Over any sequence of requests, records are never removed, their creation data never changes, and paid records stay paid. |
| Handler.RunKeepsRecordsWellFormed | api/index.js:117-147 | Over any sequence of requests, a record is paid exactly when its payment id and paid time are set. |
| Handler.RunKeepsAmountsPriced | api/index.js:97-124 | Under one catalog, every record's amount stays its course price × 100, in INR. |
| Handler.SnapshotOutlivesCatalogChange | api/index.js:105-154 | A paid customer receives the link and name captured at creation, whatever catalog the verify request runs under. |
| Handler.CreateScenario | api/index.js:89-124 | Buying "andrew_tate" (79 rupees) on an empty store records 7900 paise, status created, and that course's link and name. |
| Handler.PayScenario | api/index.js:130-155 | Starting from the store that purchase created, the signed callback returns the course's link and name and marks the record paid. The same callback again gives the same answer and only rewrites the paid time. |
| Handler.AsWrittenCreateStep | api/index.js:89-126 | The create route as written only appends, keeps creation data, keeps records well formed and leaves paid records paid. For any id that is not an inherited name, its store equals the one `Handle` produces, so the run lemmas cover it. |
| Handler.AndrewTateListed | api/index.js:21-29 | "andrew_tate" is the second catalog entry: "Andrew Tate Courses" at 79 rupees. |

## Findings

| source | as written | input that shows it | evidently intended | confidence | as-written member | corrected member |
|---|---|---|---|---|---|---|
| api/index.js:93-95 | `!coursesDictionary[selectedNote]` is false for every name an object inherits from `Object.prototype`, so those names pass the course check | selectedNote = "constructor" (also "__proto__", "toString", ...): the check passes, the amount is `undefined * 100` (NaN) and the request goes to the gateway | Only catalog keys pass. Every other id gets 400 "Invalid course selected" without calling the gateway | not executed; high (JavaScript property lookup semantics) | Orders.AsWrittenCreateStoresPrototypeName | Orders.CreateRejectsPrototypeName |
| api/index.js:100-126 | create-order answers with the gateway's order object unchanged. That object keeps the `notes` it was sent, and the notes include `download_link` | any catalog id, e.g. "andrew_tate", with a gateway that returns the notes in its order entity, as Razorpay's does: the unpaid caller receives the download link | The link is released only by a verified payment. The create response carries only what checkout needs | not executed; medium (depends on the gateway returning the notes) | Orders.AsWrittenCreateLeaksDownloadLink | Orders.CreateOrder |

The rest of the model (`Handler.Handle` and the lifecycle lemmas) uses the corrected
`Orders.CreateOrder`. For every id that is not an `Object.prototype` name, its store
transition is the same as the as-written one, as `Orders.CreateOrderAsWritten` and
`Handler.AsWrittenCreateStep` state. For those ids only the response differs.

## Left out

- Razorpay client construction and the network call `razorpay.orders.create` (api/index.js:5-8, 115). The gateway is a function parameter that returns a minted order or a failure.
- A thrown gateway call and the catch-all 500 response are modelled as `GatewayFailed` → `InternalError`. Other exceptions are not modelled: a missing request body in verify-payment, or an undefined secret that makes `createHmac` throw. The console logging is not modelled either.
- The HMAC-SHA256 computation and hex encoding (api/index.js:58) come from a foreign crypto library. They are the parameter `Hmac`; only the message format is modelled.
- Timing of the digest comparison: the code uses `===`, modelled as string equality. Constant-time behaviour cannot be stated in Dafny.
- Clock values are parameters: `nowMillis` for `Date.now()` in the receipt, and `now` for the ISO strings `created_at` / `paid_at`. The ISO formatting itself is not modelled.
- HTTP plumbing is not modelled: CORS headers, the OPTIONS short-circuit, URL/method dispatch, the default 404 route and JSON serialisation. `HttpStatus` only records which status each response is sent with.
- Request bodies are taken as well-typed strings. JavaScript's coercion of non-string `selectedNote` values and undefined customer fields is not modelled.
- Environment-variable reads: the secret is a parameter.
- Concurrent requests racing on the shared `ordersData` array are not modelled. The model is sequential.
- `price * 100` is a JavaScript double product. It is modelled as an unbounded integer, which is exact for the catalog's small integer prices.
- Orders.CreateOrderAsWritten: for an inherited name the code reads `price`, `name` and `downloadLink` off the inherited value: the amount is `undefined * 100` (NaN) and the name is e.g. "Object". The model stands in an arbitrary `inherited` course for that value, because NaN and `undefined` have no counterpart among the modelled values.
- Only the fields the code uses of the gateway's order object are modelled: id, amount, currency, receipt and notes.
- Orders.CreateKeepsIdsUnique: the code never checks that order ids are unique. The lemma assumes the gateway mints ids that are not already stored, and verify-payment acts on the first match whether or not ids are unique.
