# Mobile backend client SDK, modelled in Dafny

This project models the client side of a small REST SDK for a mobile
backend, in two revisions. `mcs.js` is the class-based client and `index.js`
the older constructor-function client. Each network operation is split into
two pure parts:

- a request builder, from client state and arguments to a `Request`
  (URL, verb, headers, body);
- a completion handler, from the transport `Outcome` (`Load(body)` or
  `Fail(error)`) to the new state and what the callback receives.

The callback's arguments are a `Reply`: no arguments, an error, or
`(null, result)`. A `Completion` is either a delivered reply or `Threw`, for
when the handler raises an exception before any callback runs. That happens,
for example, when `JSON.parse` rejects a body outside any `try`.

The modules follow the program:

- `JsValues`: the JavaScript value semantics the client relies on:
  `undefined`, truthiness, `options.k || options`, `String(...)` and `slice`.
- `Http`: requests, outcomes, replies and the shared response handlers.
  `JSON.parse` is an abstract function into a small `Json` datatype. Base64
  and the OS name are parameters in `Env`.
- `Uuid`: the `uuid()` template filler and the persisted device id.
- `Decimal`: how a non-negative integer renders in a string, and its inverse.
- `Mcs`: the class-based client state, its constructor, and `login`, `logout`
  and `setAuthorization`.
- `McsEvents`: analytics and the event batch buffer. A flush is two steps,
  start and completion, with stores interleaved in between. Also the
  auto-flush timer handle.
- `McsRequests`: push registration, object storage, `createRequestOptions`
  and the location lookups. The collection-list and location builders are
  identical in both revisions apart from the body (none in `mcs.js`, `''` in
  `index.js`), and are defined once here with the body as a parameter.
- `Legacy`: the `index.js` client. This covers login, deregistration,
  analytics, storage and the custom-API proxy (query joining and header
  merging). Lemmas compare it with the class-based client.

Some behaviours of the code that the model keeps as they are:

- `login` stores the credential on every loaded response, before it looks at
  `id` (mcs.js:92, index.js:82), so a response with a null `id` still
  replaces the session's authorization.
- A body that `JSON.parse` rejects makes `login`, `sendAnalytic` and the
  collection handlers throw, so the callback is never called.
- In `mcs.js`, only `registerDeviceToken` guards its parse (mcs.js:179-184).
- In the `index.js` revision, `deregisterDeviceToken` reports a push failure
  as "Register failed." (index.js:242). The class-based client says
  "Deregister failed." (mcs.js:255).

## Model

| member | source | states |
|---|---|---|
| JsValues.PropOrSelf | mcs.js:477 | the idiom "`options.k` or else `options`" gives the property when it is a non-empty string; otherwise it is the argument rendered as a string, so a bare string is itself |
| JsValues.Slice | index.js:656 | `slice` clamps its bounds, and a negative end counts from the end, so slicing an empty string to `length - 1` gives the empty string |
| Http.Classify | mcs.js:91-103 | the unguarded handlers: a transport error is forwarded; a load throws exactly when the body does not parse or parses to `null`; the error is the raw body exactly when the tested field is null, and otherwise the raw body is the result |
| Http.ClassifiedErrorsAreTruthy | mcs.js:367-369 | when `JSON.parse` rejects the empty string, a classified error is never the empty string, so the flush's `if (err)` test always sees a failure |
| Uuid.Fill | mcs.js:924-930 | filling a template with one draw per placeholder keeps the fixed characters, puts a lower-case hex digit at each `x` and a variant digit at `y` |
| Uuid.VariantNibble | mcs.js:927 | the variant expression (low two bits of the draw, with bit 3 set) lies in 8..11 and leaves 8..11 unchanged |
| Uuid.FillDraws | mcs.js:924-930 | every instance of a template's shape is produced by some draws, so the shape is exactly the set of outputs |
| Uuid.TemplateSlots | mcs.js:925 | the template has 31 placeholders, so `uuid()` consumes 31 draws |
| Uuid.Generate | mcs.js:924-930 | `uuid()` fills the template with 31 draws; every output is an instance of the template (its exact shape is `GenerateIsV4`, and `V4IsGenerated` is the converse) |
| Uuid.GenerateIsV4 | mcs.js:924-930 | `uuid()` returns 36 characters: hyphens at 8, 13, 18 and 23, `4` at 14, one of `8 9 a b` at 19, and lower-case hex elsewhere |
| Uuid.V4IsGenerated | mcs.js:924-930 | conversely, every string of that shape is a possible `uuid()` result |
| Uuid.ResolveDeviceId | mcs.js:9-13 | a stored non-empty device id is reused and the store is untouched; otherwise the generated id is stored under `mcs-deviceId` and returned; no other key changes |
| Uuid.DeviceIdIsStable | mcs.js:9-13 | once a non-empty id is resolved, every later start yields the same id, whatever it would have generated |
| Decimal.Render | mcs.js:637 | a number renders as a non-empty string of digits with no leading zero |
| Decimal.ParseRender | mcs.js:637 | reading a rendered number back gives the number |
| Decimal.RenderInjective | mcs.js:637 | different numbers render differently |
| Mcs.New | mcs.js:30-42 | a new client has an empty buffer, no device token and no timer; its authorization is `"Basic " + anonymousKey` when a key is given, else empty |
| Mcs.Logout | mcs.js:118-121 | `logout` changes only the authorization (that it restores the construction-time value, idempotently, is `LogoutRestoresConstruction`) |
| Mcs.LogoutRestoresConstruction | mcs.js:118-121 | logout sets the authorization to exactly the construction-time value, changes nothing else, and is idempotent |
| Mcs.LoginRequest | mcs.js:80-90 | the login GET goes to the per-user path and carries the candidate credential, not the session's |
| Mcs.LoginComplete | mcs.js:91-103 | any load stores the credential whatever `id` is; the error is the raw body exactly when `id` is null; a transport error is forwarded and leaves the session unchanged |
| Mcs.LoginStoresRequestCredential | mcs.js:85-92 | the stored authorization is the header the login request carried, and a later logout undoes the login completely |
| Mcs.SetAuthorization | mcs.js:51-53 | the intended `setAuthorization` leaves the same session as a completed login with the same credential |
| Mcs.SetAuthorizationAsWritten | mcs.js:51-53 | `setAuthorization` as written, through `privates[this]`; what it does (throws, leaving a session other than the intended one) is stated by `SetAuthorizationDefect` |
| Mcs.SetAuthorizationDefect | mcs.js:51-53 | as written, `privates[this]` makes `setAuthorization` throw, and the session is not the one intended |
| McsEvents.SendAnalyticRequest | mcs.js:275-300 | (intended, with `let jsonBody`) analytics POST: an event array is sent as JSON text; the device and session ids are the caller's when truthy, else the process-wide ones; the application key follows the OS |
| McsEvents.SendAnalyticAsWritten | mcs.js:279-283 | as written, `sendAnalytic` throws exactly when the body is an object, because the serialised value is assigned to a `const` |
| McsEvents.SendAnalyticComplete | mcs.js:301-313 | the error is the raw body exactly when the parsed `message` is null; otherwise the raw body is the result |
| McsEvents.SendBasicEvent | mcs.js:331-338 | (intended, with `let jsonBody`) sends a one-record array `{name, "custom", timestamp}` to the analytics endpoint |
| McsEvents.StoreBasicEvent | mcs.js:346-353 | appends exactly one custom record at the end; earlier entries and all other state are unchanged |
| McsEvents.StoreAll | mcs.js:346-353 | a run of stores appends their records in call order |
| McsEvents.FlushStart | mcs.js:360-366 | an empty buffer sends nothing and the reply is "no arguments"; otherwise the whole buffer, in order, is the body, and the buffer is empty before the send completes |
| McsEvents.FlushStartAsWritten | mcs.js:360-366 | as written, a flush of a non-empty buffer clears it and then throws |
| McsEvents.FlushAsWrittenLosesEvents | mcs.js:362-366 | the as-written flush loses every buffered event, where the intended one keeps them as its snapshot |
| McsEvents.FlushComplete | mcs.js:366-371 | on a truthy error the snapshot goes back in front of anything stored meanwhile; otherwise the buffer is left alone; the user callback gets the send's own arguments |
| McsEvents.FlushInterleaving | mcs.js:360-376 | with stores interleaved during the send: failure leaves snapshot followed by the new records; success, or a body that does not parse, leaves only the new records; the configuration is unchanged |
| McsEvents.StoreThenFlushSendsOne | mcs.js:331-366 | (intended, with `let jsonBody`) storing one event into an empty buffer and flushing sends the same body as `sendBasicEvent` |
| McsEvents.StartAutoFlush | mcs.js:383-387 | the intended start records the interval handle, so the client reports a running timer and a stop cancels exactly that handle; no other field changes; the period is the given one, 15000 when omitted |
| McsEvents.AutoFlushStarted | mcs.js:404-406 | `autoFlushEventsStarted` as intended (`!!timerId`): true exactly for a truthy handle; `StartAutoFlush` makes it true and `StopAutoFlush` false |
| McsEvents.StopAutoFlush | mcs.js:393-399 | stop cancels a held handle and clears it; with no truthy handle it does nothing; afterwards no timer is running |
| McsEvents.StartThenStop | mcs.js:383-399 | start then stop cancels exactly the started handle, and a second stop does nothing |
| McsEvents.StartAutoFlushAsWritten | mcs.js:383-387 | `startAutoFlushEvents` as written: the interval is scheduled, the handle is lost and the call throws, as stated by `AutoFlushAsWrittenCannotStop` |
| McsEvents.AutoFlushStartedAsWritten | mcs.js:404-406 | `autoFlushEventsStarted` as written reads through `privates[this]` and throws, as stated by `AutoFlushAsWrittenCannotStop` |
| McsEvents.AutoFlushAsWrittenCannotStop | mcs.js:383-406 | as written, `setInterval` is scheduled with the same period before the assignment throws, so the handle is never recorded: stop cancels nothing and `autoFlushEventsStarted` throws; the timer keeps running, and each tick over a non-empty buffer is an as-written flush that clears the buffer and throws |
| McsRequests.RegisterStart | mcs.js:145-172 | a push token is stored and registered, with provider and platform taken from the OS; a push failure gives "Register failed." and no request |
| McsRequests.RegisterComplete | mcs.js:177-195 | an unparsable body is the error, raw; a parsed `null` throws; otherwise the parsed response is the error when `id` is null and the result when it is not |
| McsRequests.RegisterGuardsOnlyTheParse | mcs.js:177-195 | against the unguarded handler of mcs.js:91-103: an unparsable body is reported instead of thrown; otherwise both throw, succeed or fail on the same responses, registration passing the parsed value where the other passes the raw text |
| McsRequests.DeregisterStart | mcs.js:218-244 | sends the token just obtained, with no version, and leaves the client unchanged; a push failure gives "Deregister failed." |
| McsRequests.DeregisterComplete | mcs.js:245-250 | any load gives "Device Deleted."; a transport error is forwarded (the older revision handles it identically, index.js:231-237) |
| McsRequests.RegisterDeregisterAgree | mcs.js:145-244 | deregistration uses the new token even when an older one is stored, with the same provider and platform as registration |
| McsRequests.Summaries | mcs.js:443-449 | one `{id, description}` per item, same length and order |
| McsRequests.CollectionsGet | mcs.js:424-432 | the collections GET both revisions build: the collections path, the given authorization and the caller's body |
| McsRequests.CollectionListRequest | mcs.js:424-432 | the class-based request: GET of the collections path with the session authorization and backend id, and no body |
| McsRequests.CollectionListComplete | mcs.js:437-452 | a null `items` makes the raw body the error; otherwise the result is one summary per item, in order; an unparsable body throws |
| McsRequests.CollectionIdOf | mcs.js:477 | the collection id is `options.collectionId` when truthy, else `options` itself |
| McsRequests.ItemListRequest | mcs.js:477-484 | GET of the chosen collection's objects path |
| McsRequests.ItemListComplete | mcs.js:489-497 | a null `items` makes the raw body the error; otherwise the items are returned exactly as received |
| McsRequests.CacheBuster | mcs.js:637 | the cache-busting number is below 100000 |
| McsRequests.DeleteItemRequest | mcs.js:632-646 | the DELETE URL is the item URL followed by `?v=` and the decimal form of a number below 100000 |
| McsRequests.DeleteItemComplete | mcs.js:647-652 | any load gives "Item Deleted."; a transport error is forwarded |
| McsRequests.DeleteUrlsDiffer | mcs.js:636-637 | two deletes whose draws give different numbers use different URLs |
| McsRequests.CreateRequestOptions | mcs.js:671-688 | the custom-API URL; headers carry the current authorization and the version, "1.0" when it is missing or empty |
| McsRequests.RequestOptionsFollowSession | mcs.js:671-688 | options built after a login carry the login's credential; after a logout they carry the construction-time one |
| McsRequests.LocationListRequest | mcs.js:876-895 | the location URL: with `isQuery`, `pathStr` followed by `?key=value`; without it, `/value`; a header literally named "key" holds the value unrendered, `undefined` included; the body is the caller's |
| McsRequests.LocationListComplete | mcs.js:901-906 | any load gives the raw body; a transport error is forwarded |
| McsRequests.WrapperQuery | mcs.js:729-858 | a class-based wrapper takes `options.name` or `options.id` when truthy, else `options` itself, and the "key" header carries the same string the URL does |
| McsRequests.LocationWrappersHitEndpoints | mcs.js:729-858 | each of the six wrappers GETs `/mobile/platform/location/{devices,places,assets}`: by name followed by a `?name=` query, by id followed by a path segment |
| Legacy.Init | index.js:27-32 | `init` replaces the configuration and keeps the session and the device token |
| Legacy.Start | index.js:7-32 | before any login the authorization is `undefined` |
| Legacy.LoginRequest | index.js:58-79 | the login GET carries the candidate credential |
| Legacy.LoginComplete | index.js:80-95 | any load stores the credential before `id` is checked; the error is the raw body exactly when `id` is null |
| Legacy.LoginRevisionsAgree | index.js:80-90 | both revisions report any login outcome alike and store the same credential |
| Legacy.DeregisterStart | index.js:196-243 | sends the new token with no version and leaves the client unchanged; a push failure gives "Register failed." and no request |
| Legacy.DeregisterRevisionsAgree | index.js:196-243 | both revisions send the same URL and the same JSON value; the push-failure messages differ, and before any login the Authorization headers differ (`undefined` against a string) |
| Legacy.SendAnalyticRequest | index.js:263-288 | an event array is serialised and sent; the identity headers are the caller's values, `undefined` when absent |
| Legacy.SendAnalyticComplete | index.js:290-298 | the error is the raw body exactly when the parsed `message` is null |
| Legacy.AnalyticRevisionsCompared | index.js:263-298 | the older revision sends an event array that the class-based one, as written, throws on; both classify responses alike |
| Legacy.CollectionListRequest | index.js:349-366 | GET of the collections path with the body `''`, and `undefined` authorization before login |
| Legacy.CollectionListRevisionsAgree | index.js:349-366 | with the same credential both revisions send the same URL and headers; the bodies differ (`''` against none, mcs.js:424-432) |
| Legacy.ItemListRequest | index.js:416-437 | the collection id is `options.collectionId` for an object with a truthy one; an object without one renders as `[object Object]`; a bare string is itself |
| Legacy.ItemInfos | index.js:447-465 | one record per item, same length and order, each field copied from its namesake except the two modifier fields |
| Legacy.ItemListComplete | index.js:440-466 | a null `items` makes the raw body the error; otherwise the result is the mapped records in order |
| Legacy.ModifierFieldsAreDropped | index.js:458-459 | the misspelt source keys leave `modifiedBy` and `modifiedOn` undefined for a backend that sends them correctly spelt |
| Legacy.QueryIsJoin | index.js:652-656 | the trimmed accumulation is the `key=value` pairs joined by `&`, in order, with no trailing `&` |
| Legacy.ApiGetRequest | index.js:648-672 | the GET URL is the custom endpoint followed by `?` and the joined query, so no parameters leave a trailing `?` |
| Legacy.MergeLastWins | index.js:714-716 | after the merge, a supplied key holds its last value and every other key keeps its base value |
| Legacy.ApiPostRequest | index.js:701-719 | the POST headers are the three base headers updated by each header parameter in order |
| Legacy.CustomUrlsAgree | index.js:707 | the proxy's POST URL equals the URL that the class-based `createRequestOptions` hands out |
| Legacy.WrapperQuery | index.js:790-960 | a wrapper reads `options.name` or `options.id` with no fallback: the URL gets its string form ("undefined" when missing) and the "key" header the property itself |
| Legacy.LocationWrappersHitEndpoints | index.js:790-960 | each wrapper hits its endpoint; for a non-empty name or id both revisions build the same URL; a bare string reaches the backend as "undefined" in the URL and leaves the "key" header `undefined`, where the class-based client sends the string |

## Left out

- The HTTP transport, the push-notification service and `Data` persistence are not modelled. Their results are inputs: the `Outcome`, the `PushResult`, and a key-to-string map.
- The Base64 helper is not part of this model. It is the uninterpreted `Env.base64`.
- `JSON.parse` is the abstract `Env.parse`, and only the fields the client tests are modelled. `JSON.stringify` is modelled by the structured bodies `EventsJson` and `RegistrationJson`, not by their text.
- `Date().toISOString()`, `Math.random()` and `System.OS` are parameters: the timestamp, the draws and `Env.os`.
- `setInterval` scheduling is not modelled, because it concerns timing. Only the timer handle, the period and what a single tick does are modelled.
- Timer handles are assumed distinct, because `setInterval` supplies them.
- `StartAutoFlush` overwrites a previously held handle without cancelling it, as the source does; that earlier timer keeps running outside the model.
- `alert` and `console.log` side effects are not modelled.
- An omitted callback is not modelled. The class-based `sendAnalytic` and `flushEvents` accept one and then skip the call.
- `getItem`, `storeItem` and `getAppPolicies` are not modelled, in either revision. Each builds one URL and forwards the response: the raw body as text, except the class-based `getItem`, which passes the whole response object (mcs.js:543).
- The legacy `registerDeviceToken` is not modelled. It differs from the class-based version in several ways: it has no parse guard; it passes the raw body string as both the error and the result (index.js:166-170), where mcs.js:185-190 passes the parsed object; it never sets the public `notificationToken` property (mcs.js:154), though it does record the device token (index.js:132); and it serialises the body with tab indentation (index.js:159).
- The legacy `deleteItem` is not modelled. It has no cache-buster, and it also sends `Content-Type: application/json` and the body `''` (index.js:609-614).
- The legacy `sendBasicEvent` (index.js:322-336) is not modelled. It builds the same one-record array as the class-based one and hands it to the legacy `sendAnalytic`, which is modelled.
- The whitespace of serialised JSON is not modelled. Bodies are compared as JSON values, so `Legacy.DeregisterRevisionsAgree` does not see that index.js:228 indents with tabs where mcs.js:244 is compact.
- The sample application pages are UI glue and are not modelled.
- Legacy.ApiPostRequest: takes the body as a string. `apiCallerPostMethod` also accepts an object body (index.js:691) and passes `options.body` on unchanged (index.js:719); object bodies are not modelled.
- Arguments the source reads from an `options` object that the caller might omit are taken as strings: usernames, ids, API names and header parameters. A missing one would render as "undefined".
- `options.parameters` and `options.headerParameters` are taken as present arrays. A missing one throws in the source.
- Using a legacy client before `init` is not modelled. Its URLs would start with "undefined".
- JSON values other than `null`, objects and the fields read from them collapse into `NonObject`. That includes arrays, numbers and strings. `items` is either absent/null or an array of string-valued records.
- Header names are compared exactly, as JavaScript object keys are. The order of keys is not modelled.

## Findings

| source | as written | input that shows it | evidently intended | confidence | as-written member | corrected member |
|---|---|---|---|---|---|---|
| mcs.js:279-283 | `jsonBody` is declared `const` and then reassigned when the body is an object. `sendAnalytic` therefore throws a TypeError for every array body, and `flushEvents` throws after clearing the buffer at mcs.js:364. | `storeBasicEvent("a")` then `flushEvents()` | `let jsonBody`: the array is serialised and sent, and on failure it is restored | not executed | McsEvents.FlushAsWrittenLosesEvents | McsEvents.FlushInterleaving |
| mcs.js:52, mcs.js:384, mcs.js:405 | `privates[this]` reads a property of the WeakMap, which is `undefined`, instead of the entry for the instance. `setAuthorization` and `startAutoFlushEvents` throw on assignment, and `autoFlushEventsStarted` throws on read. | `setAuthorization({username: "u", password: "p"})` on any client | `privates.get(this)`, as every other method uses | not executed | Mcs.SetAuthorizationDefect | Mcs.SetAuthorization |
| mcs.js:384, mcs.js:405 | (same defect, auto-flush half) `setInterval` has already been scheduled when the assignment throws, so the result is a timer that cannot be stopped, whose every tick is an as-written flush that clears the buffer and throws | `startAutoFlushEvents()` then `stopAutoFlushEvents()` | the timer handle is recorded and later cancelled | not executed | McsEvents.AutoFlushAsWrittenCannotStop | McsEvents.StartThenStop |
