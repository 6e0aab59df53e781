# Listing relay (chugach-listings `forward-listing` edge function)

This project models the one piece of server-side logic in the chugach-listings
marketplace: the `forward-listing` edge function. It takes a newly created
listing and relays it to the shared ecosystem hub, so the listing appears on
the sibling marketplace sites.

The handler is straight-line code with early returns and one `try`/`catch`.
It is modelled as a pure function:

    Handle(req, claims, body, fetch) : Outcome(response, effects)

The three awaited external calls are inputs:

- `claims` is the result of the identity check. Building the auth client can throw before the check is called. The check itself can throw, return an error, or return with or without a claims object.
- `body` is the result of `req.json()`. Parsing can throw, or it gives a `listing` value, possibly `undefined`.
- `fetch` is the result of the POST and of reading the reply's text. Either step can throw; otherwise the POST gives a status.

The result is the response (status, body, headers) together with `effects`.
`effects` is the trace of external calls the handler made, in order:

- `CheckClaims(token)` records the token handed to the identity check.
- `ParseBody` records that the request body was read.
- `Post(request)` records the outbound request with its payload.

This trace states the order of the checks. It also states that later calls
never happen once an earlier stage has answered.

JavaScript values are modelled as a `Json` datatype; `undefined` is `None`.
`Truthy` is JavaScript's ToBoolean on those values. `listing.id` is accepted
when it is truthy, so an empty string, `0`, `false` and `null` are all
refused. `listing.images || []` keeps any truthy value and turns every falsy
one into `[]`.

The `Authorization` header check is the case-sensitive prefix test
`startsWith('Bearer ')`. The token is taken with `replace('Bearer ', '')`.
`replace` with a string pattern removes the first occurrence of the pattern.
The model proves that, once the prefix test has passed, this is exactly the
header without its first seven characters.

Modules: `Json` (values and truthiness), `Strings` (`startsWith`,
`indexOf`, first-occurrence `replace`), `ForwardListing` (constants,
payload, handler), `ForwardListingProps` (branch lemmas and worked examples).

Behaviour worth noting:

- Any method other than `OPTIONS` takes the POST path. The code has no
  method check beyond the pre-flight test.
- The code does not ask for a non-empty string id. It asks for a truthy
  `listing.id`, so a number such as `5` passes and `0` is refused.
- A throw from building the auth client or from `getClaims`, and a throw
  from reading the hub's reply text, also give 500. A body-parse failure
  gives 500 too, not 400.
- Before forwarding, the handler logs the listing id through a template
  literal, and that converts the id to a string. A truthy id that is an
  object with its own `toString` key, or an array holding such an object,
  cannot be converted: the runtime throws a TypeError ("Cannot convert
  object to primitive value"). The answer is then 500 and nothing is
  forwarded. `ToStringThrows` and `Forwardable` capture this case.

## Model

| member | source | states |
|---|---|---|
| Strings.IndexOfFrom | supabase/functions/forward-listing/index.ts:32 | The index returned is an occurrence of the pattern, and no earlier index at or after the start is one. `None` means there is no occurrence at or after the start. |
| Strings.RemoveFirst | supabase/functions/forward-listing/index.ts:32 | `replace` with a string pattern and an empty replacement cuts out exactly the first occurrence of the pattern. With no occurrence, the string comes back unchanged. |
| Strings.RemoveFirstOfPrefix | supabase/functions/forward-listing/index.ts:18-32 | After a successful prefix test, removing the first occurrence of the prefix gives what follows the prefix. The prefix plus the result is the original string. |
| ForwardListing.BuildPayload | supabase/functions/forward-listing/index.ts:53-69 | `source` and `source_url` are the fixed site constants. The forwarded `id` is the inbound `listing.id` and is truthy. `images` is truthy or `[]`. |
| ForwardListing.AfterForward | supabase/functions/forward-listing/index.ts:71-106 | Once the POST is sent, the answer is 200 or 500 with the JSON headers. It is 500 exactly when the POST or the read of its reply threw. |
| ForwardListing.AfterClaims | supabase/functions/forward-listing/index.ts:41-98 | After the claims check passes, the body is always read. The POST is issued exactly when the listing has a truthy id that the log line can convert to a string. It carries the payload built from that listing, and its outcome decides the answer. An id that cannot be converted gives 500 with the TypeError message. |
| ForwardListing.Handle | supabase/functions/forward-listing/index.ts:10-108 | Every response carries the CORS headers. The status is one of 200, 400, 401, 500. External calls happen in stage order. A 400 is "Missing listing data". A 401 is "Unauthorized" and comes before the body is read. |
| ForwardListing.OutboundInStageOrder | supabase/functions/forward-listing/index.ts:33-77 | In a trace in stage order, the only outbound request is the third call, and only when it is present. |
| ForwardListing.AtMostOnePost | supabase/functions/forward-listing/index.ts:71-77 | At most one request goes out, and it is a POST to the ecosystem endpoint. A 200 to a non-pre-flight request means it was sent. A 400 or 401 means nothing was sent. |
| ForwardListingProps.PreflightShortCircuits | supabase/functions/forward-listing/index.ts:12-14 | `OPTIONS` gets 200, body `ok` and the CORS headers. It makes no external call at all. |
| ForwardListingProps.MissingBearerIsUnauthorized | supabase/functions/forward-listing/index.ts:17-23 | A missing header, or one not starting with `Bearer `, gets 401 `{error: "Unauthorized"}` with no external call. |
| ForwardListingProps.LowerCaseBearerIsUnauthorized | supabase/functions/forward-listing/index.ts:18-22 | The prefix test is case-sensitive: `bearer abc` is refused with 401 before any call. |
| ForwardListingProps.BearerTokenIsHeaderSuffix | supabase/functions/forward-listing/index.ts:25-33 | No external call is made exactly when building the auth client threw. Otherwise the identity check is the first call, and its token is the header minus its first 7 characters, i.e. what follows `Bearer `. |
| ForwardListingProps.RejectedClaimsAreUnauthorized | supabase/functions/forward-listing/index.ts:34-39 | A claims error or a missing claims object gives 401. The body is not read and nothing is forwarded. |
| ForwardListingProps.MissingListingIsBadRequest | supabase/functions/forward-listing/index.ts:41-48 | After authentication, a missing listing or a falsy id gives 400 `{error: "Missing listing data"}`. The body has been read, and nothing is forwarded. |
| ForwardListingProps.ForwardsExactlyWhenValid | supabase/functions/forward-listing/index.ts:17-77 | A request is forwarded if and only if all of these hold: the method is not pre-flight, the bearer prefix is present, the claims are accepted, and the listing has a truthy id that converts to a string. The request is a POST to the endpoint with `Content-Type: application/json` and the payload built from the listing. |
| ForwardListingProps.DownstreamStatusIsSoftened | supabase/functions/forward-listing/index.ts:82-98 | A non-ok hub status still gives 200 `{success: true, forwarded: false, message: ...}`. An ok status gives 200 `{success: true, forwarded: true}`. |
| ForwardListingProps.ThrownValuesBecomeServerErrors | supabase/functions/forward-listing/index.ts:100-106 | A throw reached at client construction, the claims call, the body parse, the POST or the reply read gives 500 `{error: "Internal server error", details: m}`. `m` is the error's message, or `Unknown error` for a thrown non-Error. |
| ForwardListingProps.UnprintableIdIsServerError | supabase/functions/forward-listing/index.ts:50 | A truthy id that cannot be converted to a string makes the log line throw. The answer is 500 with "Cannot convert object to primitive value" as details, and nothing is forwarded. |
| ForwardListingProps.ServerErrorsComeFromThrownValues | supabase/functions/forward-listing/index.ts:16-107 | A 500 is only produced by a throw the handler reached. The request is not a pre-flight and carries the bearer prefix. Then one of these holds: building the client or the claims call threw; or the claims were accepted and the body parse threw, or the id could not be converted for the log line, or, for a forwardable listing, the POST or its reply read threw. |
| ForwardListingProps.UnreachedOutcomesAreIgnored | supabase/functions/forward-listing/index.ts:12-48 | The whole outcome does not depend on a stage the handler never reaches. Pre-flight and a failed bearer test ignore claims, body and POST. Rejected claims ignore body and POST. A failed body, or an id that cannot be logged, ignores the POST. |
| ForwardListingProps.ForwardedListingIsRestriction | supabase/functions/forward-listing/index.ts:56-68 | The forwarded listing keeps only the eleven copied keys of the inbound listing, with their values unchanged. `images` is always present: the inbound value when truthy, `[]` otherwise. |
| ForwardListingProps.BoatIsForwarded | supabase/functions/forward-listing/index.ts:53-98 | Listing `L1` "Boat" with images `["a.jpg"]` and a hub reply of 200: the caller gets `forwarded: true`. The hub receives id `L1`, the title, the images, no description, and source `chugach-listings`. |
| ForwardListingProps.BoatSyncPending | supabase/functions/forward-listing/index.ts:82-93 | The same request with a hub reply of 503 still gets 200 with the sync-pending body. |
| ForwardListingProps.BoatConnectionRefused | supabase/functions/forward-listing/index.ts:100-106 | The same request with a POST that throws gets 500 with the thrown message as details. |
| ForwardListingProps.ObjectIdsWithToStringFail | supabase/functions/forward-listing/index.ts:50 | Ids `{"toString": 1}` and `[{"toString": null}]` each get 500, even when the hub would answer 200. |
| ForwardListingProps.FalsyIdsAreRefused | supabase/functions/forward-listing/index.ts:43-48 | An empty-string id, a listing without an id, and a missing listing each get 400. |

## Left out

- Identity check: the Supabase client construction, the environment-variable reads and `auth.getClaims` are foreign calls. Their outcome is the input `ClaimsOutcome`. A throw while constructing the client is the separate outcome `ClientThrew`, which leaves the trace empty. No token verification is modelled.
- I/O: `req.json()`, `fetch` and `response.text()` are network and JSON I/O. Their outcomes are inputs. JSON text encoding and decoding are not modelled. The forwarded listing is modelled as the JSON value `JSON.stringify` would write; key order in the text is not modelled.
- A body that parses to JSON `null` makes `const { listing } = ...` throw a TypeError. That case is represented by `BodyThrew`, since its message text belongs to the runtime.
- Property reads model only an object's own fields. Built-in properties of strings and arrays (such as `length`) are not modelled. None of the keys the handler reads is one of them.
- `Content-Type: text/plain` is added by the runtime to the pre-flight `ok` response. The model shows only the headers the handler sets.
- Header names are compared as written; the case-insensitive lookup of `Headers` is the runtime's.
- `Deno.serve`, async scheduling and `console.log`/`console.error` are runtime and logging plumbing. Their output is not modelled. The one log argument whose evaluation can throw, the id in the line before the forward, is modelled. The reply text is read only for logging, so its content is not modelled, only whether reading it threw.
- Repeated invocations: the handler keeps no state between requests. Two identical requests each issue their own POST, with no deduplication. The model is a function of one request, so this is a consequence of the model, not a separate lemma.
- The React components (`Header`, `Footer`, `CTASection`, `EcosystemSites`) are presentation only and are not part of this model.
