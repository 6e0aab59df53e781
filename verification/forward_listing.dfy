/** The listing-forwarding edge function: a request handler that answers
    CORS pre-flight, checks a bearer credential with the identity provider,
    validates the `listing` in the body, and forwards it with one POST to the
    ecosystem hub.

    The three awaited calls are inputs to the model: the identity check's
    outcome, the outcome of parsing the body, and the outcome of the POST.
    The handler returns its response together with the trace of the external
    calls it made, in the order it made them. */
module ForwardListing {
  import opened Json
  import opened Strings

  // ---------------------------------------------------------------------
  // Constants

  const CorsHeaders: map<string, string> := map[
    "Access-Control-Allow-Origin" := "*",
    "Access-Control-Allow-Headers" := "authorization, x-client-info, apikey, content-type, x-supabase-client-platform, x-supabase-client-platform-version, x-supabase-client-runtime, x-supabase-client-runtime-version"
  ]

  /** Headers of every JSON response: the CORS headers plus the content type. */
  const JsonHeaders: map<string, string> := CorsHeaders["Content-Type" := "application/json"]

  const EcosystemEndpoint: string := "https://jneflbektcqalwhgfuyo.supabase.co/functions/v1/ecosystem-listings"
  const SourceName: string := "chugach-listings"
  const SourceUrl: string := "https://chugach-listings.lovable.app"
  const BearerPrefix: string := "Bearer "

  /** The keys of the inbound listing that are copied into the forwarded one. */
  const ListingKeys: set<string> := {
    "id", "title", "description", "price", "category", "region", "images",
    "contact_email", "contact_phone", "created_at", "expires_at"
  }

  // ---------------------------------------------------------------------
  // Inputs

  /** The parts of the inbound request the handler looks at before the body.
      `authorization` is `None` when `headers.get` returns `null`. */
  datatype Request = Request(verb: string, authorization: Option<string>)

  /** A value caught by the `catch` clause: an `Error` (with its message) or
      anything else that was thrown. */
  datatype Thrown = ErrorObject(message: string) | NonError

  /** Outcome of building the auth client and calling `getClaims(token)`:
      building the client throws (so `getClaims` is never called), the call
      throws, or it returns an error flag and possibly a claims object. */
  datatype ClaimsOutcome =
    | ClientThrew(thrown: Thrown)
    | ClaimsThrew(thrown: Thrown)
    | ClaimsReturned(hasError: bool, hasClaims: bool)

  /** Outcome of `req.json()` followed by `const { listing } = ...`; a
      parsed body without a `listing` key gives `undefined` (`None`). */
  datatype BodyOutcome =
    | BodyThrew(thrown: Thrown)
    | BodyParsed(listing: Option<Json>)

  /** Outcome of the POST and of reading its response text. */
  datatype FetchOutcome =
    | FetchThrew(thrown: Thrown)
    | FetchResponded(status: int, readFailure: Option<Thrown>)

  // ---------------------------------------------------------------------
  // Outputs

  /** The `listing` object of the forwarded payload. `None` fields are
      `undefined` and are left out of the JSON text. */
  datatype ListingCopy = ListingCopy(
    id: Json,
    title: Option<Json>,
    description: Option<Json>,
    price: Option<Json>,
    category: Option<Json>,
    region: Option<Json>,
    images: Json,
    contactEmail: Option<Json>,
    contactPhone: Option<Json>,
    createdAt: Option<Json>,
    expiresAt: Option<Json>)

  datatype ForwardPayload = ForwardPayload(source: string, sourceUrl: string, listing: ListingCopy)

  datatype OutboundRequest = OutboundRequest(
    url: string, verb: string, headers: map<string, string>, payload: ForwardPayload)

  datatype Body = Text(text: string) | JsonBody(value: Json)

  /** A response built without an explicit status has status 200. */
  datatype Response = Response(status: int, body: Body, headers: map<string, string>)

  /** An external call the handler made. */
  datatype Effect =
    | CheckClaims(token: string)
    | ParseBody
    | Post(request: OutboundRequest)

  datatype Outcome = Outcome(response: Response, effects: seq<Effect>)

  // ---------------------------------------------------------------------
  // Helpers

  /** `response.ok`. */
  predicate IsOk(status: int) {
    200 <= status <= 299
  }

  /** `authHeader?.startsWith('Bearer ')` is truthy. */
  predicate HasBearer(authorization: Option<string>) {
    authorization.Some? && StartsWith(authorization.value, BearerPrefix)
  }

  /** The identity check passed: no error and a claims object. */
  predicate ClaimsAccepted(claims: ClaimsOutcome) {
    claims.ClaimsReturned? && !claims.hasError && claims.hasClaims
  }

  /** `listing && listing.id` is truthy. */
  predicate HasListingId(listing: Option<Json>) {
    Truthy(listing) && Truthy(Property(listing.value, "id"))
  }

  /** The message of the TypeError the runtime throws when a value cannot
      be converted to a string. */
  const ToStringFailure: string := "Cannot convert object to primitive value"

  /** The listing gets past validation and its `id` can be written into the
      log line that precedes the forward. */
  predicate Forwardable(listing: Option<Json>) {
    HasListingId(listing) && !ToStringThrows(Property(listing.value, "id").value)
  }

  /** The `details` of a 500 response. */
  function ErrorMessage(t: Thrown): string {
    match t
    case ErrorObject(m) => m
    case NonError => "Unknown error"
  }

  function ErrorJson(error: string): Json {
    JObj(map["error" := JStr(error)])
  }

  const SyncPendingJson: Json := JObj(map[
    "success" := JBool(true),
    "forwarded" := JBool(false),
    "message" := JStr("Listing created but ecosystem sync pending")])

  const ForwardedJson: Json := JObj(map["success" := JBool(true), "forwarded" := JBool(true)])

  function ServerErrorJson(details: string): Json {
    JObj(map["error" := JStr("Internal server error"), "details" := JStr(details)])
  }

  function JsonResponse(status: int, body: Json): Response {
    Response(status, JsonBody(body), JsonHeaders)
  }

  const PreflightResponse: Response := Response(200, Text("ok"), CorsHeaders)
  const UnauthorizedResponse: Response := JsonResponse(401, ErrorJson("Unauthorized"))
  const MissingListingResponse: Response := JsonResponse(400, ErrorJson("Missing listing data"))

  function ServerError(t: Thrown): Response {
    JsonResponse(500, ServerErrorJson(ErrorMessage(t)))
  }

  /** Every response header of the CORS set is present with its value. */
  predicate CarriesCors(headers: map<string, string>) {
    forall k :: k in CorsHeaders ==> k in headers && headers[k] == CorsHeaders[k]
  }

  /** The external calls happen in the handler's order, each at most once:
      identity check, then body parse, then the POST. */
  predicate InStageOrder(effects: seq<Effect>) {
    && |effects| <= 3
    && (|effects| > 0 ==> effects[0].CheckClaims?)
    && (|effects| > 1 ==> effects[1].ParseBody?)
    && (|effects| > 2 ==> effects[2].Post?)
  }

  /** The outbound requests in a trace, in order. */
  function Outbound(effects: seq<Effect>): seq<OutboundRequest> {
    if effects == [] then []
    else (if effects[0].Post? then [effects[0].request] else []) + Outbound(effects[1..])
  }

  // ---------------------------------------------------------------------
  // Payload

  /** The JSON value of the forwarded listing's field named `key`. */
  function ListingField(l: ListingCopy, key: string): Option<Json> {
    if key == "id" then Some(l.id)
    else if key == "title" then l.title
    else if key == "description" then l.description
    else if key == "price" then l.price
    else if key == "category" then l.category
    else if key == "region" then l.region
    else if key == "images" then Some(l.images)
    else if key == "contact_email" then l.contactEmail
    else if key == "contact_phone" then l.contactPhone
    else if key == "created_at" then l.createdAt
    else if key == "expires_at" then l.expiresAt
    else None
  }

  /** The fields `JSON.stringify` writes for the forwarded listing:
      every copied key whose value is not `undefined`. */
  function ListingJson(l: ListingCopy): map<string, Json> {
    map k | k in ListingKeys && ListingField(l, k).Some? :: ListingField(l, k).value
  }

  /** `listing.images || []`. */
  function DefaultedImages(listing: Json): Json {
    Or(Property(listing, "images"), JArr([]))
  }

  /** The `forwardPayload` object built from a listing that passed validation. */
  function BuildPayload(listing: Json): (p: ForwardPayload)
    requires HasListingId(Some(listing))
    ensures p.source == SourceName && p.sourceUrl == SourceUrl
    ensures Some(p.listing.id) == Property(listing, "id") && Truthy(Some(p.listing.id))
    ensures Truthy(Some(p.listing.images)) || p.listing.images == JArr([])
  {
    ForwardPayload(SourceName, SourceUrl, ListingCopy(
      id := Property(listing, "id").value,
      title := Property(listing, "title"),
      description := Property(listing, "description"),
      price := Property(listing, "price"),
      category := Property(listing, "category"),
      region := Property(listing, "region"),
      images := DefaultedImages(listing),
      contactEmail := Property(listing, "contact_email"),
      contactPhone := Property(listing, "contact_phone"),
      createdAt := Property(listing, "created_at"),
      expiresAt := Property(listing, "expires_at")))
  }

  function ForwardRequest(listing: Json): OutboundRequest
    requires HasListingId(Some(listing))
  {
    OutboundRequest(EcosystemEndpoint, "POST", map["Content-Type" := "application/json"], BuildPayload(listing))
  }

  // ---------------------------------------------------------------------
  // The handler

  /** In a trace in stage order, the only outbound request is the third
      call, when the handler got that far. */
  lemma {:induction false} OutboundInStageOrder(effects: seq<Effect>)
    requires InStageOrder(effects)
    ensures Outbound(effects) == if |effects| == 3 then [effects[2].request] else []
  {
    if effects != [] {
      var rest := effects[1..];
      assert Outbound(effects) == Outbound(rest);
      if rest != [] {
        assert rest[0].ParseBody?;
        var last := rest[1..];
        if last != [] {
          assert last[1..] == [];
          assert Outbound(last) == [effects[2].request];
        }
        assert Outbound(rest) == Outbound(last);
      }
    }
  }

  /** What the handler answers once the POST went out. */
  function AfterForward(fetch: FetchOutcome): (resp: Response)
    ensures resp.status in {200, 500} && resp.headers == JsonHeaders
    ensures resp.status == 500 <==> fetch.FetchThrew? || fetch.readFailure.Some?
  {
    match fetch
    case FetchThrew(t) => ServerError(t)
    case FetchResponded(status, readFailure) =>
      if readFailure.Some? then ServerError(readFailure.value)
      else if !IsOk(status) then JsonResponse(200, SyncPendingJson)
      else JsonResponse(200, ForwardedJson)
  }

  /** The handler after the identity check accepted `token`: read the body,
      validate the listing, log its id, forward it. Logging the id converts
      it to a string, which can throw before the POST is made. */
  function AfterClaims(token: string, body: BodyOutcome, fetch: FetchOutcome): (r: Outcome)
    ensures 2 <= |r.effects| <= 3 && r.effects[..2] == [CheckClaims(token), ParseBody]
    ensures |r.effects| == 3 <==> body.BodyParsed? && Forwardable(body.listing)
    ensures |r.effects| == 3 ==> r.effects[2] == Post(ForwardRequest(body.listing.value))
    ensures |r.effects| == 3 ==> r.response == AfterForward(fetch)
    ensures body.BodyParsed? && HasListingId(body.listing) && !Forwardable(body.listing) ==>
      r.response == ServerError(ErrorObject(ToStringFailure))
  {
    match body
    case BodyThrew(t) => Outcome(ServerError(t), [CheckClaims(token), ParseBody])
    case BodyParsed(listing) =>
      if !HasListingId(listing) then
        Outcome(MissingListingResponse, [CheckClaims(token), ParseBody])
      else if ToStringThrows(Property(listing.value, "id").value) then
        Outcome(ServerError(ErrorObject(ToStringFailure)), [CheckClaims(token), ParseBody])
      else
        Outcome(AfterForward(fetch), [CheckClaims(token), ParseBody, Post(ForwardRequest(listing.value))])
  }

  /** One invocation of the handler. Everything after the pre-flight branch
      runs inside the `try`, so a thrown value at any awaited step becomes a
      500 response that carries its message. */
  function Handle(req: Request, claims: ClaimsOutcome, body: BodyOutcome, fetch: FetchOutcome): (r: Outcome)
    ensures CarriesCors(r.response.headers)
    ensures r.response.status in {200, 400, 401, 500}
    ensures InStageOrder(r.effects)
    ensures r.response.status == 400 ==> r.response.body == JsonBody(ErrorJson("Missing listing data"))
    ensures r.response.status == 401 ==> r.response.body == JsonBody(ErrorJson("Unauthorized")) && |r.effects| <= 1
  {
    if req.verb == "OPTIONS" then
      Outcome(PreflightResponse, [])
    else if !HasBearer(req.authorization) then
      Outcome(UnauthorizedResponse, [])
    else
      var token := RemoveFirst(req.authorization.value, BearerPrefix);
      match claims
      case ClientThrew(t) => Outcome(ServerError(t), [])
      case ClaimsThrew(t) => Outcome(ServerError(t), [CheckClaims(token)])
      case ClaimsReturned(_, _) =>
        if !ClaimsAccepted(claims) then
          Outcome(UnauthorizedResponse, [CheckClaims(token)])
        else
          AfterClaims(token, body, fetch)
  }

  /** The handler issues at most one outbound request, always a POST to the
      hub, and a 200 answer to anything but a pre-flight means it was sent. */
  lemma {:induction false} AtMostOnePost(req: Request, claims: ClaimsOutcome, body: BodyOutcome, fetch: FetchOutcome)
    ensures var r := Handle(req, claims, body, fetch);
      && |Outbound(r.effects)| <= 1
      && (forall o :: o in Outbound(r.effects) ==> o.url == EcosystemEndpoint && o.verb == "POST")
      && (r.response.status == 200 && req.verb != "OPTIONS" ==> |Outbound(r.effects)| == 1)
      && (r.response.status in {400, 401} ==> Outbound(r.effects) == [])
  {
    var r := Handle(req, claims, body, fetch);
    OutboundInStageOrder(r.effects);
  }
}
