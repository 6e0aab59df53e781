/** Properties of the listing-forwarding handler, one lemma per branch of
    its decision sequence, plus the payload mapping and worked examples. */
module ForwardListingProps {
  import opened Json
  import opened Strings
  import opened ForwardListing

  // ---------------------------------------------------------------------
  // Branch by branch

  /** A pre-flight request is answered with 200 "ok" and the CORS headers,
      before any identity check, body parse or outbound call. */
  lemma PreflightShortCircuits(req: Request, claims: ClaimsOutcome, body: BodyOutcome, fetch: FetchOutcome)
    requires req.verb == "OPTIONS"
    ensures Handle(req, claims, body, fetch).response == Response(200, Text("ok"), CorsHeaders)
    ensures Handle(req, claims, body, fetch).effects == []
  {
  }

  /** Without an `Authorization` header that starts with "Bearer " the answer
      is 401 and nothing else happens. */
  lemma MissingBearerIsUnauthorized(req: Request, claims: ClaimsOutcome, body: BodyOutcome, fetch: FetchOutcome)
    requires req.verb != "OPTIONS" && !HasBearer(req.authorization)
    ensures Handle(req, claims, body, fetch).response == Response(401, JsonBody(ErrorJson("Unauthorized")), JsonHeaders)
    ensures Handle(req, claims, body, fetch).effects == []
  {
  }

  /** The prefix test is case-sensitive: "bearer ..." is refused. */
  lemma LowerCaseBearerIsUnauthorized(claims: ClaimsOutcome, body: BodyOutcome, fetch: FetchOutcome)
    ensures Handle(Request("POST", Some("bearer abc")), claims, body, fetch).response.status == 401
    ensures Handle(Request("POST", Some("bearer abc")), claims, body, fetch).effects == []
  {
    assert "bearer abc"[..7] != BearerPrefix by {
      assert "bearer abc"[0] != BearerPrefix[0];
    }
  }

  /** Once the prefix test passes, the identity check is the first external
      call unless building the client already threw, and the token it
      receives is the header with its "Bearer " prefix removed: the header
      minus its first seven characters. */
  lemma BearerTokenIsHeaderSuffix(req: Request, claims: ClaimsOutcome, body: BodyOutcome, fetch: FetchOutcome)
    requires req.verb != "OPTIONS" && HasBearer(req.authorization)
    ensures var r := Handle(req, claims, body, fetch);
      && (r.effects == [] <==> claims.ClientThrew?)
      && (r.effects != [] ==>
            && r.effects[0] == CheckClaims(req.authorization.value[7..])
            && BearerPrefix + r.effects[0].token == req.authorization.value)
  {
    RemoveFirstOfPrefix(req.authorization.value, BearerPrefix);
  }

  /** A returned claims error, or no claims object, gives 401 after the
      identity check and before the body is read. */
  lemma RejectedClaimsAreUnauthorized(req: Request, claims: ClaimsOutcome, body: BodyOutcome, fetch: FetchOutcome)
    requires req.verb != "OPTIONS" && HasBearer(req.authorization)
    requires claims.ClaimsReturned? && (claims.hasError || !claims.hasClaims)
    ensures Handle(req, claims, body, fetch).response == Response(401, JsonBody(ErrorJson("Unauthorized")), JsonHeaders)
    ensures |Handle(req, claims, body, fetch).effects| == 1
    ensures Outbound(Handle(req, claims, body, fetch).effects) == []
  {
    OutboundInStageOrder(Handle(req, claims, body, fetch).effects);
  }

  /** After authentication, an absent listing or a falsy `listing.id` gives
      400 after the body is read and with no outbound call. */
  lemma MissingListingIsBadRequest(req: Request, claims: ClaimsOutcome, listing: Option<Json>, fetch: FetchOutcome)
    requires req.verb != "OPTIONS" && HasBearer(req.authorization) && ClaimsAccepted(claims)
    requires !HasListingId(listing)
    ensures Handle(req, claims, BodyParsed(listing), fetch).response
         == Response(400, JsonBody(ErrorJson("Missing listing data")), JsonHeaders)
    ensures Handle(req, claims, BodyParsed(listing), fetch).effects[1..] == [ParseBody]
    ensures Outbound(Handle(req, claims, BodyParsed(listing), fetch).effects) == []
  {
    OutboundInStageOrder(Handle(req, claims, BodyParsed(listing), fetch).effects);
  }

  /** The one POST to the hub happens exactly when every check passed, and
      it carries the payload built from the validated listing. */
  lemma ForwardsExactlyWhenValid(req: Request, claims: ClaimsOutcome, body: BodyOutcome, fetch: FetchOutcome)
    ensures var sent := Outbound(Handle(req, claims, body, fetch).effects);
      && (|sent| == 1 <==>
            req.verb != "OPTIONS" && HasBearer(req.authorization) && ClaimsAccepted(claims)
            && body.BodyParsed? && Forwardable(body.listing))
      && (|sent| == 1 ==>
            sent[0] == OutboundRequest(EcosystemEndpoint, "POST",
                                       map["Content-Type" := "application/json"],
                                       BuildPayload(body.listing.value)))
  {
    var r := Handle(req, claims, body, fetch);
    OutboundInStageOrder(r.effects);
  }

  /** Once the POST answered and its text was read, a non-ok status still
      yields 200 with `forwarded: false`, and an ok status yields 200 with
      `forwarded: true`. */
  lemma DownstreamStatusIsSoftened(req: Request, claims: ClaimsOutcome, listing: Json, status: int)
    requires req.verb != "OPTIONS" && HasBearer(req.authorization) && ClaimsAccepted(claims)
    requires Forwardable(Some(listing))
    ensures var r := Handle(req, claims, BodyParsed(Some(listing)), FetchResponded(status, None));
      && r.response.status == 200
      && r.response.headers == JsonHeaders
      && (!IsOk(status) ==> r.response.body == JsonBody(SyncPendingJson))
      && (IsOk(status) ==> r.response.body == JsonBody(ForwardedJson))
  {
  }

  /** A value thrown at any awaited step after the pre-flight branch gives
      500 with "Internal server error" and the thrown value's message. */
  lemma ThrownValuesBecomeServerErrors(req: Request, claims: ClaimsOutcome, body: BodyOutcome, fetch: FetchOutcome, t: Thrown)
    requires req.verb != "OPTIONS" && HasBearer(req.authorization)
    requires || claims == ClientThrew(t)
             || claims == ClaimsThrew(t)
             || (ClaimsAccepted(claims) && body == BodyThrew(t))
             || (ClaimsAccepted(claims) && body.BodyParsed? && Forwardable(body.listing)
                 && (fetch == FetchThrew(t) || (fetch.FetchResponded? && fetch.readFailure == Some(t))))
    ensures Handle(req, claims, body, fetch).response
         == Response(500, JsonBody(ServerErrorJson(ErrorMessage(t))), JsonHeaders)
  {
  }

  /** A listing whose truthy `id` cannot be converted to a string makes the
      log line before the forward throw: 500 with the runtime's TypeError
      message, and no POST. */
  lemma UnprintableIdIsServerError(req: Request, claims: ClaimsOutcome, listing: Json, fetch: FetchOutcome)
    requires req.verb != "OPTIONS" && HasBearer(req.authorization) && ClaimsAccepted(claims)
    requires HasListingId(Some(listing)) && ToStringThrows(Property(listing, "id").value)
    ensures Handle(req, claims, BodyParsed(Some(listing)), fetch).response
         == Response(500, JsonBody(ServerErrorJson("Cannot convert object to primitive value")), JsonHeaders)
    ensures Outbound(Handle(req, claims, BodyParsed(Some(listing)), fetch).effects) == []
  {
    OutboundInStageOrder(Handle(req, claims, BodyParsed(Some(listing)), fetch).effects);
  }

  /** Conversely, a 500 is only ever produced by a thrown value that the
      handler actually reached: building the client or the claims call, or,
      after the claims were accepted, the body parse, the id conversion of
      the log line, or the POST and its reply read for a forwardable listing. */
  lemma ServerErrorsComeFromThrownValues(req: Request, claims: ClaimsOutcome, body: BodyOutcome, fetch: FetchOutcome)
    requires Handle(req, claims, body, fetch).response.status == 500
    ensures req.verb != "OPTIONS" && HasBearer(req.authorization)
    ensures || claims.ClientThrew? || claims.ClaimsThrew?
            || (ClaimsAccepted(claims) && body.BodyThrew?)
            || (ClaimsAccepted(claims) && body.BodyParsed? && HasListingId(body.listing)
                && !Forwardable(body.listing))
            || (ClaimsAccepted(claims) && body.BodyParsed? && Forwardable(body.listing)
                && (fetch.FetchThrew? || (fetch.FetchResponded? && fetch.readFailure.Some?)))
  {
  }

  /** "Never consulted", stated as independence: the answer does not depend
      on any outcome the handler does not reach. */
  lemma UnreachedOutcomesAreIgnored(req: Request, c1: ClaimsOutcome, c2: ClaimsOutcome, b1: BodyOutcome, b2: BodyOutcome,
                                    f1: FetchOutcome, f2: FetchOutcome)
    ensures req.verb == "OPTIONS" || !HasBearer(req.authorization) ==>
      Handle(req, c1, b1, f1) == Handle(req, c2, b2, f2)
    ensures !ClaimsAccepted(c1) ==>
      Handle(req, c1, b1, f1) == Handle(req, c1, b2, f2)
    ensures b1.BodyThrew? || (b1.BodyParsed? && !Forwardable(b1.listing)) ==>
      Handle(req, c1, b1, f1) == Handle(req, c1, b1, f2)
  {
  }

  // ---------------------------------------------------------------------
  // Payload mapping

  /** The forwarded listing, as written into the JSON text, is the inbound
      listing restricted to the eleven copied keys, with `images` always
      present: the inbound value when it is truthy and `[]` otherwise. Keys
      the caller sent beyond these are dropped; values are unchanged. */
  lemma {:induction false} ForwardedListingIsRestriction(listing: Json)
    requires HasListingId(Some(listing))
    ensures var sent := ListingJson(BuildPayload(listing).listing);
      && sent == (map k | k in ListingKeys && k in listing.fields :: listing.fields[k])["images" := DefaultedImages(listing)]
      && sent["images"] == (if Truthy(Property(listing, "images")) then listing.fields["images"] else JArr([]))
  {
    var sent := ListingJson(BuildPayload(listing).listing);
    var expected := (map k | k in ListingKeys && k in listing.fields :: listing.fields[k])["images" := DefaultedImages(listing)];
    forall k | k in ListingKeys
      ensures ListingField(BuildPayload(listing).listing, k)
           == if k == "images" then Some(DefaultedImages(listing)) else Property(listing, k)
    {
    }
    assert sent.Keys == expected.Keys;
  }

  // ---------------------------------------------------------------------
  // Worked examples

  const Boat: Json := JObj(map[
    "id" := JStr("L1"), "title" := JStr("Boat"), "images" := JArr([JStr("a.jpg")])])

  const BoatRequest: Request := Request("POST", Some("Bearer tok"))

  const Accepted: ClaimsOutcome := ClaimsReturned(false, true)

  lemma BoatRequestIsAccepted()
    ensures HasBearer(BoatRequest.authorization) && ClaimsAccepted(Accepted)
    ensures Forwardable(Some(Boat))
  {
    assert BoatRequest.authorization.value[..7] == BearerPrefix;
  }

  /** A valid request whose forward gets 200: the caller sees
      `{success: true, forwarded: true}` and the hub receives id "L1",
      images ["a.jpg"], the title, no description, and the fixed source. */
  lemma BoatIsForwarded()
    ensures var r := Handle(BoatRequest, Accepted, BodyParsed(Some(Boat)), FetchResponded(200, None));
      && r.response == Response(200, JsonBody(ForwardedJson), JsonHeaders)
      && |Outbound(r.effects)| == 1
      && Outbound(r.effects)[0].payload.source == "chugach-listings"
      && Outbound(r.effects)[0].payload.listing.id == JStr("L1")
      && Outbound(r.effects)[0].payload.listing.title == Some(JStr("Boat"))
      && Outbound(r.effects)[0].payload.listing.images == JArr([JStr("a.jpg")])
      && Outbound(r.effects)[0].payload.listing.description.None?
  {
    BoatRequestIsAccepted();
    ForwardsExactlyWhenValid(BoatRequest, Accepted, BodyParsed(Some(Boat)), FetchResponded(200, None));
    DownstreamStatusIsSoftened(BoatRequest, Accepted, Boat, 200);
    var p := BuildPayload(Boat);
    assert p.listing.title == Some(JStr("Boat"));
    assert p.listing.images == JArr([JStr("a.jpg")]);
    assert p.listing.description.None?;
  }

  /** The same request when the hub answers 503 is still a 200. */
  lemma BoatSyncPending()
    ensures Handle(BoatRequest, Accepted, BodyParsed(Some(Boat)), FetchResponded(503, None)).response
         == Response(200, JsonBody(SyncPendingJson), JsonHeaders)
  {
    BoatRequestIsAccepted();
    DownstreamStatusIsSoftened(BoatRequest, Accepted, Boat, 503);
  }

  /** The same request when the POST throws is a 500 carrying the message. */
  lemma BoatConnectionRefused()
    ensures Handle(BoatRequest, Accepted, BodyParsed(Some(Boat)), FetchThrew(ErrorObject("connection refused"))).response
         == Response(500, JsonBody(ServerErrorJson("connection refused")), JsonHeaders)
  {
    BoatRequestIsAccepted();
    ThrownValuesBecomeServerErrors(BoatRequest, Accepted, BodyParsed(Some(Boat)),
                                   FetchThrew(ErrorObject("connection refused")), ErrorObject("connection refused"));
  }

  /** An id object with its own `toString` key, or an array holding one,
      cannot be logged: 500 and no POST, even though the hub would answer. */
  lemma ObjectIdsWithToStringFail()
    ensures Handle(BoatRequest, Accepted, BodyParsed(Some(JObj(map["id" := JObj(map["toString" := JNum(1.0)])]))),
                   FetchResponded(200, None)).response.status == 500
    ensures Handle(BoatRequest, Accepted, BodyParsed(Some(JObj(map["id" := JArr([JObj(map["toString" := JNull])])]))),
                   FetchResponded(200, None)).response.status == 500
  {
    BoatRequestIsAccepted();
    var inner := JObj(map["toString" := JNum(1.0)]);
    assert ToStringThrows(inner);
    UnprintableIdIsServerError(BoatRequest, Accepted, JObj(map["id" := inner]), FetchResponded(200, None));
    var elem := JObj(map["toString" := JNull]);
    assert ToStringThrows(JArr([elem])) by {
      assert [elem][0] == elem;
    }
    UnprintableIdIsServerError(BoatRequest, Accepted, JObj(map["id" := JArr([elem])]), FetchResponded(200, None));
  }

  /** An empty-string id, a listing without id, and no listing at all are
      each refused with 400. */
  lemma FalsyIdsAreRefused(fetch: FetchOutcome)
    ensures Handle(BoatRequest, Accepted, BodyParsed(Some(JObj(map["id" := JStr("")]))), fetch).response.status == 400
    ensures Handle(BoatRequest, Accepted, BodyParsed(Some(JObj(map[]))), fetch).response.status == 400
    ensures Handle(BoatRequest, Accepted, BodyParsed(None), fetch).response.status == 400
  {
    BoatRequestIsAccepted();
    MissingListingIsBadRequest(BoatRequest, Accepted, Some(JObj(map["id" := JStr("")])), fetch);
    MissingListingIsBadRequest(BoatRequest, Accepted, Some(JObj(map[])), fetch);
    MissingListingIsBadRequest(BoatRequest, Accepted, None, fetch);
  }
}
