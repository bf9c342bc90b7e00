/** The generate-livekit-token edge function: one request in, one response
    out, with no retained state. Parsing the JSON body, reading the two
    environment variables and signing the JWT are inputs to the decision:
    `body` is None when `req.json()` throws, the credentials are None when the
    variable is unset, and `signOk` says whether `toJwt()` resolved. */
module TokenFunction {
  import opened Common

  /** The three fields the handler destructures from the JSON body. */
  datatype TokenFields = TokenFields(roomName: Option<string>, participantName: Option<string>, participantId: Option<string>)

  datatype Request = Request(httpMethod: string, body: Option<TokenFields>)

  datatype Credentials = Credentials(apiKey: Option<string>, apiSecret: Option<string>)

  /** The video grant attached to the access token. */
  datatype VideoGrant = VideoGrant(roomJoin: bool, room: string, canPublish: bool, canSubscribe: bool)

  /** The claims of the signed token; the JWT encoding itself is not modelled. */
  datatype AccessToken = AccessToken(apiKey: string, identity: string, name: string, grant: VideoGrant)

  /** The CORS headers alone, or the CORS headers with a JSON content type. */
  datatype Headers = Cors | CorsJson

  datatype Body = NoBody | ErrorBody(error: string) | TokenBody(token: AccessToken)

  datatype Response = Response(status: int, headers: Headers, body: Body)

  const MissingFields := "Missing required fields"
  const NoCredentials := "LiveKit credentials not configured"
  const GenerateFailed := "Failed to generate token"

  /** All three request fields present and non-empty. */
  predicate FieldsPresent(f: TokenFields)
  {
    Truthy(f.roomName) && Truthy(f.participantName) && Truthy(f.participantId)
  }

  predicate CredentialsPresent(c: Credentials)
  {
    Truthy(c.apiKey) && Truthy(c.apiSecret)
  }

  /** The handler. A token is returned exactly when the request is not a
      preflight, the body parses, all fields are set, both credentials are set
      and signing succeeds; the token then carries the caller's identity and
      name and a full grant for the named room. Every other outcome is an
      error response with the CORS headers and a JSON body, or the preflight
      reply. */
  function Handle(req: Request, creds: Credentials, signOk: bool): (r: Response)
    ensures r.body.TokenBody? <==>
      req.httpMethod != "OPTIONS" && req.body.Some? && FieldsPresent(req.body.value) &&
      CredentialsPresent(creds) && signOk
    ensures r.body.TokenBody? ==>
      r.status == 200 && r.headers == CorsJson &&
      r.body.token.identity == req.body.value.participantId.value &&
      r.body.token.name == req.body.value.participantName.value &&
      r.body.token.apiKey == creds.apiKey.value &&
      r.body.token.grant == VideoGrant(true, req.body.value.roomName.value, true, true)
    ensures r.body.NoBody? <==> req.httpMethod == "OPTIONS"
    ensures r.body.NoBody? ==> r.status == 200 && r.headers == Cors
    ensures r.body.ErrorBody? ==> r.status in {400, 500} && r.headers == CorsJson
  {
    if req.httpMethod == "OPTIONS" then
      Response(200, Cors, NoBody)
    else if req.body.None? then
      Response(500, CorsJson, ErrorBody(GenerateFailed))
    else
      var f := req.body.value;
      if !FieldsPresent(f) then
        Response(400, CorsJson, ErrorBody(MissingFields))
      else if !CredentialsPresent(creds) then
        Response(500, CorsJson, ErrorBody(NoCredentials))
      else if !signOk then
        Response(500, CorsJson, ErrorBody(GenerateFailed))
      else
        var token := AccessToken(creds.apiKey.value, f.participantId.value, f.participantName.value,
                                 VideoGrant(true, f.roomName.value, true, true));
        Response(200, CorsJson, TokenBody(token))
  }

  /** A preflight is answered before the body is read, whatever the body,
      the credentials or the signer. */
  lemma PreflightIgnoresEverything(body1: Option<TokenFields>, body2: Option<TokenFields>,
                                   c1: Credentials, c2: Credentials, s1: bool, s2: bool)
    ensures Handle(Request("OPTIONS", body1), c1, s1) == Handle(Request("OPTIONS", body2), c2, s2)
    ensures Handle(Request("OPTIONS", body1), c1, s1) == Response(200, Cors, NoBody)
  {
  }

  /** Any unset or empty field gives 400, and this is decided before the
      credentials and the signer are consulted. */
  lemma MissingFieldsFirst(m: string, f: TokenFields, c1: Credentials, c2: Credentials, s1: bool, s2: bool)
    requires m != "OPTIONS"
    requires !Truthy(f.roomName) || !Truthy(f.participantName) || !Truthy(f.participantId)
    ensures Handle(Request(m, Some(f)), c1, s1) == Response(400, CorsJson, ErrorBody(MissingFields))
    ensures Handle(Request(m, Some(f)), c1, s1) == Handle(Request(m, Some(f)), c2, s2)
  {
  }

  /** With every field set, a missing key or secret gives 500 before signing. */
  lemma MissingCredentials(m: string, f: TokenFields, c: Credentials, s: bool)
    requires m != "OPTIONS" && FieldsPresent(f)
    requires !Truthy(c.apiKey) || !Truthy(c.apiSecret)
    ensures Handle(Request(m, Some(f)), c, s) == Response(500, CorsJson, ErrorBody(NoCredentials))
  {
  }

  /** A body that does not parse and a signer that throws both end in the
      catch-all 500. */
  lemma ThrownErrorsAreGeneric(m: string, f: TokenFields, c: Credentials, s: bool)
    requires m != "OPTIONS"
    ensures Handle(Request(m, None), c, s) == Response(500, CorsJson, ErrorBody(GenerateFailed))
    ensures FieldsPresent(f) && CredentialsPresent(c) ==>
      Handle(Request(m, Some(f)), c, false) == Response(500, CorsJson, ErrorBody(GenerateFailed))
  {
  }

  /** The token response for a well-formed request, in full. */
  lemma TokenForWellFormedRequest(m: string, room: string, name: string, id: string, key: string, secret: string)
    requires m != "OPTIONS" && room != "" && name != "" && id != "" && key != "" && secret != ""
    ensures Handle(Request(m, Some(TokenFields(Some(room), Some(name), Some(id)))), Credentials(Some(key), Some(secret)), true)
         == Response(200, CorsJson, TokenBody(AccessToken(key, id, name, VideoGrant(true, room, true, true))))
  {
  }
}
