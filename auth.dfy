/** middlewares/auth.go: Authentication turns the Authorization header into
    the caller's claims (stored under "userData"), and Authorization compares
    the owner of the addressed resource with the caller. Both end by
    continuing the chain or aborting it. */
module Auth {
  import opened Wrappers
  import opened Values
  import opened Strings
  import opened Http
  import opened Encryption

  /** What Authentication verifies tokens with: the JWT library, the value of
      the package-level secret key, and the verifier's clock (nanoseconds). */
  datatype TokenService = TokenService(jwt: Jwt, secretKey: string, now: int)

  const BearerPrefix := "Bearer "
  const MissingTokenMessage := "Bearer token is required"
  const NotBearerMessage := "Token must be a Bearer token"

  /** strings.Split(authHeader, " ")[1] for a header with the "Bearer "
      prefix: the text after the prefix up to the next space. */
  function BearerToken(header: string): (t: string)
    requires HasPrefix(header, BearerPrefix)
    ensures t == Split(header[|BearerPrefix|..], ' ')[0]
    ensures ' ' !in t && HasPrefix(header[|BearerPrefix|..], t)
    ensures t == header[|BearerPrefix|..] || header[|BearerPrefix| + |t|] == ' '
  {
    var rest := header[|BearerPrefix|..];
    assert header == "Bearer" + [' '] + rest;
    SplitAfterField("Bearer", rest, ' ');
    SplitFirstField(rest, ' ');
    Split(header, ' ')[1]
  }

  /** The fields after "Bearer " are ignored: "Bearer a b" verifies "a", and
      "Bearer " verifies the empty string. */
  lemma BearerTokenExamples()
    ensures BearerToken("Bearer a b") == "a"
    ensures BearerToken("Bearer ") == ""
  {
    assert "Bearer a b"[|BearerPrefix|..] == "a b";
    assert "Bearer "[|BearerPrefix|..] == "";
    SplitAfterField("a", "b", ' ');
  }

  /** Authentication: an empty header, then a header without the exact
      "Bearer " prefix, are refused with 401 before anything is verified; a
      verifier error is refused with 401 and the verifier's text; otherwise a
      copy of every claim is stored under "userData" and the chain continues. */
  function Authenticate(ts: TokenService, c: Context): (o: Outcome)
    ensures var h := c.req.authorization;
      && (h == "" ==> o == Abort(StatusUnauthorized, MissingTokenMessage, c))
      && (h != "" && !HasPrefix(h, BearerPrefix) ==> o == Abort(StatusUnauthorized, NotBearerMessage, c))
      && (HasPrefix(h, BearerPrefix) ==>
            var v := VerifyToken(ts.jwt, ts.secretKey, BearerToken(h), ts.now);
            && (v.Err? ==> o == Abort(StatusUnauthorized, v.error, c))
            && (v.Ok? ==> o == Continue(c.(keys := c.keys[UserDataKey := JObj(v.value)]))))
    ensures o.Abort? ==> o.status == StatusUnauthorized && o.ctx == c
  {
    var h := c.req.authorization;
    if h == "" then
      Abort(StatusUnauthorized, MissingTokenMessage, c)
    else if !HasPrefix(h, BearerPrefix) then
      Abort(StatusUnauthorized, NotBearerMessage, c)
    else
      match VerifyToken(ts.jwt, ts.secretKey, BearerToken(h), ts.now)
      case Err(e) => Abort(StatusUnauthorized, e, c)
      case Ok(claims) => Continue(c.(keys := c.keys[UserDataKey := JObj(claims)]))
  }

  /** Authentication continues only with a token the verifier accepted, and
      then the caller downstream code sees is that token's "id" claim; the
      request, the route parameters and the response headers are untouched. */
  lemma AuthenticatedCaller(ts: TokenService, c: Context)
    requires Authenticate(ts, c).Continue?
    ensures HasPrefix(c.req.authorization, BearerPrefix)
    ensures var v := VerifyToken(ts.jwt, ts.secretKey, BearerToken(c.req.authorization), ts.now);
      && v.Ok?
      && CallerId(Authenticate(ts, c).ctx) == StringField(v.value, "id")
    ensures var c' := Authenticate(ts, c).ctx;
      c'.req == c.req && c'.params == c.params && c'.header == c.header
  {
  }

  /** End to end with the token service: a request carrying "Bearer " and a
      token the default CreateTokenFunc issued, under the same secret and
      before its expiry, is authenticated as that user. */
  lemma IssuedTokenAuthenticates(ts: TokenService, u: UuidCodec, userID: Uuid, email: string,
                                 expClock: int, iatClock: int, c: Context)
    requires LawfulJwt(ts.jwt)
    requires CreateTokenFunc(ts.jwt, u, ts.secretKey, userID, email, expClock, iatClock).err.None?
    requires ts.now < IssueClaims(u, userID, email, expClock, iatClock).expiresAt * NanosPerSecond
    requires c.req.authorization ==
      BearerPrefix + CreateTokenFunc(ts.jwt, u, ts.secretKey, userID, email, expClock, iatClock).token
    ensures Authenticate(ts, c).Continue?
    ensures CallerId(Authenticate(ts, c).ctx) == Some(u.show(userID))
  {
    var tok := CreateTokenFunc(ts.jwt, u, ts.secretKey, userID, email, expClock, iatClock).token;
    var h := c.req.authorization;
    assert HasPrefix(h, BearerPrefix);
    assert h[|BearerPrefix|..] == tok;
    assert ' ' !in tok;
    assert BearerToken(h) == tok;
    RoundTrip(ts.jwt, u, ts.secretKey, userID, email, expClock, iatClock, ts.now);
  }

  /** The resource kinds with an ownership record. */
  datatype Kind = PhotoKind | CommentKind | SocialMediaKind

  /** The switch of Authorization: the three known resource-type strings. */
  function KindOf(resourceType: string): (k: Option<Kind>)
    ensures k == Some(PhotoKind) <==> resourceType == "photo"
    ensures k == Some(CommentKind) <==> resourceType == "comment"
    ensures k == Some(SocialMediaKind) <==> resourceType == "socialmedia"
  {
    if resourceType == "photo" then Some(PhotoKind)
    else if resourceType == "comment" then Some(CommentKind)
    else if resourceType == "socialmedia" then Some(SocialMediaKind)
    else None
  }

  function NotFoundMessage(k: Kind): string {
    match k
    case PhotoKind => "Photo not found"
    case CommentKind => "Comment not found"
    case SocialMediaKind => "Social Media not found"
  }

  /** The owner lookup `db.Select("user_id").First(&record, "id = ?", id)`:
      the owning user's id, or None when the query fails for any reason. */
  type OwnerLookup = (Kind, Uuid) -> Option<Uuid>

  const InvalidIdMessage := "Invalid ID format"
  const InvalidKindMessage := "Invalid resource type"

  function ForbiddenMessage(resourceType: string): string {
    "You are not authorized to modify this " + resourceType
  }

  /** The name of the route parameter Authorization reads, e.g. "photoID". */
  function ResourceParam(resourceType: string): string {
    resourceType + "ID"
  }

  /** The caller's UUID: `uuid.MustParse(userData["id"].(string))`, None
      where that panics. */
  function CallerUuid(u: UuidCodec, c: Context): (r: Option<Uuid>)
    ensures r.Some? <==> CallerId(c).Some? && u.parse(CallerId(c).value).Some?
    ensures forall x: Uuid :: LawfulCodec(u) && CallerId(c) == Some(u.show(x)) ==> r == Some(x)
  {
    match CallerId(c)
    case None => None
    case Some(s) => u.parse(s)
  }

  /** Authorization(resourceType): the caller must be readable (otherwise the
      source panics and gin.Recovery answers 500); then, in this order, an
      unparsable id gives 400, an unknown kind 500, a failed owner lookup 404
      with the kind's message, another owner 403; only the owner continues,
      with the context unchanged. */
  function Authorize(u: UuidCodec, owners: OwnerLookup, resourceType: string, c: Context): (o: Outcome)
    ensures o.Continue? ==> o.ctx == c
    ensures o.Abort? ==> o.ctx == c
    ensures CallerUuid(u, c).None? ==> o == Abort(StatusInternalServerError, PanicMessage, c)
    ensures CallerUuid(u, c).Some? ==>
      var rid := u.parse(Param(c, ResourceParam(resourceType)));
      && (rid.None? ==> o == Abort(StatusBadRequest, InvalidIdMessage, c))
      && (rid.Some? && KindOf(resourceType).None? ==> o == Abort(StatusInternalServerError, InvalidKindMessage, c))
      && (rid.Some? && KindOf(resourceType).Some? ==>
            var owner := owners(KindOf(resourceType).value, rid.value);
            && (owner.None? ==> o == Abort(StatusNotFound, NotFoundMessage(KindOf(resourceType).value), c))
            && (owner.Some? && owner.value != CallerUuid(u, c).value ==>
                  o == Abort(StatusForbidden, ForbiddenMessage(resourceType), c))
            && (owner == CallerUuid(u, c) ==> o == Continue(c)))
  {
    match CallerUuid(u, c)
    case None => Abort(StatusInternalServerError, PanicMessage, c)
    case Some(userID) =>
      match u.parse(Param(c, ResourceParam(resourceType)))
      case None => Abort(StatusBadRequest, InvalidIdMessage, c)
      case Some(resourceID) =>
        match KindOf(resourceType)
        case None => Abort(StatusInternalServerError, InvalidKindMessage, c)
        case Some(k) =>
          match owners(k, resourceID)
          case None => Abort(StatusNotFound, NotFoundMessage(k), c)
          case Some(ownedID) =>
            if ownedID != userID then Abort(StatusForbidden, ForbiddenMessage(resourceType), c)
            else Continue(c)
  }

  /** The guarantee Authorization exists for: the chain continues exactly when
      the addressed resource exists and its owner is the caller. */
  lemma ContinuesOnlyForOwner(u: UuidCodec, owners: OwnerLookup, resourceType: string, c: Context)
    ensures Authorize(u, owners, resourceType, c).Continue? <==>
      && CallerUuid(u, c).Some?
      && u.parse(Param(c, ResourceParam(resourceType))).Some?
      && KindOf(resourceType).Some?
      && owners(KindOf(resourceType).value, u.parse(Param(c, ResourceParam(resourceType))).value)
           == CallerUuid(u, c)
  {
  }
}
