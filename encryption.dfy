/** The token service of helpers/encryption.go: building the claims of an
    identity token, signing them with HS256 under the secret key, and the
    verification decision that pins the HMAC family of signing methods.

    The JWT library (encoding, HMAC, claim validation) is not modelled. It is
    a record of three functions whose behaviour the model only knows through
    the laws of LawfulJwt, which restate what golang-jwt v5 documents. */
module Encryption {
  import opened Wrappers
  import opened Values
  import opened Strings

  const NanosPerSecond := 1_000_000_000

  /** 24 * time.Hour, in nanoseconds, and the same in whole seconds. */
  const TokenLifetime := 24 * 3600 * NanosPerSecond
  const TokenLifetimeSeconds := 24 * 3600

  /** The signing methods golang-jwt registers. */
  datatype Alg =
    | HS256 | HS384 | HS512
    | RS256 | RS384 | RS512
    | PS256 | PS384 | PS512
    | ES256 | ES384 | ES512
    | EdDSA | NoSigning

  /** The methods whose type is *jwt.SigningMethodHMAC. */
  predicate IsHmac(a: Alg) {
    a == HS256 || a == HS384 || a == HS512
  }

  /** helpers.Claims: the user's id and email and the two registered claims
      CreateTokenFunc fills in, as NumericDate seconds since the Unix epoch. */
  datatype Claims = Claims(id: string, email: string, expiresAt: int, issuedAt: int)

  /** The JSON object the claims serialize to (by their json tags), which is
      what a jwt.MapClaims holds after parsing the token. */
  function ClaimsObject(c: Claims): (m: map<string, Json>)
    ensures m.Keys == {"id", "email", "exp", "iat"}
    ensures StringField(m, "id") == Some(c.id) && StringField(m, "email") == Some(c.email)
  {
    map["id" := JStr(c.id), "email" := JStr(c.email), "exp" := JNum(c.expiresAt), "iat" := JNum(c.issuedAt)]
  }

  /** jwt.NewNumericDate: a clock reading, in nanoseconds since the Unix
      epoch, truncated to whole seconds (the library's default precision). */
  function NumericDate(t: int): int {
    t / NanosPerSecond
  }

  /** A parsed token: its signing method, its claims as a jwt.MapClaims, and
      whether the library marked it Valid. */
  datatype Token = Token(alg: Alg, claims: map<string, Json>, valid: bool)

  /** The key callback of jwt.ParseWithClaims: the key for a method, or an error. */
  type KeyFunc = Alg -> Result<string, string>

  /** The JWT library: `sign` is NewWithClaims(...).SignedString(key),
      `header` the signing method named in an unverified token (None when
      the token does not decode), `parse` is ParseWithClaims at the given
      clock reading (nanoseconds) with the given key callback. */
  datatype Jwt = Jwt(
    sign: (Alg, Claims, string) -> Result<string, string>,
    header: string -> Option<Alg>,
    parse: (string, KeyFunc, int) -> Result<Token, string>)

  /** The text golang-jwt v5 puts in front of an error returned by the key callback. */
  const KeyFuncErrorPrefix := "token is unverifiable: error while executing keyfunc: "

  /** The behaviour the model assumes of the library:
      - a signed token contains no space (it is three base64url segments
        joined by dots);
      - a token signed under `key` parses, before its expiry, with a callback
        that hands out `key`, to a valid token with the signed claims;
      - at or after its expiry, or under another key, it does not parse;
      - a parsed token names the method its header names;
      - when the callback refuses the header's method, parsing fails with the
        callback's error behind KeyFuncErrorPrefix;
      - a string that does not decode does not parse. */
  ghost predicate LawfulJwt(j: Jwt) {
    && (forall a, c, key {:trigger j.sign(a, c, key)} ::
          j.sign(a, c, key).Ok? ==> ' ' !in j.sign(a, c, key).value)
    && (forall a, c, key, kf: KeyFunc, now {:trigger j.parse(j.sign(a, c, key).value, kf, now)} ::
          j.sign(a, c, key).Ok? && kf(a) == Ok(key) && now < c.expiresAt * NanosPerSecond ==>
            j.parse(j.sign(a, c, key).value, kf, now) == Ok(Token(a, ClaimsObject(c), true)))
    && (forall a, c, key, kf: KeyFunc, now {:trigger j.parse(j.sign(a, c, key).value, kf, now)} ::
          j.sign(a, c, key).Ok? && kf(a) == Ok(key) && now >= c.expiresAt * NanosPerSecond ==>
            j.parse(j.sign(a, c, key).value, kf, now).Err?)
    && (forall a, c, key, kf: KeyFunc, now {:trigger j.parse(j.sign(a, c, key).value, kf, now)} ::
          j.sign(a, c, key).Ok? && kf(a).Ok? && kf(a).value != key ==>
            j.parse(j.sign(a, c, key).value, kf, now).Err?)
    && (forall tok, kf: KeyFunc, now {:trigger j.parse(tok, kf, now)} ::
          j.parse(tok, kf, now).Ok? ==> j.header(tok) == Some(j.parse(tok, kf, now).value.alg))
    && (forall tok, kf: KeyFunc, now {:trigger j.parse(tok, kf, now)} ::
          j.header(tok).Some? && kf(j.header(tok).value).Err? ==>
            j.parse(tok, kf, now) == Err(KeyFuncErrorPrefix + kf(j.header(tok).value).error))
    && (forall tok, kf: KeyFunc, now {:trigger j.parse(tok, kf, now)} ::
          j.header(tok).None? ==> j.parse(tok, kf, now).Err?)
  }

  /** The claims CreateTokenFunc builds. `expClock` and `iatClock` are the two
      successive time.Now() readings (nanoseconds) the source takes: the first
      for the expiry, 24 hours ahead, the second for IssuedAt. */
  function IssueClaims(u: UuidCodec, userID: Uuid, email: string, expClock: int, iatClock: int): (c: Claims)
    ensures c.id == u.show(userID) && c.email == email
    ensures c.issuedAt == NumericDate(iatClock)
    ensures c.expiresAt == NumericDate(expClock) + TokenLifetimeSeconds
    ensures expClock == iatClock ==> c.expiresAt - c.issuedAt == TokenLifetimeSeconds
    ensures expClock <= iatClock < expClock + NanosPerSecond ==>
      TokenLifetimeSeconds - 1 <= c.expiresAt - c.issuedAt <= TokenLifetimeSeconds
  {
    assert (expClock + TokenLifetime) / NanosPerSecond == expClock / NanosPerSecond + TokenLifetimeSeconds;
    Claims(u.show(userID), email, NumericDate(expClock + TokenLifetime), NumericDate(iatClock))
  }

  /** The (string, error) pair CreateTokenFunc returns. */
  datatype Signed = Signed(token: string, err: Option<string>)

  /** The default CreateTokenFunc: sign the issued claims with HS256 under the
      secret key; on a signing error return the empty string and the error. */
  function CreateTokenFunc(j: Jwt, u: UuidCodec, secretKey: string, userID: Uuid, email: string,
                           expClock: int, iatClock: int): (r: Signed)
    ensures var s := j.sign(HS256, IssueClaims(u, userID, email, expClock, iatClock), secretKey);
      && (s.Ok? ==> r == Signed(s.value, None))
      && (s.Err? ==> r == Signed("", Some(s.error)))
  {
    match j.sign(HS256, IssueClaims(u, userID, email, expClock, iatClock), secretKey)
    case Ok(t) => Signed(t, None)
    case Err(e) => Signed("", Some(e))
  }

  /** The current value of the overridable CreateTokenFunc variable (tests
      replace it with a mock). */
  type Issuer = (Uuid, string) -> Signed

  /** CreateToken delegates to whatever CreateTokenFunc currently holds. */
  function CreateToken(issue: Issuer, userID: Uuid, email: string): (r: Signed)
    ensures r == issue(userID, email)
  {
    issue(userID, email)
  }

  /** The key callback VerifyToken passes to the parser: the secret key for
      any HMAC method, and the error "invalid signing method" otherwise. */
  function Keys(secretKey: string): KeyFunc {
    (a: Alg) => if IsHmac(a) then Ok(secretKey) else Err("invalid signing method")
  }

  lemma KeysPinHmac(secretKey: string, a: Alg)
    ensures Keys(secretKey)(a).Ok? <==> IsHmac(a)
    ensures IsHmac(a) ==> Keys(secretKey)(a) == Ok(secretKey)
    ensures !IsHmac(a) ==> Keys(secretKey)(a) == Err("invalid signing method")
  {
  }

  const InvalidTokenPrefix := "invalid token: "
  const InvalidClaimsMessage := "invalid token or claims"

  /** VerifyToken: parse with the HMAC-pinning key callback; a parse error is
      wrapped behind "invalid token: "; a parsed token yields its claims only
      when the library marked it Valid. */
  function VerifyToken(j: Jwt, secretKey: string, tokenString: string, now: int): (r: Result<map<string, Json>, string>)
    ensures var p := j.parse(tokenString, Keys(secretKey), now);
      && (p.Err? ==> r == Err(InvalidTokenPrefix + p.error))
      && (p.Ok? && p.value.valid ==> r == Ok(p.value.claims))
      && (p.Ok? && !p.value.valid ==> r == Err(InvalidClaimsMessage))
    ensures r.Err? ==> HasPrefix(r.error, InvalidTokenPrefix) || r.error == InvalidClaimsMessage
  {
    match j.parse(tokenString, Keys(secretKey), now)
    case Err(e) => Err(InvalidTokenPrefix + e)
    case Ok(t) => if t.valid then Ok(t.claims) else Err(InvalidClaimsMessage)
  }

  /** Algorithm-confusion defence: a token whose header names a method
      outside the HMAC family is refused with "invalid signing method",
      whatever its (decodable) signature. */
  lemma RejectsNonHmac(j: Jwt, secretKey: string, tokenString: string, now: int)
    requires LawfulJwt(j)
    requires j.header(tokenString).Some? && !IsHmac(j.header(tokenString).value)
    ensures VerifyToken(j, secretKey, tokenString, now) ==
      Err(InvalidTokenPrefix + KeyFuncErrorPrefix + "invalid signing method")
  {
    var a := j.header(tokenString).value;
    assert Keys(secretKey)(a) == Err("invalid signing method");
    assert j.parse(tokenString, Keys(secretKey), now) == Err(KeyFuncErrorPrefix + "invalid signing method");
    assert InvalidTokenPrefix + (KeyFuncErrorPrefix + "invalid signing method")
        == InvalidTokenPrefix + KeyFuncErrorPrefix + "invalid signing method";
  }

  /** Every accepted token names an HMAC method in its header. */
  lemma AcceptsOnlyHmac(j: Jwt, secretKey: string, tokenString: string, now: int)
    requires LawfulJwt(j)
    requires VerifyToken(j, secretKey, tokenString, now).Ok?
    ensures j.header(tokenString).Some? && IsHmac(j.header(tokenString).value)
  {
    var p := j.parse(tokenString, Keys(secretKey), now);
    assert p.Ok?;
    var a := p.value.alg;
    assert j.header(tokenString) == Some(a);
    assert !Keys(secretKey)(a).Err?;
  }

  /** A string that is not a token at all is refused, behind "invalid token: ". */
  lemma RejectsMalformed(j: Jwt, secretKey: string, tokenString: string, now: int)
    requires LawfulJwt(j)
    requires j.header(tokenString).None?
    ensures VerifyToken(j, secretKey, tokenString, now).Err?
    ensures HasPrefix(VerifyToken(j, secretKey, tokenString, now).error, InvalidTokenPrefix)
  {
    assert j.parse(tokenString, Keys(secretKey), now).Err?;
  }

  /** Round trip: a token issued by the default CreateTokenFunc verifies under
      the same secret before it expires, and its claims carry the user's id
      (UUID.String) and email unchanged. */
  lemma RoundTrip(j: Jwt, u: UuidCodec, secretKey: string, userID: Uuid, email: string,
                  expClock: int, iatClock: int, now: int)
    requires LawfulJwt(j)
    requires CreateTokenFunc(j, u, secretKey, userID, email, expClock, iatClock).err.None?
    requires now < IssueClaims(u, userID, email, expClock, iatClock).expiresAt * NanosPerSecond
    ensures var tok := CreateTokenFunc(j, u, secretKey, userID, email, expClock, iatClock).token;
      && VerifyToken(j, secretKey, tok, now) == Ok(ClaimsObject(IssueClaims(u, userID, email, expClock, iatClock)))
      && StringField(VerifyToken(j, secretKey, tok, now).value, "id") == Some(u.show(userID))
      && StringField(VerifyToken(j, secretKey, tok, now).value, "email") == Some(email)
  {
    var c := IssueClaims(u, userID, email, expClock, iatClock);
    assert j.sign(HS256, c, secretKey).Ok?;
    assert Keys(secretKey)(HS256) == Ok(secretKey);
    assert j.parse(j.sign(HS256, c, secretKey).value, Keys(secretKey), now) == Ok(Token(HS256, ClaimsObject(c), true));
  }

  /** An issued token stops verifying once its expiry is reached. */
  lemma ExpiredTokenRejected(j: Jwt, u: UuidCodec, secretKey: string, userID: Uuid, email: string,
                             expClock: int, iatClock: int, now: int)
    requires LawfulJwt(j)
    requires CreateTokenFunc(j, u, secretKey, userID, email, expClock, iatClock).err.None?
    requires now >= IssueClaims(u, userID, email, expClock, iatClock).expiresAt * NanosPerSecond
    ensures var tok := CreateTokenFunc(j, u, secretKey, userID, email, expClock, iatClock).token;
      VerifyToken(j, secretKey, tok, now).Err? &&
      HasPrefix(VerifyToken(j, secretKey, tok, now).error, InvalidTokenPrefix)
  {
    var c := IssueClaims(u, userID, email, expClock, iatClock);
    assert Keys(secretKey)(HS256) == Ok(secretKey);
    assert j.parse(j.sign(HS256, c, secretKey).value, Keys(secretKey), now).Err?;
  }

  /** A token issued under one secret is refused by a verifier holding another. */
  lemma OtherSecretRejected(j: Jwt, u: UuidCodec, secretKey: string, otherKey: string, userID: Uuid,
                            email: string, expClock: int, iatClock: int, now: int)
    requires LawfulJwt(j)
    requires otherKey != secretKey
    requires CreateTokenFunc(j, u, secretKey, userID, email, expClock, iatClock).err.None?
    ensures var tok := CreateTokenFunc(j, u, secretKey, userID, email, expClock, iatClock).token;
      VerifyToken(j, otherKey, tok, now).Err?
  {
    var c := IssueClaims(u, userID, email, expClock, iatClock);
    assert Keys(otherKey)(HS256) == Ok(otherKey);
    assert j.parse(j.sign(HS256, c, secretKey).value, Keys(otherKey), now).Err?;
  }
}
