/** The older environment endpoints on plain facts: whose app a token serves, whose key
    reads the answer, and which status each step refuses with. */
module TokenReading {
  import opened Prelude
  import opened Text
  import opened Digests
  import opened Crypto
  import opened Externals
  import opened EnvHandler
  import opened TokenEndpoints

  /** The token and key inside a version 1 request, if the key service opens it. */
  function RequestOf(o: Outside, c: Call<EnvRequestV1>): Option<JwtWithKey> {
    match c.body
    case Some(SealedRequest(m)) =>
      var plain: Option<Option<JwtWithKey>> := if o.requestUp then Open(m, Kms) else None;
      if plain.None? then None else plain.value
    case _ => None
  }

  /** A query without debug mode. */
  predicate ForbiddenQuery(o: Outside, query: string) {
    Lower(query) != "" && !o.debugMode
  }

  /** The app served: the token's own, unless a query replaces it. */
  function TokenApp(query: string, claims: TokenClaims): string {
    if Lower(query) == "" then claims.appId else Lower(query)
  }

  /** The released environments of an app: the private one as opened, the public one as is. */
  ghost predicate ReleaseHolds(o: Outside, appId: string, privateEnv: Env, publicEnv: Env) {
    && o.latestRelease(appId).Found? && o.latestRelease(appId).publicEnv == publicEnv
    && o.latestRelease(appId).encryptedEnv.JweText?
    && Open(o.latestRelease(appId).encryptedEnv.message, Kms) == Some(EnvJson(privateEnv))
  }

  /** The merge of the app's mnemonic and released environments, sealed to the key. */
  ghost predicate SealsDue(o: Outside, appId: string, pem: Bytes, body: Body) {
    exists env, privateEnv, publicEnv ::
      && ReleaseHolds(o, appId, privateEnv, publicEnv) && o.deriveMnemonic(appId).Some? && o.parseKey(pem).Some?
      && Merges(env, o.deriveMnemonic(appId).value, privateEnv, publicEnv)
      && body == EnvBody(Seal(Rsa(o.parseKey(pem).value), Missing, EnvJson(env)))
  }

  /** What follows admission: the chain steps, then mnemonic, encryption and signature. */
  ghost predicate TailReads(o: Outside, appId: string, digestText: string, pem: Bytes, r: Response) {
    var chain := ChainStatus(o, appId, digestText);
    if chain.Some? then r == Failed(chain.value)
    else if o.deriveMnemonic(appId).None? || !o.encryptUp || o.parseKey(pem).None? then r == Failed(500)
    else exists body :: SealsDue(o, appId, pem, body) && r == if o.signUp(body) then Signed(body) else Failed(500)
  }

  lemma TailAnswerReads(o: Outside, appId: string, digestText: string, pem: Bytes)
    ensures TailReads(o, appId, digestText, pem, TailAnswer(o, appId, digestText, pem))
  {
    hide ChainStop, ChainStatus, StatusAt, Combined, PrivateEnvOf, PublicEnvOf, SealsDue;
    ChainRefuses(o, appId, digestText);
    if ChainStatus(o, appId, digestText).None? && o.deriveMnemonic(appId).Some? && o.parseKey(pem).Some? {
      DueIsSealed(o, appId, digestText, pem);
      assert SealsDue(o, appId, pem, EnvAnswer(o, appId, pem).value);
    }
  }

  lemma DueIsSealed(o: Outside, appId: string, digestText: string, pem: Bytes)
    requires ChainStatus(o, appId, digestText).None? && o.deriveMnemonic(appId).Some? && o.parseKey(pem).Some?
    ensures EnvAnswer(o, appId, pem).Some? && DueEnv(o, appId).Some?
    ensures SealsDue(o, appId, pem, EnvAnswer(o, appId, pem).value)
  {
    hide CheckAuthorization, EqualFold, Combined, Merges;
    CombinedMerges(o.deriveMnemonic(appId).value, PrivateEnvOf(o, appId), PublicEnvOf(o, appId));
    assert ReleaseHolds(o, appId, PrivateEnvOf(o, appId), PublicEnvOf(o, appId));
    assert Merges(DueEnv(o, appId).value, o.deriveMnemonic(appId).value, PrivateEnvOf(o, appId), PublicEnvOf(o, appId));
  }

  /** Version 1, top to bottom. */
  lemma VersionOneReads(o: Outside, verify: TokenVerifier, c: Call<EnvRequestV1>)
    ensures var r, request := AnswerV1(o, verify, c), RequestOf(o, c);
      if request.None? || !StrongKey(o.parseKey(request.value.rsaKeyPem)) then r == Failed(400)
      else
        var claims := verify(request.value.jwt, GoogleConfidentialSpace);
        if claims.None? then r == Failed(401)
        else if claims.value.nonce != NoNonce || ForbiddenQuery(o, c.appIdQuery) then r == Failed(400)
        else TailReads(o, TokenApp(c.appIdQuery, claims.value), claims.value.imageDigest, request.value.rsaKeyPem, r)
  {
    hide TailAnswer, TailReads, AcceptableKey, StrongKey;
    var request := RequestOf(o, c);
    if request.Some? {
      AcceptableKeyIff(o.parseKey(request.value.rsaKeyPem));
      var claims := verify(request.value.jwt, GoogleConfidentialSpace);
      if claims.Some? {
        TailAnswerReads(o, TokenApp(c.appIdQuery, claims.value), claims.value.imageDigest, request.value.rsaKeyPem);
      }
    }
  }

  /** Version 2, top to bottom. */
  lemma VersionTwoReads(o: Outside, verify: TokenVerifier, c: Call<EnvRequestV2>)
    ensures var r := AnswerV2(o, verify, c);
      if c.body.None? || !StrongKey(o.parseKey(c.body.value.rsaKeyPem)) then r == Failed(400)
      else
        var pem := c.body.value.rsaKeyPem;
        var claims := verify(c.body.value.jwt, IntelTrustAuthority);
        if claims.None? then r == Failed(401)
        else if ForbiddenQuery(o, c.appIdQuery) then r == Failed(400)
        else if claims.value.nonce != HexDigest(DigestFor(EnvRequestKey, pem)) then r == Failed(401)
        else TailReads(o, TokenApp(c.appIdQuery, claims.value), claims.value.imageDigest, pem, r)
  {
    hide TailAnswer, TailReads, AcceptableKey, StrongKey, DigestFor;
    if c.body.Some? {
      AcceptableKeyIff(o.parseKey(c.body.value.rsaKeyPem));
      var claims := verify(c.body.value.jwt, IntelTrustAuthority);
      if claims.Some? {
        TailAnswerReads(o, TokenApp(c.appIdQuery, claims.value), claims.value.imageDigest, c.body.value.rsaKeyPem);
      }
    }
  }

  // --------------------------------------------------------- tokens and their apps

  /** An answer that serves a token's own app under the image the token names, to one
      strong key. */
  ghost predicate ServesTokenApp(o: Outside, claims: TokenClaims, pem: Bytes, r: Response) {
    && StrongKey(o.parseKey(pem)) && r.Signed? && SealsDue(o, claims.appId, pem, r.body)
    && o.latestRelease(claims.appId).Found?
    && CheckAuthorization(claims.imageDigest, o.latestRelease(claims.appId).digest)
  }

  lemma TailServesToken(o: Outside, claims: TokenClaims, pem: Bytes, r: Response)
    requires TailReads(o, claims.appId, claims.imageDigest, pem, r) && r.Signed? && StrongKey(o.parseKey(pem))
    ensures ServesTokenApp(o, claims, pem, r)
  {
    hide CheckAuthorization, EqualFold, SealsDue, StrongKey;
  }

  /** Outside debug mode version 1 serves a token's own app only, without any query, and to
      the strong key inside the sealed request. */
  lemma VersionOneServesItsToken(o: Outside, verify: TokenVerifier, c: Call<EnvRequestV1>)
    requires !o.debugMode && AnswerV1(o, verify, c).Signed?
    ensures Lower(c.appIdQuery) == "" && RequestOf(o, c).Some?
    ensures verify(RequestOf(o, c).value.jwt, GoogleConfidentialSpace).Some?
    ensures ServesTokenApp(o, verify(RequestOf(o, c).value.jwt, GoogleConfidentialSpace).value,
      RequestOf(o, c).value.rsaKeyPem, AnswerV1(o, verify, c))
  {
    hide TailAnswer, ServesTokenApp, AcceptableKey, StrongKey, TailReads;
    VersionOneReads(o, verify, c);
    var request := RequestOf(o, c).value;
    TailServesToken(o, verify(request.jwt, GoogleConfidentialSpace).value, request.rsaKeyPem, AnswerV1(o, verify, c));
  }

  /** So does version 2, to the strong key whose digest the token carries. */
  lemma VersionTwoServesItsToken(o: Outside, verify: TokenVerifier, c: Call<EnvRequestV2>)
    requires !o.debugMode && AnswerV2(o, verify, c).Signed?
    ensures Lower(c.appIdQuery) == "" && c.body.Some?
    ensures verify(c.body.value.jwt, IntelTrustAuthority).Some?
    ensures ServesTokenApp(o, verify(c.body.value.jwt, IntelTrustAuthority).value, c.body.value.rsaKeyPem,
      AnswerV2(o, verify, c))
  {
    hide TailAnswer, ServesTokenApp, AcceptableKey, StrongKey, TailReads, DigestFor;
    VersionTwoReads(o, verify, c);
    TailServesToken(o, verify(c.body.value.jwt, IntelTrustAuthority).value, c.body.value.rsaKeyPem, AnswerV2(o,
      verify, c));
  }

  /** Whatever the token, a query outside debug mode is never served. */
  lemma QueriesNeedDebugMode(o: Outside, verify: TokenVerifier, c1: Call<EnvRequestV1>, c2: Call<EnvRequestV2>)
    ensures ForbiddenQuery(o, c1.appIdQuery) ==> AnswerV1(o, verify, c1).Failed?
    ensures ForbiddenQuery(o, c2.appIdQuery) ==> AnswerV2(o, verify, c2).Failed?
  {
    hide TailReads, AnswerV1, AnswerV2, StrongKey, DigestFor;
    VersionOneReads(o, verify, c1);
    VersionTwoReads(o, verify, c2);
  }

  // -------------------------------------------------------------------- secrets

  /** In both older versions the key service decrypts only the released message of an app
      for the image the token names, under a header that names the app; mnemonic and
      signature come only when every chain step has passed. */
  lemma TailSecretsAreDue(o: Outside, e: Entry, x: Effect)
    requires x in EntryTail(o, e)
    ensures e.Entered?
    ensures x.KmsDecrypt? ==> MayOpen(o, e.appId, e.digestText, x.message)
    ensures x.KmsMnemonic? ==> x.appId == e.appId && ChainStatus(o, e.appId, e.digestText).None?
    ensures x.KmsSign? ==> ChainStatus(o, e.appId, e.digestText).None? && DueEnv(o, e.appId).Some?
  {
    hide ChainStop, ChainStatus, CheckAuthorization, EqualFold, ChainEffects, StatusAt;
    ChainRefuses(o, e.appId, e.digestText);
    ChainEffectsAreDue(o, e.appId, e.digestText);
  }
}
