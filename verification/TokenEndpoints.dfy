/** The older endpoints that take attestation tokens (HandleEnv and HandleEnvV2 in
    internal/handlers/env.go), and what all three versions have in common. */
module TokenEndpoints {
  import opened Prelude
  import opened Text
  import opened Digests
  import opened Crypto
  import opened Externals
  import opened EnvHandler
  import opened EnvTheorems

  datatype JwtWithKey = JwtWithKey(jwt: string, rsaKeyPem: Bytes)

  /** A version 1 body: JWE text or not, holding a token and a key or something else. */
  datatype EnvRequestV1 = NotSealed | SealedRequest(message: Jwe<Option<JwtWithKey>>)

  datatype EnvRequestV2 = EnvRequestV2(jwt: string, rsaKeyPem: Bytes)

  /** Whom a token request is for, once it is let in. */
  datatype Entry = Entered(appId: string, digestText: string, pem: Bytes) | Denied(status: nat)

  // ------------------------------------------------------------- shared tail

  /** What follows admission in both older versions. */
  function TailAnswer(o: Outside, appId: string, digestText: string, pem: Bytes): Response {
    var stop := ChainStop(o, appId, digestText, CHAIN_FIRST);
    if stop < CHAIN_END then Failed(StatusAt(stop))
    else if !o.encryptUp then Failed(500)
    else
      match EnvAnswer(o, appId, pem)
      case None => Failed(500)
      case Some(body) => if o.signUp(body) then Signed(body) else Failed(500)
  }

  function TailEffects(o: Outside, appId: string, digestText: string, pem: Bytes): seq<Effect> {
    ChainEffects(o, appId, digestText) +
    if ChainStop(o, appId, digestText, CHAIN_FIRST) < CHAIN_END then []
    else [KmsMnemonic(appId)] + TailSign(o, appId, pem)
  }

  function TailSign(o: Outside, appId: string, pem: Bytes): seq<Effect> {
    if o.encryptUp && EnvAnswer(o, appId, pem).Some? then [KmsSign(EnvAnswer(o, appId, pem).value)] else []
  }

  method ReleaseTail(w: World, appId: string, digestText: string, pem: Bytes) returns (r: Response)
    modifies w
    ensures r == TailAnswer(w.o, appId, digestText, pem)
    ensures w.effects == old(w.effects) + TailEffects(w.o, appId, digestText, pem)
  {
    hide ChainStop, ChainEffects, StatusAt, Combined, PrivateEnvOf, PublicEnvOf;
    var envs := GetAndDecryptChainEnv(w, appId, digestText);
    if envs.ChainError? {
      return Failed(envs.status);
    }
    var mnemonic := w.DeriveMnemonic(appId);
    if mnemonic.None? {
      return Failed(500);
    }
    var env := CombineEnvironments(mnemonic.value, envs.privateEnv, envs.publicEnv);
    r := EncryptAndSignResponse(w, env, pem);
  }

  /** The debug query parameter: the app to serve, or None where it is not allowed. */
  function Override(o: Outside, appId: string, query: string): Option<string> {
    if Lower(query) == "" then Some(appId)
    else if o.debugMode then Some(Lower(query))
    else None
  }

  // ------------------------------------------------------------------ version 1

  function EntryV1(o: Outside, verify: TokenVerifier, c: Call<EnvRequestV1>): Entry {
    if c.body.None? || c.body.value.NotSealed? then Denied(400)
    else
      var plain := if o.requestUp then Open(c.body.value.message, Kms) else None;
      if plain.None? || plain.value.None? then Denied(400)
      else
        var JwtWithKey(jwt, pem) := plain.value.value;
        if !AcceptableKey(o.parseKey(pem)) then Denied(400)
        else
          match verify(jwt, GoogleConfidentialSpace)
          case None => Denied(401)
          case Some(claims) =>
            if claims.nonce != NoNonce then Denied(400)
            else
              match Override(o, claims.appId, c.appIdQuery)
              case None => Denied(400)
              case Some(appId) => Entered(appId, claims.imageDigest, pem)
  }

  function AnswerV1(o: Outside, verify: TokenVerifier, c: Call<EnvRequestV1>): Response {
    match EntryV1(o, verify, c)
    case Denied(status) => Failed(status)
    case Entered(appId, digestText, pem) => TailAnswer(o, appId, digestText, pem)
  }

  function EntryEffectsV1(o: Outside, c: Call<EnvRequestV1>): seq<Effect> {
    if c.body.None? || c.body.value.NotSealed? then []
    else
      var plain := if o.requestUp then Open(c.body.value.message, Kms) else None;
      [KmsOpenRequest] +
      if plain.Some? && plain.value.Some? && AcceptableKey(o.parseKey(plain.value.value.rsaKeyPem))
      then [CheckToken(plain.value.value.jwt, GoogleConfidentialSpace)] else []
  }

  function EntryTail(o: Outside, e: Entry): seq<Effect> {
    match e
    case Denied(_) => []
    case Entered(appId, digestText, pem) => TailEffects(o, appId, digestText, pem)
  }

  function EffectsV1(o: Outside, verify: TokenVerifier, c: Call<EnvRequestV1>): seq<Effect> {
    EntryEffectsV1(o, c) + EntryTail(o, EntryV1(o, verify, c))
  }

  method HandleEnv(w: World, verify: TokenVerifier, c: Call<EnvRequestV1>) returns (r: Response)
    modifies w
    ensures r == AnswerV1(w.o, verify, c)
    ensures w.effects == old(w.effects) + EffectsV1(w.o, verify, c)
  {
    hide TailAnswer, TailEffects, AcceptableKey;
    if c.body.None? || c.body.value.NotSealed? {
      return Failed(400);
    }
    var plain := w.OpenRequest(c.body.value.message);
    if plain.None? || plain.value.None? {
      return Failed(400);
    }
    var jwtWithKey := plain.value.value;
    if !AcceptableKey(w.o.parseKey(jwtWithKey.rsaKeyPem)) {
      return Failed(400);
    }
    var verified := w.VerifyToken(verify, jwtWithKey.jwt, GoogleConfidentialSpace);
    if verified.None? {
      return Failed(401);
    }
    var claims := verified.value;
    if claims.nonce != NoNonce {
      return Failed(400);
    }
    var debugAppId := Lower(c.appIdQuery);
    if debugAppId != "" {
      if w.o.debugMode {
        claims := claims.(appId := debugAppId);
      } else {
        return Failed(400);
      }
    }
    r := ReleaseTail(w, claims.appId, claims.imageDigest, jwtWithKey.rsaKeyPem);
  }

  // ------------------------------------------------------------------ version 2

  /** checkRSAKeyAttestation: the token's nonce is the digest of the request's key. */
  predicate KeyAttested(claims: TokenClaims, pem: Bytes) {
    claims.nonce == HexDigest(DigestFor(EnvRequestKey, pem))
  }

  function EntryV2(o: Outside, verify: TokenVerifier, c: Call<EnvRequestV2>): Entry {
    if c.body.None? || !AcceptableKey(o.parseKey(c.body.value.rsaKeyPem)) then Denied(400)
    else
      match verify(c.body.value.jwt, IntelTrustAuthority)
      case None => Denied(401)
      case Some(claims) =>
        match Override(o, claims.appId, c.appIdQuery)
        case None => Denied(400)
        case Some(appId) =>
          if !KeyAttested(claims, c.body.value.rsaKeyPem) then Denied(401)
          else Entered(appId, claims.imageDigest, c.body.value.rsaKeyPem)
  }

  function AnswerV2(o: Outside, verify: TokenVerifier, c: Call<EnvRequestV2>): Response {
    match EntryV2(o, verify, c)
    case Denied(status) => Failed(status)
    case Entered(appId, digestText, pem) => TailAnswer(o, appId, digestText, pem)
  }

  function EntryEffectsV2(o: Outside, c: Call<EnvRequestV2>): seq<Effect> {
    if c.body.Some? && AcceptableKey(o.parseKey(c.body.value.rsaKeyPem))
    then [CheckToken(c.body.value.jwt, IntelTrustAuthority)] else []
  }

  function EffectsV2(o: Outside, verify: TokenVerifier, c: Call<EnvRequestV2>): seq<Effect> {
    EntryEffectsV2(o, c) + EntryTail(o, EntryV2(o, verify, c))
  }

  method HandleEnvV2(w: World, verify: TokenVerifier, c: Call<EnvRequestV2>) returns (r: Response)
    modifies w
    ensures r == AnswerV2(w.o, verify, c)
    ensures w.effects == old(w.effects) + EffectsV2(w.o, verify, c)
  {
    hide TailAnswer, TailEffects, AcceptableKey;
    if c.body.None? {
      return Failed(400);
    }
    var envRequest := c.body.value;
    if !AcceptableKey(w.o.parseKey(envRequest.rsaKeyPem)) {
      return Failed(400);
    }
    var verified := w.VerifyToken(verify, envRequest.jwt, IntelTrustAuthority);
    if verified.None? {
      return Failed(401);
    }
    var claims := verified.value;
    var debugAppId := Lower(c.appIdQuery);
    if debugAppId != "" {
      if w.o.debugMode {
        claims := claims.(appId := debugAppId);
      } else {
        return Failed(400);
      }
    }
    var expected := CalculateSignableDigest(Header(EnvRequestKey), envRequest.rsaKeyPem);
    if claims.nonce != HexDigest(expected) {
      return Failed(401);
    }
    r := ReleaseTail(w, claims.appId, claims.imageDigest, envRequest.rsaKeyPem);
  }

  /** A version 2 answer opens only for the key whose digest the token names. */
  lemma OpensForAttestedKey(o: Outside, verify: TokenVerifier, c: Call<EnvRequestV2>)
    requires AnswerV2(o, verify, c).Signed?
    ensures c.body.Some? && o.parseKey(c.body.value.rsaKeyPem).Some? && AnswerV2(o, verify, c).body.EnvBody?
    ensures var claims, pem := verify(c.body.value.jwt, IntelTrustAuthority), c.body.value.rsaKeyPem;
      && claims.Some? && claims.value.nonce == HexDigest(DigestFor(EnvRequestKey, pem))
      && AnswerV2(o, verify, c).body.encryptedCombinedEnv.recipient == Rsa(o.parseKey(pem).value)
      && forall r :: Open(AnswerV2(o, verify, c).body.encryptedCombinedEnv, r).Some? <==>
        r == Rsa(o.parseKey(pem).value)
  {
    hide ChainStop, DueEnv;
  }

  /** One token serves one reader, however often and whenever it is used: two version 2
      answers under the same token are sealed to the same key. */
  lemma OneTokenOneReader(o1: Outside, o2: Outside, verify: TokenVerifier, c1: Call<EnvRequestV2>,
      c2: Call<EnvRequestV2>)
    requires AnswerV2(o1, verify, c1).Signed? && AnswerV2(o2, verify, c2).Signed?
    requires o1.parseKey == o2.parseKey && c1.body.Some? && c2.body.Some? && c1.body.value.jwt == c2.body.value.jwt
    ensures AnswerV2(o1, verify, c1).body.EnvBody? && AnswerV2(o2, verify, c2).body.EnvBody?
    ensures c1.body.value.rsaKeyPem == c2.body.value.rsaKeyPem
    ensures AnswerV2(o1, verify, c1).body.encryptedCombinedEnv.recipient ==
      AnswerV2(o2, verify, c2).body.encryptedCombinedEnv.recipient
  {
    hide AnswerV2, DigestFor;
    OpensForAttestedKey(o1, verify, c1);
    OpensForAttestedKey(o2, verify, c2);
    PurposesSeparate(EnvRequestKey, c1.body.value.rsaKeyPem, EnvRequestKey, c2.body.value.rsaKeyPem);
  }

  /** No token is let in by both older versions, if it means the same to both: version 1
      wants no nonce and version 2 wants one. */
  lemma NoTokenForBoth(o: Outside, verify: TokenVerifier, c1: Call<EnvRequestV1>, c2: Call<EnvRequestV2>)
    requires EntryV1(o, verify, c1).Entered? && c2.body.Some?
    requires Open(c1.body.value.message, Kms).value.value.jwt == c2.body.value.jwt
    requires verify(c2.body.value.jwt, GoogleConfidentialSpace) == verify(c2.body.value.jwt, IntelTrustAuthority)
    ensures EntryV2(o, verify, c2).Denied?
  {
    hide AcceptableKey, DigestFor, Override;
  }

  // ------------------------------------------------------------- effect order

  lemma TailRising(o: Outside, appId: string, digestText: string, pem: Bytes)
    ensures Rising(TailEffects(o, appId, digestText, pem), 4, 8)
  {
    hide ChainStop, EnvAnswer, SealedMessage;
  }

  /** Outside calls of version 1 happen at most once each and only in the order request,
      token, release, decryption, mnemonic, signature. */
  lemma EffectsV1InOrder(o: Outside, verify: TokenVerifier, c: Call<EnvRequestV1>)
    ensures Rising(EffectsV1(o, verify, c), 0, 8)
  {
    hide AcceptableKey, EntryV1, TailEffects;
    var e := EntryV1(o, verify, c);
    assert Rising(EntryEffectsV1(o, c), 0, 4);
    if e.Entered? {
      TailRising(o, e.appId, e.digestText, e.pem);
    }
    RisingConcat(EntryEffectsV1(o, c), EntryTail(o, e), 0, 4, 8);
  }

  /** Those of version 2 likewise, without the request. */
  lemma EffectsV2InOrder(o: Outside, verify: TokenVerifier, c: Call<EnvRequestV2>)
    ensures Rising(EffectsV2(o, verify, c), 1, 8)
  {
    hide AcceptableKey, EntryV2, TailEffects;
    var e := EntryV2(o, verify, c);
    assert Rising(EntryEffectsV2(o, c), 1, 4);
    if e.Entered? {
      TailRising(o, e.appId, e.digestText, e.pem);
    }
    RisingConcat(EntryEffectsV2(o, c), EntryTail(o, e), 1, 4, 8);
  }

  /** In both older versions decryption follows the digest and header checks, mnemonic and
      signature follow every chain check, and nothing but the full answer is signed. */
  lemma TailSecretsAfterChecks(o: Outside, e: Entry, x: Effect, g: Gate)
    requires x in EntryTail(o, e)
    ensures e.Entered?
    ensures x.KmsDecrypt? && CHAIN_FIRST <= Rank(g) < Rank(Decryption) ==> ChainHolds(o, e.appId, e.digestText, g)
    ensures (x.KmsMnemonic? || x.KmsSign?) && CHAIN_FIRST <= Rank(g) < CHAIN_END ==>
      ChainHolds(o, e.appId, e.digestText, g)
    ensures x.KmsSign? ==> EnvAnswer(o, e.appId, e.pem) == Some(x.body)
  {
    hide ChainStop, EnvAnswer, SealedMessage, ChainHolds;
    if CHAIN_FIRST <= Rank(g) < CHAIN_END {
      ChainStopMeaning(o, e.appId, e.digestText, CHAIN_FIRST, g);
    }
  }

  // ------------------------------------------------------------ all versions

  /** The sealed environment of a signed answer. */
  function Payload(r: Response): Option<EnvText> {
    match r
    case Signed(EnvBody(message)) => Some(message.payload)
    case _ => None
  }

  lemma TailPayload(o: Outside, appId: string, digestText: string, pem: Bytes)
    requires TailAnswer(o, appId, digestText, pem).Signed?
    ensures DueEnv(o, appId).Some?
    ensures Payload(TailAnswer(o, appId, digestText, pem)) == Some(EnvJson(DueEnv(o, appId).value))
    ensures ChainStop(o, appId, digestText, CHAIN_FIRST) == CHAIN_END
  {
  }

  /** Whatever the version of the endpoint, an answered app gets the same environment
      from the same chain and key service, and only under the released image digest. */
  lemma SameEnvironmentEverywhere(o: Outside, verify: TokenVerifier, appId: string,
      c1: Call<EnvRequestV1>, c2: Call<EnvRequestV2>, c3: Call<EnvRequestV3>)
    requires AnswerV1(o, verify, c1).Signed? && EntryV1(o, verify, c1).appId == appId
    requires AnswerV2(o, verify, c2).Signed? && EntryV2(o, verify, c2).appId == appId
    requires Answered(o, c3).Signed? && AppId(o, c3) == Some(appId)
    ensures Payload(AnswerV1(o, verify, c1)) == Payload(AnswerV2(o, verify, c2)) == Payload(Answered(o, c3))
    ensures DueEnv(o, appId).Some? && Payload(Answered(o, c3)) == Some(EnvJson(DueEnv(o, appId).value))
    ensures o.latestRelease(appId).Found? && DigestText(o, c3).Some?
    ensures CheckAuthorization(EntryV1(o, verify, c1).digestText, o.latestRelease(appId).digest)
    ensures CheckAuthorization(EntryV2(o, verify, c2).digestText, o.latestRelease(appId).digest)
    ensures CheckAuthorization(DigestText(o, c3).value, o.latestRelease(appId).digest)
  {
    hide EntryV1, EntryV2, StopRank, TailAnswer, CheckAuthorization;
    var e1, e2 := EntryV1(o, verify, c1), EntryV2(o, verify, c2);
    TailPayload(o, appId, e1.digestText, e1.pem);
    TailPayload(o, appId, e2.digestText, e2.pem);
    ChainStopMeaning(o, appId, e1.digestText, CHAIN_FIRST, ImageDigest);
    ChainStopMeaning(o, appId, e2.digestText, CHAIN_FIRST, ImageDigest);
    ReleasedIffAllGatesHold(o, c3);
    assert Holds(o, c3, ImageDigest);
    ReleasedEnvironment(o, c3);
  }
}
