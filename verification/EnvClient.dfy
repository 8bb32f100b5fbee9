/** The client inside the instance (pkg/envclient/envclient.go): one call of GetEnv or
    Attest, with its own fresh key pair. */
module EnvClient {
  import opened Prelude
  import Base64
  import opened Digests
  import opened Claims
  import opened Crypto
  import opened Externals
  import opened EnvHandler
  import opened AttestHandler
  import opened Addresses

  /** The body of a request to the evidence provider. The challenge's base64 text is
      kept as the digest it spells. */
  datatype EvidenceRequest = EvidenceRequest(challenge: Digest, extraData: string)

  /** A response body, and whether its signature verifies under the server's key. */
  datatype SignedResponse = SignedResponse(body: Body, genuine: bool)

  /** What one call meets: the key pair it generates and the answers it gets. */
  datatype Surroundings = Surroundings(
    key: RsaKey,
    pem: Bytes,
    provider: EvidenceRequest -> Option<Bytes>,
    envServer: EnvRequestV3 -> Option<SignedResponse>,
    attestServer: AttestRequest -> Option<SignedResponse>,
    wallet: Wallet)

  // ----------------------------------------------------------------- requests

  /** The optional base64 field filled for the provider and again for the server. The
      variadic argument may be missing, hold nil or an empty slice, or hold bytes. */
  function ExtraField(extraData: seq<Bytes>): string {
    if |extraData| > 0 && |extraData[0]| > 0 then Base64.Encode(extraData[0]) else ""
  }

  function BytesOf(extraData: seq<Bytes>): Bytes {
    if |extraData| > 0 then extraData[0] else []
  }

  function EnvRequestFor(pem: Bytes, evidence: Bytes): EnvRequestV3 {
    EnvRequestV3(Base64.Encode(evidence), pem)
  }

  function AttestRequestFor(pem: Bytes, evidence: Bytes, audience: string, extraData: seq<Bytes>): AttestRequest {
    AttestRequest(3, Base64.Encode(evidence), pem, audience, ExtraField(extraData))
  }

  /** Up to one megabyte, the bytes the provider binds, the bytes the server verifies
      and the bytes the token's claim decodes to are the client's; no claim says the
      same as no bytes, however the client left them out. */
  lemma ExtraDataAgrees(extraData: seq<Bytes>, appId: string, v: VerifiedAttestation, audience: string)
    requires |BytesOf(extraData)| <= EXTRA_DATA_LIMIT
    ensures Base64.Decode(ExtraField(extraData)) == Some(BytesOf(extraData))
    ensures ExtraDataOf(ExtraField(extraData)) == Some(BytesOf(extraData))
    ensures var t := TokenFor(appId, v, audience, ExtraField(extraData));
      && (ExtraData in t <==> BytesOf(extraData) != [])
      && (ExtraData in t ==>
          t[ExtraData].TextClaim? && Base64.Decode(t[ExtraData].text) == Some(BytesOf(extraData)))
  {
    Base64.RoundTrip(BytesOf(extraData));
    Base64.RoundTrip([]);
    Base64.EncodeEmptyIff(BytesOf(extraData));
    TokenClaimsIff(appId, v, audience, ExtraField(extraData));
    hide TokenFor;
  }

  /** The evidence a call obtains for its key. */
  function EvidenceFor(x: Surroundings, purpose: Purpose, extraData: seq<Bytes>): Option<Bytes> {
    x.provider(EvidenceRequest(DigestFor(purpose, x.pem), ExtraField(extraData)))
  }

  /** BoundEvidenceProvider.GetAttestation. */
  method GetAttestation(x: Surroundings, challenge: Digest, extraData: seq<Bytes>) returns (r: Option<Bytes>)
    ensures r == x.provider(EvidenceRequest(challenge, ExtraField(extraData)))
  {
    var evidence := EvidenceRequest(challenge, "");
    if |extraData| > 0 && |extraData[0]| > 0 {
      evidence := evidence.(extraData := Base64.Encode(extraData[0]));
    }
    r := x.provider(evidence);
  }

  // ---------------------------------------------------------------- responses

  /** What GetEnv reads in a response: opened with the call's own key, as JSON. */
  function OpenEnv(key: RsaKey, body: Body): Option<Env> {
    match body
    case EnvBody(message) =>
      var text := Open(message, Rsa(key));
      if text.Some? && text.value.EnvJson? then Some(text.value.env) else None
    case _ => None
  }

  function OpenToken(key: RsaKey, body: Body): Option<Token> {
    match body
    case TokenBody(message) => Open(message, Rsa(key))
    case _ => None
  }

  /** A response is accepted when it is genuine, opens with the call's key and yields
      the addresses to log. */
  function AcceptedEnv(key: RsaKey, wallet: Wallet, response: Option<SignedResponse>): Option<Env> {
    if response.None? || !response.value.genuine || OpenEnv(key, response.value.body).None? then None
    else
      var env := OpenEnv(key, response.value.body).value;
      if ClientAddresses(wallet, env).None? then None else Some(env)
  }

  /** The provider gave evidence for the digest of the call's own key, and the server gave a
      genuine answer to a request with both, which opens with the call's key and holds this
      environment, from which five addresses of each kind derive. */
  ghost predicate EnvAnswered(x: Surroundings, env: Env) {
    exists evidence, message ::
      && x.provider(EvidenceRequest(DigestFor(EnvRequestKey, x.pem), "")) == Some(evidence)
      && x.envServer(EnvRequestV3(Base64.Encode(evidence), x.pem)) == Some(SignedResponse(EnvBody(message), true))
      && Open(message, Rsa(x.key)) == Some(EnvJson(env))
      && FirstAddresses(x.wallet, if "MNEMONIC" in env then env["MNEMONIC"] else "", 5).Some?
  }

  /** Likewise for a token, the extra data bound by the provider and sent to the server. */
  ghost predicate TokenAnswered(x: Surroundings, audience: string, extraData: seq<Bytes>, token: Token) {
    exists evidence, message ::
      var text := if |extraData| > 0 && |extraData[0]| > 0 then Base64.Encode(extraData[0]) else "";
      && x.provider(EvidenceRequest(DigestFor(JwtRequestKey, x.pem), text)) == Some(evidence)
      && x.attestServer(AttestRequest(3, Base64.Encode(evidence), x.pem, audience, text))
           == Some(SignedResponse(TokenBody(message), true))
      && Open(message, Rsa(x.key)) == Some(token)
  }

  /** EnvClient.GetEnv: evidence for the digest of its own key, one request under that
      key, and only a genuine answer readable with it. */
  method GetEnv(x: Surroundings) returns (r: Option<Env>)
    ensures var evidence := EvidenceFor(x, EnvRequestKey, []);
      r == if evidence.None? then None
           else AcceptedEnv(x.key, x.wallet, x.envServer(EnvRequestFor(x.pem, evidence.value)))
    // what acceptance means on the server's answer
    ensures forall env :: r == Some(env) <==> EnvAnswered(x, env)
  {
    var rsaKeyHash := CalculateSignableDigest(Header(EnvRequestKey), x.pem);
    var attestation := GetAttestation(x, rsaKeyHash, []);
    if attestation.None? {
      return None;
    }
    var response := x.envServer(EnvRequestV3(Base64.Encode(attestation.value), x.pem));
    if response.None? || !response.value.genuine || !response.value.body.EnvBody? {
      return None;
    }
    var envJson := Open(response.value.body.encryptedCombinedEnv, Rsa(x.key));
    if envJson.None? || envJson.value.NotEnv? {
      return None;
    }
    var mnemonic := ValueAt(envJson.value.env, MNEMONIC);
    var addresses := DeriveAddressesFromMnemonic(x.wallet, mnemonic, NUM_ADDRESSES_TO_DERIVE);
    if addresses.None? {
      return None;
    }
    return Some(envJson.value.env);
  }

  /** The token in a genuine response that opens with the call's key. */
  function AcceptedToken(key: RsaKey, response: Option<SignedResponse>): Option<Token> {
    if response.None? || !response.value.genuine then None else OpenToken(key, response.value.body)
  }

  /** EnvClient.Attest. */
  method Attest(x: Surroundings, audience: string, extraData: seq<Bytes>) returns (r: Option<Token>)
    ensures var evidence := EvidenceFor(x, JwtRequestKey, extraData);
      if evidence.None? then r.None?
      else
        var response := x.attestServer(AttestRequestFor(x.pem, evidence.value, audience, extraData));
        r == AcceptedToken(x.key, response)
    ensures forall token :: r == Some(token) <==> TokenAnswered(x, audience, extraData, token)
  {
    var rsaKeyHash := CalculateSignableDigest(Header(JwtRequestKey), x.pem);
    var attestation := GetAttestation(x, rsaKeyHash, extraData);
    if attestation.None? {
      return None;
    }
    var attestReq := AttestRequest(3, Base64.Encode(attestation.value), x.pem, audience, "");
    if |extraData| > 0 && |extraData[0]| > 0 {
      attestReq := attestReq.(extraData := Base64.Encode(extraData[0]));
    }
    var response := x.attestServer(attestReq);
    if response.None? || !response.value.genuine || !response.value.body.TokenBody? {
      return None;
    }
    r := Open(response.value.body.encryptedToken, Rsa(x.key));
  }
}
