/** Messages of the key server, and everything outside the handlers: attestation
    libraries, policy data, the chain and the key management service. */
module Externals {
  import opened Prelude
  import opened Digests
  import opened Claims
  import opened PcrVector
  import opened Crypto
  import opened ChainClient

  // ----------------------------------------------------------------- messages

  datatype EnvRequestV3 = EnvRequestV3(attestation: string, rsaKeyPem: Bytes)

  datatype AttestRequest = AttestRequest(
    version: int, attestation: string, rsaKeyPem: Bytes, audience: string, extraData: string)

  /** One HTTP call: the body if it parses, and the appID query parameter. */
  datatype Call<+R> = Call(body: Option<R>, appIdQuery: string)

  datatype ClaimValue =
    | TextClaim(text: string)
    | FlagClaim(flag: bool)
    | TimeClaim
    | SubModsClaim(container: Option<ContainerInfo>, gce: Option<GceInfo>)
    | TdxClaim(tdx: TdxClaims)
    | SevSnpClaim(sevSnp: SevSnpClaims)

  /** The names iss, sub, iat, exp, aud, app_id, secboot, hwmodel, hardened, submods,
      tdx, sevsnp and extra_data. */
  datatype ClaimName =
    | Issuer | Subject | IssuedAt | Expiration | Audience | AppIdName | SecBoot | HwModelName | Hardened | SubMods
    | Tdx | SevSnp | ExtraData

  /** The claims of a signed attestation token. */
  type Token = map<ClaimName, ClaimValue>

  /** What the server signs: the JSON text of a response body. The bodies' field names
      differ and their texts are escaped, so text and body determine each other. */
  datatype Body =
    | EnvBody(encryptedCombinedEnv: Jwe<EnvText>)
    | TokenBody(encryptedToken: Jwe<Token>)
    | AddressBody(appId: Option<string>, evm: seq<string>, solana: seq<string>)

  datatype Response = Failed(status: nat) | Signed(body: Body)

  // ------------------------------------------------------------------- tokens

  datatype Provider = GoogleConfidentialSpace | IntelTrustAuthority

  /** The nonce text of a token: empty, the hexadecimal text of a digest, or other. */
  datatype Nonce = NoNonce | HexDigest(digest: Digest) | OtherNonce(text: string)

  datatype TokenClaims = TokenClaims(appId: string, imageDigest: string, nonce: Nonce)

  /** VerifyAttestation of the token verifier. */
  type TokenVerifier = (string, Provider) -> Option<TokenClaims>

  // -------------------------------------------------------------- environment

  /** The functions the handlers rely on, as they answer during one request. The Bool
      ones say whether a foreign service is up for that call. */
  datatype Outside = Outside(
    parseKey: Bytes -> Option<RsaKey>,
    platformOf: Bytes -> Option<Platform>,
    verifyTpm: (Bytes, Digest, Bytes) -> Option<TPMClaims>,
    containerClaims: Bytes -> Option<Option<ContainerInfo>>,
    verifyBoundTee: (Bytes, Digest, Bytes) -> Option<TEEClaims>,
    projectId: string,
    debugMode: bool,
    imageAllowed: (Platform, seq<Pcr>) -> Option<bool>,
    mrtdEndorsed: Bytes -> bool,
    measurementEndorsed: Bytes -> bool,
    tcbValid: (Platform, nat) -> Option<bool>,
    requestUp: bool,
    latestRelease: string -> Lookup,
    decryptUp: Jwe<EnvText> -> bool,
    deriveMnemonic: string -> Option<string>,
    encryptUp: bool,
    signUp: Body -> bool,
    foldOther: char -> char)

  const PCR_INDICES: set<nat> := {4, 8, 9}

  /** attestVerifier.Verify: the TPM claims are extracted for three registers, and TEE
      claims are demanded on every platform but Shielded VM. */
  function Verify(o: Outside, evidence: Bytes, challenge: Digest, extraData: Bytes): Option<VerifiedAttestation> {
    match o.platformOf(evidence)
    case None => None
    case Some(platform) =>
      match o.verifyTpm(evidence, challenge, extraData)
      case None => None
      case Some(raw) =>
        var tpm := raw.(pcrs := map k | k in raw.pcrs && k in PCR_INDICES :: raw.pcrs[k]);
        match o.containerClaims(evidence)
        case None => None
        case Some(container) =>
          if platform == GCPShieldedVM then Some(VerifiedAttestation(tpm, None, container, platform))
          else
            match o.verifyBoundTee(evidence, challenge, extraData)
            case None => None
            case Some(tee) => Some(VerifiedAttestation(tpm, Some(tee), container, platform))
  }

  /** The shape callers rely on: TEE claims are absent exactly on Shielded VM, everything is
      what the libraries gave for this challenge and extra data, and of the registers
      exactly 4, 8 and 9 are kept. */
  lemma VerifyShape(o: Outside, evidence: Bytes, challenge: Digest, extraData: Bytes)
    requires Verify(o, evidence, challenge, extraData).Some?
    ensures var v := Verify(o, evidence, challenge, extraData).value;
      (v.tee.None? <==> v.platform == GCPShieldedVM) && SmallIndices(v.tpm.pcrs)
    ensures var v := Verify(o, evidence, challenge, extraData).value;
      && o.platformOf(evidence) == Some(v.platform) && o.containerClaims(evidence) == Some(v.container)
      && o.verifyTpm(evidence, challenge, extraData).Some?
      && (v.tee.Some? ==> o.verifyBoundTee(evidence, challenge, extraData) == v.tee)
    ensures var v, raw := Verify(o, evidence, challenge, extraData).value, o.verifyTpm(evidence, challenge,
      extraData).value;
      && v.tpm == raw.(pcrs := v.tpm.pcrs)
      && (forall k :: k in v.tpm.pcrs <==> k in raw.pcrs && (k == 4 || k == 8 || k == 9))
      && (forall k :: k in v.tpm.pcrs ==> v.tpm.pcrs[k] == raw.pcrs[k])
  {
  }

  /** Calls that leave the server, in the order they are made. */
  datatype Effect =
    | VerifyEvidence(evidence: Bytes, challenge: Digest, extraData: Bytes)
    | AskImageAllowed(platform: Platform, pcrs: seq<Pcr>)
    | VerifyFirmware(measurement: Bytes)
    | AskTcbValid(platform: Platform, tcb: nat)
    | ReadRelease(appId: string)
    | KmsDecrypt(message: Jwe<EnvText>)
    | KmsMnemonic(appId: string)
    | KmsSign(body: Body)
    | KmsOpenRequest
    | CheckToken(jwt: string, provider: Provider)

  class World {
    const o: Outside
    var effects: seq<Effect>

    constructor (o: Outside)
      ensures this.o == o && effects == []
    {
      this.o := o;
      effects := [];
    }

    method VerifyAttestation(evidence: Bytes, challenge: Digest,
        extraData: Bytes) returns (r: Option<VerifiedAttestation>)
      modifies this
      ensures effects == old(effects) + [VerifyEvidence(evidence, challenge, extraData)]
      ensures r == Verify(o, evidence, challenge, extraData)
    {
      effects := effects + [VerifyEvidence(evidence, challenge, extraData)];
      r := Verify(o, evidence, challenge, extraData);
    }

    method IsImageAllowed(platform: Platform, pcrs: seq<Pcr>) returns (r: Option<bool>)
      modifies this
      ensures effects == old(effects) + [AskImageAllowed(platform, pcrs)]
      ensures r == o.imageAllowed(platform, pcrs)
    {
      effects := effects + [AskImageAllowed(platform, pcrs)];
      r := o.imageAllowed(platform, pcrs);
    }

    method VerifyMeasurement(platform: Platform, measurement: Bytes) returns (ok: bool)
      modifies this
      ensures effects == old(effects) + [VerifyFirmware(measurement)]
      ensures ok == if platform == IntelTDX then o.mrtdEndorsed(measurement) else o.measurementEndorsed(measurement)
    {
      effects := effects + [VerifyFirmware(measurement)];
      ok := if platform == IntelTDX then o.mrtdEndorsed(measurement) else o.measurementEndorsed(measurement);
    }

    method IsTcbValid(platform: Platform, tcb: nat) returns (r: Option<bool>)
      modifies this
      ensures effects == old(effects) + [AskTcbValid(platform, tcb)]
      ensures r == o.tcbValid(platform, tcb)
    {
      effects := effects + [AskTcbValid(platform, tcb)];
      r := o.tcbValid(platform, tcb);
    }

    method GetLatestRelease(appId: string) returns (r: Lookup)
      modifies this
      ensures effects == old(effects) + [ReadRelease(appId)]
      ensures r == o.latestRelease(appId)
    {
      effects := effects + [ReadRelease(appId)];
      r := o.latestRelease(appId);
    }

    method Decrypt(message: Jwe<EnvText>) returns (r: Option<EnvText>)
      modifies this
      ensures effects == old(effects) + [KmsDecrypt(message)]
      ensures r == if o.decryptUp(message) then Open(message, Kms) else None
    {
      effects := effects + [KmsDecrypt(message)];
      r := if o.decryptUp(message) then Open(message, Kms) else None;
    }

    /** Opening a sealed request body with the key service's key. */
    method OpenRequest<P>(message: Jwe<P>) returns (r: Option<P>)
      modifies this
      ensures effects == old(effects) + [KmsOpenRequest]
      ensures r == if o.requestUp then Open(message, Kms) else None
    {
      effects := effects + [KmsOpenRequest];
      r := if o.requestUp then Open(message, Kms) else None;
    }

    method VerifyToken(verify: TokenVerifier, jwt: string, provider: Provider) returns (r: Option<TokenClaims>)
      modifies this
      ensures effects == old(effects) + [CheckToken(jwt, provider)]
      ensures r == verify(jwt, provider)
    {
      effects := effects + [CheckToken(jwt, provider)];
      r := verify(jwt, provider);
    }

    method DeriveMnemonic(appId: string) returns (r: Option<string>)
      modifies this
      ensures effects == old(effects) + [KmsMnemonic(appId)]
      ensures r == o.deriveMnemonic(appId)
    {
      effects := effects + [KmsMnemonic(appId)];
      r := o.deriveMnemonic(appId);
    }

    /** returnSuccessWithSignature: no answer leaves without a signature. */
    method ReturnSigned(body: Body) returns (r: Response)
      modifies this
      ensures effects == old(effects) + [KmsSign(body)]
      ensures r == if o.signUp(body) then Signed(body) else Failed(500)
    {
      effects := effects + [KmsSign(body)];
      r := if o.signUp(body) then Signed(body) else Failed(500);
    }
  }
}
