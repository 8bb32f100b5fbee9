/** Turning evidence into a signed attestation token (internal/handlers/attest.go and
    internal/auth/jwt_signer.go), and the extra data bound into both. */
module AttestHandler {
  import opened Prelude
  import Base64
  import opened Text
  import opened Digests
  import opened Claims
  import opened PcrVector
  import opened InstanceName
  import opened Crypto
  import opened Externals
  import opened PolicyChecker
  import opened EnvHandler
  import opened EnvTheorems

  const EXTRA_DATA_LIMIT: nat := 1_048_576

  // -------------------------------------------------------------------- token

  function HwModel(p: Platform): string {
    match p
    case IntelTDX => "GCP_INTEL_TDX"
    case AMDSevSnp => "GCP_AMD_SEV_SNP"
    case GCPShieldedVM => "GCP_SHIELDED_VM"
    case OtherPlatform(_) => "UNKNOWN"
  }

  function StandardClaims(appId: string): Token {
    map[Issuer := TextClaim("eigenx-kms"), Subject := TextClaim(appId), IssuedAt := TimeClaim, Expiration := TimeClaim]
  }

  function AudienceClaim(audience: string): Token {
    if audience != "" then map[Audience := TextClaim(audience)] else map[]
  }

  function AttestedClaims(appId: string, v: VerifiedAttestation): Token {
    map[AppIdName := TextClaim(appId), SecBoot := FlagClaim(true), HwModelName := TextClaim(HwModel(v.platform)),
        Hardened := FlagClaim(v.tpm.hardened), SubMods := SubModsClaim(v.container, v.tpm.gce)]
  }

  function TeeClaim(v: VerifiedAttestation): Token {
    (if v.tee.Some? && v.tee.value.tdx.Some? then map[Tdx := TdxClaim(v.tee.value.tdx.value)] else map[])
    + (if v.tee.Some? && v.tee.value.sevSnp.Some? then map[SevSnp := SevSnpClaim(v.tee.value.sevSnp.value)] else map[])
  }

  function ExtraDataClaim(extraDataB64: string): Token {
    if extraDataB64 != "" then map[ExtraData := TextClaim(extraDataB64)] else map[]
  }

  /** The token SignAttestationJWT signs. */
  function TokenFor(appId: string, v: VerifiedAttestation, audience: string, extraDataB64: string): Token {
    StandardClaims(appId) + AudienceClaim(audience) + AttestedClaims(appId, v) + TeeClaim(v)
    + ExtraDataClaim(extraDataB64)
  }

  method SignAttestationJwt(appId: string, v: VerifiedAttestation, audience: string, extraDataB64: string)
      returns (token: Token)
    ensures token == TokenFor(appId, v, audience, extraDataB64)
  {
    token := map[];
    token := token[Issuer := TextClaim("eigenx-kms")];
    token := token[Subject := TextClaim(appId)];
    token := token[IssuedAt := TimeClaim];
    token := token[Expiration := TimeClaim];
    if audience != "" {
      token := token[Audience := TextClaim(audience)];
    }
    ghost var first := StandardClaims(appId) + AudienceClaim(audience);
    assert token == first;
    token := AddAttestedClaims(token, appId, v);
    token := AddTeeClaims(token, v);
    if extraDataB64 != "" {
      token := token[ExtraData := TextClaim(extraDataB64)];
    }
  }

  method AddAttestedClaims(token: Token, appId: string, v: VerifiedAttestation) returns (r: Token)
    ensures r == token + AttestedClaims(appId, v)
  {
    r := token;
    r := r[AppIdName := TextClaim(appId)];
    r := r[SecBoot := FlagClaim(true)];
    r := r[HwModelName := TextClaim(HwModel(v.platform))];
    r := r[Hardened := FlagClaim(v.tpm.hardened)];
    r := r[SubMods := SubModsClaim(v.container, v.tpm.gce)];
  }

  method AddTeeClaims(token: Token, v: VerifiedAttestation) returns (r: Token)
    ensures r == token + TeeClaim(v)
  {
    r := token;
    if v.tee.Some? && v.tee.value.tdx.Some? {
      r := r[Tdx := TdxClaim(v.tee.value.tdx.value)];
    }
    if v.tee.Some? && v.tee.value.sevSnp.Some? {
      r := r[SevSnp := SevSnpClaim(v.tee.value.sevSnp.value)];
    }
  }

  /** Each known platform has its own name, and the others share one. */
  ghost predicate NamesHardware(name: string, p: Platform) {
    && (name == "GCP_INTEL_TDX" <==> p == IntelTDX)
    && (name == "GCP_AMD_SEV_SNP" <==> p == AMDSevSnp)
    && (name == "GCP_SHIELDED_VM" <==> p == GCPShieldedVM)
    && (name == "UNKNOWN" <==> p.OtherPlatform?)
  }

  lemma HwModelNames(p: Platform)
    ensures NamesHardware(HwModel(p), p)
  {
    var tdx, sev, vm, other := "GCP_INTEL_TDX", "GCP_AMD_SEV_SNP", "GCP_SHIELDED_VM", "UNKNOWN";
    assert |tdx| == 13 && |sev| == 15 && |vm| == 15 && |other| == 7 && sev[4] != vm[4];
  }

  /** What a token says about the evidence behind it; TEE claims are there exactly when the
      evidence has them. */
  ghost predicate TellsAttested(t: Token, appId: string, v: VerifiedAttestation) {
    && Subject in t && t[Subject] == TextClaim(appId)
    && AppIdName in t && t[AppIdName] == TextClaim(appId)
    && Issuer in t && t[Issuer] == TextClaim("eigenx-kms")
    && SecBoot in t && t[SecBoot] == FlagClaim(true)
    && HwModelName in t && t[HwModelName].TextClaim? && NamesHardware(t[HwModelName].text, v.platform)
    && Hardened in t && t[Hardened] == FlagClaim(v.tpm.hardened)
    && SubMods in t && t[SubMods] == SubModsClaim(v.container, v.tpm.gce)
    && (Tdx in t <==> v.tee.Some? && v.tee.value.tdx.Some?)
    && (Tdx in t ==> t[Tdx] == TdxClaim(v.tee.value.tdx.value))
    && (SevSnp in t <==> v.tee.Some? && v.tee.value.sevSnp.Some?)
    && (SevSnp in t ==> t[SevSnp] == SevSnpClaim(v.tee.value.sevSnp.value))
  }

  /** A token's audience, empty for none. */
  function AudienceOf(t: Token): string {
    if Audience in t && t[Audience].TextClaim? then t[Audience].text else ""
  }

  /** The optional claims are there exactly when they have something to say, and then say
      it; so do the claims about the evidence. */
  lemma TokenClaimsIff(appId: string, v: VerifiedAttestation, audience: string, extraDataB64: string)
    ensures var t := TokenFor(appId, v, audience, extraDataB64);
      && AppIdName in t && t[AppIdName] == TextClaim(appId)
      && (ExtraData in t <==> extraDataB64 != "")
      && (ExtraData in t ==> t[ExtraData] == TextClaim(extraDataB64))
      && (Audience in t <==> audience != "")
      && (Audience in t ==> t[Audience] == TextClaim(audience))
      && AudienceOf(t) == audience
      && TellsAttested(t, appId, v)
  {
    hide HwModel, TokenFor;
    TokenOptions(appId, v, audience, extraDataB64);
    TokenParts(appId, v, audience, extraDataB64);
    TellsFromParts(TokenFor(appId, v, audience, extraDataB64), appId, v);
  }

  /** The parts of a token have different claims, so that it holds each of them whole. */
  lemma TokenParts(appId: string, v: VerifiedAttestation, audience: string, extraDataB64: string)
    ensures var t := TokenFor(appId, v, audience, extraDataB64);
      && Includes(t, StandardClaims(appId)) && Includes(t, AttestedClaims(appId, v)) && Includes(t, TeeClaim(v))
      && (forall n :: n in t && (n.Tdx? || n.SevSnp?) ==> n in TeeClaim(v))
  {
    hide StandardClaims, AudienceClaim, AttestedClaims, TeeClaim, ExtraDataClaim, Includes;
    PartNames(appId, v, audience, extraDataB64);
    var s, a, p := StandardClaims(appId), AudienceClaim(audience), AttestedClaims(appId, v);
    var e, x := TeeClaim(v), ExtraDataClaim(extraDataB64);
    Included(map[], s);
    Kept(s, s, a);
    Kept(s, s + a, p);
    Included(s + a, p);
    Kept(s, s + a + p, e);
    Kept(p, s + a + p, e);
    Included(s + a + p, e);
    Kept(s, s + a + p + e, x);
    Kept(p, s + a + p + e, x);
    Kept(e, s + a + p + e, x);
  }

  lemma Included(before: Token, part: Token)
    ensures Includes(before + part, part) && Includes(part, part)
  {
  }

  lemma Kept(part: Token, before: Token, more: Token)
    requires Includes(before, part) && forall n :: n in part ==> n !in more
    ensures Includes(before + more, part)
  {
  }

  lemma TokenOptions(appId: string, v: VerifiedAttestation, audience: string, extraDataB64: string)
    ensures var t := TokenFor(appId, v, audience, extraDataB64);
      && (ExtraData in t <==> extraDataB64 != "")
      && (ExtraData in t ==> t[ExtraData] == TextClaim(extraDataB64))
      && (Audience in t <==> audience != "")
      && (Audience in t ==> t[Audience] == TextClaim(audience))
  {
    hide StandardClaims, AudienceClaim, AttestedClaims, TeeClaim, ExtraDataClaim;
    PartNames(appId, v, audience, extraDataB64);
  }

  ghost predicate Includes(t: Token, part: Token) {
    forall n :: n in part ==> n in t && t[n] == part[n]
  }

  lemma TellsFromParts(t: Token, appId: string, v: VerifiedAttestation)
    requires Includes(t, StandardClaims(appId)) && Includes(t, AttestedClaims(appId, v)) && Includes(t, TeeClaim(v))
    requires forall n :: n in t && (n.Tdx? || n.SevSnp?) ==> n in TeeClaim(v)
    ensures TellsAttested(t, appId, v)
  {
    hide HwModel, NamesHardware;
    HwModelNames(v.platform);
  }

  lemma PartNames(appId: string, v: VerifiedAttestation, audience: string, extraDataB64: string)
    ensures forall n :: n in StandardClaims(appId) ==> n.Issuer? || n.Subject? || n.IssuedAt? || n.Expiration?
    ensures forall n :: n in AudienceClaim(audience) <==> n.Audience? && audience != ""
    ensures forall n :: n in AttestedClaims(appId, v) ==>
      n.AppIdName? || n.SecBoot? || n.HwModelName? || n.Hardened? || n.SubMods?
    ensures AppIdName in AttestedClaims(appId, v)
    ensures AttestedClaims(appId, v)[AppIdName] == TextClaim(appId)
    ensures forall n :: n in TeeClaim(v) ==> n.Tdx? || n.SevSnp?
    ensures Tdx in TeeClaim(v) <==> v.tee.Some? && v.tee.value.tdx.Some?
    ensures SevSnp in TeeClaim(v) <==> v.tee.Some? && v.tee.value.sevSnp.Some?
    ensures forall n :: n in ExtraDataClaim(extraDataB64) <==> n.ExtraData? && extraDataB64 != ""
    ensures extraDataB64 != "" ==> ExtraDataClaim(extraDataB64)[ExtraData] == TextClaim(extraDataB64)
    ensures audience != "" ==> AudienceClaim(audience)[Audience] == TextClaim(audience)
  {
  }

  // ------------------------------------------------------------------ request

  /** applyDebugOverride: the empty answer stands for a refused override; an empty app
      id reads the same. */
  function ApplyDebugOverride(o: Outside, appId: string, query: string): string {
    if Lower(query) == "" then appId else if o.debugMode then Lower(query) else ""
  }

  datatype Grant = Granted(appId: string, verified: VerifiedAttestation, extraData: Bytes) | Rejected(status: nat)

  /** The extra data of a request: none, or base64 text of at most one megabyte. */
  function ExtraDataOf(text: string): Option<Bytes> {
    if text == "" then Some([])
    else
      match Base64.Decode(text)
      case None => None
      case Some(b) => if |b| > EXTRA_DATA_LIMIT then None else Some(b)
  }

  datatype Inputs = Inputs(evidence: Bytes, extraData: Bytes)

  /** The request's evidence and extra data, if its key and texts are in order. */
  function InputsOf(o: Outside, req: AttestRequest): Option<Inputs> {
    if !AcceptableKey(o.parseKey(req.rsaKeyPem)) then None
    else
      match (Base64.Decode(req.attestation), ExtraDataOf(req.extraData))
      case (Some(evidence), Some(extraData)) => Some(Inputs(evidence, extraData))
      case _ => None
  }

  function VerifyInputs(o: Outside, req: AttestRequest, i: Inputs): Option<VerifiedAttestation> {
    Verify(o, i.evidence, DigestFor(JwtRequestKey, req.rsaKeyPem), i.extraData)
  }

  /** handleAttestV3 after the version check. */
  function GrantOf(o: Outside, c: Call<AttestRequest>): Grant
    requires c.body.Some?
  {
    match InputsOf(o, c.body.value)
    case None => Rejected(400)
    case Some(i) =>
      match VerifyInputs(o, c.body.value, i)
      case None => Rejected(401)
      case Some(v) => GrantVerified(o, c.appIdQuery, v, i.extraData)
  }

  function GrantVerified(o: Outside, query: string, v: VerifiedAttestation, extraData: Bytes): Grant {
    if v.tpm.gce.None? || v.container.None? then Rejected(401)
    else
      match ExtractAppId(v.tpm.gce.value.instanceName)
      case None => Rejected(401)
      case Some(instance) =>
        var appId := ApplyDebugOverride(o, instance, query);
        if appId == "" then Rejected(400)
        else if !TpmAccepted(o, v.tpm) then Rejected(401)
        else if v.tee.Some? && !TeeAccepted(o, v.tee.value) then Rejected(401)
        else Granted(appId, v, extraData)
  }

  /** What is signed for a request, if it comes to that. `jwtUp`: the token signer works. */
  function AttestBody(o: Outside, jwtUp: bool, c: Call<AttestRequest>): Option<Body>
    requires c.body.Some?
  {
    var grant, key := GrantOf(o, c), o.parseKey(c.body.value.rsaKeyPem);
    if grant.Rejected? || !jwtUp || !o.encryptUp || key.None? then None
    else
      var token := TokenFor(grant.appId, grant.verified, c.body.value.audience, c.body.value.extraData);
      Some(TokenBody(Seal(Rsa(key.value), Missing, token)))
  }

  /** The whole of HandleAttest. */
  function AttestAnswer(o: Outside, jwtUp: bool, c: Call<AttestRequest>): Response {
    if c.body.None? || c.body.value.version != 3 then Failed(400)
    else if GrantOf(o, c).Rejected? then Failed(GrantOf(o, c).status)
    else
      match AttestBody(o, jwtUp, c)
      case None => Failed(500)
      case Some(body) => if o.signUp(body) then Signed(body) else Failed(500)
  }

  /** The outside calls behind a grant. Signing the token itself needs none. */
  function GrantEffects(o: Outside, c: Call<AttestRequest>): seq<Effect>
    requires c.body.Some?
  {
    match InputsOf(o, c.body.value)
    case None => []
    case Some(i) =>
      [VerifyEvidence(i.evidence, DigestFor(JwtRequestKey, c.body.value.rsaKeyPem), i.extraData)]
      + PolicyCalls(o, c.appIdQuery, VerifyInputs(o, c.body.value, i))
  }

  function PolicyCalls(o: Outside, query: string, verified: Option<VerifiedAttestation>): seq<Effect> {
    if verified.None? || !ForApp(o, query, verified.value) then [] else BothPolicyCalls(o, verified.value)
  }

  function BothPolicyCalls(o: Outside, v: VerifiedAttestation): seq<Effect> {
    TpmEffects(o, v.tpm) + if TpmAccepted(o, v.tpm) && v.tee.Some? then TeeEffects(o, v.tee.value) else []
  }

  /** TPM policy, then TEE policy where there are TEE claims. */
  method CheckBothPolicies(w: World, v: VerifiedAttestation) returns (ok: bool)
    requires SmallIndices(v.tpm.pcrs)
    modifies w
    ensures ok == (TpmAccepted(w.o, v.tpm) && (v.tee.Some? ==> TeeAccepted(w.o, v.tee.value)))
    ensures w.effects == old(w.effects) + BothPolicyCalls(w.o, v)
  {
    hide TpmAccepted, TeeAccepted, TpmEffects, TeeEffects;
    ok := CheckTpmPolicies(w, v.tpm);
    if ok && v.tee.Some? {
      ok := CheckTeePolicies(w, v.tee.value);
    }
  }

  /** The evidence names an app, override included. */
  predicate ForApp(o: Outside, query: string, v: VerifiedAttestation) {
    && v.container.Some? && AppOf(v).Some? && ApplyDebugOverride(o, AppOf(v).value, query) != ""
  }

  function AnswerEffects(o: Outside, jwtUp: bool, c: Call<AttestRequest>): seq<Effect> {
    if c.body.None? || c.body.value.version != 3 then []
    else GrantEffects(o, c) + if AttestBody(o, jwtUp, c).Some? then [KmsSign(AttestBody(o, jwtUp, c).value)] else []
  }

  method HandleAttestV3(w: World, c: Call<AttestRequest>) returns (r: Grant)
    requires c.body.Some?
    modifies w
    ensures r == GrantOf(w.o, c)
    ensures w.effects == old(w.effects) + GrantEffects(w.o, c)
  {
    hide Verify, InputsOf, GrantVerified, PolicyCalls, Header, SignableDigest;
    var inputs := ReadInputs(w, c.body.value);
    if inputs.None? {
      return Rejected(400);
    }
    var Inputs(evidence, extraData) := inputs.value;
    var challenge := CalculateSignableDigest(Header(JwtRequestKey), c.body.value.rsaKeyPem);
    var result := w.VerifyAttestation(evidence, challenge, extraData);
    if result.None? {
      NoPolicyCalls(w.o, c.appIdQuery);
      return Rejected(401);
    }
    VerifyShape(w.o, evidence, challenge, extraData);
    r := GrantFor(w, c.appIdQuery, result.value, extraData);
  }

  lemma NoPolicyCalls(o: Outside, query: string)
    ensures PolicyCalls(o, query, None) == []
  {
  }

  /** Key size, evidence text and extra data. */
  method ReadInputs(w: World, req: AttestRequest) returns (r: Option<Inputs>)
    ensures r == InputsOf(w.o, req)
  {
    hide AcceptableKey, Base64.Decode;
    if !AcceptableKey(w.o.parseKey(req.rsaKeyPem)) {
      return None;
    }
    var attestationBytes := Base64.Decode(req.attestation);
    if attestationBytes.None? {
      return None;
    }
    var extraData: Bytes := [];
    if req.extraData != "" {
      var decoded := Base64.Decode(req.extraData);
      if decoded.None? {
        return None;
      }
      extraData := decoded.value;
      if |extraData| > EXTRA_DATA_LIMIT {
        return None;
      }
    }
    return Some(Inputs(attestationBytes.value, extraData));
  }

  method GrantFor(w: World, query: string, v: VerifiedAttestation, extraData: Bytes) returns (r: Grant)
    requires SmallIndices(v.tpm.pcrs)
    modifies w
    ensures r == GrantVerified(w.o, query, v, extraData)
    ensures w.effects == old(w.effects) + PolicyCalls(w.o, query, Some(v))
  {
    hide TpmAccepted, TeeAccepted, BothPolicyCalls, ExtractAppId;
    if v.tpm.gce.None? || v.container.None? {
      return Rejected(401);
    }
    var instance := ExtractAppId(v.tpm.gce.value.instanceName);
    if instance.None? {
      return Rejected(401);
    }
    var appId := ApplyDebugOverride(w.o, instance.value, query);
    if appId == "" {
      return Rejected(400);
    }
    var ok := CheckBothPolicies(w, v);
    if !ok {
      return Rejected(401);
    }
    return Granted(appId, v, extraData);
  }

  method HandleAttest(w: World, jwtUp: bool, c: Call<AttestRequest>) returns (r: Response)
    modifies w
    ensures r == AttestAnswer(w.o, jwtUp, c)
    ensures w.effects == old(w.effects) + AnswerEffects(w.o, jwtUp, c)
  {
    hide GrantOf, GrantEffects, TokenFor;
    if c.body.None? || c.body.value.version != 3 {
      return Failed(400);
    }
    var req := c.body.value;
    var grant := HandleAttestV3(w, c);
    if grant.Rejected? {
      return Failed(grant.status);
    }
    if !jwtUp {
      return Failed(500);
    }
    var token := SignAttestationJwt(grant.appId, grant.verified, req.audience, req.extraData);
    var key := w.o.parseKey(req.rsaKeyPem);
    if key.None? || !w.o.encryptUp {
      return Failed(500);
    }
    r := w.ReturnSigned(TokenBody(Seal(Rsa(key.value), Missing, token)));
  }

  // -------------------------------------------------------------- effect order

  lemma PolicyCallsRising(o: Outside, query: string, verified: Option<VerifiedAttestation>)
    ensures Rising(PolicyCalls(o, query, verified), 1, 4)
  {
    hide ForApp, TpmEffects, TeeEffects, TpmAccepted;
    if verified.Some? {
      var v := verified.value;
      var teeCalls := if TpmAccepted(o, v.tpm) && v.tee.Some? then TeeEffects(o, v.tee.value) else [];
      TpmEffectsRising(o, v.tpm);
      if v.tee.Some? {
        TeeEffectsRising(o, v.tee.value);
      }
      RisingConcat(TpmEffects(o, v.tpm), teeCalls, 1, 2, 4);
    }
  }

  lemma GrantRising(o: Outside, c: Call<AttestRequest>)
    requires c.body.Some?
    ensures Rising(GrantEffects(o, c), 0, 4)
  {
    hide PolicyCalls, VerifyInputs, InputsOf;
    var inputs := InputsOf(o, c.body.value);
    if inputs.Some? {
      var i := inputs.value;
      var verified := VerifyInputs(o, c.body.value, i);
      PolicyCallsRising(o, c.appIdQuery, verified);
      RisingConcat([VerifyEvidence(i.evidence, DigestFor(JwtRequestKey, c.body.value.rsaKeyPem), i.extraData)],
        PolicyCalls(o, c.appIdQuery, verified), 0, 1, 4);
    }
  }

  /** Outside calls of the attest endpoint happen at most once each and only in the order
      evidence, image, firmware, TCB, signature. */
  lemma AttestEffectsInOrder(o: Outside, jwtUp: bool, c: Call<AttestRequest>)
    ensures Rising(AnswerEffects(o, jwtUp, c), 0, 8)
  {
    hide GrantEffects, AttestBody;
    if c.body.Some? && c.body.value.version == 3 {
      GrantRising(o, c);
      var sign := if AttestBody(o, jwtUp, c).Some? then [KmsSign(AttestBody(o, jwtUp, c).value)] else [];
      RisingConcat(GrantEffects(o, c), sign, 0, 4, 8);
    }
  }

  /** A signature follows every check: evidence verified for this key and extra data, both
      policies passed, and the signed token is the granted one. */
  lemma TokenSignedAfterChecks(o: Outside, jwtUp: bool, c: Call<AttestRequest>, body: Body)
    requires KmsSign(body) in AnswerEffects(o, jwtUp, c)
    ensures c.body.Some? && GrantOf(o, c).Granted? && AttestBody(o, jwtUp, c) == Some(body)
    ensures var g := GrantOf(o, c);
      && TpmAccepted(o, g.verified.tpm) && (g.verified.tee.Some? ==> TeeAccepted(o, g.verified.tee.value))
      && exists evidence :: Base64.Decode(c.body.value.attestation) == Some(evidence)
           && Verify(o, evidence, DigestFor(JwtRequestKey, c.body.value.rsaKeyPem), g.extraData) == Some(g.verified)
  {
    hide GrantEffects, Verify, TpmAccepted, TeeAccepted, TokenFor, AcceptableKey;
    GrantRising(o, c);
    assert Phase(KmsSign(body)) == 7;
    assert KmsSign(body) !in GrantEffects(o, c);
  }

  // ------------------------------------------------------------ refused override

  /** Verified evidence is answered with status 400, the refused override, exactly when it
      has a container and a name with a hyphen, and either a query is given outside debug
      mode or none is given and the name ends in a hyphen: its app id is then empty. */
  lemma RefusedOverrideIff(o: Outside, query: string, v: VerifiedAttestation, extraData: Bytes)
    ensures GrantVerified(o, query, v, extraData) == Rejected(400) <==>
      && v.tpm.gce.Some? && v.container.Some?
      && var name := v.tpm.gce.value.instanceName;
      && '-' in name && if Lower(query) == "" then name[|name| - 1] == '-' else !o.debugMode
  {
    hide TpmAccepted, TeeAccepted, ExtractAppId;
    if v.tpm.gce.Some? {
      var name := v.tpm.gce.value.instanceName;
      ExtractFailsIff(name);
      ExtractIff(name, "");
      assert '-' in name ==> name[|name| - 1..] == [name[|name| - 1]];
    }
  }

  /** Such a name without any query: the answer blames an override nobody asked for. */
  lemma HyphenNameIsRefused(o: Outside, v: VerifiedAttestation, extraData: Bytes)
    requires v.tpm.gce.Some? && v.tpm.gce.value.instanceName == "instance-" && v.container.Some?
    ensures GrantVerified(o, "", v, extraData) == Rejected(400)
  {
    RefusedOverrideIff(o, "", v, extraData);
    assert "instance-"[8] == '-';
  }

  // --------------------------------------------------------------- extra data

  /** For any granted request at all: a claim in the token decodes to exactly the bytes
      that were verified, and a missing claim means none were. */
  lemma ClaimIsVerifiedData(o: Outside, c: Call<AttestRequest>)
    requires c.body.Some? && GrantOf(o, c).Granted?
    ensures var g := GrantOf(o, c);
      var t := TokenFor(g.appId, g.verified, c.body.value.audience, c.body.value.extraData);
      if ExtraData in t
      then t[ExtraData].TextClaim? && Base64.Decode(t[ExtraData].text) == Some(g.extraData)
      else g.extraData == []
  {
    hide TokenFor, Verify, TpmAccepted, TeeAccepted, AcceptableKey;
    var g := GrantOf(o, c);
    TokenClaimsIff(g.appId, g.verified, c.body.value.audience, c.body.value.extraData);
    assert ExtraDataOf(c.body.value.extraData) == Some(g.extraData);
  }

  /** The claim is present exactly for non-empty data, unless the request's text is
      made of nothing but line breaks: then it is present and says no bytes. */
  lemma ClaimPresentIffData(o: Outside, c: Call<AttestRequest>)
    requires c.body.Some? && GrantOf(o, c).Granted?
    ensures var g := GrantOf(o, c);
      var text := c.body.value.extraData;
      var t := TokenFor(g.appId, g.verified, c.body.value.audience, text);
      (ExtraData in t <==> g.extraData != []) <==>
      !(text != "" && forall i :: 0 <= i < |text| ==> Base64.IsLineBreak(text[i]))
  {
    hide TokenFor, Verify, TpmAccepted, TeeAccepted, AcceptableKey;
    var g := GrantOf(o, c);
    TokenClaimsIff(g.appId, g.verified, c.body.value.audience, c.body.value.extraData);
    assert ExtraDataOf(c.body.value.extraData) == Some(g.extraData);
    Base64.DecodesToNothingIff(c.body.value.extraData);
  }

  /** Such a text: a request granted without extra data is granted the same with a single
      line break, and only then carries the claim, saying no bytes. */
  lemma LineBreakIsClaimed(o: Outside, c: Call<AttestRequest>, broken: Call<AttestRequest>)
    requires c.body.Some? && GrantOf(o, c).Granted? && c.body.value.extraData == ""
    requires broken == c.(body := Some(c.body.value.(extraData := "\n")))
    ensures GrantOf(o, broken) == GrantOf(o, c) && GrantOf(o, c).extraData == []
    ensures var g, audience := GrantOf(o, c), c.body.value.audience;
      && ExtraData !in TokenFor(g.appId, g.verified, audience, "")
      && ExtraData in TokenFor(g.appId, g.verified, audience, "\n")
      && TokenFor(g.appId, g.verified, audience, "\n")[ExtraData] == TextClaim("\n")
      && Base64.Decode("\n") == Some([])
  {
    hide TokenFor, Verify, GrantVerified, AcceptableKey;
    assert ExtraDataOf("") == Some([]);
    Base64.DecodesToNothingIff("\n");
    var g := GrantOf(o, c);
    TokenClaimsIff(g.appId, g.verified, c.body.value.audience, "");
    TokenClaimsIff(g.appId, g.verified, c.body.value.audience, "\n");
    GrantKeepsData(o, c);
  }

  lemma GrantKeepsData(o: Outside, c: Call<AttestRequest>)
    requires c.body.Some? && GrantOf(o, c).Granted?
    ensures ExtraDataOf(c.body.value.extraData) == Some(GrantOf(o, c).extraData)
  {
    hide VerifyInputs, TpmAccepted, TeeAccepted, AcceptableKey;
  }
}
