/** HandleEnvV3 on plain facts: the handler read top to bottom, with the status each step
    answers, and what must already hold when a secret is touched. */
module EnvReading {
  import opened Prelude
  import Base64
  import opened Text
  import opened Digests
  import opened Claims
  import opened PcrVector
  import opened InstanceName
  import opened Crypto
  import opened Externals
  import opened PolicyChecker
  import opened EnvHandler
  import opened EnvTheorems

  // --------------------------------------------------------- statuses in order

  function ReadStatus(o: Outside, c: Call<EnvRequestV3>): Option<nat> {
    if c.body.None? then Some(400)
    else if !StrongKey(o.parseKey(c.body.value.rsaKeyPem)) then Some(400)
    else
      match Base64.Decode(c.body.value.attestation)
      case None => Some(400)
      case Some(evidence) =>
        if Verify(o, evidence, DigestFor(EnvRequestKey, c.body.value.rsaKeyPem), []).None? then Some(401) else None
  }

  function AppStatus(o: Outside, query: string, v: VerifiedAttestation): Option<nat> {
    if v.tpm.gce.None? || v.container.None? then Some(401)
    else if ExtractAppId(v.tpm.gce.value.instanceName).None? then Some(401)
    else if Lower(query) != "" && !o.debugMode then Some(400)
    else None
  }

  ghost function PolicyStatus(o: Outside, v: VerifiedAttestation): Option<nat> {
    if !TpmAccepted(o, v.tpm) then Some(401)
    else if v.tee.Some? && !TeePasses(o, v.tee.value) then Some(401)
    else None
  }

  /** A release's machine type, empty if it names none. */
  function MachineTypeOf(o: Outside, appId: string): string {
    match o.latestRelease(appId)
    case Found(_, p, _) => if "EIGEN_MACHINE_TYPE_PUBLIC" in p then p["EIGEN_MACHINE_TYPE_PUBLIC"] else ""
    case NotFound(_) => ""
  }

  function KeyServiceStatus(o: Outside, v: VerifiedAttestation, appId: string): Option<nat> {
    if !FitsMachine(v.platform, MachineTypeOf(o, appId)) then Some(401)
    else if o.deriveMnemonic(appId).None? || !o.encryptUp then Some(500)
    else None
  }

  /** The status of the first step that refuses, reading top to bottom. */
  ghost function RefusalStatus(o: Outside, c: Call<EnvRequestV3>): Option<nat> {
    if ReadStatus(o, c).Some? then ReadStatus(o, c)
    else
      var v := Attested(o, c).value;
      if AppStatus(o, c.appIdQuery, v).Some? then AppStatus(o, c.appIdQuery, v)
      else if PolicyStatus(o, v).Some? then PolicyStatus(o, v)
      else LateStatus(o, v, ServedApp(c.appIdQuery, v))
  }

  function LateStatus(o: Outside, v: VerifiedAttestation, appId: string): Option<nat>
    requires v.container.Some?
  {
    var chain := ChainStatus(o, appId, v.container.value.imageDigest);
    if chain.Some? then chain else KeyServiceStatus(o, v, appId)
  }

  /** The app asked for: the query's, else the instance's own. */
  function ServedApp(query: string, v: VerifiedAttestation): string
    requires v.tpm.gce.Some? && ExtractAppId(v.tpm.gce.value.instanceName).Some?
  {
    if Lower(query) != "" then Lower(query) else ExtractAppId(v.tpm.gce.value.instanceName).value
  }

  lemma ReadRefuses(o: Outside, c: Call<EnvRequestV3>)
    ensures match ReadStatus(o, c)
            case Some(status) => StopRank(o, c) <= Rank(Evidence) && StatusAt(StopRank(o, c)) == status
            case None => StopRank(o, c) > Rank(Evidence) && Attested(o, c).Some?
  {
    hide StopRank, StatusAt, Verify, DigestFor;
    Advance(o, c, Parsed);
    if c.body.Some? {
      Advance(o, c, KeySize);
      if StrongKey(o.parseKey(c.body.value.rsaKeyPem)) {
        Advance(o, c, AttestationText);
        if Base64.Decode(c.body.value.attestation).Some? {
          Advance(o, c, Evidence);
        }
      }
    }
  }

  lemma AppRefuses(o: Outside, c: Call<EnvRequestV3>, v: VerifiedAttestation)
    requires StopRank(o, c) > Rank(Evidence) && Attested(o, c) == Some(v)
    ensures match AppStatus(o, c.appIdQuery, v)
            case Some(status) => StopRank(o, c) < Rank(TpmPolicy) && StatusAt(StopRank(o, c)) == status
            case None => StopRank(o, c) >= Rank(TpmPolicy) && AppId(o, c) == Some(ServedApp(c.appIdQuery, v))
  {
    hide StopRank, StatusAt, Attested, ExtractAppId;
    Advance(o, c, GcePresent);
    if v.tpm.gce.Some? {
      Advance(o, c, ContainerPresent);
      if v.container.Some? {
        Advance(o, c, AppIdFound);
        if ExtractAppId(v.tpm.gce.value.instanceName).Some? {
          Advance(o, c, DebugOverride);
        }
      }
    }
  }

  lemma PolicyRefuses(o: Outside, c: Call<EnvRequestV3>, v: VerifiedAttestation)
    requires StopRank(o, c) >= Rank(TpmPolicy) && Attested(o, c) == Some(v)
    ensures match PolicyStatus(o, v)
            case Some(status) => StopRank(o, c) < Rank(ReleaseRead) && StatusAt(StopRank(o, c)) == status
            case None => StopRank(o, c) >= Rank(ReleaseRead)
  {
    hide StopRank, StatusAt, Attested, TpmAccepted, TeeAccepted, TeePasses;
    Advance(o, c, TpmPolicy);
    if TpmAccepted(o, v.tpm) {
      Advance(o, c, TeePolicy);
      if v.tee.Some? {
        TeeAcceptedIff(o, v.tee.value);
      }
    }
  }

  lemma LateRefuses(o: Outside, c: Call<EnvRequestV3>, v: VerifiedAttestation, appId: string)
    requires StopRank(o, c) >= Rank(ReleaseRead) && Attested(o, c) == Some(v) && v.container.Some?
    requires AppId(o, c) == Some(appId)
    ensures match LateStatus(o, v, appId)
            case Some(status) => StopRank(o, c) < Rank(Signature) && StatusAt(StopRank(o, c)) == status
            case None => StopRank(o, c) >= Rank(Signature)
  {
    hide StopRank, StatusAt, Attested, AppId, ChainStop, ChainStatus, ChainHolds, FitsMachine, VerifyPlatform,
      MachineTypeOf, ValueAt, PublicEnvOf, Answer;
    var digestText := v.container.value.imageDigest;
    ChainRefuses(o, appId, digestText);
    ChainDecides(o, c, appId, digestText);
    if ChainStatus(o, appId, digestText).None? {
      Advance(o, c, PlatformMatch);
      MachineType(o, appId);
      FitsMachineIff(v.platform, MachineTypeOf(o, appId));
      if FitsMachine(v.platform, MachineTypeOf(o, appId)) {
        Advance(o, c, Mnemonic);
        if o.deriveMnemonic(appId).Some? {
          Advance(o, c, Encryption);
        }
      }
    }
  }

  lemma MachineType(o: Outside, appId: string)
    ensures ValueAt(PublicEnvOf(o, appId), MACHINE_TYPE) == MachineTypeOf(o, appId)
  {
  }

  /** HandleEnvV3 refuses with the status of the first step that does, reading the handler
      top to bottom, and otherwise signs the due environment for the request's key. */
  lemma AnswersTopToBottom(o: Outside, c: Call<EnvRequestV3>)
    ensures RefusalStatus(o, c).Some? ==> Answered(o, c) == Failed(RefusalStatus(o, c).value)
    ensures RefusalStatus(o, c).None? ==> Answer(o, c).Some?
    ensures RefusalStatus(o, c).None? ==>
      Answered(o, c) == if o.signUp(Answer(o, c).value) then Signed(Answer(o, c).value) else Failed(500)
  {
    hide StopRank, StatusAt, Attested, AppId, ReadStatus, AppStatus, PolicyStatus, LateStatus, ServedApp, Answer;
    ReadRefuses(o, c);
    if ReadStatus(o, c).None? {
      var v := Attested(o, c).value;
      AppRefuses(o, c, v);
      if AppStatus(o, c.appIdQuery, v).None? {
        AppRefusalShape(o, c.appIdQuery, v);
        PolicyRefuses(o, c, v);
        if PolicyStatus(o, v).None? {
          LateRefuses(o, c, v, ServedApp(c.appIdQuery, v));
          if LateStatus(o, v, ServedApp(c.appIdQuery, v)).None? {
            SignsOrFails(o, c);
          }
        }
      }
    }
  }

  lemma AppRefusalShape(o: Outside, query: string, v: VerifiedAttestation)
    requires AppStatus(o, query, v).None?
    ensures v.container.Some? && v.tpm.gce.Some? && ExtractAppId(v.tpm.gce.value.instanceName).Some?
  {
  }

  lemma SignsOrFails(o: Outside, c: Call<EnvRequestV3>)
    requires StopRank(o, c) >= Rank(Signature)
    ensures Answer(o, c).Some?
    ensures Answered(o, c) ==
      if o.signUp(Answer(o, c).value) then Signed(Answer(o, c).value) else Failed(500)
  {
    hide StopRank, StatusAt, Attested, AppId, Combined, PrivateEnvOf, PublicEnvOf;
    KeyParses(o, c);
    Advance(o, c, Mnemonic);
    Advance(o, c, Signature);
  }

  /** A released digest that is not the attested one is refused with 401, whatever else the
      release holds, and the key service is not asked to decrypt anything. */
  lemma WrongDigestIsRefused(o: Outside, c: Call<EnvRequestV3>, v: VerifiedAttestation)
    requires ReadStatus(o, c).None? && Attested(o, c) == Some(v)
    requires AppStatus(o, c.appIdQuery, v).None? && PolicyStatus(o, v).None?
    requires var release := o.latestRelease(ServedApp(c.appIdQuery, v));
      release.Found? && !CheckAuthorization(v.container.value.imageDigest, release.digest)
    ensures Answered(o, c) == Failed(401)
    ensures forall e :: e in Effects(o, c) ==> !e.KmsDecrypt? && !e.KmsMnemonic? && !e.KmsSign?
  {
    hide Answered, Effects, CheckAuthorization, ReadStatus, PolicyStatus, AppStatus, Attested, EqualFold;
    AppRefusalShape(o, c.appIdQuery, v);
    AnswersTopToBottom(o, c);
    forall e | e in Effects(o, c) ensures !e.KmsDecrypt? && !e.KmsMnemonic? && !e.KmsSign? {
      if e.KmsDecrypt? || e.KmsMnemonic? || e.KmsSign? {
        SecretsNeedDigest(o, c, e);
        SecretApp(o, c, v);
      }
    }
  }

  // ------------------------------------------------------- what secrets require

  /** Evidence bound to the request's strong key verifies, and passes both policies. */
  ghost predicate EvidencePasses(o: Outside, c: Call<EnvRequestV3>, v: VerifiedAttestation) {
    && c.body.Some? && StrongKey(o.parseKey(c.body.value.rsaKeyPem))
    && var evidence := Base64.Decode(c.body.value.attestation);
    && evidence.Some? && Verify(o, evidence.value, DigestFor(EnvRequestKey, c.body.value.rsaKeyPem), []) == Some(v)
    && (forall pcrs :: IsPcrVector(pcrs, v.tpm.pcrs) ==> TpmPasses(o, v.tpm, pcrs))
    && (v.tee.Some? ==> TeePasses(o, v.tee.value))
  }

  /** The app is the one the evidence names; only debug mode lets a query name another. */
  ghost predicate ForApp(o: Outside, c: Call<EnvRequestV3>, v: VerifiedAttestation, appId: string) {
    && v.container.Some? && v.tpm.gce.Some? && ExtractAppId(v.tpm.gce.value.instanceName).Some?
    && appId == ServedApp(c.appIdQuery, v) && (Lower(c.appIdQuery) != "" ==> o.debugMode)
  }

  lemma PassesGates(o: Outside, c: Call<EnvRequestV3>)
    requires Holds(o, c, Parsed) && Holds(o, c, KeySize) && Holds(o, c, AttestationText) && Holds(o, c, Evidence)
    requires Holds(o, c, TpmPolicy) && Holds(o, c, TeePolicy)
    ensures Attested(o, c).Some? && EvidencePasses(o, c, Attested(o, c).value)
  {
    hide Verify, DigestFor, TpmAccepted, TeeAccepted, TpmPasses, TeePasses, IsPcrVector;
    var v := Attested(o, c).value;
    VerifyShape(o, EvidenceBytes(c).value, DigestFor(EnvRequestKey, c.body.value.rsaKeyPem), []);
    forall pcrs | IsPcrVector(pcrs, v.tpm.pcrs) ensures TpmPasses(o, v.tpm, pcrs) {
      TpmAcceptedIff(o, v.tpm, pcrs);
    }
    if v.tee.Some? {
      TeeAcceptedIff(o, v.tee.value);
    }
  }

  lemma AppGates(o: Outside, c: Call<EnvRequestV3>)
    requires Attested(o, c).Some?
    requires Holds(o, c, GcePresent) && Holds(o, c, ContainerPresent) && Holds(o, c, AppIdFound) &&
      Holds(o, c, DebugOverride)
    ensures AppId(o, c).Some? && ForApp(o, c, Attested(o, c).value, AppId(o, c).value)
  {
    hide Attested, ExtractAppId;
  }

  predicate IsSecret(e: Effect) {
    e.KmsDecrypt? || e.KmsMnemonic? || e.KmsSign?
  }

  lemma SecretsNeedPolicies(o: Outside, c: Call<EnvRequestV3>, e: Effect)
    requires e in Effects(o, c) && IsSecret(e)
    ensures Attested(o, c).Some? && AppId(o, c).Some?
    ensures EvidencePasses(o, c, Attested(o, c).value) && ForApp(o, c, Attested(o, c).value, AppId(o, c).value)
  {
    hide Effects, Holds, EvidencePasses, ForApp, AppId, Attested;
    SecretsAfterChecks(o, c, e, Parsed);
    SecretsAfterChecks(o, c, e, KeySize);
    SecretsAfterChecks(o, c, e, AttestationText);
    SecretsAfterChecks(o, c, e, Evidence);
    SecretsAfterChecks(o, c, e, GcePresent);
    SecretsAfterChecks(o, c, e, ContainerPresent);
    SecretsAfterChecks(o, c, e, AppIdFound);
    SecretsAfterChecks(o, c, e, DebugOverride);
    SecretsAfterChecks(o, c, e, TpmPolicy);
    SecretsAfterChecks(o, c, e, TeePolicy);
    PassesGates(o, c);
    AppGates(o, c);
  }

  lemma SecretsNeedDigest(o: Outside, c: Call<EnvRequestV3>, e: Effect)
    requires e in Effects(o, c) && IsSecret(e)
    ensures AppId(o, c).Some? && DigestText(o, c).Some? && SealedMessage(o, AppId(o, c).value).Some?
    ensures MayOpen(o, AppId(o, c).value, DigestText(o, c).value, SealedMessage(o, AppId(o, c).value).value)
  {
    hide Effects, Holds, AppId, DigestText;
    SecretsAfterChecks(o, c, e, ImageDigest);
    SecretsAfterChecks(o, c, e, HeaderMatch);
    ReleaseGatesHold(o, c);
  }

  lemma ReleaseGatesHold(o: Outside, c: Call<EnvRequestV3>)
    requires Holds(o, c, ImageDigest) && Holds(o, c, HeaderMatch)
    ensures AppId(o, c).Some? && DigestText(o, c).Some? && SealedMessage(o, AppId(o, c).value).Some?
    ensures MayOpen(o, AppId(o, c).value, DigestText(o, c).value, SealedMessage(o, AppId(o, c).value).value)
  {
    hide AppId, DigestText, Attested, CheckAuthorization, EqualFold;
  }

  lemma DecryptedMessage(o: Outside, c: Call<EnvRequestV3>, m: Jwe<EnvText>)
    requires KmsDecrypt(m) in Effects(o, c)
    ensures AppId(o, c).Some? && SealedMessage(o, AppId(o, c).value) == Some(m)
  {
    hide AttestEffects, ReleaseEffects, ChainEffects, AppId, DigestText, StopRank;
    LateEffects(o, c, StopRank(o, c), KmsDecrypt(m));
    InChainEffects(o, AppId(o, c).value, DigestText(o, c).value, KmsDecrypt(m));
  }

  lemma SecretApp(o: Outside, c: Call<EnvRequestV3>, v: VerifiedAttestation)
    requires Attested(o, c) == Some(v) && AppStatus(o, c.appIdQuery, v).None?
    ensures AppId(o, c) == Some(ServedApp(c.appIdQuery, v)) && DigestText(o, c) == Some(v.container.value.imageDigest)
  {
    hide Attested, ExtractAppId;
  }

  /** The key service decrypts only the app's sealed message of a release for the attested
      image, after evidence and both policies passed. */
  lemma DecryptsOnlyWhatIsDue(o: Outside, c: Call<EnvRequestV3>, m: Jwe<EnvText>)
    requires KmsDecrypt(m) in Effects(o, c)
    ensures exists v, appId ::
      EvidencePasses(o, c, v) && ForApp(o, c, v, appId) && MayOpen(o, appId, v.container.value.imageDigest, m)
  {
    hide Effects, EvidencePasses, AppId, Attested, CheckAuthorization, EqualFold, ExtractAppId;
    SecretsNeedPolicies(o, c, KmsDecrypt(m));
    SecretsNeedDigest(o, c, KmsDecrypt(m));
    DecryptedMessage(o, c, m);
    var v, appId := Attested(o, c).value, AppId(o, c).value;
    assert MayOpen(o, appId, v.container.value.imageDigest, m);
  }

  /** The merge of mnemonic, private and public environment, sealed to the request's key. */
  ghost predicate SignsDue(o: Outside, c: Call<EnvRequestV3>, body: Body, appId: string, privateEnv: Env) {
    && c.body.Some? && o.parseKey(c.body.value.rsaKeyPem).Some?
    && o.deriveMnemonic(appId).Some? && o.latestRelease(appId).Found?
    && body == EnvBody(Seal(Rsa(o.parseKey(c.body.value.rsaKeyPem).value), Missing,
         EnvJson(Combined(o.deriveMnemonic(appId).value, privateEnv, o.latestRelease(appId).publicEnv))))
  }

  /** All that must hold before the key service derives or signs anything. */
  ghost predicate ReleaseDue(o: Outside, c: Call<EnvRequestV3>, v: VerifiedAttestation, appId: string, m: Jwe<EnvText>,
      privateEnv: Env)
  {
    && EvidencePasses(o, c, v) && ForApp(o, c, v, appId) && MayOpen(o, appId, v.container.value.imageDigest, m)
    && o.decryptUp(m) && Open(m, Kms) == Some(EnvJson(privateEnv))
    && FitsMachine(v.platform, MachineTypeOf(o, appId))
  }

  /** Mnemonic and signature come only after the private environment was opened and the
      platform fits the release's machine type; the mnemonic is the app's, and what is
      signed is the due environment, sealed to the request's key. */
  lemma SecretsOnlyWhenDue(o: Outside, c: Call<EnvRequestV3>, e: Effect)
    requires e in Effects(o, c) && (e.KmsMnemonic? || e.KmsSign?)
    ensures exists v, appId, m, privateEnv ::
      && ReleaseDue(o, c, v, appId, m, privateEnv)
      && (e.KmsMnemonic? ==> e.appId == appId)
      && (e.KmsSign? ==> SignsDue(o, c, e.body, appId, privateEnv))
  {
    hide Effects, EvidencePasses, ForApp, AppId, Attested, CheckAuthorization, EqualFold, ExtractAppId, Holds,
      Answer, FitsMachine, MachineTypeOf;
    SecretsNeedPolicies(o, c, e);
    SecretsNeedDigest(o, c, e);
    SecretsAfterChecks(o, c, e, Decryption);
    SecretsAfterChecks(o, c, e, PrivateEnv);
    SecretsAfterChecks(o, c, e, PlatformMatch);
    var v, appId := Attested(o, c).value, AppId(o, c).value;
    var m := SealedMessage(o, appId).value;
    OpenedGates(o, c, v, appId, m);
    var privateEnv := PrivateEnvOf(o, appId);
    if e.KmsMnemonic? {
      MnemonicOf(o, c, e);
    } else {
      SecretsAfterChecks(o, c, e, Mnemonic);
      SecretsAfterChecks(o, c, e, KeySize);
      SignedIsDue(o, c, e.body, appId);
    }
    assert ReleaseDue(o, c, v, appId, m, privateEnv) by {
      ContainerText(o, c, v);
    }
  }

  lemma ContainerText(o: Outside, c: Call<EnvRequestV3>, v: VerifiedAttestation)
    requires Attested(o, c) == Some(v) && DigestText(o, c).Some?
    ensures v.container.Some? && DigestText(o, c).value == v.container.value.imageDigest
  {
  }

  lemma OpenedGates(o: Outside, c: Call<EnvRequestV3>, v: VerifiedAttestation, appId: string, m: Jwe<EnvText>)
    requires Attested(o, c) == Some(v) && AppId(o, c) == Some(appId) && SealedMessage(o, appId) == Some(m)
    requires Holds(o, c, Decryption) && Holds(o, c, PrivateEnv) && Holds(o, c, PlatformMatch)
    ensures o.decryptUp(m) && Open(m, Kms) == Some(EnvJson(PrivateEnvOf(o, appId)))
    ensures FitsMachine(v.platform, MachineTypeOf(o, appId))
  {
    hide Attested, AppId, DigestText, VerifyPlatform, FitsMachine, MachineTypeOf, ValueAt, PublicEnvOf;
    MachineType(o, appId);
    FitsMachineIff(v.platform, MachineTypeOf(o, appId));
  }

  lemma MnemonicOf(o: Outside, c: Call<EnvRequestV3>, e: Effect)
    requires e in Effects(o, c) && e.KmsMnemonic?
    ensures AppId(o, c) == Some(e.appId)
  {
    hide AttestEffects, ReleaseEffects, AppId, StopRank;
    LateEffects(o, c, StopRank(o, c), e);
  }

  lemma SignedIsDue(o: Outside, c: Call<EnvRequestV3>, body: Body, appId: string)
    requires Answer(o, c) == Some(body) && AppId(o, c) == Some(appId) && SealedMessage(o, appId).Some?
    ensures SignsDue(o, c, body, appId, PrivateEnvOf(o, appId))
  {
    hide AppId, Combined, PrivateEnvOf;
  }
}
