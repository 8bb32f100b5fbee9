/** What HandleEnvV3 guarantees, for every request and every behaviour of the outside. */
module EnvTheorems {
  import opened Prelude
  import opened Text
  import opened Digests
  import opened Claims
  import opened Crypto
  import opened Externals
  import opened PolicyChecker
  import opened EnvHandler

  function Answered(o: Outside, c: Call<EnvRequestV3>): Response {
    AnswerAt(o, c, StopRank(o, c))
  }

  function Effects(o: Outside, c: Call<EnvRequestV3>): seq<Effect> {
    AttestEffects(o, c, StopRank(o, c)) + ReleaseEffects(o, c, StopRank(o, c))
  }

  // --------------------------------------------------------- gate completeness

  /** A signed environment is answered exactly when every gate holds. */
  lemma ReleasedIffAllGatesHold(o: Outside, c: Call<EnvRequestV3>)
    ensures Answered(o, c).Signed? <==> forall g :: Holds(o, c, g)
  {
    if Answered(o, c).Signed? {
      forall g ensures Holds(o, c, g) {
        GateAtRank(g);
        StopMeaning(o, c, 0, g);
      }
    }
    if forall g :: Holds(o, c, g) {
      if StopRank(o, c) < GATES {
        StopMeaning(o, c, 0, GateAt(StopRank(o, c)));
      }
      assert Holds(o, c, Signature);
    }
  }

  /** Otherwise the status is that of the first gate that does not hold. */
  lemma RefusedByFirstFailingGate(o: Outside, c: Call<EnvRequestV3>, g: Gate)
    requires !Holds(o, c, g)
    requires forall h :: Rank(h) < Rank(g) ==> Holds(o, c, h)
    ensures Answered(o, c) == Failed(Status(g))
  {
    hide Holds, StatusAt, Status, Answer;
    GateAtRank(g);
    var stop := StopRank(o, c);
    if stop < Rank(g) {
      StopMeaning(o, c, 0, GateAt(stop));
    }
    StopMeaning(o, c, 0, g);
    StatusOfRank(g);
  }

  // ------------------------------------------------------------- effect order

  /** The stage of request handling an outside call belongs to. */
  function Phase(e: Effect): nat {
    match e
    case VerifyEvidence(_, _, _) => 0
    case AskImageAllowed(_, _) => 1
    case VerifyFirmware(_) => 2
    case AskTcbValid(_, _) => 3
    case ReadRelease(_) => 4
    case KmsDecrypt(_) => 5
    case KmsMnemonic(_) => 6
    case KmsSign(_) => 7
    case KmsOpenRequest => 0
    case CheckToken(_, _) => 1
  }

  ghost predicate Rising(s: seq<Effect>, lo: nat, hi: nat) {
    && (forall i :: 0 <= i < |s| ==> lo <= Phase(s[i]) < hi)
    && (forall i, j :: 0 <= i < j < |s| ==> Phase(s[i]) < Phase(s[j]))
  }

  lemma RisingConcat(s: seq<Effect>, t: seq<Effect>, lo: nat, mid: nat, hi: nat)
    requires lo <= mid <= hi && Rising(s, lo, mid) && Rising(t, mid, hi)
    ensures Rising(s + t, lo, hi)
  {
  }

  lemma TpmEffectsRising(o: Outside, claims: TPMClaims)
    ensures Rising(TpmEffects(o, claims), 1, 2)
  {
  }

  lemma TeeEffectsRising(o: Outside, claims: TEEClaims)
    ensures Rising(TeeEffects(o, claims), 2, 4)
  {
    hide FirmwareEndorsed, SectionPresent, InDebugMode, Measurement, TcbOf;
  }

  lemma TpmRising(o: Outside, v: Option<VerifiedAttestation>, stop: nat)
    ensures Rising(TpmPart(o, v, stop), 1, 2)
  {
    hide TpmEffects;
    if v.Some? {
      TpmEffectsRising(o, v.value.tpm);
    }
  }

  lemma TeeRising(o: Outside, v: Option<VerifiedAttestation>, stop: nat)
    ensures Rising(TeePart(o, v, stop), 2, 4)
  {
    hide TeeEffects;
    if v.Some? && v.value.tee.Some? {
      TeeEffectsRising(o, v.value.tee.value);
    }
  }

  lemma VerifyRising(c: Call<EnvRequestV3>, stop: nat)
    ensures Rising(VerifyPart(c, stop), 0, 1)
  {
  }

  lemma AttestRising(o: Outside, c: Call<EnvRequestV3>, stop: nat)
    ensures Rising(AttestEffects(o, c, stop), 0, 4)
  {
    hide VerifyPart, TpmPart, TeePart, Attested, Rising;
    var v := Attested(o, c);
    TpmRising(o, v, stop);
    TeeRising(o, v, stop);
    VerifyRising(c, stop);
    RisingConcat(TpmPart(o, v, stop), TeePart(o, v, stop), 1, 2, 4);
    RisingConcat(VerifyPart(c, stop), PolicyEffects(o, v, stop), 0, 1, 4);
  }

  lemma ChainRising(o: Outside, c: Call<EnvRequestV3>, stop: nat)
    ensures Rising(ChainPart(o, c, stop), 4, 6)
  {
    hide AppId, DigestText, ChainStop, SealedMessage;
  }

  lemma MnemonicRising(o: Outside, c: Call<EnvRequestV3>, stop: nat)
    ensures Rising(MnemonicPart(o, c, stop), 6, 7)
  {
    hide AppId;
  }

  lemma SignRising(o: Outside, c: Call<EnvRequestV3>, stop: nat)
    ensures Rising(SignPart(o, c, stop), 7, 8)
  {
    hide Answer;
  }

  lemma ReleaseRising(o: Outside, c: Call<EnvRequestV3>, stop: nat)
    ensures Rising(ReleaseEffects(o, c, stop), 4, 8)
  {
    hide ChainPart, MnemonicPart, SignPart, Rising;
    ChainRising(o, c, stop);
    MnemonicRising(o, c, stop);
    SignRising(o, c, stop);
    RisingConcat(ChainPart(o, c, stop), MnemonicPart(o, c, stop), 4, 6, 7);
    RisingConcat(ChainPart(o, c, stop) + MnemonicPart(o, c, stop), SignPart(o, c, stop), 4, 7, 8);
  }

  /** Outside calls happen at most once each and only in the order evidence, image,
      firmware, TCB, release, decryption, mnemonic, signature. */
  lemma EffectsInOrder(o: Outside, c: Call<EnvRequestV3>)
    ensures Rising(Effects(o, c), 0, 8)
  {
    AttestRising(o, c, StopRank(o, c));
    ReleaseRising(o, c, StopRank(o, c));
    RisingConcat(AttestEffects(o, c, StopRank(o, c)), ReleaseEffects(o, c, StopRank(o, c)), 0, 4, 8);
  }

  lemma InChainEffects(o: Outside, appId: string, digestText: string, e: Effect)
    requires e in ChainEffects(o, appId, digestText)
    ensures e == ReadRelease(appId) || (e.KmsDecrypt? && SealedMessage(o, appId) == Some(e.message)
      && ChainStop(o, appId, digestText, CHAIN_FIRST) >= Rank(Decryption))
  {
  }

  /** An effect of a late phase stems from the part of that phase. */
  lemma LateEffects(o: Outside, c: Call<EnvRequestV3>, stop: nat, e: Effect)
    requires e in AttestEffects(o, c, stop) + ReleaseEffects(o, c, stop)
    ensures e.KmsDecrypt? ==> e in ChainPart(o, c, stop)
    ensures e.KmsMnemonic? ==> e in MnemonicPart(o, c, stop)
    ensures e.KmsSign? ==> e in SignPart(o, c, stop)
  {
    hide ChainPart, MnemonicPart, SignPart, AttestEffects;
    AttestRising(o, c, stop);
    ChainRising(o, c, stop);
    MnemonicRising(o, c, stop);
    SignRising(o, c, stop);
  }

  /** Decryption follows every evidence, policy, digest and header check; mnemonic and
      signature also follow the platform check; nothing but the full answer is signed. */
  lemma SecretsAfterChecks(o: Outside, c: Call<EnvRequestV3>, e: Effect, g: Gate)
    requires e in Effects(o, c)
    ensures e.KmsDecrypt? && Rank(g) < Rank(Decryption) ==> Holds(o, c, g)
    ensures e.KmsMnemonic? && Rank(g) < Rank(Mnemonic) ==> Holds(o, c, g)
    ensures e.KmsSign? && Rank(g) < Rank(Signature) ==> Holds(o, c, g)
    ensures e.KmsSign? ==> Answer(o, c) == Some(e.body)
  {
    hide AttestEffects, ReleaseEffects, Holds, ChainPart, Answer, AppId;
    var stop := StopRank(o, c);
    LateEffects(o, c, stop, e);
    StopMeaning(o, c, 0, g);
    if e.KmsDecrypt? {
      DecryptsLate(o, c, e);
    }
  }

  lemma DecryptsLate(o: Outside, c: Call<EnvRequestV3>, e: Effect)
    requires e.KmsDecrypt? && e in ChainPart(o, c, StopRank(o, c))
    ensures StopRank(o, c) >= Rank(Decryption)
  {
    hide ChainEffects, SealedMessage, AppId, DigestText, StopRank, ChainStop;
    var appId, digestText := AppId(o, c).value, DigestText(o, c).value;
    InChainEffects(o, appId, digestText, e);
    ChainDecides(o, c, appId, digestText);
  }

  // -------------------------------------------------------------- TEE coverage

  /** A release is for Intel TDX if its machine type is empty or ends in t, for AMD SEV-SNP
      if in s, and for Shielded VM if in v. On the first two there were TEE claims and they
      passed, field by field; on the last there are none. */
  lemma TeeCoverage(o: Outside, c: Call<EnvRequestV3>)
    requires Answered(o, c).Signed?
    ensures AppId(o, c).Some? && Attested(o, c).Some?
    ensures var machineType := ValueAt(PublicEnvOf(o, AppId(o, c).value), "EIGEN_MACHINE_TYPE_PUBLIC");
      var v := Attested(o, c).value;
      && FitsMachine(v.platform, machineType)
      && if machineType == "" || machineType[|machineType| - 1] in {'t', 's'}
         then v.tee.Some? && TeePasses(o, v.tee.value)
         else machineType[|machineType| - 1] == 'v' && v.platform == GCPShieldedVM && v.tee.None?
  {
    hide StopRank, AnswerAt, AppId, TpmAccepted, TeeAccepted, TeePasses, Verify, DigestFor, PublicEnvOf,
      ValueAt, ChainHolds;
    ReleasedIffAllGatesHold(o, c);
    assert Holds(o, c, PlatformMatch) && Holds(o, c, TeePolicy);
    var v := Attested(o, c).value;
    VerifyShape(o, EvidenceBytes(c).value, DigestFor(EnvRequestKey, c.body.value.rsaKeyPem), []);
    FitsMachineIff(v.platform, ValueAt(PublicEnvOf(o, AppId(o, c).value), MACHINE_TYPE));
    if v.tee.Some? {
      TeeAcceptedIff(o, v.tee.value);
    }
  }

  // ------------------------------------------------------------- app isolation

  /** A private environment is released only for the app its seal names, up to case
      folding: the header compared is the header authenticated. */
  lemma ReleasedUnderItsSeal(o: Outside, c: Call<EnvRequestV3>)
    requires Answered(o, c).Signed?
    ensures AppId(o, c).Some? && SealedMessage(o, AppId(o, c).value).Some?
    ensures var appId := AppId(o, c).value;
      var m := SealedMessage(o, appId).value;
      && m.recipient == Kms && m.payload == EnvJson(PrivateEnvOf(o, appId))
      && m.sealedHeader.Text? && EqualFold(o.foldOther, m.sealedHeader.text, appId)
  {
    hide StopRank, AnswerAt, EqualFold, CheckAuthorization, AppId, DigestText, Attested;
    ReleasedIffAllGatesHold(o, c);
    assert Holds(o, c, HeaderMatch) && Holds(o, c, Decryption) && Holds(o, c, PrivateEnv);
  }

  /** For app ids such as lower-case hexadecimal addresses, folding is ASCII case. */
  lemma ReleasedUnderItsCaselessSeal(o: Outside, c: Call<EnvRequestV3>)
    requires FoldsOutsideAscii(o.foldOther)
    requires Answered(o, c).Signed? && AppId(o, c).Some? && FoldSafe(AppId(o, c).value)
    ensures SealedMessage(o, AppId(o, c).value).Some?
    ensures var m := SealedMessage(o, AppId(o, c).value).value;
      m.sealedHeader.Text? && SameAsciiCaseless(m.sealedHeader.text, AppId(o, c).value)
  {
    ReleasedUnderItsSeal(o, c);
    FoldSafeIsCaseless(o.foldOther, SealedMessage(o, AppId(o, c).value).value.sealedHeader.text, AppId(o, c).value);
  }

  /** The released environment: the request's key is its only reader, and each variable
      is public, else private, else the mnemonic. */
  lemma ReleasedEnvironment(o: Outside, c: Call<EnvRequestV3>)
    requires Answered(o, c).Signed?
    ensures Answered(o, c).body.EnvBody?
    ensures c.body.Some? && AppId(o, c).Some? && o.parseKey(c.body.value.rsaKeyPem).Some?
    ensures StrongKey(o.parseKey(c.body.value.rsaKeyPem))
    ensures o.deriveMnemonic(AppId(o, c).value).Some?
    ensures var appId := AppId(o, c).value;
      var message := Answered(o, c).body.encryptedCombinedEnv;
      var env := Combined(o.deriveMnemonic(appId).value, PrivateEnvOf(o, appId), PublicEnvOf(o, appId));
      && Open(message, Rsa(o.parseKey(c.body.value.rsaKeyPem).value)) == Some(EnvJson(env))
      && forall r :: Open(message, r).Some? ==> r == Rsa(o.parseKey(c.body.value.rsaKeyPem).value)
  {
    ReleasedIffAllGatesHold(o, c);
    AcceptableKeyIff(o.parseKey(c.body.value.rsaKeyPem));
    assert Holds(o, c, Parsed) && Holds(o, c, KeySize) && Holds(o, c, Mnemonic);
  }
}
