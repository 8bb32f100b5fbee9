/** What every reachable state of the protocol keeps. */
module ProtocolInvariant {
  import opened Prelude
  import Base64
  import opened Text
  import opened Digests
  import opened Claims
  import opened Crypto
  import opened Chain
  import opened ChainClient
  import opened Externals
  import opened PolicyChecker
  import opened EnvHandler
  import opened EnvTheorems
  import opened AttestHandler
  import opened Addresses
  import opened EnvClient
  import opened Protocol

  // ---------------------------------------------------------------- invariant

  /** Both policy checks pass, debug mode being off. */
  predicate PolicyAccepts(p: Params, v: VerifiedAttestation) {
    TpmAccepted(Base(p, map[]), v.tpm) && (v.tee.Some? ==> TeeAccepted(Base(p, map[]), v.tee.value))
  }

  /** What holds of an environment body in terms of its evidence and release: the app is
      the evidence's own, the release's image is the attested one, the private
      environment was sealed for the app, and the reader is the key of the challenge. */
  ghost predicate Released(p: Params, e: IssuedEvidence, pem: Bytes, lookup: Lookup, body: Body) {
    var v := e.attested;
    && e.challenge == DigestFor(EnvRequestKey, pem) && e.extraData == [] && p.parseKey(pem).Some?
    && AppOf(v).Some? && v.container.Some? && PolicyAccepts(p, v)
    && lookup.Found? && lookup.encryptedEnv.JweText?
    && CheckAuthorization(v.container.value.imageDigest, lookup.digest)
    && VerifyPlatform(v.platform, ValueAt(lookup.publicEnv, MACHINE_TYPE))
    && SealedFor(p, lookup.encryptedEnv.message, AppOf(v).value)
    && body == EnvBody(Seal(Rsa(p.parseKey(pem).value), Missing,
         EnvJson(Combined(p.mnemonicOf(AppOf(v).value), lookup.encryptedEnv.message.payload.env, lookup.publicEnv))))
  }

  /** A private environment sealed to the key service under the app's id. */
  ghost predicate SealedFor(p: Params, m: Jwe<EnvText>, appId: string) {
    Open(m, Kms).Some? && m.payload.EnvJson? && m.sealedHeader.Text? &&
      EqualFold(p.foldOther, m.sealedHeader.text, appId)
  }

  /** Evidence that passes policy and names an app and a container. */
  ghost predicate Attestable(p: Params, v: VerifiedAttestation) {
    AppOf(v).Some? && AppOf(v).value != "" && v.container.Some? && PolicyAccepts(p, v)
  }

  /** What holds of a token body. */
  ghost predicate Vouched(p: Params, e: IssuedEvidence, req: AttestRequest, body: Body) {
    var v := e.attested;
    && e.challenge == DigestFor(JwtRequestKey, req.rsaKeyPem) && ExtraDataOf(req.extraData) == Some(e.extraData)
    && p.parseKey(req.rsaKeyPem).Some? && Attestable(p, v)
    && body == TokenBody(Seal(Rsa(p.parseKey(req.rsaKeyPem).value), Missing,
         TokenFor(AppOf(v).value, v, req.audience, req.extraData)))
  }

  ghost predicate EvidenceOk(p: Params, s: State, e: Bytes)
    requires e in s.issued
  {
    && Shape(s.issued[e].attested) && s.issued[e].at <= |s.chain|
    && (NamesClientKey(p, s.issued[e].challenge) ==> exists run :: run in s.runs && s.runs[run].evidence == e)
  }

  /** The evidence a run asked for. */
  function Asked(p: Params, run: nat, r: ClientRun): IssuedEvidence {
    match r
    case EnvRun(attested, _, started, _) =>
      IssuedEvidence(attested, DigestFor(EnvRequestKey, p.pemOf(run)), [], started)
    case AttestRun(attested, _, started, _, extraData, _) =>
      IssuedEvidence(attested, DigestFor(JwtRequestKey, p.pemOf(run)), extraData, started)
  }

  ghost predicate RunOk(p: Params, s: State, run: nat, r: ClientRun) {
    && r.evidence in s.issued && s.issued[r.evidence] == Asked(p, run, r)
    && (r.EnvRun? && r.result.Some? ==>
          (exists b :: b in s.signed && Received(run, b) == r.result) &&
            ClientAddresses(p.wallet, r.result.value).Some?)
    && (r.AttestRun? && r.token.Some? ==> exists b :: b in s.signed && ReceivedToken(run, b) == r.token)
  }

  /** A request let in at a chain length carries evidence issued by then. */
  ghost predicate Carries(p: Params, s: State, c: Call<EnvRequestV3>, at: nat) {
    && c.body.Some? && EvidenceBytes(c).Some? && EvidenceBytes(c).value in s.issued
    && s.issued[EvidenceBytes(c).value].at <= at <= |s.chain|
  }

  ghost predicate SessionOk(p: Params, s: State, d: Session) {
    && Carries(p, s, d.call, d.at)
    && (!d.LetIn? ==> d.at <= d.seen <= |s.chain|)
    && (d.Done? && d.body.Some? ==> DoneOk(p, s, d))
  }

  ghost predicate DoneOk(p: Params, s: State, d: Session)
    requires d.Done? && d.body.Some? && Carries(p, s, d.call, d.at) && d.seen <= |s.chain|
  {
    var e := s.issued[EvidenceBytes(d.call).value];
    && Released(p, e, d.call.body.value.rsaKeyPem, d.lookup, d.body.value)
    && d.account.seen == s.chain[..d.seen]
    && LookupOutcome(d.lookup, d.account, p.addressOf(AppOf(e.attested).value))
  }

  ghost predicate ServedOk(p: Params, s: State, v: Served) {
    && v.call.body.Some?
    && var e := Base64.Decode(v.call.body.value.attestation);
    && e.Some? && e.value in s.issued && Vouched(p, s.issued[e.value], v.call.body.value, v.body)
  }

  ghost predicate SignedOk(s: State, b: Body) {
    && (b.EnvBody? ==> exists i :: i in s.sessions && s.sessions[i].Done? && s.sessions[i].body == Some(b))
    && (b.TokenBody? ==> exists v :: v in s.served && v.body == b)
  }

  ghost predicate Inv(p: Params, s: State) {
    && ValidChain(s.chain) && s.chain != []
    && (forall e :: e in s.issued ==> EvidenceOk(p, s, e))
    && (forall run :: run in s.runs ==> RunOk(p, s, run, s.runs[run]))
    && (forall i :: i in s.sessions ==> SessionOk(p, s, s.sessions[i]))
    && (forall v :: v in s.served ==> ServedOk(p, s, v))
    && (forall b :: b in s.signed ==> SignedOk(s, b))
  }

  // ------------------------------------------------------------ monotonicity

  /** Nothing that happened is taken back. */
  ghost predicate Extends(s: State, t: State) {
    && s.chain <= t.chain && s.signed <= t.signed
    && (forall e :: e in s.issued ==> e in t.issued && t.issued[e] == s.issued[e])
    && (forall run :: run in s.runs ==> run in t.runs && t.runs[run].evidence == s.runs[run].evidence)
    && (forall v :: v in s.served ==> v in t.served)
    && (forall i :: i in s.sessions && s.sessions[i].Done? ==> i in t.sessions && t.sessions[i] == s.sessions[i])
  }

  lemma StepExtends(p: Params, s: State, step: Step)
    requires Enabled(p, s, step)
    ensures Extends(s, Do(p, s, step))
  {
    hide EarlyGatesHold, NamesClientKey, LookupOutcome, Answered, AttestAnswer;
  }

  lemma EvidenceStays(p: Params, s: State, t: State, e: Bytes)
    requires Extends(s, t) && e in s.issued && EvidenceOk(p, s, e)
    ensures EvidenceOk(p, t, e)
  {
    hide NamesClientKey, Shape;
  }

  lemma RunStays(p: Params, s: State, t: State, run: nat, r: ClientRun)
    requires Extends(s, t) && RunOk(p, s, run, r)
    ensures RunOk(p, t, run, r)
  {
    hide Asked, Received, ReceivedToken;
  }

  lemma SessionStays(p: Params, s: State, t: State, d: Session)
    requires Extends(s, t) && SessionOk(p, s, d)
    ensures SessionOk(p, t, d)
  {
    hide Released, LookupOutcome, EvidenceBytes;
    if d.Done? && d.body.Some? {
      assert t.chain[..d.seen] == s.chain[..d.seen];
    }
  }

  lemma ServedStays(p: Params, s: State, t: State, v: Served)
    requires Extends(s, t) && ServedOk(p, s, v)
    ensures ServedOk(p, t, v)
  {
    hide Vouched;
  }

  lemma SignedStays(s: State, t: State, b: Body)
    requires Extends(s, t) && SignedOk(s, b)
    ensures SignedOk(t, b)
  {
  }

  // ------------------------------------------------------- what a server sees

  /** Verification accepts exactly the issued evidence, for its own challenge and extra
      data, and yields what it attests. */
  lemma VerifyIssued(p: Params, issued: map<Bytes, IssuedEvidence>, lookup: Lookup, up: Services, e: Bytes,
      c: Digest, x: Bytes)
    requires forall k :: k in issued ==> Shape(issued[k].attested)
    ensures Verify(At(p, issued, lookup, up), e, c, x) == Verify(Base(p, issued), e, c, x)
    ensures Verify(Base(p, issued), e, c, x) ==
      if e in issued && issued[e].challenge == c && issued[e].extraData == x then Some(issued[e].attested) else None
  {
    if e in issued && issued[e].challenge == c && issued[e].extraData == x {
      VerifyYields(Base(p, issued), e, c, x, issued[e].attested);
    }
  }

  /** Verification hands on what it is given, register selection aside. */
  lemma VerifyYields(o: Outside, e: Bytes, c: Digest, x: Bytes, v: VerifiedAttestation)
    requires o.platformOf(e) == Some(v.platform) && o.verifyTpm(e, c, x) == Some(v.tpm)
    requires o.containerClaims(e) == Some(v.container) && o.verifyBoundTee(e, c, x) == v.tee && Shape(v)
    ensures Verify(o, e, c, x) == Some(v)
  {
    var selected := map k | k in v.tpm.pcrs && k in PCR_INDICES :: v.tpm.pcrs[k];
    assert selected == v.tpm.pcrs;
    assert v.tpm.(pcrs := selected) == v.tpm;
  }

  /** Policy reads nothing but the policy data. */
  lemma PolicyIsFixed(p: Params, issued: map<Bytes, IssuedEvidence>, lookup: Lookup, up: Services,
      v: VerifiedAttestation)
    ensures var o := At(p, issued, lookup, up);
      PolicyAccepts(p, v) <==> TpmAccepted(o, v.tpm) && (v.tee.Some? ==> TeeAccepted(o, v.tee.value))
  {
  }

  /** A request past the evidence gate carries evidence issued for its key. */
  lemma EvidenceGate(p: Params, issued: map<Bytes, IssuedEvidence>, c: Call<EnvRequestV3>)
    requires forall k :: k in issued ==> Shape(issued[k].attested)
    requires Attested(Base(p, issued), c).Some?
    ensures c.body.Some? && EvidenceBytes(c).Some? && EvidenceBytes(c).value in issued
    ensures var e := issued[EvidenceBytes(c).value];
      e.challenge == DigestFor(EnvRequestKey, c.body.value.rsaKeyPem) && e.extraData == []
      && Attested(Base(p, issued), c) == Some(e.attested)
  {
    hide Verify;
    VerifyIssued(p, issued, NotFound(NoUpgrade), Services(true, true, true, true, true),
      EvidenceBytes(c).value, DigestFor(EnvRequestKey, c.body.value.rsaKeyPem), []);
  }

  /** Outside debug mode a request's app is the one its evidence names. */
  lemma AppIsAttested(p: Params, issued: map<Bytes, IssuedEvidence>, lookup: Lookup, up: Services,
      c: Call<EnvRequestV3>)
    requires forall k :: k in issued ==> Shape(issued[k].attested)
    requires AppId(At(p, issued, lookup, up), c).Some?
    ensures Attested(At(p, issued, lookup, up), c) == Attested(Base(p, issued), c)
    ensures Attested(Base(p, issued), c).Some?
    ensures AppId(At(p, issued, lookup, up), c) == AppOf(Attested(Base(p, issued), c).value)
  {
    hide Verify;
    VerifyIssued(p, issued, lookup, up, EvidenceBytes(c).value, DigestFor(EnvRequestKey, c.body.value.rsaKeyPem), []);
  }

  /** What the gates say of the release, once they have all let a request pass. */
  lemma ReleaseGates(p: Params, issued: map<Bytes, IssuedEvidence>, lookup: Lookup, up: Services,
      c: Call<EnvRequestV3>, v: VerifiedAttestation, appId: string)
    requires Answered(At(p, issued, lookup, up), c).Signed?
    requires var o := At(p, issued, lookup, up); Attested(o, c) == Some(v) && AppId(o, c) == Some(appId)
    ensures v.container.Some? && PolicyAccepts(p, v)
    ensures lookup.Found? && lookup.encryptedEnv.JweText? && SealedFor(p, lookup.encryptedEnv.message, appId)
    ensures CheckAuthorization(v.container.value.imageDigest, lookup.digest)
    ensures VerifyPlatform(v.platform, ValueAt(lookup.publicEnv, MACHINE_TYPE))
  {
    hide StopRank, AnswerAt, Attested, AppId, CheckAuthorization, VerifyPlatform, TpmAccepted, TeeAccepted,
      EqualFold, ValueAt, Base;
    var o := At(p, issued, lookup, up);
    ReleasedIffAllGatesHold(o, c);
    assert Holds(o, c, ImageDigest) && Holds(o, c, HeaderMatch) && Holds(o, c, PrivateEnv);
    assert Holds(o, c, ContainerPresent) && Holds(o, c, PlatformMatch) && Holds(o, c, TpmPolicy) &&
      Holds(o, c, TeePolicy);
    PolicyIsFixed(p, issued, lookup, up, v);
    OutsideOf(p, issued, lookup, up);
  }

  lemma OutsideOf(p: Params, issued: map<Bytes, IssuedEvidence>, lookup: Lookup, up: Services)
    ensures var o := At(p, issued, lookup, up);
      && !o.debugMode && o.foldOther == p.foldOther && o.parseKey == p.parseKey
      && (forall a :: o.latestRelease(a) == lookup)
      && (forall a :: o.deriveMnemonic(a) == if up.mnemonic then Some(p.mnemonicOf(a)) else None)
  {
  }

  /** A signed environment has everything Released says. */
  lemma AnswerReleased(p: Params, issued: map<Bytes, IssuedEvidence>, lookup: Lookup, up: Services,
      c: Call<EnvRequestV3>)
    requires forall k :: k in issued ==> Shape(issued[k].attested)
    requires Answered(At(p, issued, lookup, up), c).Signed?
    ensures c.body.Some? && EvidenceBytes(c).Some? && EvidenceBytes(c).value in issued
    ensures AppId(Base(p, issued), c) == AppOf(issued[EvidenceBytes(c).value].attested)
    ensures Released(p, issued[EvidenceBytes(c).value], c.body.value.rsaKeyPem, lookup,
      Answered(At(p, issued, lookup, up), c).body)
  {
    hide StopRank, AnswerAt, Attested, Base, CheckAuthorization, VerifyPlatform, PolicyAccepts, EqualFold;
    var o := At(p, issued, lookup, up);
    ReleasedEnvironment(o, c);
    AppIsAttested(p, issued, lookup, up, c);
    EvidenceGate(p, issued, c);
    var v := issued[EvidenceBytes(c).value].attested;
    ReleaseGates(p, issued, lookup, up, c, v, AppOf(v).value);
    OutsideOf(p, issued, lookup, up);
    BodyIs(p, issued, lookup, up, c, AppOf(v).value);
  }

  lemma BodyIs(p: Params, issued: map<Bytes, IssuedEvidence>, lookup: Lookup, up: Services,
      c: Call<EnvRequestV3>, appId: string)
    requires Answered(At(p, issued, lookup, up), c).Signed?
    requires AppId(At(p, issued, lookup, up), c) == Some(appId)
    requires lookup.Found? && lookup.encryptedEnv.JweText? && lookup.encryptedEnv.message.payload.EnvJson?
    ensures c.body.Some? && p.parseKey(c.body.value.rsaKeyPem).Some?
    ensures Answered(At(p, issued, lookup, up), c).body ==
      EnvBody(Seal(Rsa(p.parseKey(c.body.value.rsaKeyPem).value), Missing,
         EnvJson(Combined(p.mnemonicOf(appId), lookup.encryptedEnv.message.payload.env, lookup.publicEnv))))
  {
    hide StopRank, AppId, Base, Combined, Attested;
    var o := At(p, issued, lookup, up);
    ReleasedIffAllGatesHold(o, c);
    assert Holds(o, c, PrivateEnv) && Holds(o, c, Mnemonic);
    OutsideOf(p, issued, lookup, up);
  }

  /** A signed token has everything Vouched says. */
  lemma AnswerVouched(p: Params, issued: map<Bytes, IssuedEvidence>, up: Services, c: Call<AttestRequest>)
    requires forall k :: k in issued ==> Shape(issued[k].attested)
    requires AttestAnswer(At(p, issued, NotFound(NoUpgrade), up), up.jwt, c).Signed?
    ensures c.body.Some?
    ensures var e := Base64.Decode(c.body.value.attestation);
      && e.Some? && e.value in issued
      && Vouched(p, issued[e.value], c.body.value, AttestAnswer(At(p, issued, NotFound(NoUpgrade), up), up.jwt, c).body)
  {
    hide Verify, Base, TpmAccepted, TeeAccepted, TokenFor;
    var lookup := NotFound(NoUpgrade);
    var o := At(p, issued, lookup, up);
    var req := c.body.value;
    var e, x := Base64.Decode(req.attestation).value, ExtraDataOf(req.extraData).value;
    VerifyIssued(p, issued, lookup, up, e, DigestFor(JwtRequestKey, req.rsaKeyPem), x);
    var v := Verify(o, e, DigestFor(JwtRequestKey, req.rsaKeyPem), x).value;
    PolicyIsFixed(p, issued, lookup, up, v);
    OutsideOf(p, issued, lookup, up);
  }

  // -------------------------------------------------------------- preservation

  lemma KeepsEvidence(p: Params, s: State, step: Step)
    requires Inv(p, s) && Enabled(p, s, step)
    ensures var t := Do(p, s, step); forall e :: e in t.issued ==> EvidenceOk(p, t, e)
  {
    hide NamesClientKey, EarlyGatesHold, LookupOutcome, Answered, AttestAnswer, Shape, RunOk, SessionOk,
      ServedOk, SignedOk;
    StepExtends(p, s, step);
    var t := Do(p, s, step);
    forall e | e in t.issued ensures EvidenceOk(p, t, e) {
      if e in s.issued {
        EvidenceStays(p, s, t, e);
      } else {
        match step
        case StartEnv(run, _, _) => assert run in t.runs && t.runs[run].evidence == e;
        case StartAttest(run, _, _, _, _) => assert run in t.runs && t.runs[run].evidence == e;
        case _ =>
      }
    }
  }

  lemma KeepsRuns(p: Params, s: State, step: Step)
    requires Inv(p, s) && Enabled(p, s, step)
    ensures var t := Do(p, s, step); forall run :: run in t.runs ==> RunOk(p, t, run, t.runs[run])
  {
    hide NamesClientKey, EarlyGatesHold, LookupOutcome, Answered, AttestAnswer, Shape, EvidenceOk, SessionOk,
      ServedOk, SignedOk, Received, ReceivedToken, RunOk;
    StepExtends(p, s, step);
    var t := Do(p, s, step);
    forall run | run in t.runs ensures RunOk(p, t, run, t.runs[run]) {
      if run !in s.runs {
        RunStarts(p, s, step, run);
      } else {
        RunStays(p, s, t, run, s.runs[run]);
        if t.runs[run] != s.runs[run] {
          RunAccepts(p, t, run, s.runs[run], step.body);
        }
      }
    }
  }

  /** A run that is handed a signed body keeps its record in order. */
  lemma RunAccepts(p: Params, s: State, run: nat, r: ClientRun, body: Body)
    requires RunOk(p, s, run, r)
    ensures r.EnvRun? && AcceptedEnv(TeeKey(run), p.wallet, Some(Arrival(s, body))).Some? ==>
      RunOk(p, s, run, r.(result := Received(run, body)))
    ensures r.AttestRun? && AcceptedToken(TeeKey(run), Some(Arrival(s, body))).Some? ==>
      RunOk(p, s, run, r.(token := ReceivedToken(run, body)))
  {
    hide OpenEnv, OpenToken, ClientAddresses;
  }

  lemma RunStarts(p: Params, s: State, step: Step, run: nat)
    requires Enabled(p, s, step) && run !in s.runs && run in Do(p, s, step).runs
    ensures RunOk(p, Do(p, s, step), run, Do(p, s, step).runs[run])
  {
    hide NamesClientKey, EarlyGatesHold, LookupOutcome, Answered, AttestAnswer, Shape, Received, ReceivedToken;
  }

  lemma KeepsServed(p: Params, s: State, step: Step)
    requires Inv(p, s) && Enabled(p, s, step)
    ensures var t := Do(p, s, step); forall v :: v in t.served ==> ServedOk(p, t, v)
  {
    hide NamesClientKey, EarlyGatesHold, LookupOutcome, Answered, AttestAnswer, RunOk, SessionOk, SignedOk, Vouched;
    StepExtends(p, s, step);
    var t := Do(p, s, step);
    forall v | v in t.served ensures ServedOk(p, t, v) {
      if v in s.served {
        ServedStays(p, s, t, v);
      } else {
        AnswerVouched(p, s.issued, step.up, step.request);
      }
    }
  }

  lemma KeepsSigned(p: Params, s: State, step: Step)
    requires Inv(p, s) && Enabled(p, s, step)
    ensures var t := Do(p, s, step); forall b :: b in t.signed ==> SignedOk(t, b)
  {
    hide NamesClientKey, EarlyGatesHold, LookupOutcome, RunOk, SessionOk, ServedOk, EvidenceOk, Answered,
      AttestAnswer, SignedOk;
    StepExtends(p, s, step);
    var t := Do(p, s, step);
    forall b | b in t.signed ensures SignedOk(t, b) {
      if b in s.signed {
        SignedStays(s, t, b);
      } else {
        NewlySigned(p, s, step, b);
      }
    }
  }

  lemma NewlySigned(p: Params, s: State, step: Step, b: Body)
    requires Inv(p, s) && Enabled(p, s, step) && b in Do(p, s, step).signed && b !in s.signed
    ensures SignedOk(Do(p, s, step), b)
  {
    hide NamesClientKey, EarlyGatesHold, LookupOutcome, RunOk, SessionOk, ServedOk, EvidenceOk, Answered,
      AttestAnswer, Inv;
    var t := Do(p, s, step);
    match step
    case Finish(session, _, _, up) =>
      assert t.sessions[session].Done? && t.sessions[session].body == Some(b);
      AnswerIsEnv(At(p, s.issued, step.lookup, up), s.sessions[session].call);
    case ServeAttest(request, up) =>
      AnswerIsToken(At(p, s.issued, NotFound(NoUpgrade), up), up.jwt, request);
      assert t.served[|s.served|].body == b;
    case _ =>
  }

  lemma AnswerIsEnv(o: Outside, c: Call<EnvRequestV3>)
    ensures Answered(o, c).Signed? ==> Answered(o, c).body.EnvBody?
  {
    if Answered(o, c).Signed? {
      ReleasedEnvironment(o, c);
    }
  }

  lemma AnswerIsToken(o: Outside, jwtUp: bool, c: Call<AttestRequest>)
    ensures AttestAnswer(o, jwtUp, c).Signed? ==> AttestAnswer(o, jwtUp, c).body.TokenBody?
  {
    hide GrantOf;
  }

  lemma KeepsSessions(p: Params, s: State, step: Step)
    requires Inv(p, s) && Enabled(p, s, step)
    ensures var t := Do(p, s, step); forall i :: i in t.sessions ==> SessionOk(p, t, t.sessions[i])
  {
    hide NamesClientKey, EarlyGatesHold, LookupOutcome, RunOk, SessionOk, ServedOk, SignedOk, EvidenceOk,
      Answered, AttestAnswer;
    StepExtends(p, s, step);
    var t := Do(p, s, step);
    forall i | i in t.sessions ensures SessionOk(p, t, t.sessions[i]) {
      if i in s.sessions && t.sessions[i] == s.sessions[i] {
        SessionStays(p, s, t, s.sessions[i]);
      } else {
        SessionMoves(p, s, step, i);
      }
    }
  }

  lemma SessionMoves(p: Params, s: State, step: Step, i: nat)
    requires Inv(p, s) && Enabled(p, s, step) && i in Do(p, s, step).sessions
    requires i in s.sessions ==> Do(p, s, step).sessions[i] != s.sessions[i]
    ensures SessionOk(p, Do(p, s, step), Do(p, s, step).sessions[i])
  {
    hide NamesClientKey, EarlyGatesHold, LookupOutcome, RunOk, SessionOk, ServedOk, SignedOk, EvidenceOk,
      Answered, AttestAnswer, Carries;
    match step
    case Admit(session, call) => AdmitCarries(p, s, call);
      SessionLetIn(p, s, step);
    case FirstRead(session) => SessionReads(p, s, step);
    case Finish(session, account, lookup, up) => SessionFinishes(p, s, step);
    case _ =>
  }

  lemma AdmitCarries(p: Params, s: State, call: Call<EnvRequestV3>)
    requires Inv(p, s) && EarlyGatesHold(Base(p, s.issued), call)
    ensures Carries(p, s, call, |s.chain|)
  {
    hide RunOk, SessionOk, ServedOk, SignedOk, Base, NamesClientKey;
    assert Holds(Base(p, s.issued), call, Evidence);
    EvidenceGate(p, s.issued, call);
    assert EvidenceOk(p, s, EvidenceBytes(call).value);
  }

  lemma SessionLetIn(p: Params, s: State, step: Step)
    requires step.Admit? && Carries(p, s, step.call, |s.chain|)
    ensures SessionOk(p, Do(p, s, step), Do(p, s, step).sessions[step.session])
  {
  }

  lemma SessionReads(p: Params, s: State, step: Step)
    requires Inv(p, s) && step.FirstRead? && Enabled(p, s, step)
    ensures SessionOk(p, Do(p, s, step), Do(p, s, step).sessions[step.session])
  {
    hide RunOk, ServedOk, SignedOk, EvidenceOk, EvidenceBytes;
    assert SessionOk(p, s, s.sessions[step.session]);
  }

  lemma SessionFinishes(p: Params, s: State, step: Step)
    requires Inv(p, s) && step.Finish? && Enabled(p, s, step)
    ensures SessionOk(p, Do(p, s, step), Do(p, s, step).sessions[step.session])
  {
    hide RunOk, ServedOk, SignedOk, NamesClientKey, EvidenceBytes, Answered, Released, LookupOutcome, AppId;
    assert SessionOk(p, s, s.sessions[step.session]);
    var d := s.sessions[step.session];
    var o := At(p, s.issued, step.lookup, step.up);
    if Answered(o, d.call).Signed? {
      AnswerReleased(p, s.issued, step.lookup, step.up, d.call);
      ReleasedHasRelease(p, s.issued[EvidenceBytes(d.call).value], d.call.body.value.rsaKeyPem, step.lookup,
        Answered(o, d.call).body);
    }
  }

  lemma ReleasedHasRelease(p: Params, e: IssuedEvidence, pem: Bytes, lookup: Lookup, body: Body)
    requires Released(p, e, pem, lookup, body)
    ensures lookup.Found? && AppOf(e.attested).Some?
  {
  }

  lemma InvKept(p: Params, s: State, step: Step)
    requires Inv(p, s) && Enabled(p, s, step)
    ensures Inv(p, Do(p, s, step))
  {
    KeepsEvidence(p, s, step);
    KeepsRuns(p, s, step);
    KeepsSessions(p, s, step);
    KeepsServed(p, s, step);
    KeepsSigned(p, s, step);
    hide EvidenceOk, RunOk, SessionOk, ServedOk, SignedOk, EarlyGatesHold, NamesClientKey, LookupOutcome,
      Answered, AttestAnswer;
  }

  ghost predicate Reachable(p: Params, s: State) {
    exists genesis, steps :: ValidChain([genesis]) && Exec(p, Init(genesis), steps) == Some(s)
  }

  /** Every run keeps the invariant. */
  lemma {:induction false} RunsKeepInv(p: Params, start: State, steps: seq<Step>)
    requires Inv(p, start) && Exec(p, start, steps).Some?
    ensures Inv(p, Exec(p, start, steps).value)
  {
    hide Inv, Enabled, Do;
    if steps != [] {
      RunsKeepInv(p, start, steps[..|steps| - 1]);
      InvKept(p, Exec(p, start, steps[..|steps| - 1]).value, steps[|steps| - 1]);
    }
  }

  lemma InvAlways(p: Params, s: State)
    requires Reachable(p, s)
    ensures Inv(p, s)
  {
    var genesis, steps :| ValidChain([genesis]) && Exec(p, Init(genesis), steps) == Some(s);
    RunsKeepInv(p, Init(genesis), steps);
  }
}
