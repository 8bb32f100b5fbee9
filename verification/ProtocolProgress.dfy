/** The protocol can do what it is for: from every reachable state, a run whose
    evidence deserves the release found still gets its environment. */
module ProtocolProgress {
  import opened Prelude
  import Base64
  import opened Text
  import opened Digests
  import opened Claims
  import opened InstanceName
  import opened Crypto
  import opened Chain
  import opened ChainClient
  import opened Externals
  import opened PolicyChecker
  import opened EnvHandler
  import opened EnvTheorems
  import opened AttestHandler
  import opened Addresses
  import opened EnvClient
  import opened Protocol
  import opened ProtocolInvariant
  import opened ProtocolTheorems

  const ALL_UP: Services := Services(true, true, true, true, true)

  /** What evidence and a lookup must be like for a release. */
  ghost predicate Deserves(p: Params, v: VerifiedAttestation, lookup: Lookup) {
    && AppOf(v).Some? && v.container.Some? && PolicyAccepts(p, v)
    && lookup.Found? && lookup.encryptedEnv.JweText?
    && CheckAuthorization(v.container.value.imageDigest, lookup.digest)
    && VerifyPlatform(v.platform, ValueAt(lookup.publicEnv, MACHINE_TYPE))
    && SealedFor(p, lookup.encryptedEnv.message, AppOf(v).value)
  }

  /** The request GetEnv sends. */
  function Request(p: Params, run: nat, evidence: Bytes): Call<EnvRequestV3> {
    Call(Some(EnvRequestFor(p.pemOf(run), evidence)), "")
  }

  /** The request carries the run's evidence to the server. */
  lemma RequestAttests(p: Params, issued: map<Bytes, IssuedEvidence>, lookup: Lookup, up: Services,
      run: nat, evidence: Bytes, v: VerifiedAttestation)
    requires forall k :: k in issued ==> Shape(issued[k].attested)
    requires evidence in issued && issued[evidence].attested == v
    requires issued[evidence].challenge == DigestFor(EnvRequestKey, p.pemOf(run)) && issued[evidence].extraData == []
    ensures var c := Request(p, run, evidence);
      && EvidenceBytes(c) == Some(evidence)
      && Attested(Base(p, issued), c) == Some(v) && Attested(At(p, issued, lookup, up), c) == Some(v)
      && AppId(Base(p, issued), c) == AppOf(v) && AppId(At(p, issued, lookup, up), c) == AppOf(v)
  {
    hide DigestFor, Verify, Shape;
    Base64.RoundTrip(evidence);
    VerifyIssued(p, issued, lookup, up, evidence, DigestFor(EnvRequestKey, p.pemOf(run)), []);
  }

  /** The gates before the chain is read. */
  lemma EarlyGates(p: Params, o: Outside, run: nat, evidence: Bytes, v: VerifiedAttestation)
    requires GoodParams(p) && o.parseKey == p.parseKey && !o.debugMode
    requires Attested(o, Request(p, run, evidence)) == Some(v) && AppOf(v).Some? && v.container.Some?
    requires EvidenceBytes(Request(p, run, evidence)).Some?
    requires TpmAccepted(o, v.tpm) && (v.tee.Some? ==> TeeAccepted(o, v.tee.value))
    ensures EarlyGatesHold(o, Request(p, run, evidence))
  {
    hide TpmAccepted, TeeAccepted, ExtractAppId, EvidenceBytes, Attested, ChainHolds;
    var c := Request(p, run, evidence);
    assert o.parseKey(c.body.value.rsaKeyPem) == Some(TeeKey(run));
    assert c.appIdQuery == "" && Lower(c.appIdQuery) == "";
    forall g | Rank(g) < Rank(ReleaseRead) ensures Holds(o, c, g) {
    }
  }

  lemma LateGates(p: Params, issued: map<Bytes, IssuedEvidence>, lookup: Lookup, c: Call<EnvRequestV3>,
      v: VerifiedAttestation, g: Gate)
    requires var o := At(p, issued, lookup, ALL_UP); Attested(o, c) == Some(v) && AppId(o, c) == AppOf(v)
    requires Deserves(p, v, lookup) && Rank(g) >= Rank(ReleaseRead)
    requires c.body.Some? && p.parseKey(c.body.value.rsaKeyPem).Some?
    ensures Holds(At(p, issued, lookup, ALL_UP), c, g)
  {
    hide CheckAuthorization, VerifyPlatform, PolicyAccepts, ValueAt, EqualFold, Attested, AppId, Combined, AppOf;
  }

  /** With every service up, a run's own request is answered with an environment exactly
      when its evidence deserves the release. */
  lemma ServedIffDeserved(p: Params, issued: map<Bytes, IssuedEvidence>, lookup: Lookup,
      run: nat, evidence: Bytes, v: VerifiedAttestation)
    requires GoodParams(p) && forall k :: k in issued ==> Shape(issued[k].attested)
    requires evidence in issued && issued[evidence].attested == v
    requires issued[evidence].challenge == DigestFor(EnvRequestKey, p.pemOf(run)) && issued[evidence].extraData == []
    ensures Answered(At(p, issued, lookup, ALL_UP), Request(p, run, evidence)).Signed? <==> Deserves(p, v, lookup)
  {
    hide Answered, At, Base, PolicyAccepts, CheckAuthorization, VerifyPlatform, SealedFor, Attested, AppId,
      EvidenceBytes, Combined, Holds, AppOf, EarlyGatesHold, DigestFor, Shape, TpmAccepted, TeeAccepted, Rank;
    var o, c := At(p, issued, lookup, ALL_UP), Request(p, run, evidence);
    RequestAttests(p, issued, lookup, ALL_UP, run, evidence, v);
    if Answered(o, c).Signed? {
      AnswerReleased(p, issued, lookup, ALL_UP, c);
    }
    if Deserves(p, v, lookup) {
      OutsideOf(p, issued, lookup, ALL_UP);
      PolicyIsFixed(p, issued, lookup, ALL_UP, v);
      EarlyGates(p, o, run, evidence, v);
      assert p.parseKey(p.pemOf(run)) == Some(TeeKey(run));
      forall g ensures Holds(o, c, g) {
        if Rank(g) < Rank(ReleaseRead) {
          EarlyGateHolds(o, c, g);
        } else {
          LateGates(p, issued, lookup, c, v, g);
        }
      }
      ReleasedIffAllGatesHold(o, c);
    }
  }

  lemma EarlyGateHolds(o: Outside, c: Call<EnvRequestV3>, g: Gate)
    requires EarlyGatesHold(o, c) && Rank(g) < Rank(ReleaseRead)
    ensures Holds(o, c, g)
  {
    hide Holds, Rank;
  }

  // ------------------------------------------------------------------ progress

  lemma ExecSnoc(p: Params, s: State, steps: seq<Step>, t: State, step: Step)
    requires Exec(p, s, steps) == Some(t) && Enabled(p, t, step)
    ensures Exec(p, s, steps + [step]) == Some(Do(p, t, step))
  {
    hide Enabled, Do;
    assert (steps + [step])[..|steps|] == steps;
  }

  /** What the lookup answers when the logs come in index order and the subscription ends
      without an error. */
  function OrderlyLookup(chain: seq<Block>, app: Address): Lookup {
    AnswerFrom(Unpacking(NamedLogs(chain, app)))
  }

  function OrderlyAccount(chain: seq<Block>, app: Address): Account {
    Account(chain, NamedLogs(chain, app), Unpacking(NamedLogs(chain, app)), false)
  }

  /** It is an outcome of the lookup, and the latest release if the block's logs unpack. */
  lemma OrderlyOutcome(chain: seq<Block>, app: Address)
    requires ValidChain(chain)
    ensures LookupOutcome(OrderlyLookup(chain, app), OrderlyAccount(chain, app), app)
    ensures AllUnpack(NamedLogs(chain, app)) ==> OrderlyLookup(chain, app) == LatestRelease(chain, app)
  {
    hide ValidChain, NamedLogs, Unpacking, LatestRelease, AnswerFrom;
    if AllUnpack(NamedLogs(chain, app)) {
      LookupRefinesSpec(OrderlyLookup(chain, app), OrderlyAccount(chain, app), app);
    }
  }

  /** The steps from a run's request to its environment. */
  function Round(p: Params, s: State, run: nat, session: nat, app: Address, env: Env): seq<Step>
    requires run in s.runs
  {
    [Admit(session, Request(p, run, s.runs[run].evidence))] + [FirstRead(session)]
    + [Finish(session, OrderlyAccount(s.chain, app), OrderlyLookup(s.chain, app), ALL_UP)]
    + [AcceptEnv(run, SealedTo(run, env))]
  }

  function WithSession(s: State, session: nat, d: Session): State {
    s.(sessions := s.sessions[session := d])
  }

  /** Letting a deserving run's request in, and the first chain read. */
  lemma FirstHalf(p: Params, s: State, session: nat, c: Call<EnvRequestV3>)
    requires session !in s.sessions && EarlyGatesHold(Base(p, s.issued), c)
    ensures Exec(p, s, [Admit(session, c)] + [FirstRead(session)])
         == Some(WithSession(s, session, ReadOnce(c, |s.chain|, |s.chain|)))
  {
    hide EarlyGatesHold, LookupOutcome, NamesClientKey, Exec;
    var s1 := WithSession(s, session, LetIn(c, |s.chain|));
    NoSteps(p, s);
    ExecSnoc(p, s, [], s, Admit(session, c));
    assert [] + [Admit(session, c)] == [Admit(session, c)];
    ExecSnoc(p, s, [Admit(session, c)], s1, FirstRead(session));
    assert s1.sessions[session := ReadOnce(c, |s.chain|, |s.chain|)] ==
      s.sessions[session := ReadOnce(c, |s.chain|, |s.chain|)];
  }

  lemma NoSteps(p: Params, s: State)
    ensures Exec(p, s, []) == Some(s)
  {
  }

  /** The environment due to evidence under a release it deserves. */
  function DueTo(p: Params, v: VerifiedAttestation, lookup: Lookup): Env
    requires AppOf(v).Some? && lookup.Found? && lookup.encryptedEnv.JweText? &&
      lookup.encryptedEnv.message.payload.EnvJson?
  {
    Combined(p.mnemonicOf(AppOf(v).value), lookup.encryptedEnv.message.payload.env, lookup.publicEnv)
  }

  function SealedTo(run: nat, env: Env): Body {
    EnvBody(Seal(Rsa(TeeKey(run)), Missing, EnvJson(env)))
  }

  lemma DeservedIsReadable(p: Params, v: VerifiedAttestation, lookup: Lookup)
    requires Deserves(p, v, lookup)
    ensures AppOf(v).Some? && lookup.Found? && lookup.encryptedEnv.JweText? &&
      lookup.encryptedEnv.message.payload.EnvJson?
  {
  }

  /** A deserving request is answered with the due environment, sealed to the run. */
  lemma DeservedAnswer(p: Params, issued: map<Bytes, IssuedEvidence>, lookup: Lookup, run: nat, evidence: Bytes)
    requires GoodParams(p) && forall k :: k in issued ==> Shape(issued[k].attested)
    requires evidence in issued && Deserves(p, issued[evidence].attested, lookup)
    requires issued[evidence].challenge == DigestFor(EnvRequestKey, p.pemOf(run)) && issued[evidence].extraData == []
    ensures lookup.Found? && lookup.encryptedEnv.JweText? && lookup.encryptedEnv.message.payload.EnvJson?
    ensures AppOf(issued[evidence].attested).Some?
    ensures Answered(At(p, issued, lookup, ALL_UP), Request(p, run, evidence))
         == Signed(SealedTo(run, DueTo(p, issued[evidence].attested, lookup)))
    ensures EarlyGatesHold(Base(p, issued), Request(p, run, evidence))
    ensures AppId(Base(p, issued), Request(p, run, evidence)) == AppOf(issued[evidence].attested)
  {
    hide Answered, At, Base, PolicyAccepts, CheckAuthorization, VerifyPlatform, SealedFor, Attested, AppId,
      EvidenceBytes, Combined, AppOf, EarlyGatesHold, DigestFor, Shape, TpmAccepted, TeeAccepted, Deserves,
      ExtractAppId;
    var v, c := issued[evidence].attested, Request(p, run, evidence);
    DeservedIsReadable(p, v, lookup);
    ServedIffDeserved(p, issued, lookup, run, evidence, v);
    RequestAttests(p, issued, lookup, ALL_UP, run, evidence, v);
    BodyIs(p, issued, lookup, ALL_UP, c, AppOf(v).value);
    assert p.parseKey(p.pemOf(run)) == Some(TeeKey(run));
    DeservedEarly(p, issued, lookup, run, evidence, v);
  }

  lemma DeservedEarly(p: Params, issued: map<Bytes, IssuedEvidence>, lookup: Lookup, run: nat, evidence: Bytes,
      v: VerifiedAttestation)
    requires GoodParams(p) && Deserves(p, v, lookup)
    requires Attested(Base(p, issued), Request(p, run, evidence)) == Some(v) &&
      EvidenceBytes(Request(p, run, evidence)).Some?
    ensures EarlyGatesHold(Base(p, issued), Request(p, run, evidence))
  {
    hide Attested, AppId, EvidenceBytes, EarlyGatesHold, CheckAuthorization, VerifyPlatform, SealedFor, AppOf,
      GoodParams;
    EarlyGates(p, Base(p, issued), run, evidence, v);
  }

  /** From every reachable state, whatever was lost or forged before: a run still waiting
      gets its environment in four steps if its evidence deserves the release the lookup
      finds in index order, and it is the environment due under that release; where the
      block's logs unpack, that is the latest release of its app. */
  lemma WaitingRunCanFinish(p: Params, s: State, run: nat, session: nat)
    requires GoodParams(p) && Reachable(p, s) && session !in s.sessions
    requires run in s.runs && s.runs[run].EnvRun? && s.runs[run].result.None? && AppOf(s.runs[run].attested).Some?
    requires var lookup := OrderlyLookup(s.chain, p.addressOf(AppOf(s.runs[run].attested).value));
      && Deserves(p, s.runs[run].attested, lookup)
      && ClientAddresses(p.wallet, DueTo(p, s.runs[run].attested, lookup)).Some?
    ensures var app := p.addressOf(AppOf(s.runs[run].attested).value);
      var env := DueTo(p, s.runs[run].attested, OrderlyLookup(s.chain, app));
      var end := Exec(p, s, Round(p, s, run, session, app, env));
      end.Some? && run in end.value.runs && end.value.runs[run] == s.runs[run].(result := Some(env))
  {
    hide OrderlyLookup, LatestRelease, Deserves, DueTo, LookupOutcome, NamesClientKey, EarlyGatesHold, Answered,
      At, Base, Request, ClientAddresses, AppId, AppOf, Exec, EvidenceBytes, Shape, DigestFor, SessionOk,
      ServedOk, SignedOk, ValidChain, EvidenceOk, Enabled, Do, GoodParams, Received;
    InvAlways(p, s);
    AllShaped(p, s);
    var r := s.runs[run];
    assert RunOk(p, s, run, r);
    var app := p.addressOf(AppOf(r.attested).value);
    var lookup := OrderlyLookup(s.chain, app);
    DeservedIsReadable(p, r.attested, lookup);
    var env, c, n := DueTo(p, r.attested, lookup), Request(p, run, r.evidence), |s.chain|;
    DeservedAnswer(p, s.issued, lookup, run, r.evidence);
    OrderlyOutcome(s.chain, app);
    FirstHalf(p, s, session, c);
    var s2 := WithSession(s, session, ReadOnce(c, n, n));
    var finish := Finish(session, OrderlyAccount(s.chain, app), lookup, ALL_UP);
    var accept := AcceptEnv(run, SealedTo(run, env));
    FinishSigns(p, s2, session, c, app, SealedTo(run, env), finish);
    ExecSnoc(p, s, [Admit(session, c)] + [FirstRead(session)], s2, finish);
    var s3 := Do(p, s2, finish);
    AcceptTakes(p, s3, run, env);
    ExecSnoc(p, s, [Admit(session, c)] + [FirstRead(session)] + [finish], s3, accept);
  }

  lemma FinishSigns(p: Params, s: State, session: nat, c: Call<EnvRequestV3>, app: Address, body: Body, step: Step)
    requires session in s.sessions && s.sessions[session] == ReadOnce(c, |s.chain|, |s.chain|)
    requires step.Finish? && step.session == session && step.account.seen == s.chain
    requires AppId(Base(p, s.issued), c).Some? && p.addressOf(AppId(Base(p, s.issued), c).value) == app
    requires LookupOutcome(step.lookup, step.account, app)
    requires Answered(At(p, s.issued, step.lookup, step.up), c) == Signed(body)
    ensures Enabled(p, s, step)
    ensures body in Do(p, s, step).signed && Do(p, s, step).runs == s.runs
  {
    hide LookupOutcome, Answered, At, Base, AppId;
    assert s.chain[..|s.chain|] == s.chain;
  }

  lemma AcceptTakes(p: Params, s: State, run: nat, env: Env)
    requires run in s.runs && s.runs[run].EnvRun? && s.runs[run].result.None? && SealedTo(run, env) in s.signed
    requires ClientAddresses(p.wallet, env).Some?
    ensures var step := AcceptEnv(run, SealedTo(run, env));
      && Enabled(p, s, step) && run in Do(p, s, step).runs
      && Do(p, s, step).runs[run] == s.runs[run].(result := Some(env))
  {
    hide ClientAddresses;
  }

  lemma {:induction false} ExecConcat(p: Params, s: State, steps: seq<Step>, t: State, more: seq<Step>)
    requires Exec(p, s, steps) == Some(t)
    ensures Exec(p, s, steps + more) == Exec(p, t, more)
    decreases |more|
  {
    hide Enabled, Do;
    if more == [] {
      assert steps + more == steps;
    } else {
      var init := more[..|more| - 1];
      ExecConcat(p, s, steps, t, init);
      assert (steps + more)[..|steps + more| - 1] == steps + init;
    }
  }

  lemma StaysReachable(p: Params, s: State, steps: seq<Step>, t: State)
    requires Reachable(p, s) && Exec(p, s, steps) == Some(t)
    ensures Reachable(p, t)
  {
    hide Exec;
    var genesis, before :| ValidChain([genesis]) && Exec(p, Init(genesis), before) == Some(s);
    ExecConcat(p, Init(genesis), before, s, steps);
  }

  /** A new run that deserves the release found reaches its environment: the agreement
      theorems are about runs that exist. */
  lemma NewRunCanFinish(p: Params, s: State, run: nat, session: nat, attested: VerifiedAttestation, evidence: Bytes)
    requires GoodParams(p) && Reachable(p, s) && session !in s.sessions
    requires run !in s.runs && evidence !in s.issued && Shape(attested) && AppOf(attested).Some?
    requires var lookup := OrderlyLookup(s.chain, p.addressOf(AppOf(attested).value));
      Deserves(p, attested, lookup) && ClientAddresses(p.wallet, DueTo(p, attested, lookup)).Some?
    ensures var env := DueTo(p, attested, OrderlyLookup(s.chain, p.addressOf(AppOf(attested).value)));
      exists t :: Reachable(p, t) && run in t.runs && t.runs[run] == EnvRun(attested, evidence, |s.chain|, Some(env))
  {
    hide OrderlyLookup, OrderlyAccount, LatestRelease, Deserves, DueTo, Exec, Reachable, ClientAddresses, AppOf,
      DigestFor, Shape, EarlyGatesHold, Round, GoodParams;
    var app := p.addressOf(AppOf(attested).value);
    DeservedIsReadable(p, attested, OrderlyLookup(s.chain, app));
    var env := DueTo(p, attested, OrderlyLookup(s.chain, app));
    var start := StartEnv(run, attested, evidence);
    var s1 := Do(p, s, start);
    NoSteps(p, s);
    ExecSnoc(p, s, [], s, start);
    StaysReachable(p, s, [] + [start], s1);
    WaitingRunCanFinish(p, s1, run, session);
    var t := Exec(p, s1, Round(p, s1, run, session, app, env)).value;
    StaysReachable(p, s1, Round(p, s1, run, session, app, env), t);
  }

  // --------------------------------------------------------------- attestation

  /** The request Attest sends, if it names this audience. */
  function TokenRequest(p: Params, run: nat, r: ClientRun, audience: string): Call<AttestRequest>
    requires r.AttestRun?
  {
    Call(Some(AttestRequestFor(p.pemOf(run), r.evidence, audience, [r.extraData])), "")
  }

  function TokenDue(run: nat, r: ClientRun, audience: string): Token
    requires r.AttestRun? && AppOf(r.attested).Some?
  {
    TokenFor(AppOf(r.attested).value, r.attested, audience, ExtraField([r.extraData]))
  }

  /** Its inputs are the run's evidence and extra data. */
  lemma TokenInputs(p: Params, run: nat, r: ClientRun, audience: string, o: Outside)
    requires GoodParams(p) && o.parseKey == p.parseKey && r.AttestRun? && |r.extraData| <= EXTRA_DATA_LIMIT
    ensures InputsOf(o, TokenRequest(p, run, r, audience).body.value) == Some(Inputs(r.evidence, r.extraData))
  {
    hide Base64.Encode, Base64.Decode;
    Base64.RoundTrip(r.evidence);
    Base64.RoundTrip(r.extraData);
    Base64.EncodeEmptyIff(r.extraData);
    assert o.parseKey(p.pemOf(run)) == Some(TeeKey(run));
  }

  /** With every service up, a request with a run's own key and evidence is answered with a
      token exactly when the evidence is attestable, whatever audience it names. */
  lemma TokenServedIff(p: Params, issued: map<Bytes, IssuedEvidence>, run: nat, r: ClientRun, audience: string)
    requires GoodParams(p) && r.AttestRun? && |r.extraData| <= EXTRA_DATA_LIMIT
    requires forall k :: k in issued ==> Shape(issued[k].attested)
    requires r.evidence in issued && issued[r.evidence] == Asked(p, run, r)
    ensures var answer := AttestAnswer(At(p, issued, NotFound(NoUpgrade), ALL_UP), true, TokenRequest(p, run, r,
      audience));
      && (answer.Signed? <==> Attestable(p, r.attested))
      && (answer.Signed? ==> answer == Signed(TokenBody(Seal(Rsa(TeeKey(run)), Missing, TokenDue(run, r, audience)))))
  {
    hide DigestFor, Verify, Shape, TpmAccepted, TeeAccepted, TokenFor, Base64.Encode, InputsOf, ExtractAppId;
    var o := At(p, issued, NotFound(NoUpgrade), ALL_UP);
    TokenInputs(p, run, r, audience, o);
    VerifyIssued(p, issued, NotFound(NoUpgrade), ALL_UP, r.evidence, DigestFor(JwtRequestKey, p.pemOf(run)),
      r.extraData);
    PolicyIsFixed(p, issued, NotFound(NoUpgrade), ALL_UP, r.attested);
    assert p.parseKey(p.pemOf(run)) == Some(TeeKey(run));
  }

  /** From every reachable state a waiting Attest run whose evidence is attestable gets the
      token due to a served request, in two steps. Naming the run's own audience that
      request is the run's own; but any audience it names goes into the token. */
  lemma WaitingAttestCanFinish(p: Params, s: State, run: nat, audience: string)
    requires GoodParams(p) && Reachable(p, s)
    requires run in s.runs && s.runs[run].AttestRun? && s.runs[run].token.None?
    requires Attestable(p, s.runs[run].attested) && |s.runs[run].extraData| <= EXTRA_DATA_LIMIT
    ensures var r := s.runs[run];
      var body := TokenBody(Seal(Rsa(TeeKey(run)), Missing, TokenDue(run, r, audience)));
      var end := Exec(p, s, [ServeAttest(TokenRequest(p, run, r, audience), ALL_UP)] + [AcceptToken(run, body)]);
      && end.Some? && run in end.value.runs && end.value.runs[run] == r.(token := Some(TokenDue(run, r, audience)))
      && AudienceOf(TokenDue(run, r, audience)) == audience
  {
    hide Attestable, TokenFor, Shape, DigestFor, SessionOk, ServedOk, SignedOk, EvidenceOk, ValidChain,
      GoodParams, AttestAnswer, At, Exec, TokenRequest, AudienceOf, NamesClientKey, EarlyGatesHold;
    InvAlways(p, s);
    AllShaped(p, s);
    var r := s.runs[run];
    assert RunOk(p, s, run, r);
    AttestableApp(p, r.attested);
    TokenServedIff(p, s.issued, run, r, audience);
    TokenClaimsIff(AppOf(r.attested).value, r.attested, audience, ExtraField([r.extraData]));
    var body := TokenBody(Seal(Rsa(TeeKey(run)), Missing, TokenDue(run, r, audience)));
    var serve := ServeAttest(TokenRequest(p, run, r, audience), ALL_UP);
    var s1 := Do(p, s, serve);
    NoSteps(p, s);
    ExecSnoc(p, s, [], s, serve);
    assert [] + [serve] == [serve];
    ExecSnoc(p, s, [serve], s1, AcceptToken(run, body));
  }

  lemma AttestableApp(p: Params, v: VerifiedAttestation)
    requires Attestable(p, v)
    ensures AppOf(v).Some?
  {
  }

  /** The audience is the served request's, not the run's: the run can come to hold a token
      for any audience at all. */
  lemma AudienceFollowsRequest(p: Params, s: State, run: nat, audience: string)
    requires GoodParams(p) && Reachable(p, s)
    requires run in s.runs && s.runs[run].AttestRun? && s.runs[run].token.None?
    requires Attestable(p, s.runs[run].attested) && |s.runs[run].extraData| <= EXTRA_DATA_LIMIT
    ensures exists t, token ::
      Reachable(p, t) && run in t.runs && t.runs[run] == s.runs[run].(token := Some(token)) &&
        AudienceOf(token) == audience
  {
    hide Attestable, TokenDue, Exec, Reachable, AudienceOf, GoodParams, TokenRequest;
    WaitingAttestCanFinish(p, s, run, audience);
    var r := s.runs[run];
    AttestableApp(p, r.attested);
    var body := TokenBody(Seal(Rsa(TeeKey(run)), Missing, TokenDue(run, r, audience)));
    var steps := [ServeAttest(TokenRequest(p, run, r, audience), ALL_UP)] + [AcceptToken(run, body)];
    var t := Exec(p, s, steps).value;
    StaysReachable(p, s, steps, t);
    assert t.runs[run] == r.(token := Some(TokenDue(run, r, audience)));
  }
}
