/** The guarantees of the protocol over every run, however the network behaves. */
module ProtocolTheorems {
  import opened Prelude
  import Base64
  import opened Text
  import opened Digests
  import opened Claims
  import opened Crypto
  import opened Chain
  import opened ChainClient
  import opened Externals
  import opened PolicyChecker
  import opened EnvHandler
  import opened EnvTheorems
  import opened AttestHandler
  import opened Addresses
  import opened Protocol
  import opened ProtocolInvariant

  // ------------------------------------------------------- evidence and keys

  /** Evidence whose challenge is the digest of a text naming a client run's key was
      asked for by that run, for that purpose and with that very text. */
  lemma EvidenceBelongs(p: Params, s: State, e: Bytes, purpose: Purpose, pem: Bytes, run: nat)
    requires GoodParams(p) && Inv(p, s)
    requires e in s.issued && s.issued[e].challenge == DigestFor(purpose, pem) &&
      purpose in {EnvRequestKey, JwtRequestKey}
    requires p.parseKey(pem) == Some(TeeKey(run))
    ensures run in s.runs && s.runs[run].evidence == e && s.issued[e] == Asked(p, run, s.runs[run])
    ensures pem == p.pemOf(run) && (s.runs[run].EnvRun? <==> purpose == EnvRequestKey)
  {
    hide DigestFor, SessionOk, ServedOk, SignedOk;
    assert ForClientKey(p, pem);
    assert NamesClientKey(p, s.issued[e].challenge);
    assert EvidenceOk(p, s, e);
    var owner :| owner in s.runs && s.runs[owner].evidence == e;
    assert RunOk(p, s, owner, s.runs[owner]);
    var asked := if s.runs[owner].EnvRun? then EnvRequestKey else JwtRequestKey;
    PurposesSeparate(purpose, pem, asked, p.pemOf(owner));
    assert p.parseKey(p.pemOf(owner)) == Some(TeeKey(owner));
  }

  /** Evidence of a client run opens nothing to anyone else: whatever request carries
      it, a signed environment is sealed to the run's own key. */
  lemma StolenEvidenceServesItsOwner(p: Params, s: State, run: nat, c: Call<EnvRequestV3>, lookup: Lookup, up: Services)
    requires GoodParams(p) && Reachable(p, s) && run in s.runs && EvidenceBytes(c) == Some(s.runs[run].evidence)
    requires Answered(At(p, s.issued, lookup, up), c).Signed?
    ensures s.runs[run].EnvRun? && c.body.value.rsaKeyPem == p.pemOf(run)
    ensures var body := Answered(At(p, s.issued, lookup, up), c).body;
      body.EnvBody? && forall r :: Open(body.encryptedCombinedEnv, r).Some? ==> r == Rsa(TeeKey(run))
  {
    hide DigestFor, SessionOk, ServedOk, SignedOk, Answered, At, PolicyAccepts, CheckAuthorization,
      VerifyPlatform, SealedFor, Combined, NamesClientKey, Shape;
    InvAlways(p, s);
    AllShaped(p, s);
    AnswerReleased(p, s.issued, lookup, up, c);
    assert RunOk(p, s, run, s.runs[run]);
    PurposesSeparate(EnvRequestKey, c.body.value.rsaKeyPem, EnvRequestKey, p.pemOf(run));
    PurposesSeparate(EnvRequestKey, c.body.value.rsaKeyPem, JwtRequestKey, p.pemOf(run));
  }

  lemma AllShaped(p: Params, s: State)
    requires Inv(p, s)
    ensures forall k :: k in s.issued ==> Shape(s.issued[k].attested)
  {
    hide RunOk, SessionOk, ServedOk, SignedOk, Shape, NamesClientKey;
    forall k | k in s.issued ensures Shape(s.issued[k].attested) {
      assert EvidenceOk(p, s, k);
    }
  }

  /** Evidence bound to the environment challenge of any key never yields a token. */
  lemma EnvEvidenceYieldsNoToken(p: Params, s: State, e: Bytes, pem: Bytes, c: Call<AttestRequest>, up: Services)
    requires Reachable(p, s) && e in s.issued && s.issued[e].challenge == DigestFor(EnvRequestKey, pem)
    requires c.body.Some? && Base64.Decode(c.body.value.attestation) == Some(e)
    ensures AttestAnswer(At(p, s.issued, NotFound(NoUpgrade), up), up.jwt, c).Failed?
  {
    hide DigestFor, SessionOk, ServedOk, SignedOk, AttestAnswer, At, PolicyAccepts, TokenFor, NamesClientKey, Shape;
    InvAlways(p, s);
    AllShaped(p, s);
    if AttestAnswer(At(p, s.issued, NotFound(NoUpgrade), up), up.jwt, c).Signed? {
      AnswerVouched(p, s.issued, up, c);
      PurposesSeparate(JwtRequestKey, c.body.value.rsaKeyPem, EnvRequestKey, pem);
      assert false;
    }
  }

  /** Nor does evidence bound to the token challenge of any key open an environment. */
  lemma TokenEvidenceYieldsNoEnv(p: Params, s: State, e: Bytes, pem: Bytes, c: Call<EnvRequestV3>,
      lookup: Lookup, up: Services)
    requires Reachable(p, s) && e in s.issued && s.issued[e].challenge == DigestFor(JwtRequestKey, pem)
    requires EvidenceBytes(c) == Some(e)
    ensures Answered(At(p, s.issued, lookup, up), c).Failed?
  {
    hide DigestFor, SessionOk, ServedOk, SignedOk, Answered, At, PolicyAccepts, CheckAuthorization,
      VerifyPlatform, SealedFor, Combined, NamesClientKey, Shape, EvidenceBytes;
    InvAlways(p, s);
    AllShaped(p, s);
    if Answered(At(p, s.issued, lookup, up), c).Signed? {
      AnswerReleased(p, s.issued, lookup, up, c);
      PurposesSeparate(EnvRequestKey, c.body.value.rsaKeyPem, JwtRequestKey, pem);
      assert false;
    }
  }

  // ------------------------------------------------------- environment agreement

  /** What a client run that accepted an environment may rely on, about the session
      that answered it: the app is the run's own; the release's digest is that of the
      run's image; the chain was read no earlier than the run began; the environment is
      the merge of the key service's mnemonic, the sealed and the public part; the run's
      own TEE claims passed wherever the release's machine type calls for them. */
  ghost predicate Delivers(p: Params, s: State, run: nat, r: ClientRun, d: Session)
    requires r.EnvRun?
  {
    && d.Done? && d.body.Some? && Received(run, d.body.value) == r.result
    && r.started <= d.at <= d.seen <= |s.chain|
    && AppOf(r.attested).Some? && r.attested.container.Some? && PolicyAccepts(p, r.attested)
    && d.lookup.Found? && d.lookup.encryptedEnv.JweText?
    && var appId, m := AppOf(r.attested).value, d.lookup.encryptedEnv.message;
    && CheckAuthorization(r.attested.container.value.imageDigest, d.lookup.digest)
    && SealedFor(p, m, appId)
    && r.result == Some(Combined(p.mnemonicOf(appId), m.payload.env, d.lookup.publicEnv))
    && TeeCovered(p, r.attested, ValueAt(d.lookup.publicEnv, "EIGEN_MACHINE_TYPE_PUBLIC"))
    && ReadFrom(d.lookup, d.account, s.chain[..d.seen], p.addressOf(appId))
  }

  /** The release's machine type fits the evidence: for a type that is empty or ends in t
      or s the TEE claims are there and passed; they are missing only on Shielded VM for a
      type ending in v. */
  ghost predicate TeeCovered(p: Params, v: VerifiedAttestation, machineType: string) {
    && FitsMachine(v.platform, machineType)
    && if machineType == "" || machineType[|machineType| - 1] in {'t', 's'}
       then v.tee.Some? && TeePasses(Base(p, map[]), v.tee.value)
       else machineType[|machineType| - 1] == 'v' && v.platform == GCPShieldedVM && v.tee.None?
  }

  lemma PlatformCovers(p: Params, v: VerifiedAttestation, machineType: string)
    requires Shape(v) && PolicyAccepts(p, v) && VerifyPlatform(v.platform, machineType)
    ensures TeeCovered(p, v, machineType)
  {
    hide TpmAccepted, TeeAccepted, TeePasses;
    FitsMachineIff(v.platform, machineType);
    if v.tee.Some? {
      TeeAcceptedIff(Base(p, map[]), v.tee.value);
    }
  }

  /** The lookup was made on the chain as first read; without a subscription error it is
      the app's latest release there, provided that every log of the app in the block the
      first read named unpacks. */
  ghost predicate ReadFrom(lookup: Lookup, account: Account, seen: seq<Block>, app: Address) {
    && account.seen == seen && LookupOutcome(lookup, account, app)
    && (!account.subscriptionError && AllUnpack(NamedLogs(seen, app)) ==> lookup == LatestRelease(seen, app))
  }

  lemma ChainPrefixValid(chain: seq<Block>, n: nat)
    requires ValidChain(chain) && n <= |chain|
    ensures ValidChain(chain[..n])
  {
  }

  /** The session behind a signed environment that a run can open. */
  lemma SessionBehind(p: Params, s: State, run: nat, body: Body, i: nat)
    requires GoodParams(p) && Inv(p, s) && Received(run, body).Some?
    requires i in s.sessions && s.sessions[i].Done? && s.sessions[i].body == Some(body)
    ensures SessionOk(p, s, s.sessions[i])
    ensures var d := s.sessions[i];
      && EvidenceBytes(d.call).value in s.issued
      && run in s.runs && s.runs[run].EnvRun? && s.runs[run].evidence == EvidenceBytes(d.call).value
      && s.issued[s.runs[run].evidence] == Asked(p, run, s.runs[run])
  {
    hide DigestFor, ServedOk, SignedOk, LookupOutcome, PolicyAccepts, CheckAuthorization, VerifyPlatform,
      SealedFor, Combined, NamesClientKey, RunOk, EvidenceOk, Asked, EvidenceBytes;
    var d := s.sessions[i];
    assert SessionOk(p, s, d);
    EvidenceBelongs(p, s, EvidenceBytes(d.call).value, EnvRequestKey, d.call.body.value.rsaKeyPem, run);
  }

  /** An answered session read the release of its evidence's app. */
  lemma ReadIsFrom(p: Params, s: State, d: Session)
    requires ValidChain(s.chain) && d.Done? && d.body.Some? && SessionOk(p, s, d)
    ensures ReadFrom(d.lookup, d.account, s.chain[..d.seen],
      p.addressOf(AppOf(s.issued[EvidenceBytes(d.call).value].attested).value))
  {
    hide LookupOutcome, LatestRelease, PolicyAccepts, CheckAuthorization, VerifyPlatform, SealedFor, Combined,
      EvidenceBytes, ValidChain, NamedLogs;
    var app := p.addressOf(AppOf(s.issued[EvidenceBytes(d.call).value].attested).value);
    ChainPrefixValid(s.chain, d.seen);
    if !d.account.subscriptionError && AllUnpack(NamedLogs(s.chain[..d.seen], app)) {
      LookupRefinesSpec(d.lookup, d.account, app);
    }
  }

  lemma SessionDelivers(p: Params, s: State, run: nat, r: ClientRun, d: Session)
    requires ValidChain(s.chain) && r.EnvRun? && d.Done? && SessionOk(p, s, d)
    requires d.body.Some? && Received(run, d.body.value) == r.result && r.result.Some?
    requires r.evidence == EvidenceBytes(d.call).value && s.issued[r.evidence] == Asked(p, run, r) && Shape(r.attested)
    ensures Delivers(p, s, run, r, d)
  {
    hide DigestFor, LookupOutcome, ReadFrom, PolicyAccepts, CheckAuthorization, VerifyPlatform, SealedFor,
      Combined, EvidenceBytes, ValidChain;
    ReadIsFrom(p, s, d);
    PlatformCovers(p, r.attested, ValueAt(d.lookup.publicEnv, MACHINE_TYPE));
  }

  /** Agreement: whatever the network did, an accepted environment is the one due to the
      run's own app, from a release whose digest is that of its image. */
  lemma EnvAgreement(p: Params, s: State, run: nat)
    requires GoodParams(p) && Reachable(p, s)
    requires run in s.runs && s.runs[run].EnvRun? && s.runs[run].result.Some?
    ensures exists i :: i in s.sessions && Delivers(p, s, run, s.runs[run], s.sessions[i])
  {
    hide DigestFor, LookupOutcome, LatestRelease, PolicyAccepts, SealedFor, NamesClientKey, EvidenceOk,
      ServedOk, EvidenceBytes, SessionOk, Delivers, ValidChain;
    InvAlways(p, s);
    var r := s.runs[run];
    assert RunOk(p, s, run, r);
    var b :| b in s.signed && Received(run, b) == r.result;
    assert SignedOk(s, b);
    var i :| i in s.sessions && s.sessions[i].Done? && s.sessions[i].body == Some(b);
    SessionBehind(p, s, run, b, i);
    AllShaped(p, s);
    SessionDelivers(p, s, run, r, s.sessions[i]);
  }

  /** No answer serves two runs. */
  lemma AnswersAreNotShared(p: Params, s: State, i: nat, run1: nat, run2: nat)
    requires i in s.sessions && run1 in s.runs && run2 in s.runs && s.runs[run1].EnvRun? && s.runs[run2].EnvRun?
    requires s.runs[run1].result.Some? && s.runs[run2].result.Some?
    requires Delivers(p, s, run1, s.runs[run1], s.sessions[i]) && Delivers(p, s, run2, s.runs[run2], s.sessions[i])
    ensures run1 == run2
  {
    hide ReadFrom, PolicyAccepts, CheckAuthorization, SealedFor, Combined, AppOf;
  }

  // -------------------------------------------------------------- app isolation

  /** An environment body, the session that made it and the evidence it was made for: the
      release is the one that session read from the chain for the evidence's app. */
  ghost predicate MadeFor(p: Params, s: State, body: Body, i: nat, e: Bytes) {
    && i in s.sessions && s.sessions[i].Done? && s.sessions[i].body == Some(body)
    && e in s.issued && s.sessions[i].call.body.Some?
    && var d := s.sessions[i];
    && Released(p, s.issued[e], d.call.body.value.rsaKeyPem, d.lookup, body)
    && s.issued[e].at <= d.at <= d.seen <= |s.chain|
    && ReadFrom(d.lookup, d.account, s.chain[..d.seen], p.addressOf(AppOf(s.issued[e].attested).value))
  }

  /** App isolation: every environment ever signed was made for evidence of one app, is
      readable only with the key that evidence attests, holds a private part sealed for
      that very app, and stems from the release read on chain for that app. */
  lemma AppIsolation(p: Params, s: State, body: Body)
    requires Reachable(p, s) && body in s.signed && body.EnvBody?
    ensures exists i, e :: MadeFor(p, s, body, i, e)
  {
    hide RunOk, Released, EvidenceOk, ServedOk, LookupOutcome, EvidenceBytes, ReadFrom, ValidChain;
    InvAlways(p, s);
    assert SignedOk(s, body);
    var i :| i in s.sessions && s.sessions[i].Done? && s.sessions[i].body == Some(body);
    assert SessionOk(p, s, s.sessions[i]);
    var d, e := s.sessions[i], EvidenceBytes(s.sessions[i].call).value;
    ReadIsFrom(p, s, d);
    assert MadeFor(p, s, body, i, e);
  }

  /** One sealed environment serves one app: for app ids such as lower-case hexadecimal
      addresses, releases of the same sealed message are for ids equal up to ASCII case,
      and equal to the sealed header up to ASCII case; the message fits exactly the
      ids equal to them up to ASCII case. */
  lemma SealServesOneApp(p: Params, s: State, b1: Body, i1: nat, e1: Bytes, b2: Body, i2: nat, e2: Bytes)
    requires FoldsOutsideAscii(p.foldOther) && MadeFor(p, s, b1, i1, e1) && MadeFor(p, s, b2, i2, e2)
    requires s.sessions[i1].lookup.encryptedEnv == s.sessions[i2].lookup.encryptedEnv
    requires FoldSafe(AppOf(s.issued[e1].attested).value) && FoldSafe(AppOf(s.issued[e2].attested).value)
    ensures SameAsciiCaseless(AppOf(s.issued[e1].attested).value, AppOf(s.issued[e2].attested).value)
    ensures SameAsciiCaseless(s.sessions[i1].lookup.encryptedEnv.message.sealedHeader.text,
      AppOf(s.issued[e1].attested).value)
    ensures forall other :: FoldSafe(other) ==>
      (SealedFor(p, s.sessions[i1].lookup.encryptedEnv.message, other) <==>
        SameAsciiCaseless(other, AppOf(s.issued[e1].attested).value))
  {
    hide CheckAuthorization, VerifyPlatform, PolicyAccepts, Combined, EqualFold, FoldSafe, FoldsOutsideAscii, AppOf;
    var header := s.sessions[i1].lookup.encryptedEnv.message.sealedHeader.text;
    FoldSafeIsCaseless(p.foldOther, header, AppOf(s.issued[e1].attested).value);
    FoldSafeIsCaseless(p.foldOther, header, AppOf(s.issued[e2].attested).value);
    forall other | FoldSafe(other)
      ensures EqualFold(p.foldOther, header, other) <==> SameAsciiCaseless(header, other)
    {
      FoldSafeIsCaseless(p.foldOther, header, other);
    }
  }

  // ---------------------------------------------------------------- attestation

  /** A token a client run accepted, and the served request it answers: that request
      carried the run's own evidence and key, the token is the one due to it, and its
      audience is the run's if and only if that request named it. */
  ghost predicate SpeaksFor(p: Params, run: nat, r: ClientRun, v: Served)
    requires r.AttestRun? && r.token.Some?
  {
    && Attestable(p, r.attested) && v.call.body.Some? && ReceivedToken(run, v.body) == r.token
    && var req := v.call.body.value;
    && Base64.Decode(req.attestation) == Some(r.evidence) && req.rsaKeyPem == p.pemOf(run)
    && ExtraDataOf(req.extraData) == Some(r.extraData)
    && r.token == Some(TokenFor(AppOf(r.attested).value, r.attested, req.audience, req.extraData))
    && (AudienceOf(r.token.value) == r.audience <==> req.audience == r.audience)
  }

  /** What its claims say: the run's own app, image, instance and TEE measurements, and
      exactly the extra data the run asked to bind, absence saying none. */
  ghost predicate TellsRun(r: ClientRun)
    requires r.AttestRun? && r.token.Some? && AppOf(r.attested).Some?
  {
    var t := r.token.value;
    && TellsAttested(t, AppOf(r.attested).value, r.attested)
    && if ExtraData in t then t[ExtraData].TextClaim? && Base64.Decode(t[ExtraData].text) == Some(r.extraData)
       else r.extraData == []
  }

  lemma TokenTells(p: Params, run: nat, r: ClientRun, v: Served)
    requires r.AttestRun? && r.token.Some? && SpeaksFor(p, run, r, v)
    ensures TellsRun(r)
  {
    hide TokenFor, TellsAttested, AudienceOf, PolicyAccepts;
    var req := v.call.body.value;
    TokenClaimsIff(AppOf(r.attested).value, r.attested, req.audience, req.extraData);
  }

  /** Token agreement: whatever the network did, an accepted token is the one due to a
      served request with the run's own evidence, and its claims tell of the run. */
  lemma TokenAgreement(p: Params, s: State, run: nat)
    requires GoodParams(p) && Reachable(p, s)
    requires run in s.runs && s.runs[run].AttestRun? && s.runs[run].token.Some?
    ensures exists v :: v in s.served && SpeaksFor(p, run, s.runs[run], v)
    ensures AppOf(s.runs[run].attested).Some? && TellsRun(s.runs[run])
  {
    hide DigestFor, PolicyAccepts, NamesClientKey, EvidenceOk, SessionOk, ServedOk, ExtraDataOf, TokenFor,
      ValidChain, TellsRun, SpeaksFor;
    InvAlways(p, s);
    var r := s.runs[run];
    assert RunOk(p, s, run, r);
    var b :| b in s.signed && ReceivedToken(run, b) == r.token;
    assert SignedOk(s, b);
    var v :| v in s.served && v.body == b;
    ServedSpeaks(p, s, run, v);
    TokenTells(p, run, r, v);
    SpeaksForApp(p, run, r, v);
  }

  lemma SpeaksForApp(p: Params, run: nat, r: ClientRun, v: Served)
    requires r.AttestRun? && r.token.Some? && SpeaksFor(p, run, r, v)
    ensures AppOf(r.attested).Some?
  {
  }

  lemma ServedSpeaks(p: Params, s: State, run: nat, v: Served)
    requires GoodParams(p) && Inv(p, s) && v in s.served && run in s.runs && s.runs[run].AttestRun?
    requires s.runs[run].token.Some? && ReceivedToken(run, v.body) == s.runs[run].token
    ensures SpeaksFor(p, run, s.runs[run], v)
  {
    hide DigestFor, PolicyAccepts, NamesClientKey, EvidenceOk, RunOk, SessionOk, SignedOk, ExtraDataOf,
      TokenFor, ValidChain, AudienceOf, TellsAttested;
    assert ServedOk(p, s, v);
    var req := v.call.body.value;
    var e := Base64.Decode(req.attestation).value;
    EvidenceBelongs(p, s, e, JwtRequestKey, req.rsaKeyPem, run);
    TokenClaimsIff(AppOf(s.issued[e].attested).value, s.issued[e].attested, req.audience, req.extraData);
  }

  /** A signed token body, the request it answers and the evidence it was made for. */
  ghost predicate TokenMadeFor(p: Params, s: State, body: Body, v: Served, e: Bytes) {
    && v in s.served && v.body == body && v.call.body.Some?
    && Base64.Decode(v.call.body.value.attestation) == Some(e) && e in s.issued
    && Vouched(p, s.issued[e], v.call.body.value, body)
  }

  /** Token isolation: every token ever signed was made for issued evidence that passes
      policy, is readable only with the key that evidence attests, and says of app, extra
      data and measurements what the evidence says. */
  lemma TokenIsolation(p: Params, s: State, body: Body)
    requires Reachable(p, s) && body in s.signed && body.TokenBody?
    ensures exists v, e :: TokenMadeFor(p, s, body, v, e)
  {
    hide RunOk, Vouched, EvidenceOk, SessionOk, ValidChain;
    InvAlways(p, s);
    assert SignedOk(s, body);
    var v :| v in s.served && v.body == body;
    assert ServedOk(p, s, v);
    assert TokenMadeFor(p, s, body, v, Base64.Decode(v.call.body.value.attestation).value);
  }

  // ------------------------------------------------------------------ addresses

  lemma AcceptedHasAddresses(p: Params, s: State, run: nat)
    requires Reachable(p, s) && run in s.runs && s.runs[run].EnvRun? && s.runs[run].result.Some?
    ensures ClientAddresses(p.wallet, s.runs[run].result.value).Some?
  {
    hide ClientAddresses, NamesClientKey, EvidenceOk, SessionOk, ServedOk, SignedOk, ValidChain;
    InvAlways(p, s);
    assert RunOk(p, s, run, s.runs[run]);
  }

  /** Over every run: when the app id is lower case and neither part of the environment
      changes the mnemonic, the addresses the application derives from what it accepted
      are those the address endpoint gives for its id in any ASCII casing: as many as
      asked for, beginning with the application's or being the first of them. */
  lemma AddressAgreement(p: Params, s: State, run: nat, appId: string, query: string, count: CountParam)
    requires GoodParams(p) && Reachable(p, s)
    requires run in s.runs && s.runs[run].EnvRun? && s.runs[run].result.Some? &&
      AppOf(s.runs[run].attested) == Some(appId)
    requires ValueAt(s.runs[run].result.value, MNEMONIC) == p.mnemonicOf(appId) && Lower(query) == appId
    requires AnswerAddresses(Base(p, s.issued), p.wallet, query, count).AddressesOf?
    ensures var mine := ClientAddresses(p.wallet, s.runs[run].result.value);
      mine.Some? &&
        Agree(mine.value, AnswerAddresses(Base(p, s.issued), p.wallet, query, count).derived, Requested(count))
  {
    hide AnswerAddresses, ClientAddresses, Reachable, ReadFrom, PolicyAccepts, CheckAuthorization, EqualFold,
      Combined, ValueAt, Requested, Agree;
    EnvAgreement(p, s, run);
    AcceptedHasAddresses(p, s, run);
    var i :| i in s.sessions && Delivers(p, s, run, s.runs[run], s.sessions[i]);
    var d := s.sessions[i];
    assert Base(p, s.issued).deriveMnemonic(appId) == Some(p.mnemonicOf(appId));
    AddressesAgree(Base(p, s.issued), p.wallet, appId,
      d.lookup.encryptedEnv.message.payload.env, d.lookup.publicEnv, query, count);
  }
}
