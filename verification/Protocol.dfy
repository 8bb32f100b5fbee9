/** The attested release protocol as a transition system: any number of client runs,
    apps and server requests in flight, on a chain that keeps growing.

    The network is the worst one: a server request is any request whatever, and a
    client may be handed any body at any time, so messages can be lost,
    repeated, reordered, redirected or made up. What cannot be made up are signatures
    (only signed bodies verify), evidence (only issued evidence verifies) and the
    private keys of others. Evidence whose challenge names a client run's key is
    issued to that run alone, as GetEnv and Attest request it; other parties may hold
    evidence for any other challenge. The server is not in debug mode. */
module Protocol {
  import opened Prelude
  import opened Digests
  import opened Claims
  import opened PcrVector
  import opened Crypto
  import opened Chain
  import opened ChainClient
  import opened Externals
  import opened EnvHandler
  import opened EnvTheorems
  import opened AttestHandler
  import opened Addresses
  import opened EnvClient

  // -------------------------------------------------------------------- fixed

  /** What does not change during a run: key syntax, policy data, the key service's
      mnemonics and the wallet library. */
  datatype Params = Params(
    parseKey: Bytes -> Option<RsaKey>,
    pemOf: nat -> Bytes,
    projectId: string,
    imageAllowed: (Platform, seq<Pcr>) -> Option<bool>,
    mrtdEndorsed: Bytes -> bool,
    measurementEndorsed: Bytes -> bool,
    tcbValid: (Platform, nat) -> Option<bool>,
    addressOf: string -> Address,
    mnemonicOf: string -> string,
    wallet: Wallet,
    foldOther: char -> char)

  function TeeKey(run: nat): RsaKey {
    RsaKey(Tee(run), 4096, 65537)
  }

  /** A client's PEM text reads back as the key pair it generated. */
  ghost predicate GoodParams(p: Params) {
    forall run :: p.parseKey(p.pemOf(run)) == Some(TeeKey(run))
  }

  // -------------------------------------------------------------------- state

  /** Issued evidence: what it attests, what it is bound to, and how long the chain was
      when it was issued. */
  datatype IssuedEvidence = IssuedEvidence(attested: VerifiedAttestation, challenge: Digest, extraData: Bytes, at: nat)

  /** One call of GetEnv or Attest; its key pair is its own. */
  datatype ClientRun =
    | EnvRun(attested: VerifiedAttestation, evidence: Bytes, started: nat, result: Option<Env>)
    | AttestRun(
        attested: VerifiedAttestation, evidence: Bytes, started: nat, audience: string, extraData: Bytes,
        token: Option<Token>)

  /** One request at /env/v3 past its policy checks: let in, after the first chain
      read, and answered. Numbers are chain lengths. */
  datatype Session =
    | LetIn(call: Call<EnvRequestV3>, at: nat)
    | ReadOnce(call: Call<EnvRequestV3>, at: nat, seen: nat)
    | Done(call: Call<EnvRequestV3>, at: nat, seen: nat, account: Account, lookup: Lookup, body: Option<Body>)

  /** A token handed out at /auth/attest. */
  datatype Served = Served(call: Call<AttestRequest>, body: Body)

  datatype State = State(
    chain: seq<Block>,
    issued: map<Bytes, IssuedEvidence>,
    runs: map<nat, ClientRun>,
    sessions: map<nat, Session>,
    served: seq<Served>,
    signed: set<Body>)

  function Init(genesis: Block): State {
    State([genesis], map[], map[], map[], [], {})
  }

  // ------------------------------------------------------------------ outside

  /** Whether each foreign service answers during one request. */
  datatype Services = Services(decrypt: bool, mnemonic: bool, encrypt: bool, sign: bool, jwt: bool)

  /** The shape of what evidence verification yields. */
  ghost predicate Shape(v: VerifiedAttestation) {
    (v.tee.None? <==> v.platform == GCPShieldedVM) && v.tpm.pcrs.Keys <= PCR_INDICES
  }

  predicate Binds(issued: map<Bytes, IssuedEvidence>, e: Bytes, c: Digest, x: Bytes) {
    e in issued && issued[e].challenge == c && issued[e].extraData == x
  }

  /** Verification accepts issued evidence for its own challenge and extra data. */
  function Base(p: Params, issued: map<Bytes, IssuedEvidence>): Outside {
    Outside.Outside(
      p.parseKey,
      (e: Bytes) => if e in issued then Some(issued[e].attested.platform) else None,
      (e: Bytes, c: Digest, x: Bytes) =>
        if Binds(issued, e, c, x) then Some(issued[e].attested.tpm) else None,
      (e: Bytes) => if e in issued then Some(issued[e].attested.container) else None,
      (e: Bytes, c: Digest, x: Bytes) =>
        if Binds(issued, e, c, x) then issued[e].attested.tee else None,
      p.projectId, false, p.imageAllowed, p.mrtdEndorsed, p.measurementEndorsed, p.tcbValid, true,
      (a: string) => NotFound(NoUpgrade), (m: Jwe<EnvText>) => true, (a: string) => Some(p.mnemonicOf(a)),
      true, (b: Body) => true, p.foldOther)
  }

  /** The outside as one request meets it. */
  function At(p: Params, issued: map<Bytes, IssuedEvidence>, lookup: Lookup, up: Services): Outside {
    Base(p, issued).(
      latestRelease := (a: string) => lookup,
      decryptUp := (m: Jwe<EnvText>) => up.decrypt,
      deriveMnemonic := (a: string) => if up.mnemonic then Some(p.mnemonicOf(a)) else None,
      encryptUp := up.encrypt,
      signUp := (b: Body) => up.sign)
  }

  /** The gates before the chain is read. */
  ghost predicate EarlyGatesHold(o: Outside, c: Call<EnvRequestV3>) {
    forall g :: Rank(g) < Rank(ReleaseRead) ==> Holds(o, c, g)
  }

  // -------------------------------------------------------------------- steps

  datatype Step =
    /** someone appends a block */
    | Mine(block: Block)
    /** GetEnv up to sending its request: key pair, digest, evidence */
    | StartEnv(run: nat, attested: VerifiedAttestation, evidence: Bytes)
    /** Attest up to sending its request */
    | StartAttest(run: nat, attested: VerifiedAttestation, evidence: Bytes, audience: string, extraData: Bytes)
    /** evidence of other software, or for keys of its own */
    | OtherEvidence(evidence: Bytes, attested: VerifiedAttestation, challenge: Digest, extraData: Bytes)
    /** /env/v3 passes a request's early gates */
    | Admit(session: nat, call: Call<EnvRequestV3>)
    /** the block-number read of GetLatestRelease */
    | FirstRead(session: nat)
    /** the log read and everything after it */
    | Finish(session: nat, account: Account, lookup: Lookup, up: Services)
    /** a whole request at /auth/attest */
    | ServeAttest(request: Call<AttestRequest>, up: Services)
    /** a whole request at /addresses */
    | ServeAddresses(body: Body)
    /** GetEnv is handed a response */
    | AcceptEnv(run: nat, body: Body)
    /** Attest is handed a response */
    | AcceptToken(run: nat, body: Body)

  /** The challenge names a key pair of a client run. */
  ghost predicate NamesClientKey(p: Params, challenge: Digest) {
    exists pem :: ForClientKey(p, pem) &&
      (challenge == DigestFor(EnvRequestKey, pem) || challenge == DigestFor(JwtRequestKey, pem))
  }

  ghost predicate ForClientKey(p: Params, pem: Bytes) {
    p.parseKey(pem).Some? && p.parseKey(pem).value.owner.Tee?
  }

  ghost predicate Enabled(p: Params, s: State, step: Step) {
    match step
    case Mine(block) =>
      ValidChain(s.chain + [block])
    case StartEnv(run, attested, evidence) =>
      run !in s.runs && evidence !in s.issued && Shape(attested)
    case StartAttest(run, attested, evidence, _, _) =>
      run !in s.runs && evidence !in s.issued && Shape(attested)
    case OtherEvidence(evidence, attested, challenge, extraData) =>
      evidence !in s.issued && Shape(attested) && !NamesClientKey(p, challenge)
    case Admit(session, call) =>
      session !in s.sessions && EarlyGatesHold(Base(p, s.issued), call)
    case FirstRead(session) =>
      session in s.sessions && s.sessions[session].LetIn?
    case Finish(session, account, lookup, up) =>
      && session in s.sessions && s.sessions[session].ReadOnce?
      && var d := s.sessions[session];
         var appId := AppId(Base(p, s.issued), d.call);
      && d.seen <= |s.chain| && appId.Some?
      && (|| lookup == NotFound(BlockNumberRead) || lookup == NotFound(FilterRead)
          || (account.seen == s.chain[..d.seen] && LookupOutcome(lookup, account, p.addressOf(appId.value))))
    case ServeAttest(call, up) =>
      AttestAnswer(At(p, s.issued, NotFound(NoUpgrade), up), up.jwt, call).Signed?
    case ServeAddresses(body) =>
      body.AddressBody?
    case AcceptEnv(run, body) =>
      && run in s.runs && s.runs[run].EnvRun? && s.runs[run].result.None?
      && AcceptedEnv(TeeKey(run), p.wallet, Some(Arrival(s, body))).Some?
    case AcceptToken(run, body) =>
      && run in s.runs && s.runs[run].AttestRun? && s.runs[run].token.None?
      && AcceptedToken(TeeKey(run), Some(Arrival(s, body))).Some?
  }

  /** A response with this body, as its reader sees it: the signature verifies exactly on
      bodies the server signed. */
  function Arrival(s: State, body: Body): SignedResponse {
    SignedResponse(body, body in s.signed)
  }

  function Received(run: nat, body: Body): Option<Env> {
    OpenEnv(TeeKey(run), body)
  }

  function ReceivedToken(run: nat, body: Body): Option<Token> {
    OpenToken(TeeKey(run), body)
  }

  function BodyOf(r: Response): Option<Body> {
    if r.Signed? then Some(r.body) else None
  }

  function SetOf(b: Option<Body>): set<Body> {
    if b.Some? then {b.value} else {}
  }

  function Do(p: Params, s: State, step: Step): State {
    match step
    case Mine(block) => s.(chain := s.chain + [block])
    case StartEnv(run, attested, evidence) =>
      var issued := IssuedEvidence(attested, DigestFor(EnvRequestKey, p.pemOf(run)), [], |s.chain|);
      s.(issued := s.issued[evidence := issued],
         runs := s.runs[run := EnvRun(attested, evidence, |s.chain|, None)])
    case StartAttest(run, attested, evidence, audience, extraData) =>
      var issued := IssuedEvidence(attested, DigestFor(JwtRequestKey, p.pemOf(run)), extraData, |s.chain|);
      s.(issued := s.issued[evidence := issued],
         runs := s.runs[run := AttestRun(attested, evidence, |s.chain|, audience, extraData, None)])
    case OtherEvidence(evidence, attested, challenge, extraData) =>
      s.(issued := s.issued[evidence := IssuedEvidence(attested, challenge, extraData, |s.chain|)])
    case Admit(session, call) => s.(sessions := s.sessions[session := LetIn(call, |s.chain|)])
    case FirstRead(session) =>
      if session in s.sessions
      then s.(sessions := s.sessions[session := ReadOnce(s.sessions[session].call, s.sessions[session].at, |s.chain|)])
      else s
    case Finish(session, account, lookup, up) =>
      if session in s.sessions && s.sessions[session].ReadOnce? then
        var d := s.sessions[session];
        var body := BodyOf(Answered(At(p, s.issued, lookup, up), d.call));
        s.(sessions := s.sessions[session := Done(d.call, d.at, d.seen, account, lookup, body)],
           signed := s.signed + SetOf(body))
      else s
    case ServeAttest(call, up) =>
      var r := AttestAnswer(At(p, s.issued, NotFound(NoUpgrade), up), up.jwt, call);
      if r.Signed? then s.(served := s.served + [Served(call, r.body)], signed := s.signed + {r.body}) else s
    case ServeAddresses(body) => s.(signed := s.signed + {body})
    case AcceptEnv(run, body) =>
      if run in s.runs && s.runs[run].EnvRun?
      then s.(runs := s.runs[run := s.runs[run].(result := Received(run, body))]) else s
    case AcceptToken(run, body) =>
      if run in s.runs && s.runs[run].AttestRun?
      then s.(runs := s.runs[run := s.runs[run].(token := ReceivedToken(run, body))]) else s
  }

  /** The state a run of steps leads to, if each was enabled. */
  ghost function Exec(p: Params, s: State, steps: seq<Step>): Option<State> {
    if steps == [] then Some(s)
    else
      var before := Exec(p, s, steps[..|steps| - 1]);
      var step := steps[|steps| - 1];
      if before.Some? && Enabled(p, before.value, step) then Some(Do(p, before.value, step)) else None
  }
}
