/** Releasing an environment to an attested instance (internal/handlers/env.go). */
module EnvHandler {
  import opened Prelude
  import opened Text
  import Hex
  import Base64
  import opened Digests
  import opened Claims
  import opened PcrVector
  import opened InstanceName
  import opened Crypto
  import opened Externals
  import opened PolicyChecker

  const MNEMONIC: string := "MNEMONIC"
  const MACHINE_TYPE: string := "EIGEN_MACHINE_TYPE_PUBLIC"

  /** Reading a Go map: a missing key reads as the empty text. */
  function ValueAt(env: Env, key: string): string {
    if key in env then env[key] else ""
  }

  // -------------------------------------------------------------------- merge

  /** The combined environment, key by key: public beats private beats mnemonic. */
  function Combined(mnemonic: string, privateEnv: Env, publicEnv: Env): Env {
    map k | k in {MNEMONIC} + privateEnv.Keys + publicEnv.Keys ::
      if k in publicEnv then publicEnv[k] else if k in privateEnv then privateEnv[k] else mnemonic
  }

  lemma CombinedBase(mnemonic: string)
    ensures Combined(mnemonic, map[], map[]) == map[MNEMONIC := mnemonic]
  {
  }

  lemma CombinedTakesPrivate(mnemonic: string, privateEnv: Env, todo: set<string>, k: string)
    requires k in todo && k in privateEnv
    ensures Combined(mnemonic, privateEnv - (todo - {k}), map[])
         == Combined(mnemonic, privateEnv - todo, map[])[k := privateEnv[k]]
  {
  }

  lemma CombinedTakesPublic(mnemonic: string, privateEnv: Env, publicEnv: Env, todo: set<string>, k: string)
    requires k in todo && k in publicEnv
    ensures Combined(mnemonic, privateEnv, publicEnv - (todo - {k}))
         == Combined(mnemonic, privateEnv, publicEnv - todo)[k := publicEnv[k]]
  {
  }

  /** combineEnvironments: both loops take their keys in any order. */
  method CombineEnvironments(mnemonic: string, privateEnv: Env, publicEnv: Env) returns (env: Env)
    ensures env == Combined(mnemonic, privateEnv, publicEnv)
    ensures Merges(env, mnemonic, privateEnv, publicEnv)
  {
    hide Combined, Merges;
    env := map[];
    env := env[MNEMONIC := mnemonic];
    CombinedBase(mnemonic);
    var todo := privateEnv.Keys;
    assert privateEnv - todo == map[];
    while todo != {}
      invariant todo <= privateEnv.Keys
      invariant env == Combined(mnemonic, privateEnv - todo, map[])
      decreases |todo|
    {
      var k :| k in todo;
      CombinedTakesPrivate(mnemonic, privateEnv, todo, k);
      env := env[k := privateEnv[k]];
      todo := todo - {k};
    }
    assert privateEnv - todo == privateEnv;
    todo := publicEnv.Keys;
    assert publicEnv - todo == map[];
    while todo != {}
      invariant todo <= publicEnv.Keys
      invariant env == Combined(mnemonic, privateEnv, publicEnv - todo)
      decreases |todo|
    {
      var k :| k in todo;
      CombinedTakesPublic(mnemonic, privateEnv, publicEnv, todo, k);
      env := env[k := publicEnv[k]];
      todo := todo - {k};
    }
    assert publicEnv - todo == publicEnv;
    CombinedMerges(mnemonic, privateEnv, publicEnv);
  }

  /** The keys are those of both environments and MNEMONIC; public values beat private
      ones, and the derived mnemonic only fills a gap. */
  ghost predicate Merges(env: Env, mnemonic: string, privateEnv: Env, publicEnv: Env) {
    && (forall k :: k in env <==> k == "MNEMONIC" || k in privateEnv || k in publicEnv)
    && (forall k :: k in publicEnv ==> env[k] == publicEnv[k])
    && (forall k :: k in privateEnv && k !in publicEnv ==> env[k] == privateEnv[k])
    && ("MNEMONIC" !in privateEnv && "MNEMONIC" !in publicEnv ==> env["MNEMONIC"] == mnemonic)
  }

  lemma CombinedMerges(mnemonic: string, privateEnv: Env, publicEnv: Env)
    ensures Merges(Combined(mnemonic, privateEnv, publicEnv), mnemonic, privateEnv, publicEnv)
  {
  }

  /** The application gets the derived mnemonic unless an environment redefines it. */
  lemma MnemonicSurvivesIff(mnemonic: string, privateEnv: Env, publicEnv: Env)
    ensures ValueAt(Combined(mnemonic, privateEnv, publicEnv), MNEMONIC) == mnemonic <==>
      if MNEMONIC in publicEnv then publicEnv[MNEMONIC] == mnemonic
      else if MNEMONIC in privateEnv then privateEnv[MNEMONIC] == mnemonic
      else true
  {
  }

  // ------------------------------------------------------------- image digest

  const SHA256_PREFIX: string := "sha256:"

  /** checkAuthorization: the attested digest text against the released digest. */
  predicate CheckAuthorization(imageDigest: string, expected: Hash32) {
    Hex.Decode(TrimPrefix(imageDigest, SHA256_PREFIX)) == Some(expected)
  }

  /** Accepted are the digest's hexadecimal text in any case, bare or after one
      prefix, and nothing else. */
  lemma CheckAuthorizationIff(imageDigest: string, expected: Hash32)
    ensures CheckAuthorization(imageDigest, expected) <==>
      || Lower(imageDigest) == Hex.Encode(expected)
      || (SHA256_PREFIX <= imageDigest && Lower(imageDigest[|SHA256_PREFIX|..]) == Hex.Encode(expected))
  {
    Hex.DecodeIff(TrimPrefix(imageDigest, SHA256_PREFIX), expected);
    Hex.EncodeIsLower(expected);
    if SHA256_PREFIX <= imageDigest {
      assert imageDigest[6] == SHA256_PREFIX[6];
      assert Lower(imageDigest)[6] == ':';
      assert ':' in Lower(imageDigest);
    }
  }

  /** A digest's own text passes, and no text passes for two digests. */
  lemma DigestTextPasses(d: Hash32, e: Hash32, text: string)
    ensures CheckAuthorization(Hex.Encode(d), d) && CheckAuthorization(SHA256_PREFIX + Hex.Encode(d), d)
    ensures CheckAuthorization(text, d) && CheckAuthorization(text, e) ==> d == e
  {
    Hex.EncodeIsLower(d);
    CheckAuthorizationIff(Hex.Encode(d), d);
    CheckAuthorizationIff(SHA256_PREFIX + Hex.Encode(d), d);
    assert (SHA256_PREFIX + Hex.Encode(d))[|SHA256_PREFIX|..] == Hex.Encode(d);
  }

  // -------------------------------------------------------------------- gates

  /** Everything HandleEnvV3 demands, in the order it is demanded. */
  datatype Gate =
    | Parsed | KeySize | AttestationText | Evidence | GcePresent | ContainerPresent | AppIdFound | DebugOverride
    | TpmPolicy | TeePolicy
    | ReleaseRead | ImageDigest | SealedEnv | AppHeader | HeaderMatch | Decryption | PrivateEnv
    | PlatformMatch | Mnemonic | Encryption | Signature

  function Rank(g: Gate): nat {
    match g
    case Parsed => 0 case KeySize => 1 case AttestationText => 2 case Evidence => 3
    case GcePresent => 4 case ContainerPresent => 5 case AppIdFound => 6 case DebugOverride => 7
    case TpmPolicy => 8 case TeePolicy => 9
    case ReleaseRead => 10 case ImageDigest => 11 case SealedEnv => 12 case AppHeader => 13
    case HeaderMatch => 14 case Decryption => 15 case PrivateEnv => 16
    case PlatformMatch => 17 case Mnemonic => 18 case Encryption => 19 case Signature => 20
  }

  function Status(g: Gate): nat {
    match g
    case Parsed | KeySize | AttestationText | DebugOverride | PrivateEnv => 400
    case Evidence | GcePresent | ContainerPresent | AppIdFound | TpmPolicy | TeePolicy
       | ImageDigest | HeaderMatch | PlatformMatch => 401
    case ReleaseRead | SealedEnv | AppHeader | Decryption | Mnemonic | Encryption | Signature => 500
  }

  const GATES: nat := 21

  /** The gate of a rank. */
  function GateAt(n: nat): (g: Gate)
    requires n < GATES
    ensures Rank(g) == n
  {
    if n == 0 then Parsed else if n == 1 then KeySize else if n == 2 then AttestationText
    else if n == 3 then Evidence else if n == 4 then GcePresent else if n == 5 then ContainerPresent
    else if n == 6 then AppIdFound else if n == 7 then DebugOverride else if n == 8 then TpmPolicy
    else if n == 9 then TeePolicy else if n == 10 then ReleaseRead else if n == 11 then ImageDigest
    else if n == 12 then SealedEnv else if n == 13 then AppHeader else if n == 14 then HeaderMatch
    else if n == 15 then Decryption else if n == 16 then PrivateEnv else if n == 17 then PlatformMatch
    else if n == 18 then Mnemonic else if n == 19 then Encryption else Signature
  }

  lemma GateAtRank(g: Gate)
    ensures Rank(g) < GATES && GateAt(Rank(g)) == g
  {
  }

  function StatusAt(n: nat): nat {
    if n < GATES then Status(GateAt(n)) else 200
  }

  lemma StatusOfRank(g: Gate)
    ensures StatusAt(Rank(g)) == Status(g)
  {
    GateAtRank(g);
  }

  // What is known about a request once the gates before have let it pass.

  function EvidenceBytes(c: Call<EnvRequestV3>): Option<Bytes> {
    if c.body.None? then None else Base64.Decode(c.body.value.attestation)
  }

  function Attested(o: Outside, c: Call<EnvRequestV3>): Option<VerifiedAttestation> {
    if EvidenceBytes(c).None? then None
    else Verify(o, EvidenceBytes(c).value, DigestFor(EnvRequestKey, c.body.value.rsaKeyPem), [])
  }

  /** The app an instance's name ends in. */
  function AppOf(v: VerifiedAttestation): Option<string> {
    if v.tpm.gce.None? then None else ExtractAppId(v.tpm.gce.value.instanceName)
  }

  function InstanceAppId(o: Outside, c: Call<EnvRequestV3>): Option<string> {
    var v := Attested(o, c);
    if v.None? then None else AppOf(v.value)
  }

  /** The debug query parameter replaces the instance's app, in debug mode only. */
  function AppId(o: Outside, c: Call<EnvRequestV3>): Option<string> {
    if Lower(c.appIdQuery) == "" then InstanceAppId(o, c)
    else if o.debugMode then Some(Lower(c.appIdQuery))
    else None
  }

  function DigestText(o: Outside, c: Call<EnvRequestV3>): Option<string> {
    var v := Attested(o, c);
    if v.None? || v.value.container.None? then None else Some(v.value.container.value.imageDigest)
  }

  function SealedMessage(o: Outside, appId: string): Option<Jwe<EnvText>> {
    match o.latestRelease(appId)
    case Found(_, _, JweText(m)) => Some(m)
    case _ => None
  }

  function Opened(o: Outside, appId: string): Option<EnvText> {
    var m := SealedMessage(o, appId);
    if m.Some? && o.decryptUp(m.value) then Open(m.value, Kms) else None
  }

  /** The gates of getAndDecryptChainEnv, for an app and the attested digest text. */
  predicate ChainHolds(o: Outside, appId: string, digestText: string, g: Gate) {
    var m := SealedMessage(o, appId);
    match g
    case ReleaseRead => o.latestRelease(appId).Found?
    case ImageDigest => o.latestRelease(appId).Found? && CheckAuthorization(digestText, o.latestRelease(appId).digest)
    case SealedEnv => m.Some?
    case AppHeader => m.Some? && m.value.header.Text?
    case HeaderMatch => m.Some? && m.value.header.Text? && EqualFold(o.foldOther, m.value.header.text, appId)
    case Decryption => Opened(o, appId).Some?
    case PrivateEnv => Opened(o, appId).Some? && Opened(o, appId).value.EnvJson?
    case _ => true
  }

  const CHAIN_FIRST: nat := 10
  const CHAIN_END: nat := 17

  /** Rank of the first chain gate from n on that does not hold, or CHAIN_END. */
  function ChainStop(o: Outside, appId: string, digestText: string, n: nat): (stop: nat)
    requires CHAIN_FIRST <= n <= CHAIN_END
    ensures n <= stop <= CHAIN_END
    decreases CHAIN_END - n
  {
    if n == CHAIN_END || !ChainHolds(o, appId, digestText, GateAt(n)) then n
    else ChainStop(o, appId, digestText, n + 1)
  }

  function PublicEnvOf(o: Outside, appId: string): Env {
    if o.latestRelease(appId).Found? then o.latestRelease(appId).publicEnv else map[]
  }

  function PrivateEnvOf(o: Outside, appId: string): Env {
    match Opened(o, appId)
    case Some(EnvJson(env)) => env
    case _ => map[]
  }

  /** The environment an app is due, whichever endpoint serves it. */
  function DueEnv(o: Outside, appId: string): Option<Env> {
    var mnemonic := o.deriveMnemonic(appId);
    if mnemonic.None? then None
    else Some(Combined(mnemonic.value, PrivateEnvOf(o, appId), PublicEnvOf(o, appId)))
  }

  function EnvAnswer(o: Outside, appId: string, pem: Bytes): Option<Body> {
    var env, key := DueEnv(o, appId), o.parseKey(pem);
    if env.None? || key.None? then None else Some(EnvBody(Seal(Rsa(key.value), Missing, EnvJson(env.value))))
  }

  function Answer(o: Outside, c: Call<EnvRequestV3>): Option<Body> {
    if c.body.None? || AppId(o, c).None? then None
    else EnvAnswer(o, AppId(o, c).value, c.body.value.rsaKeyPem)
  }

  /** The declarative reading of every gate, each on the request alone. */
  predicate Holds(o: Outside, c: Call<EnvRequestV3>, g: Gate) {
    var v, appId, digestText := Attested(o, c), AppId(o, c), DigestText(o, c);
    match g
    case Parsed => c.body.Some?
    case KeySize => c.body.Some? && AcceptableKey(o.parseKey(c.body.value.rsaKeyPem))
    case AttestationText => EvidenceBytes(c).Some?
    case Evidence => v.Some?
    case GcePresent => v.Some? && v.value.tpm.gce.Some?
    case ContainerPresent => digestText.Some?
    case AppIdFound => InstanceAppId(o, c).Some?
    case DebugOverride => Lower(c.appIdQuery) == "" || o.debugMode
    case TpmPolicy => v.Some? && TpmAccepted(o, v.value.tpm)
    case TeePolicy => v.Some? && (v.value.tee.Some? ==> TeeAccepted(o, v.value.tee.value))
    case PlatformMatch => v.Some? && appId.Some? &&
        VerifyPlatform(v.value.platform, ValueAt(PublicEnvOf(o, appId.value), MACHINE_TYPE))
    case Mnemonic => appId.Some? && o.deriveMnemonic(appId.value).Some?
    case Encryption => o.encryptUp
    case Signature => Answer(o, c).Some? && o.signUp(Answer(o, c).value)
    case _ => appId.Some? && digestText.Some? && ChainHolds(o, appId.value, digestText.value, g)
  }

  /** Rank of the first gate from n on that does not hold, or GATES. */
  function Stop(o: Outside, c: Call<EnvRequestV3>, n: nat): (stop: nat)
    requires n <= GATES
    ensures n <= stop <= GATES
    decreases GATES - n
  {
    if n == GATES || !Holds(o, c, GateAt(n)) then n else Stop(o, c, n + 1)
  }

  /** Where handling a request stops. */
  function StopRank(o: Outside, c: Call<EnvRequestV3>): (stop: nat)
    ensures stop <= GATES
  {
    Stop(o, c, 0)
  }

  lemma {:induction false} StopMeaning(o: Outside, c: Call<EnvRequestV3>, n: nat, g: Gate)
    requires n <= GATES && n <= Rank(g)
    ensures Rank(g) < Stop(o, c, n) ==> Holds(o, c, g)
    ensures Rank(g) == Stop(o, c, n) ==> !Holds(o, c, g)
    decreases GATES - n
  {
    GateAtRank(g);
    if n < GATES && Holds(o, c, GateAt(n)) && n < Rank(g) {
      StopMeaning(o, c, n + 1, g);
    }
  }

  /** Once a request has come as far as gate g, the gate decides whether it goes on. */
  lemma Advance(o: Outside, c: Call<EnvRequestV3>, g: Gate)
    requires Rank(g) <= StopRank(o, c)
    ensures if Holds(o, c, g) then Rank(g) < StopRank(o, c)
            else StopRank(o, c) == Rank(g) && StatusAt(StopRank(o, c)) == Status(g)
  {
    StopMeaning(o, c, 0, g);
    StatusOfRank(g);
  }

  lemma {:induction false} ChainStopMeaning(o: Outside, appId: string, digestText: string, n: nat, g: Gate)
    requires CHAIN_FIRST <= n <= CHAIN_END && n <= Rank(g) < CHAIN_END
    ensures Rank(g) < ChainStop(o, appId, digestText, n) ==> ChainHolds(o, appId, digestText, g)
    ensures Rank(g) == ChainStop(o, appId, digestText, n) ==> !ChainHolds(o, appId, digestText, g)
    decreases CHAIN_END - n
  {
    GateAtRank(g);
    if ChainHolds(o, appId, digestText, GateAt(n)) && n < Rank(g) {
      ChainStopMeaning(o, appId, digestText, n + 1, g);
    }
  }

  lemma ChainAdvance(o: Outside, appId: string, digestText: string, g: Gate)
    requires CHAIN_FIRST <= Rank(g) <= ChainStop(o, appId, digestText, CHAIN_FIRST) && Rank(g) < CHAIN_END
    ensures if ChainHolds(o, appId, digestText, g)
            then Rank(g) < ChainStop(o, appId, digestText, CHAIN_FIRST)
            else ChainStop(o, appId, digestText, CHAIN_FIRST) == Rank(g) && StatusAt(Rank(g)) == Status(g)
  {
    ChainStopMeaning(o, appId, digestText, CHAIN_FIRST, g);
    StatusOfRank(g);
  }

  /** The chain gates stop a request where they stop getAndDecryptChainEnv. */
  lemma {:induction false} ChainWithin(o: Outside, c: Call<EnvRequestV3>, appId: string, digestText: string, n: nat)
    requires CHAIN_FIRST <= n <= CHAIN_END
    requires AppId(o, c) == Some(appId) && DigestText(o, c) == Some(digestText)
    ensures Stop(o, c, n) == if ChainStop(o, appId, digestText, n) == CHAIN_END then Stop(o, c, CHAIN_END)
                             else ChainStop(o, appId, digestText, n)
    decreases CHAIN_END - n
  {
    if n < CHAIN_END {
      assert Holds(o, c, GateAt(n)) == ChainHolds(o, appId, digestText, GateAt(n));
      if ChainHolds(o, appId, digestText, GateAt(n)) {
        ChainWithin(o, c, appId, digestText, n + 1);
      }
    }
  }

  /** The chain gates for a request that has reached them. */
  lemma ChainDecides(o: Outside, c: Call<EnvRequestV3>, appId: string, digestText: string)
    requires StopRank(o, c) >= CHAIN_FIRST
    requires AppId(o, c) == Some(appId) && DigestText(o, c) == Some(digestText)
    ensures var stop := ChainStop(o, appId, digestText, CHAIN_FIRST);
            if stop < CHAIN_END then StopRank(o, c) == stop else StopRank(o, c) >= CHAIN_END
  {
    ChainWithin(o, c, appId, digestText, CHAIN_FIRST);
    StopSplits(o, c, 0, CHAIN_FIRST);
  }

  lemma {:induction false} StopSplits(o: Outside, c: Call<EnvRequestV3>, n: nat, m: nat)
    requires n <= m <= GATES && m <= Stop(o, c, n)
    ensures Stop(o, c, n) == Stop(o, c, m)
    decreases m - n
  {
    if n < m {
      StopSplits(o, c, n + 1, m);
    }
  }

  // ------------------------------------------- the chain steps, top to bottom

  /** The status getAndDecryptChainEnv refuses with, reading it top to bottom. */
  function ChainStatus(o: Outside, appId: string, digestText: string): Option<nat> {
    match o.latestRelease(appId)
    case NotFound(_) => Some(500)
    case Found(digest, _, sealed) =>
      if !CheckAuthorization(digestText, digest) then Some(401)
      else
        match sealed
        case NotJwe => Some(500)
        case JweText(m) =>
          if !m.header.Text? then Some(500)
          else if !EqualFold(o.foldOther, m.header.text, appId) then Some(401)
          else if !o.decryptUp(m) then Some(500)
          else
            var text: Option<EnvText> := Open(m, Kms);
            if text.None? then Some(500) else if text.value.NotEnv? then Some(400) else None
  }

  /** The message is the app's released one, its image is the attested one, and its header
      names the app. */
  ghost predicate MayOpen(o: Outside, appId: string, digestText: string, m: Jwe<EnvText>) {
    && o.latestRelease(appId).Found? && o.latestRelease(appId).encryptedEnv == JweText(m)
    && CheckAuthorization(digestText, o.latestRelease(appId).digest)
    && m.header.Text? && EqualFold(o.foldOther, m.header.text, appId)
  }

  /** The chain steps alone, as all versions share them. */
  lemma ChainRefuses(o: Outside, appId: string, digestText: string)
    ensures var stop := ChainStop(o, appId, digestText, CHAIN_FIRST);
      match ChainStatus(o, appId, digestText)
      case Some(status) => stop < CHAIN_END && StatusAt(stop) == status
      case None => stop == CHAIN_END
  {
    hide ChainStop, StatusAt, CheckAuthorization, EqualFold;
    ChainAdvance(o, appId, digestText, ReleaseRead);
    if o.latestRelease(appId).Found? {
      ChainAdvance(o, appId, digestText, ImageDigest);
      if CheckAuthorization(digestText, o.latestRelease(appId).digest) {
        ChainAdvance(o, appId, digestText, SealedEnv);
        if o.latestRelease(appId).encryptedEnv.JweText? {
          MessageRefuses(o, appId, digestText, o.latestRelease(appId).encryptedEnv.message);
        }
      }
    }
  }

  /** The decryption a release calls for: of its own message, if it may be opened. */
  function DueDecryption(o: Outside, appId: string, digestText: string): seq<Effect> {
    match o.latestRelease(appId)
    case Found(digest, _, JweText(m)) =>
      if CheckAuthorization(digestText, digest) && m.header.Text? && EqualFold(o.foldOther, m.header.text, appId)
      then [KmsDecrypt(m)] else []
    case _ => []
  }

  lemma MessageRefuses(o: Outside, appId: string, digestText: string, m: Jwe<EnvText>)
    requires SealedMessage(o, appId) == Some(m) && CheckAuthorization(digestText, o.latestRelease(appId).digest)
    requires ChainStop(o, appId, digestText, CHAIN_FIRST) > Rank(SealedEnv)
    ensures var stop := ChainStop(o, appId, digestText, CHAIN_FIRST);
      match ChainStatus(o, appId, digestText)
      case Some(status) => stop < CHAIN_END && StatusAt(stop) == status
      case None => stop == CHAIN_END
  {
    hide ChainStop, StatusAt, CheckAuthorization, EqualFold;
    ChainAdvance(o, appId, digestText, AppHeader);
    if m.header.Text? {
      ChainAdvance(o, appId, digestText, HeaderMatch);
      if EqualFold(o.foldOther, m.header.text, appId) {
        ChainAdvance(o, appId, digestText, Decryption);
        if o.decryptUp(m) && Open(m, Kms).Some? {
          ChainAdvance(o, appId, digestText, PrivateEnv);
        }
      }
    }
  }

  // ------------------------------------------------------------ chain and KMS

  datatype ChainResult = Envs(privateEnv: Env, publicEnv: Env) | ChainError(status: nat)

  function ChainEffects(o: Outside, appId: string, digestText: string): seq<Effect> {
    [ReadRelease(appId)] +
    if ChainStop(o, appId, digestText, CHAIN_FIRST) >= Rank(Decryption) && SealedMessage(o, appId).Some?
    then [KmsDecrypt(SealedMessage(o, appId).value)] else []
  }

  method GetAndDecryptChainEnv(w: World, appId: string, digestText: string) returns (r: ChainResult)
    modifies w
    // top to bottom: nothing is decrypted before digest and header were checked
    ensures r == match ChainStatus(w.o, appId, digestText)
                 case Some(status) => ChainError(status)
                 case None => Envs(PrivateEnvOf(w.o, appId), PublicEnvOf(w.o, appId))
    ensures w.effects == old(w.effects) + [ReadRelease(appId)] + DueDecryption(w.o, appId, digestText)
    // in terms of the gates
    ensures var stop := ChainStop(w.o, appId, digestText, CHAIN_FIRST);
      if stop == CHAIN_END then r == Envs(PrivateEnvOf(w.o, appId), PublicEnvOf(w.o, appId))
      else r == ChainError(StatusAt(stop))
    ensures w.effects == old(w.effects) + ChainEffects(w.o, appId, digestText)
  {
    hide CheckAuthorization, EqualFold, ChainStop, StatusAt, ChainEffects;
    ChainRefuses(w.o, appId, digestText);
    ChainEffectsAreDue(w.o, appId, digestText);
    var release := w.GetLatestRelease(appId);
    if release.NotFound? {
      return ChainError(500);
    }
    if !CheckAuthorization(digestText, release.digest) {
      return ChainError(401);
    }
    if release.encryptedEnv.NotJwe? {
      return ChainError(500);
    }
    var msg := release.encryptedEnv.message;
    if !msg.header.Text? {
      return ChainError(500);
    }
    if !EqualFold(w.o.foldOther, msg.header.text, appId) {
      return ChainError(401);
    }
    var plain := w.Decrypt(msg);
    if plain.None? {
      return ChainError(500);
    }
    if plain.value.NotEnv? {
      return ChainError(400);
    }
    return Envs(plain.value.env, release.publicEnv);
  }

  lemma ChainEffectsAreDue(o: Outside, appId: string, digestText: string)
    ensures ChainEffects(o, appId, digestText) == [ReadRelease(appId)] + DueDecryption(o, appId, digestText)
  {
    hide CheckAuthorization, EqualFold, ChainStop;
    if ChainStop(o, appId, digestText, CHAIN_FIRST) >= Rank(Decryption) {
      ChainStopMeaning(o, appId, digestText, CHAIN_FIRST, ImageDigest);
      ChainStopMeaning(o, appId, digestText, CHAIN_FIRST, HeaderMatch);
    } else {
      ChainStopFails(o, appId, digestText);
    }
  }

  /** A chain lookup that stops before decryption stops at one of the checks before it. */
  lemma ChainStopFails(o: Outside, appId: string, digestText: string)
    requires ChainStop(o, appId, digestText, CHAIN_FIRST) < Rank(Decryption)
    ensures DueDecryption(o, appId, digestText) == []
  {
    hide CheckAuthorization, EqualFold, ChainStop;
    var stop := ChainStop(o, appId, digestText, CHAIN_FIRST);
    ChainStopMeaning(o, appId, digestText, CHAIN_FIRST, GateAt(stop));
  }

  /** encryptAndSignResponse. Marshalling a string map cannot fail. */
  method EncryptAndSignResponse(w: World, env: Env, rsaPublicKeyPem: Bytes) returns (r: Response)
    modifies w
    ensures var key := w.o.parseKey(rsaPublicKeyPem);
      if !w.o.encryptUp || key.None? then r == Failed(500) && w.effects == old(w.effects)
      else
        var body := EnvBody(Seal(Rsa(key.value), Missing, EnvJson(env)));
        && w.effects == old(w.effects) + [KmsSign(body)]
        && r == if w.o.signUp(body) then Signed(body) else Failed(500)
  {
    var key := w.o.parseKey(rsaPublicKeyPem);
    if key.None? || !w.o.encryptUp {
      return Failed(500);
    }
    r := w.ReturnSigned(EnvBody(Seal(Rsa(key.value), Missing, EnvJson(env))));
  }

  // ------------------------------------------------------------------ version 3

  /** The answer to a request that stops at a given rank. */
  function AnswerAt(o: Outside, c: Call<EnvRequestV3>, stop: nat): Response
    requires stop <= GATES
  {
    if stop < GATES then Failed(StatusAt(stop))
    else if Answer(o, c).Some? then Signed(Answer(o, c).value) else Failed(500)
  }

  // The outside calls of a request that stops at a given rank, stage by stage.

  function VerifyPart(c: Call<EnvRequestV3>, stop: nat): seq<Effect> {
    if stop >= Rank(Evidence) && EvidenceBytes(c).Some?
    then [VerifyEvidence(EvidenceBytes(c).value, DigestFor(EnvRequestKey, c.body.value.rsaKeyPem), [])] else []
  }

  function TpmPart(o: Outside, v: Option<VerifiedAttestation>, stop: nat): seq<Effect> {
    if stop >= Rank(TpmPolicy) && v.Some? then TpmEffects(o, v.value.tpm) else []
  }

  function TeePart(o: Outside, v: Option<VerifiedAttestation>, stop: nat): seq<Effect> {
    if stop >= Rank(TeePolicy) && v.Some? && v.value.tee.Some? then TeeEffects(o, v.value.tee.value) else []
  }

  function PolicyEffects(o: Outside, v: Option<VerifiedAttestation>, stop: nat): seq<Effect> {
    TpmPart(o, v, stop) + TeePart(o, v, stop)
  }

  function AttestEffects(o: Outside, c: Call<EnvRequestV3>, stop: nat): seq<Effect> {
    VerifyPart(c, stop) + PolicyEffects(o, Attested(o, c), stop)
  }

  function ChainPart(o: Outside, c: Call<EnvRequestV3>, stop: nat): seq<Effect> {
    if stop >= Rank(ReleaseRead) && AppId(o, c).Some? && DigestText(o, c).Some?
    then ChainEffects(o, AppId(o, c).value, DigestText(o, c).value) else []
  }

  function MnemonicPart(o: Outside, c: Call<EnvRequestV3>, stop: nat): seq<Effect> {
    if stop >= Rank(Mnemonic) && AppId(o, c).Some? then [KmsMnemonic(AppId(o, c).value)] else []
  }

  function SignPart(o: Outside, c: Call<EnvRequestV3>, stop: nat): seq<Effect> {
    if stop >= Rank(Signature) && Answer(o, c).Some? then [KmsSign(Answer(o, c).value)] else []
  }

  function ReleaseEffects(o: Outside, c: Call<EnvRequestV3>, stop: nat): seq<Effect> {
    ChainPart(o, c, stop) + MnemonicPart(o, c, stop) + SignPart(o, c, stop)
  }

  datatype Admission = Admitted(verified: VerifiedAttestation, appId: string) | Refused(status: nat)

  /** HandleEnvV3 up to the verified evidence and its app. */
  method AdmitV3(w: World, c: Call<EnvRequestV3>) returns (r: Admission)
    modifies w
    ensures var stop := StopRank(w.o, c);
      && w.effects == old(w.effects) + AttestEffects(w.o, c, stop)
      && if stop < Rank(ReleaseRead) then r == Refused(StatusAt(stop))
         else r.Admitted? && Attested(w.o, c) == Some(r.verified) && AppId(w.o, c) == Some(r.appId)
  {
    hide StopRank, StatusAt, Verify, PolicyEffects, VerifyPart, AppOf, AppId;
    var verified := VerifyV3(w, c);
    if verified.Unverified? {
      NoPolicyEffects(w.o, Attested(w.o, c), StopRank(w.o, c));
      return Refused(verified.status);
    }
    r := FindAppId(w, c, verified.v);
    if r.Refused? {
      NoPolicyEffects(w.o, Attested(w.o, c), StopRank(w.o, c));
      return;
    }
    var ok := CheckPolicies(w, c, verified.v);
    if !ok {
      return Refused(401);
    }
  }

  datatype Verification = Verified(v: VerifiedAttestation) | Unverified(status: nat)

  /** Reading the request and verifying its evidence for the key it names. */
  method VerifyV3(w: World, c: Call<EnvRequestV3>) returns (r: Verification)
    modifies w
    ensures var stop := StopRank(w.o, c);
      && w.effects == old(w.effects) + VerifyPart(c, stop)
      && if stop <= Rank(Evidence) then r == Unverified(StatusAt(stop))
         else r.Verified? && Attested(w.o, c) == Some(r.v) && SmallIndices(r.v.tpm.pcrs)
  {
    hide StopRank, StatusAt, Verify, VerifyPart, AppOf, AppId;
    ghost var o := w.o;
    var read := ReadRequest(w, c);
    VerifyPartIs(c, StopRank(o, c));
    if read.Unreadable? {
      return Unverified(read.status);
    }
    var challenge := CalculateSignableDigest(Header(EnvRequestKey), c.body.value.rsaKeyPem);
    var result := w.VerifyAttestation(read.evidence, challenge, []);
    Advance(o, c, Evidence);
    if result.None? {
      return Unverified(401);
    }
    VerifyShape(o, read.evidence, challenge, []);
    return Verified(result.value);
  }

  datatype Reading = Readable(evidence: Bytes) | Unreadable(status: nat)

  /** Body, key size and base64 text. */
  method ReadRequest(w: World, c: Call<EnvRequestV3>) returns (r: Reading)
    ensures if StopRank(w.o, c) < Rank(Evidence) then r == Unreadable(StatusAt(StopRank(w.o, c)))
            else r.Readable? && EvidenceBytes(c) == Some(r.evidence)
  {
    hide StopRank, StatusAt, AcceptableKey;
    ghost var o := w.o;
    Advance(o, c, Parsed);
    if c.body.None? {
      return Unreadable(400);
    }
    Advance(o, c, KeySize);
    if !AcceptableKey(w.o.parseKey(c.body.value.rsaKeyPem)) {
      return Unreadable(400);
    }
    Advance(o, c, AttestationText);
    var attestationBytes := Base64.Decode(c.body.value.attestation);
    if attestationBytes.None? {
      return Unreadable(400);
    }
    return Readable(attestationBytes.value);
  }

  lemma VerifyPartIs(c: Call<EnvRequestV3>, stop: nat)
    ensures stop < Rank(Evidence) ==> VerifyPart(c, stop) == []
    ensures stop >= Rank(Evidence) && EvidenceBytes(c).Some? ==>
      VerifyPart(c, stop) ==
        [VerifyEvidence(EvidenceBytes(c).value, DigestFor(EnvRequestKey, c.body.value.rsaKeyPem), [])]
  {
  }

  lemma NoPolicyEffects(o: Outside, v: Option<VerifiedAttestation>, stop: nat)
    requires stop < Rank(TpmPolicy)
    ensures PolicyEffects(o, v, stop) == []
  {
  }

  /** From the verified evidence to the app id, debug override included. */
  method FindAppId(w: World, c: Call<EnvRequestV3>, v: VerifiedAttestation) returns (r: Admission)
    requires StopRank(w.o, c) > Rank(Evidence) && Attested(w.o, c) == Some(v)
    ensures var stop := StopRank(w.o, c);
      if stop < Rank(TpmPolicy) then r == Refused(StatusAt(stop))
      else r.Admitted? && r.verified == v && AppId(w.o, c) == Some(r.appId)
  {
    hide StopRank, StatusAt, Attested;
    ghost var o := w.o;
    Advance(o, c, GcePresent);
    if v.tpm.gce.None? {
      return Refused(401);
    }
    Advance(o, c, ContainerPresent);
    if v.container.None? {
      return Refused(401);
    }
    Advance(o, c, AppIdFound);
    var instance := ExtractAppId(v.tpm.gce.value.instanceName);
    if instance.None? {
      return Refused(401);
    }
    var appId := instance.value;
    Advance(o, c, DebugOverride);
    var debugAppId := Lower(c.appIdQuery);
    if debugAppId != "" {
      if w.o.debugMode {
        appId := debugAppId;
      } else {
        return Refused(400);
      }
    }
    return Admitted(v, appId);
  }

  /** TPM policy, then TEE policy where there are TEE claims. */
  method CheckPolicies(w: World, c: Call<EnvRequestV3>, v: VerifiedAttestation) returns (ok: bool)
    requires StopRank(w.o, c) >= Rank(TpmPolicy) && Attested(w.o, c) == Some(v) && SmallIndices(v.tpm.pcrs)
    modifies w
    ensures w.effects == old(w.effects) + PolicyEffects(w.o, Some(v), StopRank(w.o, c))
    ensures ok <==> StopRank(w.o, c) >= Rank(ReleaseRead)
    ensures !ok ==> StatusAt(StopRank(w.o, c)) == 401
  {
    hide StopRank, StatusAt, Attested, TpmAccepted, TpmEffects, TeeAccepted, TeeEffects;
    ghost var o := w.o;
    ok := CheckTpmPolicies(w, v.tpm);
    Advance(o, c, TpmPolicy);
    if !ok {
      return;
    }
    Advance(o, c, TeePolicy);
    if v.tee.Some? {
      ok := CheckTeePolicies(w, v.tee.value);
    }
  }

  /** HandleEnvV3. The answer is the one of the first gate that does not hold, or the
      signed environment; the outside calls are exactly those up to that gate. */
  method HandleEnvV3(w: World, c: Call<EnvRequestV3>) returns (r: Response)
    modifies w
    ensures r == AnswerAt(w.o, c, StopRank(w.o, c))
    ensures w.effects ==
      old(w.effects) + AttestEffects(w.o, c, StopRank(w.o, c)) + ReleaseEffects(w.o, c, StopRank(w.o, c))
  {
    hide StopRank, StatusAt, AttestEffects, ReleaseEffects, Attested, AppId, Answer;
    var admission := AdmitV3(w, c);
    if admission.Refused? {
      NoReleaseEffects(w.o, c, StopRank(w.o, c));
      return Failed(admission.status);
    }
    r := ReleaseV3(w, c, admission.verified, admission.appId);
  }

  lemma NoReleaseEffects(o: Outside, c: Call<EnvRequestV3>, stop: nat)
    requires stop < Rank(ReleaseRead)
    ensures ReleaseEffects(o, c, stop) == []
  {
    hide ChainEffects, AppId, DigestText, Answer;
  }

  lemma KeyParses(o: Outside, c: Call<EnvRequestV3>)
    requires StopRank(o, c) > Rank(KeySize)
    ensures c.body.Some? && o.parseKey(c.body.value.rsaKeyPem).Some?
  {
    hide StopRank;
    Advance(o, c, KeySize);
  }

  /** HandleEnvV3 after the policy checks. */
  method ReleaseV3(w: World, c: Call<EnvRequestV3>, verified: VerifiedAttestation, appId: string) returns (r: Response)
    requires StopRank(w.o, c) >= Rank(ReleaseRead)
    requires Attested(w.o, c) == Some(verified) && AppId(w.o, c) == Some(appId)
    modifies w
    ensures r == AnswerAt(w.o, c, StopRank(w.o, c))
    ensures w.effects == old(w.effects) + ReleaseEffects(w.o, c, StopRank(w.o, c))
  {
    hide StopRank, StatusAt, Attested, AppId, ChainStop, ChainEffects, ChainStatus, DueDecryption,
      CheckAuthorization, ChainHolds, VerifyPlatform, ValueAt, SealedMessage, PrivateEnvOf, PublicEnvOf, Answer,
      MnemonicPart;
    ghost var o := w.o;
    Advance(o, c, ContainerPresent);
    var digestText := verified.container.value.imageDigest;
    ChainDecides(o, c, appId, digestText);
    MnemonicPartIs(o, c, StopRank(o, c));
    var envs := GetAndDecryptChainEnv(w, appId, digestText);
    if envs.ChainError? {
      return Failed(envs.status);
    }
    Advance(o, c, PlatformMatch);
    if !VerifyPlatform(verified.platform, ValueAt(envs.publicEnv, MACHINE_TYPE)) {
      return Failed(401);
    }
    var mnemonic := w.DeriveMnemonic(appId);
    Advance(o, c, Mnemonic);
    if mnemonic.None? {
      return Failed(500);
    }
    r := ConcludeV3(w, c, appId, mnemonic.value, envs);
  }

  lemma MnemonicPartIs(o: Outside, c: Call<EnvRequestV3>, stop: nat)
    requires AppId(o, c).Some?
    ensures MnemonicPart(o, c, stop) == if stop >= Rank(Mnemonic) then [KmsMnemonic(AppId(o, c).value)] else []
  {
  }

  /** HandleEnvV3 from the merge on. */
  method ConcludeV3(w: World, c: Call<EnvRequestV3>, appId: string, mnemonic: string,
      envs: ChainResult) returns (r: Response)
    requires StopRank(w.o, c) > Rank(Mnemonic)
    requires AppId(w.o, c) == Some(appId) && w.o.deriveMnemonic(appId) == Some(mnemonic)
    requires envs == Envs(PrivateEnvOf(w.o, appId), PublicEnvOf(w.o, appId))
    modifies w
    ensures r == AnswerAt(w.o, c, StopRank(w.o, c))
    ensures w.effects == old(w.effects) + SignPart(w.o, c, StopRank(w.o, c))
  {
    hide Merges, StopRank, StatusAt, AppId, Combined, PrivateEnvOf, PublicEnvOf;
    ghost var o := w.o;
    var env := CombineEnvironments(mnemonic, envs.privateEnv, envs.publicEnv);
    KeyParses(o, c);
    Advance(o, c, Encryption);
    if w.o.encryptUp {
      Advance(o, c, Signature);
    }
    r := EncryptAndSignResponse(w, env, c.body.value.rsaKeyPem);
  }
}
