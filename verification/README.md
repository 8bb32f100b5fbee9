# Attested environment release: a verified model

An app instance in a trusted execution environment (TEE) makes a fresh RSA key, has the key's
digest attested, and asks the key server for its environment. The server checks the evidence,
two policies and the app's latest on-chain release, opens the private environment that was
sealed for the app, merges it with the public one and with a derived mnemonic, encrypts the
result to the attested key and signs it. The client accepts only a signed answer that its own
key opens. This project models both sides, the chain lookup and the encodings in between, and
proves what they guarantee together.

## Layout

| file | part of the system |
|---|---|
| `Protocol`, `ProtocolInvariant`, `ProtocolTheorems`, `ProtocolProgress` | many clients, apps and requests over a hostile network and a growing chain, as a transition system: invariant, safety over every run, progress |
| `EnvHandler`, `EnvTheorems`, `EnvReading` | `/env/v3` as gates and ordered outside calls, and the same handler read top to bottom on plain facts |
| `TokenEndpoints`, `TokenReading` | the older `/env` and `/env/v2`, likewise; what the three share |
| `AttestHandler`, `AttestReading`, `EnvClient`, `Addresses` | `/auth/attest` and its token; the client; address derivation on both sides |
| `LogIterator`, `ChainClient`, `Chain` | the generated log iterator with its producer, the latest-release lookup, and the simple specification it refines |
| `PolicyChecker`, `PcrVector`, `Tcb`, `Claims` | the policy gate, the canonical register vector, TCB packing, the platform check |
| `Digests`, `Codec`, `Text`, `InstanceName`, `SolanaKeys`, `KeySet`, `EnvFile` | framed digests, hex and base64, splitting and case folding, child keys, key filter, exported file |
| `Sorting`, `Listing`, `Prelude`, `Crypto`, `Externals` | shared helpers; symbolic cryptography; everything outside the handlers |

Code that updates state step by step is a method or a class here, tied by its `ensures` to a
specification function. The contracts of the environment and attest handlers fix the answer and the
whole sequence of outside calls; the lemmas are about those specification functions.

## Assumptions

- Cryptography is symbolic. A digest is known by its input, so SHA-256 is injective. A JWE
  message opens only for its recipient's private key and only while its protected header is the
  sealed one (sections 5.1 and 5.2 of RFC 7516). Only the server makes valid signatures.
- The chain is append-only once visible, the contract's latest-release block number is the block
  of the app's last `AppUpgraded` event, and block numbers fit 32 bits. Blocks may be appended
  between and after any two reads.
- Evidence verifies only if it was issued, for the challenge and extra data it was issued with,
  and has the shape `Externals.VerifyShape` states. Evidence whose challenge names a client run's
  key is issued to that run alone, because the key is made inside that run. Anybody may hold
  evidence for any other challenge.
- In the transition system the network is unrestricted: the server takes any request at all, and
  a client may be handed any body at any time; its signature verifies exactly if the server signed
  it, and the client's own check decides. Only `/env/v3`, `/auth/attest` and the
  address endpoints are served, debug mode is off, and policy data and the key service's
  mnemonics do not change. The handler modules themselves cover debug mode.
- A key set never holds one key object twice: the set library refuses to add an object it holds.
- The part of Unicode case folding that lies outside ASCII stays outside ASCII, except for the
  Kelvin sign and the long s.

## Where the code and its description differ

In each case the model follows the code, and the exact condition is proved.

- The lookup never asks the iterator for its error. For logs in index order and a subscription that
  does not end in an error, it settles on the app's last upgrade if and only if every log of the app in
  the named block unpacks (`ChainClient.SettlesOnLatestIff`); for any other order, if and only if the last
  upgrade stands before the first log that does not unpack (`ChainClient.SettlesInAnyOrderIff`). On a
  block with two upgrades whose newer log does not unpack it must answer the older release
  (`ChainClient.UnreadableLogIsStale`, and the loop itself in `ChainClient.KeepsOlder`). After a
  subscription error the answer is that of some leading part of the logs.
- The comparison of the sealed header with the app id folds Unicode case. It means equality up to
  ASCII case exactly for ASCII ids without k and s (`Text.FoldIsCaselessIff`).
- Register indices are cut to 8 bits. The register vector is independent of map order and sort
  outcome exactly when no two registers clash there (`PcrVector.PcrVectorUniqueIff`).
- A child index is serialised without leading zero bytes, which is the standard's form exactly from
  2^24 on (`SolanaKeys.MinimalIsSer32Iff`), and the wallet index wraps at 2^31
  (`SolanaKeys.PathIsHardenedIff`). The comment speaks of five path levels; the code has four segments.
- The `extra_data` claim is described as present only when extra data was given. It is also present,
  and says no bytes, for text made of line breaks alone (`AttestHandler.ClaimPresentIffData`;
  `AttestHandler.LineBreakIsClaimed` gives such a text).
- The caller of `Attest` names an audience, but the evidence does not bind it. The accepted token's
  audience is the one named in the served request that carried the run's evidence, so it is the
  caller's if and only if that request named it (`ProtocolTheorems.TokenAgreement`); a run can come to
  hold a token for any audience a served request names (`ProtocolProgress.AudienceFollowsRequest`).
- The address endpoint lower-cases the app id, the release path does not, so the promised address
  consistency holds for lower-case ids (`Addresses.EndpointReachesAppIff`) whose environment does not
  redefine the mnemonic (`EnvHandler.MnemonicSurvivesIff`).
- The exported file reads back as the environment exactly when no key holds `=` or a newline and no
  value holds a newline (`EnvFile.FileRoundTripIff`).
- `/auth/attest` reports an empty app id (an instance name ending in a hyphen) as a refused debug
  override, with status 400: `AttestHandler.RefusedOverrideIff` says exactly when that answer is given,
  and `AttestHandler.HyphenNameIsRefused` names an instance.

## Model

| member | source | states |
|---|---|---|
| `ProtocolTheorems.EnvAgreement` | `pkg/envclient/envclient.go:118-208` | over every run: an environment a client accepted is the merge of mnemonic, private and public part for the client's own instance-name app, from a release whose digest matches the client's attested image, read from the chain no earlier than the client began; it is the app's latest release at that read whenever the log subscription did not end in an error and every log of the app in the named block unpacks; for a machine type that is empty or ends in t or s the client's own TEE claims passed |
| `ProtocolTheorems.SessionDelivers` | `internal/handlers/env.go:211-314` | a finished session whose answer a run opened has everything the agreement says of it: times, policies, digest, seal, merge and lookup |
| `ProtocolTheorems.AppIsolation` | `internal/handlers/env.go:360-381` | over every run: every environment ever signed was made for issued evidence of one app, for the key in its challenge only, with a private part sealed for that app, from the release read on chain for that app |
| `ProtocolTheorems.SealServesOneApp` | `internal/handlers/env.go:366-375` | for ids without k and s: two releases of the same sealed message are for app ids equal up to ASCII case, and the message fits exactly the ids equal to them up to ASCII case |
| `ProtocolTheorems.AnswersAreNotShared` | `pkg/envclient/envclient.go:118-208` | no answer serves two client runs |
| `ProtocolTheorems.TokenAgreement` | `pkg/envclient/envclient.go:281-355` | over every run: an accepted token is the whole token due to a served request that carried the run's own evidence and key; its claims are the run's own app, image digest, instance, hardware model, hardening and TEE values and exactly the extra data the run asked to bind; its audience is the run's if and only if that request named it |
| `ProtocolTheorems.TokenIsolation` | `internal/handlers/attest.go:35-149` | over every run: every token ever signed was made for issued evidence that passes policy, for the key in its challenge only, and is the token due to that evidence |
| `ProtocolTheorems.EvidenceBelongs` | `pkg/envclient/envclient.go:118-141` | evidence bound to a client run's key was asked for by that run, for that purpose, with that key text |
| `ProtocolTheorems.StolenEvidenceServesItsOwner` | `internal/handlers/env.go:211-314` | whatever request carries a run's evidence, a signed environment is sealed to that run's key alone |
| `ProtocolTheorems.EnvEvidenceYieldsNoToken` | `internal/handlers/attest.go:114-120` | evidence bound to the environment challenge of any key never yields a token, whatever the request |
| `ProtocolTheorems.TokenEvidenceYieldsNoEnv` | `internal/handlers/env.go:233-239` | evidence bound to the token challenge of any key never opens an environment |
| `ProtocolTheorems.AddressAgreement` | `pkg/envclient/envclient.go:183-187` | over every run: an accepted environment that keeps the mnemonic yields addresses, and the address endpoint gives, for any casing of a lower-case id, exactly as many as asked for: the application's first ones, or a list beginning with the application's |
| `ProtocolInvariant.InvKept` | `internal/handlers/env.go:211-430` | every step of the system keeps the invariant on chain, evidence, client runs, sessions, tokens and signatures |
| `ProtocolInvariant.RunsKeepInv` | `internal/handlers/env.go:211-430` | so does every run |
| `ProtocolInvariant.AnswerReleased` | `internal/handlers/env.go:211-314` | what a signed answer implies about its evidence, release, seal, platform, policies and reader |
| `ProtocolInvariant.AnswerVouched` | `internal/handlers/attest.go:35-149` | what a signed token implies about its evidence, extra data, policies and reader |
| `ProtocolInvariant.VerifyIssued` | `pkg/attestation/bound_attestation_evidence.go:64-98` | verification accepts exactly issued evidence under its own challenge and extra data and hands on what it attests |
| `ProtocolProgress.ServedIffDeserved` | `internal/handlers/env.go:211-314` | with every service up, a client's own request is answered with an environment exactly when its evidence deserves the release |
| `ProtocolProgress.WaitingRunCanFinish` | `pkg/envclient/envclient.go:118-208` | from every reachable state a waiting client whose evidence deserves the release the lookup finds in index order gets exactly the due environment in four steps |
| `ProtocolProgress.OrderlyOutcome` | `pkg/chainclient/chainclient.go:59-106` | that release is an outcome of the lookup, and the app's latest where the block's logs unpack |
| `ProtocolProgress.NewRunCanFinish` | `pkg/envclient/envclient.go:118-208` | from every reachable state a new client with deserving evidence reaches a state where it has accepted the due environment |
| `ProtocolProgress.TokenServedIff` | `internal/handlers/attest.go:35-149` | with every service up, a request with a run's own key and evidence is answered with the due token exactly when the evidence is attestable, whatever audience it names |
| `ProtocolProgress.WaitingAttestCanFinish` | `pkg/envclient/envclient.go:281-355` | from every reachable state a waiting client with attestable evidence gets the token due to a served request in two steps |
| `ProtocolProgress.AudienceFollowsRequest` | `pkg/envclient/envclient.go:299-306` | so it can come to hold a token for any audience: the request named in it decides |
| `EnvHandler.HandleEnvV3` | `internal/handlers/env.go:211-314` | the answer is that of the first gate that does not hold, or the signed environment; the outside calls are exactly those up to that gate. `EnvReading.AnswersTopToBottom` spells that answer out without the gates |
| `EnvReading.AnswersTopToBottom` | `internal/handlers/env.go:211-314` | reading the handler top to bottom on plain facts: the status of the first step that refuses, and otherwise the signed due environment |
| `EnvReading.WrongDigestIsRefused` | `internal/handlers/env.go:356-358` | with evidence and policies passed and another digest released: 401, whatever else the release holds, and the key service is asked for nothing |
| `EnvReading.DecryptsOnlyWhatIsDue` | `internal/handlers/env.go:348-392` | a decryption is of the app's released message, its digest the attested one and its header naming the app, after evidence for a 4096-bit key and both policies passed field by field |
| `EnvReading.SecretsOnlyWhenDue` | `internal/handlers/env.go:296-314` | mnemonic and signature only after that message was opened and the platform fits the machine type; the mnemonic is the app's and what is signed is the due environment, sealed to the request's key |
| `EnvTheorems.ReleasedIffAllGatesHold` | `internal/handlers/env.go:211-314` | signed exactly when the conjunction of 21 declarative gates holds |
| `EnvTheorems.RefusedByFirstFailingGate` | `internal/handlers/env.go:211-314` | otherwise the status of the gate ranked first among those that fail |
| `EnvTheorems.EffectsInOrder` | `internal/handlers/env.go:211-314` | outside calls happen at most once each, in one fixed order of phases |
| `EnvTheorems.SecretsAfterChecks` | `internal/handlers/env.go:268-314` | each secret-touching call implies every gate ranked before it; only the full answer is signed |
| `EnvTheorems.TeeCoverage` | `internal/handlers/env.go:268-299` | a release is for Intel TDX if its machine type is empty or ends in t, for AMD SEV-SNP if in s, for Shielded VM if in v; on the first two there were TEE claims that passed field by field, on the last there are none |
| `EnvTheorems.ReleasedUnderItsSeal` | `internal/handlers/env.go:366-381` | the private environment was sealed to the key service under a header that folds to the app id: the header compared is the authenticated one |
| `EnvTheorems.ReleasedUnderItsCaselessSeal` | `internal/handlers/env.go:366-375` | for ids without k and s that is equality up to ASCII case |
| `EnvTheorems.ReleasedEnvironment` | `internal/handlers/env.go:300-430` | a signed answer opens to the merged environment with the request's key, of 4096 bits and the standard exponent, and with no other |
| `EnvHandler.GetAndDecryptChainEnv` | `internal/handlers/env.go:348-392` | both environments, or the status of the first step that refuses, top to bottom; a decryption only for the attested digest under a header naming the app |
| `EnvHandler.ChainDecides` | `internal/handlers/env.go:348-392` | the chain gates stop a request where they stop the chain lookup |
| `EnvHandler.CombineEnvironments` | `internal/handlers/env.go:395-407` | for every iteration order of both maps: keys are those of both and MNEMONIC; public values beat private ones and the mnemonic fills a gap |
| `EnvHandler.MnemonicSurvivesIff` | `internal/handlers/env.go:395-407` | exactly when the derived mnemonic reaches the application |
| `EnvHandler.CheckAuthorizationIff` | `internal/handlers/env.go:333-344` | accepted are exactly the hexadecimal texts of the expected digest in any case, bare or after one sha256: prefix |
| `EnvHandler.DigestTextPasses` | `internal/handlers/env.go:333-344` | every digest's own text passes, and no text passes for two digests |
| `EnvHandler.EncryptAndSignResponse` | `internal/handlers/env.go:410-430` | the answer is sealed to the request's key and leaves only signed |
| `TokenEndpoints.HandleEnv` | `internal/handlers/env.go:40-114` | version 1 answers as its specification says and makes exactly the calls listed; `TokenReading.VersionOneReads` spells the answer out |
| `TokenEndpoints.HandleEnvV2` | `internal/handlers/env.go:130-195` | version 2 likewise, with `TokenReading.VersionTwoReads` |
| `TokenReading.VersionOneReads` | `internal/handlers/env.go:40-114` | version 1 top to bottom on plain facts, with every status |
| `TokenReading.VersionTwoReads` | `internal/handlers/env.go:130-195` | version 2 likewise |
| `TokenReading.VersionOneServesItsToken` | `internal/handlers/env.go:69-89` | outside debug mode a signed answer had no query and serves the app of a token that verifies for version 1, under the image the token names, to the strong key inside the sealed request |
| `TokenReading.VersionTwoServesItsToken` | `internal/handlers/env.go:147-170` | likewise for version 2, to the key in the request |
| `TokenReading.QueriesNeedDebugMode` | `internal/handlers/env.go:80-89` | whatever the token, a query outside debug mode is refused by both |
| `TokenReading.TailSecretsAreDue` | `internal/handlers/env.go:348-392` | in both, a decryption is of the app's released message for the image the token names under a header naming the app; mnemonic and signature only when every chain step passed |
| `TokenEndpoints.EffectsV1InOrder` | `internal/handlers/env.go:40-114` | its outside calls happen at most once each, in the order request, token, release, decryption, mnemonic, signature |
| `TokenEndpoints.EffectsV2InOrder` | `internal/handlers/env.go:130-195` | version 2 likewise, without the request |
| `TokenEndpoints.TailSecretsAfterChecks` | `internal/handlers/env.go:348-392` | in both, each secret-touching call implies every chain gate ranked before it, and only the full answer is signed |
| `TokenEndpoints.SameEnvironmentEverywhere` | `internal/handlers/env.go:93-110` | all three versions give an app the same environment from the same chain and key service, and only under the released image digest |
| `TokenEndpoints.OpensForAttestedKey` | `internal/handlers/env.go:317-331` | a version 2 answer opens for exactly one key, the one whose digest the token carries as its nonce |
| `TokenEndpoints.OneTokenOneReader` | `internal/handlers/env.go:317-331` | two version 2 answers under one token are sealed to the same key |
| `TokenEndpoints.NoTokenForBoth` | `internal/handlers/env.go:76-78` | no token that means the same to both verifiers is let in by version 1 and version 2 |
| `EnvClient.GetEnv` | `pkg/envclient/envclient.go:118-209` | an environment is returned if and only if evidence was given for the digest of the call's own key, the server's answer to a request with both is genuine, is an environment body, opens with the call's key, and yields five addresses of each kind |
| `EnvClient.Attest` | `pkg/envclient/envclient.go:281-355` | a token if and only if likewise, with the same extra data bound and sent |
| `EnvClient.GetAttestation` | `pkg/envclient/envclient.go:50-56` | the provider is asked for challenge and extra data, the field left empty for nil, empty or absent |
| `EnvClient.ExtraDataAgrees` | `pkg/envclient/envclient.go:307-309` | up to 1048576 bytes, the provider's, the server's and the claim's bytes are the client's; nil, empty and absent all mean no claim |
| `AttestHandler.HandleAttest` | `internal/handlers/attest.go:35-82` | the answer of the attest endpoint as specified, and exactly the outside calls made; `AttestReading.AttestReads` spells the answer out |
| `AttestHandler.HandleAttestV3` | `internal/handlers/attest.go:84-149` | the grant, or the status of the first failing check, and exactly the outside calls made |
| `AttestReading.AttestReads` | `internal/handlers/attest.go:35-149` | the endpoint top to bottom on plain facts, with every status |
| `AttestReading.LongDataIsRefused` | `internal/handlers/attest.go:109-111` | extra data above 1048576 bytes gets 400, whatever else the request holds |
| `AttestHandler.AttestEffectsInOrder` | `internal/handlers/attest.go:35-149` | those calls happen at most once each, in the order evidence, image, firmware, TCB, signature |
| `AttestHandler.TokenSignedAfterChecks` | `internal/handlers/attest.go:35-149` | a signature follows verified evidence for this key and extra data and both policies, and signs the granted token only |
| `AttestHandler.RefusedOverrideIff` | `internal/handlers/utils.go:60-69` | verified evidence is answered with 400 exactly when it has a container and a name with a hyphen, and either a query is given outside debug mode or none is given and the name ends in the hyphen |
| `AttestHandler.HyphenNameIsRefused` | `internal/handlers/utils.go:60-69` | an instance of the latter |
| `AttestHandler.ClaimIsVerifiedData` | `internal/handlers/attest.go:101-116` | for any granted request the claim decodes to exactly the verified bytes, and no claim means none |
| `AttestHandler.ClaimPresentIffData` | `internal/auth/jwt_signer.go:83-87` | the exact inputs on which the claim's presence and the data's presence differ |
| `AttestHandler.LineBreakIsClaimed` | `internal/handlers/attest.go:101-112` | a request granted without extra data is granted the same with a single line break, and only then carries the claim |
| `AttestHandler.SignAttestationJwt` | `internal/auth/jwt_signer.go:33-95` | setting claims one by one gives the specified token |
| `AttestHandler.TokenClaimsIff` | `internal/auth/jwt_signer.go:54-87` | which optional claims are present, exactly when, and the values of these and of the claims about app, hardware, hardening, container, instance and TEE |
| `LogIterator.AppUpgradedIterator.Next` | `pkg/chainclient/bindings/appcontrollerv14/binding.go:2169-2206` | under every interleaving and buffer size: true delivers the next log of the full sequence; false is final; without failure everything was delivered; failure has a cause; the self-call ends |
| `LogIterator.AppUpgradedIterator.Interleave` | `pkg/chainclient/bindings/appcontrollerv14/binding.go:2155-2164` | any producer moves keep delivered, buffered and pending logs equal to the full sequence |
| `LogIterator.AppUpgradedIterator.Event` | `pkg/chainclient/adapter.go:126-140` | the projection of the event, all digests in order |
| `ChainClient.LastOf` | `pkg/chainclient/chainclient.go:80-86` | the loop keeps the delivered release of largest log index; all logs are delivered unless the subscription ended in an error or the next log does not unpack |
| `ChainClient.GetLatestRelease` | `pkg/chainclient/chainclient.go:59-106` | the answer reads the delivered log of largest index among the app's logs in the block the first read named: its only artifact's digest and both environments, or an error for another number of artifacts, an unreadable public environment or no log; with order and cause of incompleteness, whatever blocks arrive between the reads |
| `ChainClient.LookupRefinesSpec` | `pkg/chainclient/chainclient.go:59-106` | without a subscription error and with every named log unpacking, the answer is the app's last upgrade in the history as of the first read, read the same way; no upgrade if and only if the history is empty |
| `ChainClient.SettlesOnLatestIff` | `pkg/chainclient/chainclient.go:78-90` | for logs in index order and no subscription error: it settles on the last upgrade if and only if every log of the app in the named block unpacks |
| `ChainClient.SettlesInAnyOrderIff` | `pkg/chainclient/chainclient.go:78-90` | for any order: if and only if the last upgrade stands before the first log that does not unpack |
| `ChainClient.AnswersFromUnpacking` | `pkg/chainclient/chainclient.go:78-105` | without a subscription error the answer is fixed by the logs before the first that does not unpack |
| `ChainClient.UnreadableLogIsStale` | `pkg/chainclient/chainclient.go:78-105` | a chain on which the lookup must answer an older release |
| `ChainClient.KeepsOlder` | `pkg/chainclient/chainclient.go:80-86` | the loop on those two logs, for every buffer and interleaving, keeps the older one, or nothing after a subscription error |
| `Chain.LatestBlockHoldsLastUpgrade` | `pkg/chainclient/chainclient.go:59-76` | the contract's block holds the last upgrade as its last log of the app |
| `Chain.LastUpgradeIsMaximal` | `pkg/chainclient/chainclient.go:80-86` | the last upgrade is the strict maximum of block and log index over the history |
| `Chain.HistoryIsAll` | `pkg/chainclient/chainclient.go:59-76` | the history holds the app's logs of every block and nothing else |
| `PolicyChecker.CheckTpmPolicies` | `pkg/policy/policy.go:51-74` | accepted if and only if hardened (or debug), right project, and allowlisted under the vector of the registers; exactly the calls made |
| `PolicyChecker.CheckTeePolicies` | `pkg/policy/policy.go:77-96` | accepted if and only if, on the claims' own fields: for TDX not debuggable (or debug mode), endorsed MRTD and sufficient packed TCB; for SEV-SNP likewise with measurement and current TCB; never on another platform; exactly the calls made |
| `PolicyChecker.TeeAcceptedIff` | `pkg/policy/policy.go:77-173` | the same for the specification the theorems use |
| `PolicyChecker.TpmAcceptedIff` | `pkg/policy/policy.go:51-74` | the same for TPM claims, for any vector of the registers |
| `PolicyChecker.CheckTcb` | `pkg/policy/policy.go:141-173` | the TCB asked about, per platform, and the error cases |
| `PcrVector.PcrMapToContractPcrs` | `pkg/policy/policy.go:192-205` | for every map order: a vector sorted by index with one element for every map entry |
| `PcrVector.PcrVectorUniqueIff` | `pkg/policy/policy.go:192-205` | one vector for all orders and sort outcomes exactly when no two registers clash in 8 bits |
| `PcrVector.PcrVectorCanonical` | `pkg/policy/policy.go:192-205` | below 256: strictly increasing, the map's size, exactly its entries |
| `PcrVector.PcrVectorInjective` | `pkg/policy/policy.go:192-205` | below 256: equal vectors only for equal maps |
| `PcrVector.PcrVectorIsCounted` | `pkg/policy/policy.go:192-205` | the vector equals the one obtained by counting indices upwards |
| `Sorting.SortInPlace` | `pkg/policy/policy.go:200-203` | in place: a sorted permutation, for every strict weak order |
| `Tcb.PackUnpacks` | `pkg/policy/policy.go:150-154` | the shifted and or-ed word stays below 2^24 and unpacks uniquely |
| `Tcb.PackOrder` | `pkg/policy/policy.go:150-154` | numeric order is lexicographic order on major, minor, microcode |
| `Externals.VerifyShape` | `pkg/attestation/bound_attestation_evidence.go:64-98` | TEE claims are absent exactly on Shielded VM, everything is what the libraries gave for this challenge and extra data, and of the registers exactly 4, 8 and 9 are kept |
| `Claims.FitsMachineIff` | `pkg/attestation/bound_attestation_evidence.go:30-47` | the platform check spelt out: TDX for an empty type or t, SEV-SNP for s, Shielded VM for v, nothing else |
| `Crypto.AcceptableKeyIff` | `pkg/crypto/crypto.go:120-138` | acceptable keys parse, have 4096 bits and the exponent 65537 |
| `Digests.CalculateSignableDigest` | `pkg/crypto/crypto.go:166-173` | writing header, zero byte and data into the hash state gives the framed digest |
| `Digests.FrameInjective` | `pkg/crypto/crypto.go:166-173` | framing is injective in header and data over zero-free headers |
| `Digests.FramesMeetIff` | `pkg/crypto/crypto.go:166-173` | for arbitrary headers: when two share a framing |
| `Digests.PurposesSeparate` | `pkg/crypto/crypto.go:21-27` | no digest for one purpose, key derivation included, equals one for another or for other data |
| `Digests.MnemonicInput` | `internal/kms/kms.go:74-82` | the key-derivation input is a framed digest of its own purpose |
| `SolanaKeys.MinimalIsSer32Iff` | `pkg/crypto/solana.go:16-32` | minimal big-endian bytes are ser32 exactly from 2^24 on, and at most four |
| `SolanaKeys.BufferInjective` | `pkg/crypto/solana.go:16-32` | the buffer determines key and segment |
| `SolanaKeys.Derive` | `pkg/crypto/solana.go:16-32` | two 32-byte halves; on hardened segments the child of "Private parent key" to "private child key" in SLIP-0010 |
| `SolanaKeys.DeriveWalletSeed` | `pkg/crypto/solana.go:34-63` | the path loop equals the fold of the standard's child derivation for every index below 2^31 |
| `SolanaKeys.PathIsHardenedIff` | `pkg/crypto/solana.go:48-52` | all segments hardened exactly for indices below 2^31 |
| `SolanaKeys.PathSegments` | `pkg/crypto/solana.go:48-52` | the four segments, spelt out |
| `SolanaKeys.MasterHalves` | `pkg/crypto/solana.go:38-46` | the root is the left and right half of the MAC of the seed under the standard's key |
| `SolanaKeys.ChildHalves` | `pkg/crypto/solana.go:16-32` | the standard's child: hardened only, the halves of the MAC of zero byte, key and four index bytes under the chain code |
| `SolanaKeys.WalletNodeDefinedIff` | `pkg/crypto/solana.go:34-63` | the standard defines the wallet's node exactly for indices below 2^31 |
| `InstanceName.ExtractIff` | `pkg/utils/gce.go:12-18` | an id is extracted exactly from names ending in a hyphen and the hyphen-free id |
| `InstanceName.ExtractFailsIff` | `pkg/utils/gce.go:12-18` | extraction fails exactly on names without a hyphen |
| `EnvFile.RenderEnvFile` | `cmd/kms-client/main.go:240-258` | for every map order: one export line spelt out for each variable, sorted, joined and newline-terminated |
| `EnvFile.ContentUnique` | `cmd/kms-client/main.go:240-258` | the content is a function of the environment |
| `EnvFile.FileRoundTripIff` | `cmd/kms-client/main.go:240-258` | splitting and parsing gives the environment back exactly for clean ones |
| `EnvFile.ContentInjective` | `cmd/kms-client/main.go:240-258` | the content determines a clean environment |
| `EnvFile.EqualsSignCollides` | `cmd/kms-client/main.go:246-255` | two different environments, one with = in its key, share one file content |
| `EnvFile.NewlineCollides` | `cmd/kms-client/main.go:246-255` | so do one variable with a newline in its value and two variables |
| `KeySet.FilteredKeySetForToken` | `pkg/attestation/attestation.go:373-418` | without a refresh during the call: success exactly with algorithm, key id and a matching cached key, yielding the matching keys; with refreshes: still distinct keys of the algorithm, at least one, read at increasing places of cache versions that never go back |
| `KeySet.MatchingIsSublist` | `pkg/attestation/attestation.go:399-411` | the filtered keys are the cached keys at the matching places, in order |
| `KeySet.PlacesAreAll` | `pkg/attestation/attestation.go:399-411` | those places are all places with the token's algorithm |
| `KeySet.FilteredLookup` | `pkg/attestation/attestation.go:373-418` | looking up a key id in the filtered set is looking up key id and algorithm in the whole, even when ids repeat |
| `Addresses.DeriveAddressesFromMnemonic` | `pkg/crypto/crypto.go:212-244` | the slices are the first addresses as specified, or an error |
| `Addresses.FirstAddressesAre` | `pkg/crypto/crypto.go:212-244` | entry i of each list is the wallet's i-th account of that kind, and the lists are there exactly when the wallet opens and every account derives |
| `Addresses.EndpointReads` | `internal/handlers/addresses.go:20-57` | when the endpoint answers, with which addresses, and which status it refuses with |
| `Addresses.FewerIsPrefix` | `pkg/crypto/crypto.go:212-244` | asking for fewer gives a prefix of asking for more |
| `Addresses.AddressesAgree` | `internal/handlers/addresses.go:20-57` | the endpoint returns exactly the number asked for, and its list opens with the application's or is the application's first ones, whatever the casing of the query |
| `Addresses.EndpointReachesAppIff` | `internal/handlers/addresses.go:20-57` | some query reaches the app's own mnemonic exactly when the app id is lower case |
| `Text.FoldIsCaselessIff` | `internal/handlers/env.go:371-375` | folding equality is equality up to ASCII case exactly for ids without k and s |
| `Hex.DecodeIff` | `internal/handlers/env.go:333-344` | decoding accepts exactly the encodings up to case |
| `Hex.Alphabet` | `internal/handlers/env.go:333-344` | the sixteen digits of section 8 of RFC 4648, in order |
| `Base64.RoundTrip` | `pkg/envclient/envclient.go:50-56` | encoded bytes decode to themselves under the lenient decoder |
| `Base64.DecodesToNothingIff` | `internal/handlers/attest.go:101-112` | only line breaks alone decode to no bytes |
| `Base64.DecodesIff` | `internal/handlers/attest.go:101-108` | exactly the texts of full groups with at most two closing padding characters decode, line breaks aside |
| `Base64.TestVectors` | `pkg/envclient/envclient.go:50-56` | test vectors of section 10 of RFC 4648 |

## Left out

- HTTP, routing, rate limits, command line, configuration, Secret Manager, logging, timeouts and the retry loop: plumbing.
- Internals of hashing, RSA, AES-GCM, ECDSA, ed25519, BIP-39 and the wallet libraries, and the checksum exchange with the key service: abstract functions.
- JSON marshalling: bodies and environments are datatypes, and text that does not parse is one value. The challenge's base64 text is kept as the digest it spells.
- End-to-end agreement for `/env`: its request key is not tied to the attestation by design.
- Token verification itself (`extractNonce`, `validateToken`, time and issuer claims): assumed to be a function from token text and provider to claims or failure; nothing is assumed about which tokens it accepts.
- Policy data and mnemonics that change during a run of the transition system.
- Upload of the attestation to the user API, the storage key command, and the signing keys' administration.
- The contracts' internals and the v1.5 binding, which is not part of this model; its iterator is taken to be the v1.4 one.
- Derivation path texts: an address is kept with its index.
- Sorting.SortInPlace: an insertion sort stands for the library's sort, whose algorithm is not part of the repository; the lemmas about the result hold for every sorted permutation.
- Text.Lower: lower-cases ASCII letters only; other letters of an app id are left alone.
