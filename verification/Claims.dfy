/** What verified attestation evidence says, and the platform check made on it
    (pkg/attestation/bound_attestation_evidence.go). */
module Claims {
  import opened Prelude

  datatype Platform = IntelTDX | AMDSevSnp | GCPShieldedVM | OtherPlatform(code: nat)

  /** A 32-byte register value, kept whole. */
  type Hash32 = b: Bytes | |b| == 32 witness seq(32, _ => 0)

  /** PCR values by uint32 register index. */
  type PcrMap = m: map<nat, Hash32> | forall k :: k in m ==> k < 0x1_0000_0000

  datatype GceInfo = GceInfo(instanceName: string, projectId: string)

  datatype TPMClaims = TPMClaims(hardened: bool, gce: Option<GceInfo>, platform: Platform, pcrs: PcrMap)

  /** The 16 security version numbers of a TDX module. */
  type TeeTcbSvn = s: Bytes | |s| == 16 witness seq(16, _ => 0)

  datatype TdxClaims = TdxClaims(debug: bool, mrtd: Bytes, teeTcbSvn: TeeTcbSvn)

  datatype SevSnpClaims = SevSnpClaims(debug: bool, measurement: Bytes, currentTcb: nat)

  datatype TEEClaims = TEEClaims(platform: Platform, tdx: Option<TdxClaims>, sevSnp: Option<SevSnpClaims>)

  datatype ContainerInfo = ContainerInfo(imageDigest: string)

  datatype VerifiedAttestation = VerifiedAttestation(
    tpm: TPMClaims, tee: Option<TEEClaims>, container: Option<ContainerInfo>, platform: Platform)

  /** machineTypeSuffixToPlatform. */
  function SuffixPlatform(c: char): Option<Platform> {
    if c == 't' then Some(IntelTDX)
    else if c == 's' then Some(AMDSevSnp)
    else if c == 'v' then Some(GCPShieldedVM)
    else None
  }

  /** VerifyPlatform: no machine type means TDX; an unknown suffix fits no platform. */
  predicate VerifyPlatform(platform: Platform, machineType: string) {
    if machineType == "" then platform == IntelTDX
    else
      var expected := SuffixPlatform(machineType[|machineType| - 1]);
      expected.Some? && expected.value == platform
  }

  /** Intel TDX for no machine type or one ending in t, AMD SEV-SNP for s, Shielded VM for v. */
  predicate FitsMachine(p: Platform, machineType: string) {
    || (p == IntelTDX && (machineType == "" || machineType[|machineType| - 1] == 't'))
    || (p == AMDSevSnp && machineType != "" && machineType[|machineType| - 1] == 's')
    || (p == GCPShieldedVM && machineType != "" && machineType[|machineType| - 1] == 'v')
  }

  lemma FitsMachineIff(p: Platform, machineType: string)
    ensures VerifyPlatform(p, machineType) <==> FitsMachine(p, machineType)
  {
  }
}
