/** The policy gate (pkg/policy/policy.go). */
module PolicyChecker {
  import opened Prelude
  import opened Claims
  import opened PcrVector
  import opened Tcb
  import opened Externals

  // ----------------------------------------------------------------------- TPM

  /** CheckTPMPolicies accepts: hardened image unless in debug mode, right project,
      image on the on-chain allowlist under the canonical register vector. */
  predicate TpmAccepted(o: Outside, claims: TPMClaims) {
    && (o.debugMode || claims.hardened)
    && claims.gce.Some? && claims.gce.value.projectId == o.projectId
    && o.imageAllowed(claims.platform, PcrVectorFrom(claims.pcrs, 0)) == Some(true)
  }

  function TpmEffects(o: Outside, claims: TPMClaims): seq<Effect> {
    if (o.debugMode || claims.hardened) && claims.gce.Some? && claims.gce.value.projectId == o.projectId
    then [AskImageAllowed(claims.platform, PcrVectorFrom(claims.pcrs, 0))]
    else []
  }

  /** What acceptance means on the claims' own fields, for a vector of the registers. */
  ghost predicate TpmPasses(o: Outside, claims: TPMClaims, pcrs: seq<Pcr>) {
    && (o.debugMode || claims.hardened) && claims.gce.Some? && claims.gce.value.projectId == o.projectId
    && o.imageAllowed(claims.platform, pcrs) == Some(true)
  }

  /** With indices that fit a byte: acceptance asks for any vector of the registers, there
      being just one. */
  lemma TpmAcceptedIff(o: Outside, claims: TPMClaims, pcrs: seq<Pcr>)
    requires SmallIndices(claims.pcrs) && IsPcrVector(pcrs, claims.pcrs)
    ensures TpmAccepted(o, claims) <==> TpmPasses(o, claims, pcrs)
  {
    PcrVectorIsCounted(pcrs, claims.pcrs);
  }

  method CheckTpmPolicies(w: World, claims: TPMClaims) returns (ok: bool)
    modifies w
    ensures SmallIndices(claims.pcrs) ==>
      ok == TpmAccepted(w.o, claims) && w.effects == old(w.effects) + TpmEffects(w.o, claims)
    // accepted under the vector the registers give, and with unclashing indices there is one
    ensures ok ==> exists pcrs :: IsPcrVector(pcrs, claims.pcrs) && TpmPasses(w.o, claims, pcrs)
    ensures NoIndexClash(claims.pcrs) ==>
      (ok <==> exists pcrs :: IsPcrVector(pcrs, claims.pcrs) && TpmPasses(w.o, claims, pcrs))
  {
    if !w.o.debugMode && !claims.hardened {
      return false;
    }
    if claims.gce.None? {
      return false;
    }
    if claims.gce.value.projectId != w.o.projectId {
      return false;
    }
    var pcrs := PcrMapToContractPcrs(claims.pcrs);
    if SmallIndices(claims.pcrs) {
      PcrVectorIsCounted(pcrs, claims.pcrs);
    }
    PcrVectorUniqueIff(claims.pcrs);
    var allowed := w.IsImageAllowed(claims.platform, pcrs);
    return allowed == Some(true);
  }

  // ----------------------------------------------------------------------- TEE

  predicate InDebugMode(claims: TEEClaims) {
    || (claims.platform == IntelTDX && claims.tdx.Some? && claims.tdx.value.debug)
    || (claims.platform == AMDSevSnp && claims.sevSnp.Some? && claims.sevSnp.value.debug)
  }

  /** The claims section the platform calls for is there. */
  predicate SectionPresent(claims: TEEClaims) {
    || (claims.platform == IntelTDX && claims.tdx.Some?)
    || (claims.platform == AMDSevSnp && claims.sevSnp.Some?)
  }

  function Measurement(claims: TEEClaims): Bytes
    requires SectionPresent(claims)
  {
    if claims.platform == IntelTDX then claims.tdx.value.mrtd else claims.sevSnp.value.measurement
  }

  predicate FirmwareEndorsed(o: Outside, claims: TEEClaims) {
    SectionPresent(claims) &&
    if claims.platform == IntelTDX then o.mrtdEndorsed(Measurement(claims))
    else o.measurementEndorsed(Measurement(claims))
  }

  function TcbOf(claims: TEEClaims): nat
    requires SectionPresent(claims)
  {
    if claims.platform == IntelTDX then PackSvn(claims.tdx.value.teeTcbSvn) else claims.sevSnp.value.currentTcb
  }

  /** CheckTEEPolicies accepts: no debug mode (unless the server is in it), a known
      platform with its claims, endorsed firmware, and a TCB at the on-chain minimum. */
  predicate TeeAccepted(o: Outside, claims: TEEClaims) {
    && (o.debugMode || !InDebugMode(claims))
    && FirmwareEndorsed(o, claims)
    && o.tcbValid(claims.platform, TcbOf(claims)) == Some(true)
  }

  function TeeEffects(o: Outside, claims: TEEClaims): seq<Effect> {
    if (!o.debugMode && InDebugMode(claims)) || !SectionPresent(claims) then []
    else [VerifyFirmware(Measurement(claims))] +
         if FirmwareEndorsed(o, claims) then [AskTcbValid(claims.platform, TcbOf(claims))] else []
  }

  /** What acceptance means on the claims' own fields, platform by platform. */
  ghost predicate TeePasses(o: Outside, claims: TEEClaims) {
    match claims.platform
    case IntelTDX =>
      && claims.tdx.Some? && (o.debugMode || !claims.tdx.value.debug) && o.mrtdEndorsed(claims.tdx.value.mrtd)
      && var svn := claims.tdx.value.teeTcbSvn;
      && o.tcbValid(IntelTDX, (svn[1] as int) * 65536 + (svn[0] as int) * 256 + svn[2]) == Some(true)
    case AMDSevSnp =>
      && claims.sevSnp.Some? && (o.debugMode || !claims.sevSnp.value.debug)
      && o.measurementEndorsed(claims.sevSnp.value.measurement)
      && o.tcbValid(AMDSevSnp, claims.sevSnp.value.currentTcb) == Some(true)
    case _ => false
  }

  lemma TeeAcceptedIff(o: Outside, claims: TEEClaims)
    ensures TeeAccepted(o, claims) <==> TeePasses(o, claims)
  {
    hide Pack;
    if claims.tdx.Some? {
      var svn := claims.tdx.value.teeTcbSvn;
      PackSum(svn[1], svn[0], svn[2]);
    }
  }

  /** checkTEEDebugMode. */
  method CheckTeeDebugMode(w: World, claims: TEEClaims) returns (ok: bool)
    ensures ok == (w.o.debugMode || !InDebugMode(claims))
  {
    if w.o.debugMode {
      return true;
    }
    match claims.platform
    case IntelTDX =>
      return claims.tdx.None? || !claims.tdx.value.debug;
    case AMDSevSnp =>
      return claims.sevSnp.None? || !claims.sevSnp.value.debug;
    case _ =>
      return true;
  }

  /** verifyFirmware. */
  method VerifyFirmwareEndorsement(w: World, claims: TEEClaims) returns (ok: bool)
    modifies w
    ensures ok == FirmwareEndorsed(w.o, claims)
    ensures w.effects == old(w.effects) + if SectionPresent(claims) then [VerifyFirmware(Measurement(claims))] else []
  {
    match claims.platform
    case IntelTDX =>
      if claims.tdx.None? {
        return false;
      }
      ok := w.VerifyMeasurement(claims.platform, claims.tdx.value.mrtd);
    case AMDSevSnp =>
      if claims.sevSnp.None? {
        return false;
      }
      ok := w.VerifyMeasurement(claims.platform, claims.sevSnp.value.measurement);
    case _ =>
      return false;
  }

  /** checkTCB. */
  method CheckTcb(w: World, claims: TEEClaims) returns (ok: bool)
    modifies w
    ensures ok == (SectionPresent(claims) && w.o.tcbValid(claims.platform, TcbOf(claims)) == Some(true))
    ensures w.effects ==
      old(w.effects) + if SectionPresent(claims) then [AskTcbValid(claims.platform, TcbOf(claims))] else []
  {
    var tcb: nat;
    match claims.platform {
      case IntelTDX =>
        if claims.tdx.None? {
          return false;
        }
        var svn := claims.tdx.value.teeTcbSvn;
        var major, minor, microcode := svn[1], svn[0], svn[2];
        tcb := Pack(major, minor, microcode);
      case AMDSevSnp =>
        if claims.sevSnp.None? {
          return false;
        }
        tcb := claims.sevSnp.value.currentTcb;
      case _ =>
        return false;
    }
    var valid := w.IsTcbValid(claims.platform, tcb);
    return valid == Some(true);
  }

  method CheckTeePolicies(w: World, claims: TEEClaims) returns (ok: bool)
    modifies w
    ensures ok == TeeAccepted(w.o, claims)
    ensures ok <==> TeePasses(w.o, claims)
    ensures w.effects == old(w.effects) + TeeEffects(w.o, claims)
  {
    TeeAcceptedIff(w.o, claims);
    hide TeePasses;
    ok := CheckTeeDebugMode(w, claims);
    if !ok {
      return;
    }
    ok := VerifyFirmwareEndorsement(w, claims);
    if !ok {
      return;
    }
    ok := CheckTcb(w, claims);
  }
}
