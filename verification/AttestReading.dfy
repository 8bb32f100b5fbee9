/** HandleAttest on plain facts: the endpoint read top to bottom, with the status each
    step answers. */
module AttestReading {
  import opened Prelude
  import Base64
  import opened Text
  import opened Digests
  import opened Claims
  import opened InstanceName
  import opened Crypto
  import opened Externals
  import opened PolicyChecker
  import opened AttestHandler

  /** The request's bytes: evidence, and extra data of at most 1048576 bytes, none if the
      field is empty. */
  function BytesIn(req: AttestRequest): Option<(Bytes, Bytes)> {
    var evidence := Base64.Decode(req.attestation);
    var extraData := if req.extraData == "" then Some([]) else Base64.Decode(req.extraData);
    if evidence.None? || extraData.None? || |extraData.value| > 1048576 then None
    else Some((evidence.value, extraData.value))
  }

  /** The app served: the instance's own, or in debug mode the query's. */
  function AttestedApp(o: Outside, query: string, v: VerifiedAttestation): Option<string> {
    if v.tpm.gce.None? || v.container.None? then None
    else
      var own := ExtractAppId(v.tpm.gce.value.instanceName);
      if own.None? || Lower(query) == "" then own else Some(Lower(query))
  }

  ghost predicate BothPass(o: Outside, v: VerifiedAttestation) {
    TpmAccepted(o, v.tpm) && (v.tee.Some? ==> TeePasses(o, v.tee.value))
  }

  /** From verified evidence on. */
  ghost predicate VerifiedReads(o: Outside, jwtUp: bool, c: Call<AttestRequest>, v: VerifiedAttestation, r: Response)
    requires c.body.Some?
  {
    var app, key := AttestedApp(o, c.appIdQuery, v), o.parseKey(c.body.value.rsaKeyPem);
    if app.None? then r == Failed(401)
    else if app.value == "" || (Lower(c.appIdQuery) != "" && !o.debugMode) then r == Failed(400)
    else if !BothPass(o, v) then r == Failed(401)
    else if !jwtUp || !o.encryptUp || key.None? then r == Failed(500)
    else
      var token := TokenFor(app.value, v, c.body.value.audience, c.body.value.extraData);
      var body := TokenBody(Seal(Rsa(key.value), Missing, token));
      r == if o.signUp(body) then Signed(body) else Failed(500)
  }

  /** The attest endpoint, top to bottom. */
  lemma AttestReads(o: Outside, jwtUp: bool, c: Call<AttestRequest>)
    ensures var r := AttestAnswer(o, jwtUp, c);
      if c.body.None? || c.body.value.version != 3 then r == Failed(400)
      else if !StrongKey(o.parseKey(c.body.value.rsaKeyPem)) || BytesIn(c.body.value).None? then r == Failed(400)
      else
        var (evidence, extraData) := BytesIn(c.body.value).value;
        var v := Verify(o, evidence, DigestFor(JwtRequestKey, c.body.value.rsaKeyPem), extraData);
        if v.None? then r == Failed(401) else VerifiedReads(o, jwtUp, c, v.value, r)
  {
    hide Verify, DigestFor, AcceptableKey, StrongKey, GrantVerified, TokenFor, VerifiedReads;
    if c.body.Some? {
      AcceptableKeyIff(o.parseKey(c.body.value.rsaKeyPem));
      if BytesIn(c.body.value).Some? {
        var (evidence, extraData) := BytesIn(c.body.value).value;
        var v := Verify(o, evidence, DigestFor(JwtRequestKey, c.body.value.rsaKeyPem), extraData);
        if v.Some? && InputsOf(o, c.body.value).Some? && c.body.value.version == 3 {
          GrantReads(o, jwtUp, c, v.value, extraData);
        }
      }
    }
  }

  lemma GrantReads(o: Outside, jwtUp: bool, c: Call<AttestRequest>, v: VerifiedAttestation, extraData: Bytes)
    requires c.body.Some? && c.body.value.version == 3
    requires GrantOf(o, c) == GrantVerified(o, c.appIdQuery, v, extraData)
    ensures VerifiedReads(o, jwtUp, c, v, AttestAnswer(o, jwtUp, c))
  {
    hide GrantOf, TokenFor, TpmAccepted, TeeAccepted, TeePasses, ExtractAppId;
    if v.tee.Some? {
      TeeAcceptedIff(o, v.tee.value);
    }
  }

  /** Longer extra data is refused, whatever else the request holds. */
  lemma LongDataIsRefused(o: Outside, jwtUp: bool, c: Call<AttestRequest>)
    requires c.body.Some? && Base64.Decode(c.body.value.extraData).Some?
    requires |Base64.Decode(c.body.value.extraData).value| > 1048576
    ensures AttestAnswer(o, jwtUp, c) == Failed(400)
  {
    hide AttestAnswer, VerifiedReads, Verify, StrongKey;
    AttestReads(o, jwtUp, c);
    Base64.DecodesToNothingIff("");
  }
}
