/** Symbolic cryptography: what RSA-OAEP with AES-256-GCM sealing (RFC 7516) and
    RSA keys mean to the protocol. A sealed text can be opened only with the private
    key of its recipient, and only while its protected header is the sealed one. */
module Crypto {
  import opened Prelude

  /** Who generated a key pair: a trusted execution environment through the client
      library, or anybody else. */
  datatype KeyOwner = Tee(id: nat) | Outside(id: nat)

  datatype RsaKey = RsaKey(owner: KeyOwner, bits: nat, exponent: nat)

  /** ValidateRSAKeySize: a key that parses, with 4096 bits and the standard exponent. */
  predicate AcceptableKey(key: Option<RsaKey>) {
    key.Some? && key.value.bits == 4096 && key.value.exponent == 65537
  }

  /** A 4096-bit RSA key with the standard exponent. */
  predicate StrongKey(key: Option<RsaKey>) {
    match key
    case Some(RsaKey(_, bits, exponent)) => bits == 4096 && exponent == 65537
    case None => false
  }

  lemma AcceptableKeyIff(key: Option<RsaKey>)
    ensures AcceptableKey(key) <==> StrongKey(key)
  {
  }

  /** The protected header x-eigenx-app-id of a JWE message. */
  datatype HeaderValue = Missing | NotText | Text(text: string)

  datatype Recipient = Kms | Rsa(key: RsaKey)

  /** A JWE message: the header it shows, the header authenticated when it was sealed
      (section 5.1 step 14 of RFC 7516), and what it holds for whom. */
  datatype Jwe<+P> = Jwe(header: HeaderValue, sealedHeader: HeaderValue, recipient: Recipient, payload: P)

  /** Decryption (section 5.2 of RFC 7516) fails for another key or a changed header. */
  function Open<P>(message: Jwe<P>, recipient: Recipient): Option<P> {
    if message.recipient == recipient && message.header == message.sealedHeader
    then Some(message.payload)
    else None
  }

  function Seal<P>(recipient: Recipient, header: HeaderValue, payload: P): Jwe<P> {
    Jwe(header, header, recipient, payload)
  }

  /** Bytes read as JSON: a string-to-string object, or something else. */
  datatype EnvText = NotEnv | EnvJson(env: Env)

  /** Bytes read as JWE: a message, or something else. */
  datatype SealedText = NotJwe | JweText(message: Jwe<EnvText>)
}
