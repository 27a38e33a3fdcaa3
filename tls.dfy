/** The server-side TLS configuration that setupTLS installs, and the outcomes
    of the foreign calls setupTLS makes, in the order it makes them. */
module Tls {
  import opened Wrappers
  import opened X509

  /** tls.VersionTLS13. */
  const VersionTLS13: int := 0x0304

  /** An opaque tls.Certificate (certificate chain plus private key). */
  datatype KeyPair = KeyPair(id: nat)

  datatype Config = Config(certificates: seq<KeyPair>, minVersion: int)

  /** An opaque ECDSA P-256 private key. */
  datatype PrivateKey = PrivateKey(id: nat)

  /** The step of setupTLS that failed. */
  datatype SetupStep =
    | GenerateKey
    | SerialNumber
    | CreateCertificate
    | ParseCertificate
    | MarshalKey
    | LoadKeyPair

  /** What each foreign call of setupTLS returned: the generated key, the
      clock, the random serial, the DER bytes, whether parsing and key
      marshalling succeeded, and the loaded key pair. */
  datatype SetupEnv = SetupEnv(
    privateKey: Option<PrivateKey>,
    now: int,
    serial: Option<Serial>,
    der: Option<Der>,
    parsed: bool,
    marshalled: bool,
    keyPair: Option<KeyPair>)

  /** The calls up to and including ParseCertificate succeed: setupTLS has
      a certificate to record. */
  predicate CertificateParsed(env: SetupEnv) {
    env.privateKey.Some? && env.serial.Some? && env.der.Some? && env.parsed
  }

  /** The first foreign call of setupTLS that fails, if any; setupTLS stops
      there. */
  function FirstFailure(env: SetupEnv): (step: Option<SetupStep>)
    ensures step.None? <==> SetupSucceeds(env)
    ensures CertificateParsed(env) <==> step.None? || step.value == MarshalKey || step.value == LoadKeyPair
  {
    if env.privateKey.None? then Some(GenerateKey)
    else if env.serial.None? then Some(SerialNumber)
    else if env.der.None? then Some(CreateCertificate)
    else if !env.parsed then Some(ParseCertificate)
    else if !env.marshalled then Some(MarshalKey)
    else if env.keyPair.None? then Some(LoadKeyPair)
    else None
  }

  /** Every foreign call of setupTLS succeeds. */
  predicate SetupSucceeds(env: SetupEnv) {
    && env.privateKey.Some?
    && env.serial.Some?
    && env.der.Some?
    && env.parsed
    && env.marshalled
    && env.keyPair.Some?
  }

  /** The certificate setupTLS records once ParseCertificate has succeeded. */
  function IssuedCertificate(env: SetupEnv): (c: Certificate)
    requires env.serial.Some? && env.der.Some?
    ensures SelfSignedLocalhost(c)
    ensures c.fields.notBefore == TruncateToSecond(env.now)
    ensures c.fields.notBefore <= env.now < c.fields.notBefore + Second
    ensures c.fields.notAfter == c.fields.notBefore + ValidityWindow
  {
    ParseSelfSigned(env.der.value, Template(env.now, env.serial.value))
  }
}
