/** The self-signed certificate that setupTLS issues: the fixed template it
    fills in and the parsed certificate it keeps. Key generation, signing and
    DER encoding are not modelled; a parsed certificate carries the fields of
    the template it was created from, with its validity times cut down to
    whole seconds. */
module X509 {

  /** time.Hour, in nanoseconds. */
  const Hour: int := 3_600_000_000_000

  /** time.Second, in nanoseconds: the precision of a certificate's validity
      times once encoded. */
  const Second: int := 1_000_000_000

  /** The validity window of the certificate: NotAfter is NotBefore + 24h. */
  const ValidityWindow: int := 24 * Hour

  /** Serial numbers are drawn uniformly from [0, 2^128). */
  const SerialLimit: nat := 0x1_0000_0000_0000_0000_0000_0000_0000_0000

  type Serial = n: nat | n < SerialLimit

  const Localhost: string := "localhost"
  const Organization: string := "grpctest"

  datatype IP = IPv4(octets: seq<nat>) | IPv6(groups: seq<nat>)

  /** net.ParseIP("127.0.0.1") and net.ParseIP("::1"). */
  const LoopbackV4: IP := IPv4([127, 0, 0, 1])
  const LoopbackV6: IP := IPv6([0, 0, 0, 0, 0, 0, 0, 1])

  datatype Name = Name(organization: seq<string>, commonName: string)

  datatype KeyUsage = DigitalSignature | KeyEncipherment

  datatype ExtKeyUsage = ServerAuth

  /** The x509.Certificate value used as template (and as parent). Times are
      nanoseconds on the wall clock. */
  datatype CertTemplate = CertTemplate(
    serialNumber: Serial,
    subject: Name,
    notBefore: int,
    notAfter: int,
    keyUsage: set<KeyUsage>,
    extKeyUsage: seq<ExtKeyUsage>,
    basicConstraintsValid: bool,
    dnsNames: seq<string>,
    ipAddresses: seq<IP>)

  /** Opaque DER bytes produced by x509.CreateCertificate. */
  datatype Der = Der(id: nat)

  /** A parsed certificate: its raw bytes, the fields it was issued with, and
      the issuer name taken from the parent. */
  datatype Certificate = Certificate(raw: Der, fields: CertTemplate, issuer: Name)

  /** The shape every certificate of the test server has: self-signed for
      localhost and both loopback addresses, for server authentication,
      valid for exactly 24 hours. */
  predicate LocalhostTemplate(t: CertTemplate) {
    && t.subject == Name([Organization], Localhost)
    && t.notAfter == t.notBefore + ValidityWindow
    && t.keyUsage == {KeyEncipherment, DigitalSignature}
    && t.extKeyUsage == [ServerAuth]
    && t.basicConstraintsValid
    && t.dnsNames == [Localhost]
    && t.ipAddresses == [LoopbackV4, LoopbackV6]
  }

  predicate SelfSignedLocalhost(c: Certificate) {
    LocalhostTemplate(c.fields) && c.issuer == c.fields.subject
  }

  /** The template built from the clock reading and the random serial. */
  function Template(now: int, serial: Serial): (t: CertTemplate)
    ensures LocalhostTemplate(t)
    ensures t.notBefore == now && t.notAfter - now == 24 * Hour
    ensures t.serialNumber == serial
  {
    CertTemplate(
      serialNumber := serial,
      subject := Name([Organization], Localhost),
      notBefore := now,
      notAfter := now + ValidityWindow,
      keyUsage := {KeyEncipherment, DigitalSignature},
      extKeyUsage := [ServerAuth],
      basicConstraintsValid := true,
      dnsNames := [Localhost],
      ipAddresses := [LoopbackV4, LoopbackV6])
  }

  /** A wall-clock time cut down to the whole second at or before it. */
  function TruncateToSecond(t: int): (r: int)
    ensures r <= t < r + Second
    ensures r % Second == 0
  {
    t / Second * Second
  }

  /** Truncation keeps the 24-hour window, which is a whole number of seconds. */
  lemma TruncateKeepsWindow(t: int)
    ensures TruncateToSecond(t + ValidityWindow) == TruncateToSecond(t) + ValidityWindow
  {
    var r := TruncateToSecond(t);
    var r' := TruncateToSecond(t + ValidityWindow);
    assert ValidityWindow == 86_400 * Second;
    assert r + ValidityWindow <= t + ValidityWindow < r + ValidityWindow + Second;
    assert (r + ValidityWindow) % Second == 0;
  }

  /** Parsing what CreateCertificate(template, template) produced: the
      template is its own parent, so the issuer is the subject, and the
      validity times come back at whole-second precision. */
  function ParseSelfSigned(der: Der, template: CertTemplate): (c: Certificate)
    ensures c.raw == der && c.issuer == template.subject
    ensures c.fields.(notBefore := template.notBefore, notAfter := template.notAfter) == template
    ensures c.fields.notBefore <= template.notBefore < c.fields.notBefore + Second
    ensures c.fields.notAfter <= template.notAfter < c.fields.notAfter + Second
    ensures LocalhostTemplate(template) ==> SelfSignedLocalhost(c)
  {
    TruncateKeepsWindow(template.notBefore);
    var fields := template.(notBefore := TruncateToSecond(template.notBefore),
                            notAfter := TruncateToSecond(template.notAfter));
    Certificate(der, fields, template.subject)
  }
}
