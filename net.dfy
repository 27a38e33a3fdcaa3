/** The loopback TCP listener that the test server binds with
    net.Listen("tcp", "127.0.0.1:0"), and the address string it reports. */
module Net {

  /** The host part of the listen address. */
  const LoopbackHost: string := "127.0.0.1"

  /** A port the operating system assigns for the wildcard port 0. */
  type Port = p: int | 0 < p < 0x1_0000 witness 1

  /** An opaque net.Listener handle, bound to a loopback port. */
  datatype Listener = Listener(id: nat, port: Port)

  /** What net.Listen returned: a listener, or an error. */
  datatype ListenResult = Listened(listener: Listener) | ListenError

  predicate IsDigit(c: char) {
    '0' <= c <= '9'
  }

  predicate AllDigits(s: string) {
    forall i :: 0 <= i < |s| ==> IsDigit(s[i])
  }

  function Digit(d: nat): (c: char)
    requires d < 10
    ensures IsDigit(c)
  {
    ('0' as int + d) as char
  }

  function DigitValue(c: char): (d: nat)
    requires IsDigit(c)
    ensures d < 10
  {
    c as int - '0' as int
  }

  /** The decimal spelling of n, most significant digit first, without
      leading zeros. */
  function Decimal(n: nat): (r: string)
    ensures |r| > 0
    ensures AllDigits(r)
    ensures |r| > 1 ==> r[0] != '0'
  {
    if n < 10 then [Digit(n)] else Decimal(n / 10) + [Digit(n % 10)]
  }

  /** The number a string of decimal digits denotes. */
  function ParseDecimal(s: string): (n: nat)
    requires AllDigits(s)
  {
    if s == [] then 0 else 10 * ParseDecimal(s[..|s| - 1]) + DigitValue(s[|s| - 1])
  }

  lemma {:induction false} ParseDecimalOfDecimal(n: nat)
    ensures ParseDecimal(Decimal(n)) == n
  {
    var r := Decimal(n);
    if n >= 10 {
      assert r[..|r| - 1] == Decimal(n / 10);
      ParseDecimalOfDecimal(n / 10);
    }
  }

  /** The address string of a loopback listener, "127.0.0.1:<port>": what the
      server copies into its URL after a successful listen. */
  function Addr(port: Port): (a: string)
    ensures |a| > |LoopbackHost| + 1
    ensures a[..|LoopbackHost|] == LoopbackHost && a[|LoopbackHost|] == ':'
    ensures AllDigits(a[|LoopbackHost| + 1..])
    ensures ParseDecimal(a[|LoopbackHost| + 1..]) == port
  {
    var a := LoopbackHost + ":" + Decimal(port);
    assert a[|LoopbackHost| + 1..] == Decimal(port);
    ParseDecimalOfDecimal(port);
    a
  }

  /** Two listeners report the same address exactly when they are bound to
      the same port, so a URL identifies the port the server listens on. */
  lemma AddrInjective(p: Port, q: Port)
    ensures Addr(p) == Addr(q) <==> p == q
  {
    if Addr(p) == Addr(q) {
      var k := |LoopbackHost| + 1;
      assert Addr(p)[k..] == Decimal(p);
      assert Addr(q)[k..] == Decimal(q);
      ParseDecimalOfDecimal(p);
      ParseDecimalOfDecimal(q);
    }
  }
}
