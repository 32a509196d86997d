/** The address a listener binds: its textual forms, their parser and the printer
    (src/config/listener.rs). */
module ListenOn {
  import opened Wrappers
  import opened Text

  type Octet = n: nat | n < 0x100

  type Port = n: nat | n < 0x1_0000

  datatype Ipv4 = Ipv4(a: Octet, b: Octet, c: Octet, d: Octet)

  datatype ListenOn = ListenOn(ip: Ipv4, port: Port)

  datatype ParseError = InvalidPort(token: string) | InvalidIp | PortZero | NotIpPort

  const ANY_IP: Ipv4 := Ipv4(0, 0, 0, 0)

  function New(ip: Ipv4, port: Port): Result<ListenOn, ParseError> {
    if port > 0 then Success(ListenOn(ip, port)) else Failure(PortZero)
  }

  /** One number of a dotted quad: up to three digits, no leading zero, below 256. */
  function ParseOctet(s: string): Option<Octet> {
    if s == "" || |s| > 3 || !AllDigits(s) || (|s| > 1 && s[0] == '0') then None
    else if DecimalValue(s) >= 0x100 then None
    else Some(DecimalValue(s))
  }

  function ParseIp(s: string): Option<Ipv4> {
    var parts := Split(s, '.');
    if |parts| != 4 then None
    else
      match (ParseOctet(parts[0]), ParseOctet(parts[1]), ParseOctet(parts[2]), ParseOctet(parts[3]))
      case (Some(a), Some(b), Some(c), Some(d)) => Some(Ipv4(a, b, c, d))
      case _ => None
  }

  function Parse(v: string): Result<ListenOn, ParseError> {
    var parts := Split(Trim(v), ':');
    if |parts| == 1 then
      match ParseUnsigned(parts[0], 0xFFFF)
      case None => Failure(InvalidPort(parts[0]))
      case Some(port) => New(ANY_IP, port)
    else if |parts| == 2 then
      match ParseUnsigned(parts[1], 0xFFFF)
      case None => Failure(InvalidPort(parts[1]))
      case Some(port) =>
        if parts[0] == "" || parts[0] == "*" then New(ANY_IP, port)
        else
          match ParseIp(parts[0])
          case None => Failure(InvalidIp)
          case Some(ip) => New(ip, port)
    else Failure(NotIpPort)
  }

  function PrintIp(ip: Ipv4): string {
    Decimal(ip.a) + "." + (Decimal(ip.b) + "." + (Decimal(ip.c) + "." + Decimal(ip.d)))
  }

  function Print(x: ListenOn): string {
    PrintIp(x.ip) + ":" + Decimal(x.port)
  }

  lemma OctetRoundTrip(n: Octet)
    ensures ParseOctet(Decimal(n)) == Some(n)
    ensures '.' !in Decimal(n) && ':' !in Decimal(n)
  {
    DecimalRoundTrip(n);
    if n >= 10 {
      DecimalRoundTrip(n / 10);
      DecimalRoundTrip(n / 10 / 10);
      assert n / 10 / 10 < 10;
    }
  }

  lemma IpParts(ip: Ipv4)
    ensures Split(PrintIp(ip), '.') == [Decimal(ip.a), Decimal(ip.b), Decimal(ip.c), Decimal(ip.d)]
  {
    OctetRoundTrip(ip.a);
    OctetRoundTrip(ip.b);
    OctetRoundTrip(ip.c);
    OctetRoundTrip(ip.d);
    var cd := Decimal(ip.c) + "." + Decimal(ip.d);
    var bcd := Decimal(ip.b) + "." + cd;
    SplitAtFirst(Decimal(ip.a), '.', bcd);
    SplitAtFirst(Decimal(ip.b), '.', cd);
    SplitAtFirst(Decimal(ip.c), '.', Decimal(ip.d));
    SplitWithout(Decimal(ip.d), '.');
    assert PrintIp(ip) == Decimal(ip.a) + "." + bcd;
  }

  lemma IpRoundTrip(ip: Ipv4)
    ensures ParseIp(PrintIp(ip)) == Some(ip)
    ensures ':' !in PrintIp(ip)
  {
    IpParts(ip);
    OctetRoundTrip(ip.a);
    OctetRoundTrip(ip.b);
    OctetRoundTrip(ip.c);
    OctetRoundTrip(ip.d);
  }

  lemma {:induction false} TrimKeeps(s: string)
    requires Trimmed(s)
    ensures Trim(s) == s
  {
  }

  lemma PrintedIsTrimmed(x: ListenOn)
    ensures Trim(Print(x)) == Print(x)
  {
    var a, port := Decimal(x.ip.a), Decimal(x.port);
    DecimalRoundTrip(x.ip.a);
    DecimalRoundTrip(x.port);
    var s := Print(x);
    assert s[0] == a[0] && IsDigit(a[0]);
    assert s[|s| - 1] == port[|port| - 1] && IsDigit(port[|port| - 1]);
    TrimKeeps(s);
  }

  lemma PrintedParts(x: ListenOn)
    ensures Split(Print(x), ':') == [PrintIp(x.ip), Decimal(x.port)]
  {
    IpRoundTrip(x.ip);
    DecimalRoundTrip(x.port);
    SplitAtFirst(PrintIp(x.ip), ':', Decimal(x.port));
    SplitWithout(Decimal(x.port), ':');
  }

  /** Printing an address and reading it back gives the address exactly when its port is usable. */
  lemma RoundTrip(x: ListenOn)
    ensures Parse(Print(x)) == Success(x) <==> x.port > 0
    ensures x.port == 0 ==> Parse(Print(x)) == Failure(PortZero)
  {
    PrintedIsTrimmed(x);
    PrintedParts(x);
    IpRoundTrip(x.ip);
    ParseUnsignedReadsDecimal(x.port, 0xFFFF);
    assert |PrintIp(x.ip)| > 1;
  }

  /** Digits without a leading zero. */
  ghost predicate IsPlain(s: string, n: nat) {
    s != "" && AllDigits(s) && (|s| == 1 || s[0] != '0') && DecimalValue(s) == n
  }

  /** An address is printed as four plain numbers with dots between, a colon, and a plain port. */
  lemma PrintedForm(x: ListenOn)
    ensures exists a, b, c, d, port ::
              && Print(x) == a + "." + (b + "." + (c + "." + d)) + ":" + port
              && IsPlain(a, x.ip.a) && IsPlain(b, x.ip.b) && IsPlain(c, x.ip.c) && IsPlain(d, x.ip.d)
              && IsPlain(port, x.port)
  {
    PlainDecimal(x.ip.a);
    PlainDecimal(x.ip.b);
    PlainDecimal(x.ip.c);
    PlainDecimal(x.ip.d);
    PlainDecimal(x.port);
  }

  lemma PlainDecimal(n: nat)
    ensures IsPlain(Decimal(n), n)
  {
    DecimalRoundTrip(n);
  }

  /** Whatever text was accepted, the address has a usable port and its printed form is another
      spelling of it. */
  lemma AcceptedIsPrintable(v: string)
    requires Parse(v).Success?
    ensures 1 <= Parse(v).value.port <= 65535
    ensures Parse(Print(Parse(v).value)) == Parse(v)
  {
    RoundTrip(Parse(v).value);
  }

  /** A bare port, a port after a colon and a port after a star are one address on all
      interfaces; they are rejected together too, for the same reason. */
  lemma WildcardForms(p: string)
    requires ':' !in p && Trimmed(p)
    ensures Parse(p) == Parse(":" + p) == Parse("*:" + p)
    ensures Parse(p).Success? ==> Parse(p).value.ip == ANY_IP
  {
    TrimKeeps(p);
    SplitWithout(p, ':');
    assert ":" + p == "" + [':'] + p;
    SplitAtFirst("", ':', p);
    assert "*:" + p == "*" + [':'] + p;
    SplitAtFirst("*", ':', p);
    TrimKeeps(":" + p);
    TrimKeeps("*:" + p);
  }

  /** The accepted spellings of a port on all interfaces. */
  lemma WildcardPort(port: Port)
    requires port > 0
    ensures Parse(Decimal(port)) == Success(ListenOn(ANY_IP, port))
    ensures Parse(":" + Decimal(port)) == Success(ListenOn(ANY_IP, port))
    ensures Parse("*:" + Decimal(port)) == Success(ListenOn(ANY_IP, port))
  {
    var p := Decimal(port);
    DecimalRoundTrip(port);
    assert IsDigit(p[0]) && IsDigit(p[|p| - 1]);
    ParseUnsignedReadsDecimal(port, 0xFFFF);
    TrimKeeps(p);
    SplitWithout(p, ':');
    WildcardForms(p);
  }

  lemma OctetIsCanonical(s: string)
    requires ParseOctet(s).Some?
    ensures s == Decimal(ParseOctet(s).value)
  {
    DecimalIsCanonical(s);
  }

  /** A dotted quad is accepted only in the form it is printed in. */
  lemma IpExactly(s: string, ip: Ipv4)
    ensures ParseIp(s) == Some(ip) <==> s == PrintIp(ip)
  {
    IpRoundTrip(ip);
    if ParseIp(s) == Some(ip) {
      var parts := Split(s, '.');
      OctetIsCanonical(parts[0]);
      OctetIsCanonical(parts[1]);
      OctetIsCanonical(parts[2]);
      OctetIsCanonical(parts[3]);
      SplitJoins(s, '.');
      assert parts[1..][1..] == parts[2..] && parts[2..][1..] == parts[3..];
      assert Join(parts[3..], '.') == parts[3];
      assert Join(parts[2..], '.') == parts[2] + "." + parts[3];
      assert Join(parts[1..], '.') == parts[1] + "." + (parts[2] + "." + parts[3]);
    }
  }

  /** A host and a port: none or a star for all interfaces, or a dotted quad. */
  ghost predicate IsHostAndPort(s: string, host: string, port: string, x: ListenOn) {
    && s == host + ":" + port && IsNumber(port, x.port)
    && ((host in {"", "*"} && x.ip == ANY_IP) || host == PrintIp(x.ip))
  }

  lemma NumberHasNoColon(s: string, n: nat)
    requires IsNumber(s, n)
    ensures ':' !in s
  {
  }

  /** A text is read as an address exactly if, but for white space around it, it is the number of a usable
      port, on all interfaces, or such a number after a host and a colon. Everything else is rejected. */
  lemma ParsedExactly(v: string, x: ListenOn)
    ensures Parse(v) == Success(x) <==>
            && x.port > 0
            && ((x.ip == ANY_IP && IsNumber(Trim(v), x.port))
                || exists host, port :: IsHostAndPort(Trim(v), host, port, x))
  {
    var s := Trim(v);
    if Parse(v) == Success(x) {
      AcceptedHasForm(v, x);
    }
    if x.port > 0 && x.ip == ANY_IP && IsNumber(s, x.port) {
      NumberHasNoColon(s, x.port);
      SplitWithout(s, ':');
      ParseUnsignedExactly(s, 0xFFFF, x.port);
    }
    if host, port :| x.port > 0 && IsHostAndPort(s, host, port, x) {
      NumberHasNoColon(port, x.port);
      IpExactly(host, x.ip);
      IpRoundTrip(x.ip);
      assert |PrintIp(x.ip)| > 1;
      SplitAtFirst(host, ':', port);
      SplitWithout(port, ':');
      ParseUnsignedExactly(port, 0xFFFF, x.port);
    }
  }

  lemma AcceptedHasForm(v: string, x: ListenOn)
    requires Parse(v) == Success(x)
    ensures x.port > 0
    ensures (x.ip == ANY_IP && IsNumber(Trim(v), x.port)) || exists host, port :: IsHostAndPort(Trim(v), host, port, x)
  {
    var s := Trim(v);
    var parts := Split(s, ':');
    SplitJoins(s, ':');
    if |parts| == 1 {
      ParseUnsignedExactly(s, 0xFFFF, x.port);
    } else {
      assert parts[1..] == [parts[1]];
      ParseUnsignedExactly(parts[1], 0xFFFF, x.port);
      IpExactly(parts[0], x.ip);
      assert IsHostAndPort(s, parts[0], parts[1], x);
    }
  }
}
