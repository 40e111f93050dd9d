/** Pool names as text: <protocol>-<port>-<nodePort>. */
module PoolNames {
  import opened Text
  import opened Remote

  datatype NameFields = NameFields(protocol: string, port: int, nodePort: int)

  /** What a pool is renamed to in memory once its deletion is planned. */
  const POOL_TO_BE_DELETED := "POOL-TO-BE-DELETED"

  /** genLoadBalancerPoolName */
  function GenText(protocol: string, port: int, nodePort: int): string {
    ToLower(protocol) + "-" + DecimalInt(port) + "-" + DecimalInt(nodePort)
  }

  /** extractProtocolPortsFromPoolName; None stands for its error returns. */
  function ExtractFields(name: string): Option<NameFields> {
    var pool := Split(name, '-');
    if |pool| != 3 then None
    else if pool[0] != "tcp" && pool[0] != "udp" then None
    else
      match (Atoi(pool[1]), Atoi(pool[2]))
      case (Some(port), Some(nodePort)) => Some(NameFields(pool[0], port, nodePort))
      case _ => None
  }

  lemma {:induction false} SplitSingle(s: string, sep: char)
    ensures |Split(s, sep)| == 1 <==> sep !in s
  {
    if s != "" {
      SplitSingle(s[1..], sep);
      assert s == [s[0]] + s[1..];
    }
  }

  lemma SplitNumber(n: int)
    ensures n >= 0 ==> Split(DecimalInt(n), '-') == [DecimalInt(n)]
    ensures n < 0 ==> |Split(DecimalInt(n), '-')| == 2
  {
    if n >= 0 {
      assert '-' !in Decimal(n);
      SplitWhole(Decimal(n), '-');
    } else {
      assert '-' !in Decimal(-n);
      SplitWhole(Decimal(-n), '-');
      assert ("-" + Decimal(-n))[1..] == Decimal(-n);
    }
  }

  predicate Generable(protocol: string, port: int, nodePort: int) {
    ToLower(protocol) in {"tcp", "udp"} && port >= 0 && nodePort >= 0
  }

  lemma SplitName(p: string, a: string, b: string)
    ensures Split(p + "-" + a + "-" + b, '-') == Split(p, '-') + Split(a, '-') + Split(b, '-')
  {
    hide Split;
    assert p + "-" + a + "-" + b == (p + "-" + a) + ['-'] + b;
    SplitConcat(p + "-" + a, b, '-');
    assert p + "-" + a == p + ['-'] + a;
    SplitConcat(p, a, '-');
  }

  lemma NumberIsRead(n: int)
    requires 0 <= n <= MAX_INT64
    ensures Atoi(DecimalInt(n)) == Some(n)
  {
    AtoiSigned(n);
  }

  /** Parsing a generated name gives the lower-cased protocol and the two ports back, exactly for TCP and
      UDP with non-negative numbers; every other generated name is rejected. */
  lemma NameRoundTrip(protocol: string, port: int, nodePort: int)
    requires port <= MAX_INT64 && nodePort <= MAX_INT64
    ensures ExtractFields(GenText(protocol, port, nodePort)) ==
            if Generable(protocol, port, nodePort) then Some(NameFields(ToLower(protocol), port, nodePort)) else None
  {
    hide Atoi, DecimalInt, Split, ToLower;
    var p := ToLower(protocol);
    SplitName(p, DecimalInt(port), DecimalInt(nodePort));
    SplitSingle(p, '-');
    if '-' !in p { SplitWhole(p, '-'); }
    SplitNumber(port);
    SplitNumber(nodePort);
    if port >= 0 { NumberIsRead(port); }
    if nodePort >= 0 { NumberIsRead(nodePort); }
  }

  lemma MarkerDoesNotParse()
    ensures ExtractFields(POOL_TO_BE_DELETED).None?
  {
    var rest := "BE" + ['-'] + "DELETED";
    assert POOL_TO_BE_DELETED == "POOL" + ['-'] + ("TO" + ['-'] + rest);
    SplitConcat("POOL", "TO" + ['-'] + rest, '-');
    SplitConcat("TO", rest, '-');
    SplitConcat("BE", "DELETED", '-');
  }

  lemma GeneratedEndsInDigit(protocol: string, port: int, nodePort: int)
    ensures var name := GenText(protocol, port, nodePort); name != "" && IsDigit(name[|name| - 1])
  {
    var name := GenText(protocol, port, nodePort);
    var digits := if nodePort < 0 then Decimal(-nodePort) else Decimal(nodePort);
    assert name[|name| - 1] == digits[|digits| - 1];
  }

  /** The deletion marker is no pool name: it does not parse, and no name is generated equal to it. */
  lemma MarkerIsNoName(protocol: string, port: int, nodePort: int)
    ensures ExtractFields(POOL_TO_BE_DELETED).None?
    ensures GenText(protocol, port, nodePort) != POOL_TO_BE_DELETED
  {
    hide GenText, ExtractFields;
    MarkerDoesNotParse();
    GeneratedEndsInDigit(protocol, port, nodePort);
    assert !IsDigit(POOL_TO_BE_DELETED[|POOL_TO_BE_DELETED| - 1]);
  }

  // ----- names of the model -----

  function ProtocolText(p: Protocol): string {
    if p.TCP? then "tcp" else "udp"
  }

  /** The text of a pool name. */
  function Show(n: PoolName): string {
    GenText(ProtocolText(n.protocol), n.port, n.nodePort)
  }

  lemma ThreeDigits(n: nat, a: nat, b: nat, c: nat)
    requires 0 < a < 10 && b < 10 && c < 10 && n == 100 * a + 10 * b + c
    ensures Decimal(10 * a + b) == [Digit(a), Digit(b)] && Decimal(n) == [Digit(a), Digit(b), Digit(c)]
  {
    assert Decimal(a) == [Digit(a)];
    assert n / 10 == 10 * a + b && n % 10 == c;
  }

  /** How names look. */
  lemma NamesLookLikeThis()
    ensures Show(PoolName(TCP, 80, 443)) == GenText("TCP", 80, 443) == "tcp-80-443"
    ensures Show(PoolName(UDP, 53, 531)) == GenText("UDP", 53, 531) == "udp-53-531"
  {
    ThreeDigits(801, 8, 0, 1);
    ThreeDigits(443, 4, 4, 3);
    ThreeDigits(531, 5, 3, 1);
    hide Decimal;
    assert ToLower("tcp") == "tcp" && ToLower("udp") == "udp" && ToLower("TCP") == "tcp" && ToLower("UDP") == "udp";
    hide ToLower;
    assert DecimalInt(80) == "80" && DecimalInt(443) == "443" && DecimalInt(53) == "53" && DecimalInt(531) == "531";
  }

  lemma ProtocolTextFacts()
    ensures ToLower("tcp") == "tcp" && ToLower("udp") == "udp" && ToLower("TCP") == "tcp"
  {
    assert ToLower("tcp") == "tcp";
    assert ToLower("udp") == "udp";
    assert ToLower("TCP") == "tcp";
  }

  lemma ExtractShow(n: PoolName)
    ensures ExtractFields(Show(n)) == Some(NameFields(ProtocolText(n.protocol), n.port, n.nodePort))
    ensures Show(n) != POOL_TO_BE_DELETED
  {
    ProtocolTextFacts();
    NameRoundTrip(ProtocolText(n.protocol), n.port, n.nodePort);
    MarkerIsNoName(ProtocolText(n.protocol), n.port, n.nodePort);
  }

  /** Distinct names have distinct texts. */
  lemma ShowInjective(m: PoolName, n: PoolName)
    requires Show(m) == Show(n)
    ensures m == n
  {
    ExtractShow(m);
    ExtractShow(n);
  }

  lemma ShowIsToken(n: PoolName)
    ensures Token(Show(n))
  {
    ProtocolTextFacts();
    var p, a, b := ProtocolText(n.protocol), Decimal(n.port), Decimal(n.nodePort);
    var s := p + "-" + a + "-" + b;
    assert Show(n) == s;
    forall i | 0 <= i < |s| ensures !IsSpace(s[i]) {
      if |p| < i < |p| + 1 + |a| {
        assert s[i] == a[i - |p| - 1] && IsDigit(a[i - |p| - 1]);
      } else if i > |p| + 1 + |a| {
        assert s[i] == b[i - |p| - |a| - 2] && IsDigit(b[i - |p| - |a| - 2]);
      }
    }
  }
}
