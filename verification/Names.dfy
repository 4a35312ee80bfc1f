/** Connection names: the server's name, then "-ip:port#number" printed into a
    buffer of 64 characters. */
module Names {

  const BUFFER_SIZE: nat := 64
  const MAX_INT: nat := 0x7FFF_FFFF

  function Digit(d: nat): char
    requires d < 10
  {
    "0123456789"[d]
  }

  /** Decimal printing without leading zeros. */
  function Decimal(n: nat): (s: string)
    ensures |s| >= 1
  {
    if n < 10 then [Digit(n)] else Decimal(n / 10) + [Digit(n % 10)]
  }

  function DigitValue(d: char): int {
    d as int - '0' as int
  }

  /** The number a text of digits stands for. */
  function Value(s: string): int {
    if s == [] then 0 else 10 * Value(s[..|s| - 1]) + DigitValue(s[|s| - 1])
  }

  lemma DigitIs(d: nat)
    requires d < 10
    ensures DigitValue(Digit(d)) == d
  {
    var digits := "0123456789";
    assert digits[d] as int == '0' as int + d;
  }

  /** The text of a number is read back as it, and has no leading zero. */
  lemma {:induction false} DecimalReadsBack(n: nat)
    ensures Value(Decimal(n)) == n
    ensures n > 0 ==> Decimal(n)[0] != '0'
  {
    DigitIs(n % 10);
    var s := Decimal(n);
    if n >= 10 {
      DecimalReadsBack(n / 10);
      assert s[..|s| - 1] == Decimal(n / 10);
    } else {
      assert s[..0] == [] && Value([]) == 0;
    }
  }

  lemma {:induction false} DecimalInjective(a: nat, b: nat)
    requires Decimal(a) == Decimal(b)
    ensures a == b
  {
    assert Decimal(a)[|Decimal(a)| - 1] == Digit(a % 10);
    assert Decimal(b)[|Decimal(b)| - 1] == Digit(b % 10);
    if a >= 10 && b >= 10 {
      assert Decimal(a)[..|Decimal(a)| - 1] == Decimal(a / 10);
      assert Decimal(b)[..|Decimal(b)| - 1] == Decimal(b / 10);
      DecimalInjective(a / 10, b / 10);
    }
  }

  function Pow10(k: nat): nat {
    if k == 0 then 1 else 10 * Pow10(k - 1)
  }

  lemma {:induction false} DecimalLength(n: nat, k: nat)
    requires k >= 1 && n < Pow10(k)
    ensures |Decimal(n)| <= k
  {
    if n >= 10 {
      DecimalLength(n / 10, k - 1);
    }
  }

  /** toIpPort: dotted quad, colon, port. */
  function IpPort(a: nat, b: nat, c: nat, d: nat, port: nat): string {
    Decimal(a) + "." + Decimal(b) + "." + Decimal(c) + "." + Decimal(d) + ":" + Decimal(port)
  }

  lemma IpPortLength(a: nat, b: nat, c: nat, d: nat, port: nat)
    requires a < 256 && b < 256 && c < 256 && d < 256 && port < 65536
    ensures |IpPort(a, b, c, d, port)| <= 21
  {
    assert Pow10(3) == 1000 && Pow10(5) == 100000 by {
      assert Pow10(1) == 10 && Pow10(2) == 100 && Pow10(4) == 10000;
    }
    DecimalLength(a, 3);
    DecimalLength(b, 3);
    DecimalLength(c, 3);
    DecimalLength(d, 3);
    DecimalLength(port, 5);
  }

  /** snprintf into a buffer: the text is cut to leave room for the terminator. */
  function Printed(text: string): string {
    if |text| < BUFFER_SIZE then text else text[..BUFFER_SIZE - 1]
  }

  function ConnName(server: string, ipPort: string, number: nat): string {
    server + Printed("-" + ipPort + "#" + Decimal(number))
  }

  /** For every IPv4 endpoint and every number an int can hold, nothing is cut, so
      distinct numbers give distinct names. */
  lemma NamesUnique(server: string, ipPort: string, x: nat, y: nat)
    requires |ipPort| <= 21 && x <= MAX_INT && y <= MAX_INT
    requires ConnName(server, ipPort, x) == ConnName(server, ipPort, y)
    ensures x == y
  {
    NothingCut(ipPort, x);
    NothingCut(ipPort, y);
    var prefix := server + ("-" + ipPort + "#");
    assert ConnName(server, ipPort, x) == prefix + Decimal(x);
    assert ConnName(server, ipPort, y) == prefix + Decimal(y);
    assert Decimal(x) == (prefix + Decimal(x))[|prefix|..] == (prefix + Decimal(y))[|prefix|..] == Decimal(y);
    DecimalInjective(x, y);
  }

  lemma NothingCut(ipPort: string, number: nat)
    requires |ipPort| <= 21 && number <= MAX_INT
    ensures var text := "-" + ipPort + "#" + Decimal(number);
            Printed(text) == text && |text| <= 33
  {
    assert Pow10(10) == 10000000000 by {
      assert Pow10(3) == 1000 by {
        assert Pow10(1) == 10 && Pow10(2) == 100;
      }
      assert Pow10(4) == 10000 && Pow10(5) == 100000 && Pow10(6) == 1000000;
      assert Pow10(7) == 10000000 && Pow10(8) == 100000000 && Pow10(9) == 1000000000;
    }
    DecimalLength(number, 10);
  }

  /** The name in full. */
  lemma NameIs(server: string, ipPort: string, number: nat)
    requires |ipPort| <= 21 && number <= MAX_INT
    ensures ConnName(server, ipPort, number) == server + "-" + ipPort + "#" + Decimal(number)
  {
    NothingCut(ipPort, number);
    var text := "-" + ipPort + "#" + Decimal(number);
    assert server + text == server + "-" + ipPort + "#" + Decimal(number);
  }
}
