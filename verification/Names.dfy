/** Connection names: server name, listening address and a running number,
    formatted through a fixed 64-byte buffer (src/TcpServer.cc, src/InetAddress.cc). */
module Names {

  const INT_MAX: nat := 0x7fff_ffff
  const BUF_SIZE: nat := 64

  /** Decimal rendering of %d and %u for values that are not negative. */
  function Decimal(n: nat): (s: string)
    ensures s != []
  {
    if n < 10 then ["0123456789"[n]] else Decimal(n / 10) + ["0123456789"[n % 10]]
  }

  /** What a numeral denotes. */
  function ValueOf(s: string): int {
    if s == [] then 0 else 10 * ValueOf(s[..|s| - 1]) + (s[|s| - 1] as int - '0' as int)
  }

  /** The rendering denotes the number, in digits, without leading zeros. */
  lemma {:induction false} DecimalValue(n: nat)
    ensures ValueOf(Decimal(n)) == n
    ensures forall i :: 0 <= i < |Decimal(n)| ==> '0' <= Decimal(n)[i] <= '9'
    ensures Decimal(n)[0] == '0' ==> n == 0
  {
    if n >= 10 {
      DecimalValue(n / 10);
      assert Decimal(n)[..|Decimal(n)| - 1] == Decimal(n / 10);
      assert Decimal(n)[0] == Decimal(n / 10)[0];
    } else {
      assert Decimal(n)[..0] == [];
    }
  }

  /** `snprintf` into a buffer of the given size keeps room for the terminator. */
  function Snprintf(size: nat, s: string): string
    requires size > 0
  {
    if |s| < size then s else s[..size - 1]
  }

  /** What does not fit is cut off at the end, all but the last byte filled. */
  lemma SnprintfLaw(size: nat, s: string)
    requires size > 0
    ensures Snprintf(size, s) <= s && |Snprintf(size, s)| < size
    ensures |Snprintf(size, s)| < |s| ==> |Snprintf(size, s)| == size - 1
  {
  }

  /** toIpPort: inet_ntop writes the dotted quad, snprintf the rest of the buffer. */
  function IpPort(dotted: string, port: nat): string
    requires |dotted| < BUF_SIZE
  {
    dotted + Snprintf(BUF_SIZE - |dotted|, ":" + Decimal(port))
  }

  function ConnName(server: string, ipPort: string, id: nat): string {
    server + Snprintf(BUF_SIZE, "-" + ipPort + "#" + Decimal(id))
  }

  function Pow10(k: nat): nat {
    if k == 0 then 1 else 10 * Pow10(k - 1)
  }

  lemma {:induction false} DecimalLength(n: nat, k: nat)
    requires k > 0 && n < Pow10(k)
    ensures |Decimal(n)| <= k
  {
    if n >= 10 {
      assert Pow10(1) == 10 * Pow10(0);
      DecimalLength(n / 10, k - 1);
    }
  }

  lemma {:induction false} DecimalInjective(m: nat, n: nat)
    requires Decimal(m) == Decimal(n)
    ensures m == n
  {
    var s, t := Decimal(m), Decimal(n);
    if m < 10 && n < 10 {
      assert s[0] == t[0];
    } else if m >= 10 && n >= 10 {
      assert s[..|s| - 1] == Decimal(m / 10) && t[..|t| - 1] == Decimal(n / 10);
      DecimalInjective(m / 10, n / 10);
      assert s[|s| - 1] == "0123456789"[m % 10] && t[|t| - 1] == "0123456789"[n % 10];
    }
  }

  lemma IntDigits(n: nat)
    requires n <= INT_MAX
    ensures |Decimal(n)| <= 10
  {
    assert Pow10(10) == 10_000_000_000 by { Pow10Ten(); }
    DecimalLength(n, 10);
  }

  lemma Pow10Ten()
    ensures Pow10(5) == 100_000 && Pow10(10) == 10_000_000_000
  {
    assert Pow10(3) == 1000;
    assert Pow10(5) == 100_000;
    assert Pow10(8) == 100_000_000;
  }

  /** A dotted quad and a port never fill the address buffer. */
  lemma IpPortFits(dotted: string, port: nat)
    requires |dotted| <= 15 && port < 65536
    ensures IpPort(dotted, port) == dotted + ":" + Decimal(port)
    ensures |IpPort(dotted, port)| <= 21
  {
    assert Pow10(5) == 100_000 by { Pow10Ten(); }
    DecimalLength(port, 5);
    assert dotted + (":" + Decimal(port)) == dotted + ":" + Decimal(port);
  }

  /** Every int id is rendered in full. */
  lemma NameFits(server: string, ipPort: string, id: nat)
    requires |ipPort| <= 21 && id <= INT_MAX
    ensures ConnName(server, ipPort, id) == server + ("-" + ipPort + "#" + Decimal(id))
  {
    IntDigits(id);
  }

  /** So two connections of one server never share a name. */
  lemma NamesDistinct(server: string, ipPort: string, i: nat, j: nat)
    requires |ipPort| <= 21 && i <= INT_MAX && j <= INT_MAX && i != j
    ensures ConnName(server, ipPort, i) != ConnName(server, ipPort, j)
  {
    NameFits(server, ipPort, i);
    NameFits(server, ipPort, j);
    if ConnName(server, ipPort, i) == ConnName(server, ipPort, j) {
      var prefix := server + ("-" + ipPort + "#");
      assert ConnName(server, ipPort, i) == prefix + Decimal(i);
      assert ConnName(server, ipPort, j) == prefix + Decimal(j);
      assert (prefix + Decimal(i))[|prefix|..] == Decimal(i);
      assert (prefix + Decimal(j))[|prefix|..] == Decimal(j);
      DecimalInjective(i, j);
    }
  }
}
