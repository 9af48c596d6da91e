/** Connection names: `TcpServer::newConnection` prints "-<ipPort>#<id>" into a
    64-byte buffer and appends it to the server name. */
module Naming {
  /** Room for characters in `char buf[64]`. */
  const NAME_ROOM: nat := 63
  const INT_MAX: nat := 0x7FFF_FFFF

  function Digit(d: nat): char
    requires d < 10
  {
    '0' + d as char
  }

  /** `%d` of a non-negative int. */
  function Decimal(n: nat): (s: string)
    ensures s != []
  {
    if n < 10 then [Digit(n)] else Decimal(n / 10) + [Digit(n % 10)]
  }

  function Value(s: string): nat {
    if s == [] then 0
    else 10 * Value(s[..|s| - 1]) + if '0' <= s[|s| - 1] <= '9' then (s[|s| - 1] - '0') as nat else 0
  }

  lemma {:induction false} DecimalRoundTrip(n: nat)
    ensures Value(Decimal(n)) == n
  {
    if n < 10 {
      assert [Digit(n)][..0] == [];
    } else {
      DecimalRoundTrip(n / 10);
      assert Decimal(n)[..|Decimal(n)| - 1] == Decimal(n / 10);
    }
  }

  function Pow10(k: nat): nat {
    if k == 0 then 1 else 10 * Pow10(k - 1)
  }

  lemma {:induction false} DecimalLength(n: nat, k: nat)
    requires k > 0
    ensures |Decimal(n)| <= k <==> n < Pow10(k)
  {
    if n >= 10 && k > 1 {
      DecimalLength(n / 10, k - 1);
    } else if n < 10 {
      Pow10Grows(k);
    } else {
      assert Pow10(1) == 10 * Pow10(0) == 10;
    }
  }

  lemma {:induction false} Pow10Grows(k: nat)
    requires k > 0
    ensures Pow10(k) >= 10
  {
    if k == 1 {
      assert Pow10(0) == 1;
    } else {
      Pow10Grows(k - 1);
    }
  }

  /** What `snprintf` leaves in the buffer. */
  function Clipped(s: string): string {
    if |s| <= NAME_ROOM then s else s[..NAME_ROOM]
  }

  function ConnName(server: string, ipPort: string, id: nat): string {
    server + Clipped("-" + ipPort + "#" + Decimal(id))
  }

  lemma TenDigits()
    ensures Pow10(9) == 1_000_000_000 && Pow10(10) == 10_000_000_000
  {
    assert Pow10(3) == 1000 && Pow10(6) == 1_000_000;
    assert Pow10(7) == 10 * Pow10(6) && Pow10(8) == 10 * Pow10(7) && Pow10(9) == 10 * Pow10(8);
  }

  /** With an address of at most 51 characters nothing is cut off. */
  lemma NothingClipped(server: string, ipPort: string, id: nat)
    requires |ipPort| <= 51 && id <= INT_MAX
    ensures ConnName(server, ipPort, id) == server + ("-" + ipPort + "#" + Decimal(id))
  {
    TenDigits();
    DecimalLength(id, 10);
  }

  lemma NameDeterminesId(server: string, ipPort: string, i: nat, j: nat)
    requires |ipPort| <= 51 && i <= INT_MAX && j <= INT_MAX
    requires ConnName(server, ipPort, i) == ConnName(server, ipPort, j)
    ensures i == j
  {
    hide ConnName, Decimal, Value;
    NothingClipped(server, ipPort, i);
    NothingClipped(server, ipPort, j);
    var prefix := server + ("-" + ipPort + "#");
    assert server + ("-" + ipPort + "#" + Decimal(i)) == prefix + Decimal(i);
    assert server + ("-" + ipPort + "#" + Decimal(j)) == prefix + Decimal(j);
    SameTail(prefix, Decimal(i), Decimal(j));
    DecimalRoundTrip(i);
    DecimalRoundTrip(j);
  }

  lemma SameTail(prefix: string, a: string, b: string)
    requires prefix + a == prefix + b
    ensures a == b
  {
    assert a == (prefix + a)[|prefix|..];
    assert b == (prefix + b)[|prefix|..];
  }

  /** A longer address cuts off the last digit of the ten-digit ids. */
  lemma LongAddressCollides(server: string, ipPort: string)
    requires |ipPort| > 51
    ensures ConnName(server, ipPort, 1_000_000_000) == ConnName(server, ipPort, 1_000_000_001)
  {
    var head, nine := "-" + ipPort + "#", Decimal(100_000_000);
    TenDigits();
    DecimalLength(100_000_000, 9);
    assert Pow10(8) == 100_000_000;
    DecimalLength(100_000_000, 8);
    assert Decimal(1_000_000_000) == nine + [Digit(0)] && Decimal(1_000_000_001) == nine + [Digit(1)];
    assert head + (nine + [Digit(0)]) == (head + nine) + [Digit(0)];
    assert head + (nine + [Digit(1)]) == (head + nine) + [Digit(1)];
    assert |head + nine| >= NAME_ROOM;
    assert ((head + nine) + [Digit(0)])[..NAME_ROOM] == (head + nine)[..NAME_ROOM];
    assert ((head + nine) + [Digit(1)])[..NAME_ROOM] == (head + nine)[..NAME_ROOM];
  }

  /** Names are distinct for all ids an int can hold if and only if the printed
      address has at most 51 characters. "255.255.255.255:65535" has 21. */
  lemma NamesDistinctIff(server: string, ipPort: string)
    ensures (forall i: nat, j: nat :: i < j <= INT_MAX ==> ConnName(server, ipPort, i) != ConnName(server, ipPort, j))
       <==> |ipPort| <= 51
  {
    if |ipPort| <= 51 {
      forall i: nat, j: nat | i < j <= INT_MAX
        ensures ConnName(server, ipPort, i) != ConnName(server, ipPort, j)
      {
        if ConnName(server, ipPort, i) == ConnName(server, ipPort, j) {
          NameDeterminesId(server, ipPort, i, j);
        }
      }
    } else {
      LongAddressCollides(server, ipPort);
      var i, j := 1_000_000_000, 1_000_000_001;
      assert i < j <= INT_MAX && ConnName(server, ipPort, i) == ConnName(server, ipPort, j);
    }
  }
}
