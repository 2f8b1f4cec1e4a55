/**
 The names TcpServer::NewConnection gives to connections, muduo-cpp11/net/tcp_server.cpp: the server's name, then
 ":host:port#id" formatted into a 32-byte buffer, which snprintf cuts after 31 characters.
 */
module ConnectionNames {
  const BUF_SIZE: nat := 32
  const INT_MAX: nat := 0x7fff_ffff

  function Pow10(d: nat): (p: nat)
    ensures p >= 1
  {
    if d == 0 then 1 else 10 * Pow10(d - 1)
  }

  function Digit(d: nat): char
    requires d < 10
  {
    "0123456789"[d]
  }

  /** %d of a non-negative number. */
  function Decimal(n: nat): string {
    if n < 10 then [Digit(n)] else Decimal(n / 10) + [Digit(n % 10)]
  }

  function Truncate(s: string): string {
    if |s| < BUF_SIZE then s else s[..BUF_SIZE - 1]
  }

  function Suffix(hostport: string, id: nat): string {
    Truncate(":" + hostport + "#" + Decimal(id))
  }

  function Name(server: string, hostport: string, id: nat): string {
    server + Suffix(hostport, id)
  }

  /** How many digits of the id fit behind the host and port. */
  function Room(hostport: string): nat
    requires |hostport| + 3 < BUF_SIZE
  {
    BUF_SIZE - 3 - |hostport|
  }

  lemma {:induction false} DecimalInjective(i: nat, j: nat)
    requires Decimal(i) == Decimal(j)
    ensures i == j
    decreases i
  {
    var a, b := Decimal(i), Decimal(j);
    assert a[|a| - 1] == Digit(i % 10) && b[|b| - 1] == Digit(j % 10);
    assert i % 10 == j % 10;
    if i >= 10 && j >= 10 {
      assert a[..|a| - 1] == Decimal(i / 10) && b[..|b| - 1] == Decimal(j / 10);
      DecimalInjective(i / 10, j / 10);
    } else {
      DecimalNonEmpty(i / 10);
      DecimalNonEmpty(j / 10);
    }
  }

  lemma DecimalNonEmpty(n: nat)
    ensures |Decimal(n)| >= 1
  {
  }

  /** A number has at most d digits exactly when it is below 10^d. */
  lemma {:induction false} DecimalLength(n: nat, d: nat)
    requires d >= 1
    ensures |Decimal(n)| <= d <==> n < Pow10(d)
    decreases n
  {
    DecimalNonEmpty(n / 10);
    if n < 10 {
      assert Pow10(d) == 10 * Pow10(d - 1);
    } else if d == 1 {
      assert Pow10(1) == 10 * Pow10(0);
    } else {
      DecimalLength(n / 10, d - 1);
      assert Pow10(d) == 10 * Pow10(d - 1);
    }
  }

  lemma {:induction false} PowerDigits(d: nat)
    ensures |Decimal(Pow10(d))| == d + 1
  {
    if d > 0 {
      PowerDigits(d - 1);
      assert Pow10(d) / 10 == Pow10(d - 1);
    } else {
      assert Pow10(0) == 1;
    }
  }

  /** As long as ids fit, the name determines the id. */
  lemma NameInjective(server: string, hostport: string, i: nat, j: nat)
    requires |hostport| + 3 < BUF_SIZE
    requires i < Pow10(Room(hostport)) && j < Pow10(Room(hostport))
    requires Name(server, hostport, i) == Name(server, hostport, j)
    ensures i == j
  {
    DecimalLength(i, Room(hostport));
    DecimalLength(j, Room(hostport));
    var head := ":" + hostport + "#";
    assert Suffix(hostport, i) == head + Decimal(i) && Suffix(hostport, j) == head + Decimal(j);
    assert Name(server, hostport, i)[|server|..] == head + Decimal(i);
    assert Name(server, hostport, j)[|server|..] == head + Decimal(j);
    assert (head + Decimal(i))[|head|..] == Decimal(i);
    assert (head + Decimal(j))[|head|..] == Decimal(j);
    DecimalInjective(i, j);
  }

  /** The first id that does not fit takes the name of an earlier connection. */
  lemma FirstCollision(server: string, hostport: string)
    requires |hostport| + 3 < BUF_SIZE
    ensures var d := Room(hostport);
            d >= 1 && Name(server, hostport, Pow10(d)) == Name(server, hostport, Pow10(d - 1))
  {
    var d := Room(hostport);
    var head := ":" + hostport + "#";
    PowerDigits(d);
    PowerDigits(d - 1);
    var long, short := Decimal(Pow10(d)), Decimal(Pow10(d - 1));
    assert Pow10(d) / 10 == Pow10(d - 1);
    assert long == short + [Digit(Pow10(d) % 10)];
    assert (head + long)[..BUF_SIZE - 1] == head + short;
  }

  /** Connections 1 to n get pairwise different names. */
  ghost predicate Distinct(server: string, hostport: string, n: nat) {
    forall i, j :: 1 <= i < j <= n ==> Name(server, hostport, i) != Name(server, hostport, j)
  }

  /**
   The names of connections 1 to n are pairwise distinct exactly when n is below 10^(29 - |host:port|). With the
   longest IPv4 host:port, 21 characters, that is fewer than 10^8 connections.
   */
  lemma NamesDistinctIff(server: string, hostport: string, n: nat)
    requires |hostport| + 3 < BUF_SIZE
    ensures Distinct(server, hostport, n) <==> n < Pow10(Room(hostport))
  {
    var d := Room(hostport);
    if n < Pow10(d) {
      forall i, j | 1 <= i < j <= n
        ensures Name(server, hostport, i) != Name(server, hostport, j)
      {
        if Name(server, hostport, i) == Name(server, hostport, j) {
          NameInjective(server, hostport, i, j);
        }
      }
    } else {
      FirstCollision(server, hostport);
      var i, j := Pow10(d - 1), Pow10(d);
      assert 1 <= i < j <= n && Name(server, hostport, i) == Name(server, hostport, j);
    }
  }

  lemma {:induction false} Pow10Grows(d: nat, e: nat)
    requires d <= e
    ensures Pow10(d) <= Pow10(e)
    decreases e
  {
    if d == e {
    } else {
      Pow10Grows(d, e - 1);
    }
  }

  /**
   next_conn_id_ is an int, so n is at most the largest int. In that range names repeat only for a host:port of 20
   characters or more; for a shorter one the counter ends first.
   */
  lemma NamesDistinctInRangeIff(server: string, hostport: string, n: nat)
    requires |hostport| + 3 < BUF_SIZE && n <= INT_MAX
    ensures Distinct(server, hostport, n) <==> |hostport| <= 19 || n < Pow10(Room(hostport))
  {
    NamesDistinctIff(server, hostport, n);
    if |hostport| <= 19 {
      Pow10Grows(10, Room(hostport));
      assert Pow10(10) == 10 * Pow10(9) && Pow10(9) == 10 * Pow10(8);
      LongestIpv4HostPort();
      assert Room("255.255.255.255:65535") == 8;
    }
  }

  /** How a name reads. */
  lemma NameExample()
    ensures Name("echo", "127.0.0.1:80", 42) == "echo:127.0.0.1:80#42"
  {
    assert Decimal(42) == Decimal(4) + [Digit(2)] == "42";
  }

  lemma LongestIpv4HostPort()
    ensures |"255.255.255.255:65535"| == 21 && Pow10(Room("255.255.255.255:65535")) == 100_000_000
  {
    assert Pow10(8) == 10 * Pow10(7) && Pow10(6) == 10 * Pow10(5) && Pow10(4) == 10 * Pow10(3);
    assert Pow10(7) == 10 * Pow10(6) && Pow10(5) == 10 * Pow10(4) && Pow10(3) == 10 * Pow10(2);
  }
}
