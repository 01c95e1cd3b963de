/** Connection names of TcpServer::newConnection and the round robin of
    EventLoopThreadPool::getNextLoop. */
module Names {
  const INT_MAX: nat := 0x7fff_ffff

  function Digit(d: nat): char
    requires d < 10
  {
    '0' + d as char
  }

  /** `%d` of a non-negative int. */
  function Decimal(n: nat): (s: string)
    ensures s != []
  {
    if n < 10 then [Digit(n)] else Decimal(n / 10) + [Digit(n % 10)]
  }

  function Parse(s: string): int {
    if s == [] then 0 else 10 * Parse(s[..|s| - 1]) + (s[|s| - 1] as int - '0' as int)
  }

  lemma {:induction false} ParseDecimal(n: nat)
    ensures Parse(Decimal(n)) == n
  {
    if n < 10 {
      assert Decimal(n)[..0] == [];
    } else {
      ParseDecimal(n / 10);
      var s := Decimal(n);
      assert s[..|s| - 1] == Decimal(n / 10);
    }
  }

  function Pow10(k: nat): nat {
    if k == 0 then 1 else 10 * Pow10(k - 1)
  }

  lemma {:induction false} DecimalLength(n: nat, k: nat)
    requires k > 0 && n < Pow10(k)
    ensures |Decimal(n)| <= k
  {
    if n >= 10 {
      DecimalLength(n / 10, k - 1);
    }
  }

  /** snprintf into 64 bytes keeps at most 63 characters. */
  function Snprintf64(s: string): string {
    if |s| <= 63 then s else s[..63]
  }

  function ConnName(server: string, ipPort: string, id: nat): string {
    server + Snprintf64("-" + ipPort + "#" + Decimal(id))
  }

  predicate IsConnId(id: nat) {
    1 <= id <= INT_MAX
  }

  lemma IdLength(id: nat)
    requires IsConnId(id)
    ensures |Decimal(id)| <= 10
  {
    assert Pow10(10) == 10_000_000_000 by {
      assert Pow10(5) == 100_000;
    }
    DecimalLength(id, 10);
  }

  /** With an address of at most 51 characters nothing is cut, and the name gives the id. */
  lemma NamesInjective(server: string, ipPort: string, i: nat, j: nat)
    requires |ipPort| <= 51 && IsConnId(i) && IsConnId(j)
    ensures ConnName(server, ipPort, i) == server + ("-" + ipPort + "#" + Decimal(i))
    ensures ConnName(server, ipPort, i) == ConnName(server, ipPort, j) <==> i == j
  {
    IdLength(i);
    IdLength(j);
    var head := "-" + ipPort + "#";
    var (a, b) := (head + Decimal(i), head + Decimal(j));
    if ConnName(server, ipPort, i) == ConnName(server, ipPort, j) {
      assert (server + a)[|server|..] == a && (server + b)[|server|..] == b;
      assert a[|head|..] == Decimal(i) && b[|head|..] == Decimal(j);
      ParseDecimal(i);
      ParseDecimal(j);
    }
  }

  /** With a longer one two ids that differ in their tenth digit share a name. */
  lemma LongAddressCollides(server: string, ipPort: string)
    requires |ipPort| > 51
    ensures ConnName(server, ipPort, 1_000_000_000) == ConnName(server, ipPort, 1_000_000_001)
  {
    var head := "-" + ipPort + "#";
    var common := Decimal(100_000_000);
    assert Decimal(1_000_000_000) == common + ['0'];
    assert Decimal(1_000_000_001) == common + ['1'];
    assert |common| == 9 by {
      assert |Decimal(10_000)| == 5;
    }
    assert head + (common + ['0']) == (head + common) + ['0'];
    assert head + (common + ['1']) == (head + common) + ['1'];
    assert |head + common| >= 63;
  }

  /** Names are pairwise distinct over every id exactly when the listening address has at
      most 51 characters.  toIpPort writes no more: the address takes at most
      INET6_ADDRSTRLEN - 1 = 45 of them, and the port six. */
  lemma NamesDistinctIff(server: string, ipPort: string)
    ensures (forall i, j :: IsConnId(i) && IsConnId(j) && i != j ==>
               ConnName(server, ipPort, i) != ConnName(server, ipPort, j))
            <==> |ipPort| <= 51
  {
    if |ipPort| <= 51 {
      forall i, j | IsConnId(i) && IsConnId(j) && i != j
        ensures ConnName(server, ipPort, i) != ConnName(server, ipPort, j)
      {
        NamesInjective(server, ipPort, i, j);
      }
    } else {
      LongAddressCollides(server, ipPort);
      assert IsConnId(1_000_000_000) && IsConnId(1_000_000_001);
    }
  }

  // ----- round robin

  /** `next_` after a call, over n started loops. */
  function Advance(next: nat, n: nat): nat {
    if next + 1 >= n then 0 else next + 1
  }

  /** `next_` after m calls. */
  function NextAfter(m: nat, n: nat): nat {
    if m == 0 then 0 else Advance(NextAfter(m - 1, n), n)
  }

  /** How often m calls chose loop i. */
  function Chosen(m: nat, n: nat, i: nat): nat {
    if m == 0 then 0 else Chosen(m - 1, n, i) + if NextAfter(m - 1, n) == i then 1 else 0
  }

  /** m calls make some whole rounds and one partial round: m == rounds * n + NextAfter(m, n). */
  function Rounds(m: nat, n: nat): nat {
    if m == 0 then 0 else Rounds(m - 1, n) + if NextAfter(m, n) == 0 then 1 else 0
  }

  lemma {:induction false} WholeRounds(m: nat, n: nat, i: nat)
    requires i < n
    ensures NextAfter(m, n) < n && m == Rounds(m, n) * n + NextAfter(m, n)
    ensures Chosen(m, n, i) == Rounds(m, n) + if i < NextAfter(m, n) then 1 else 0
  {
    if m > 0 {
      WholeRounds(m - 1, n, i);
      if NextAfter(m, n) == 0 {
        assert Rounds(m, n) * n == Rounds(m - 1, n) * n + n;
      }
    }
  }

  lemma Quotient(d: nat, q: nat, r: nat)
    requires r < d
    ensures (q * d + r) / d == q
  {
    var u := q * d + r;
    SameQuotient(d, q, u / d, r, u % d);
  }

  lemma Remainder(d: nat, q: nat, r: nat)
    requires r < d
    ensures (q * d + r) % d == r
  {
    Quotient(d, q, r);
    var u := q * d + r;
    assert u == d * (u / d) + u % d;
  }

  lemma SameQuotient(d: nat, a: int, b: int, r: nat, s: nat)
    requires a * d + r == b * d + s && r < d && s < d
    ensures a == b
  {
    if a > b {
      AtLeastOnce(d, a - b);
    } else if a < b {
      AtLeastOnce(d, b - a);
    }
  }

  lemma AtLeastOnce(d: nat, k: int)
    requires k >= 1
    ensures k * d >= d
  {
    assert k * d == d + (k - 1) * d;
  }

  /** Fairness: of m calls over n loops, loop i gets (m + n - 1 - i) / n. */
  lemma RoundRobinShare(m: nat, n: nat, i: nat)
    requires i < n
    ensures Chosen(m, n, i) == (m + n - 1 - i) / n
  {
    WholeRounds(m, n, i);
    var q, r := Rounds(m, n), NextAfter(m, n);
    if i < r {
      assert m + n - 1 - i == (q + 1) * n + (r - 1 - i);
      Quotient(n, q + 1, r - 1 - i);
    } else {
      assert m + n - 1 - i == q * n + (n - 1 - (i - r));
      Quotient(n, q, n - 1 - (i - r));
    }
  }

  /** Call m takes the loop with index m modulo n. */
  lemma NextIsModulo(m: nat, n: nat)
    requires n > 0
    ensures NextAfter(m, n) == m % n
  {
    WholeRounds(m, n, 0);
    Remainder(n, Rounds(m, n), NextAfter(m, n));
  }

  class EventLoopThreadPool {
    const loops: seq<nat>     // the I/O loops; the base loop is 0
    var next: nat
    ghost var calls: nat

    ghost predicate Valid()
      reads this
    {
      |loops| > 0 ==> next == NextAfter(calls, |loops|) < |loops|
    }

    constructor (loops: seq<nat>)
      ensures Valid() && this.loops == loops && calls == 0
    {
      this.loops, next, calls := loops, 0, 0;
    }

    method GetNextLoop() returns (loop: nat)
      requires Valid()
      modifies this
      ensures Valid() && calls == old(calls) + 1
      ensures loop == if |loops| == 0 then 0 else loops[old(calls) % |loops|]
    {
      loop := 0;
      if loops != [] {
        NextIsModulo(calls, |loops|);
        loop := loops[next];
        next := next + 1;
        if next >= |loops| {
          next := 0;
        }
      }
      calls := calls + 1;
    }
  }
}
