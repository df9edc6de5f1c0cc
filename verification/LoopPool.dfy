/** Which loop the next connection goes to, and what the connection is called. */
module LoopPool {

  // the loop number getNextLoop hands out on its k-th call (from 0), of n sub-loops numbered from 0
  function Assigned(n: nat, k: nat): nat
    requires n > 0
  {
    k % n
  }

  // EventLoopThreadPool: loops 0..n-1 of the pool, and the base loop for a pool without any
  class EventLoopThreadPool {
    const baseLoop: nat
    const loops: seq<nat>
    var next: nat
    ghost var calls: nat

    // the loop that call k of getNextLoop is answered with
    ghost function LoopOfCall(k: nat): nat {
      if loops == [] then baseLoop else loops[Assigned(|loops|, k)]
    }

    ghost predicate Valid()
      reads this
    {
      loops != [] ==> next == Assigned(|loops|, calls)
    }

    constructor (baseLoop: nat, loops: seq<nat>)
      ensures Valid() && this.baseLoop == baseLoop && this.loops == loops && calls == 0
    {
      this.baseLoop, this.loops := baseLoop, loops;
      next, calls := 0, 0;
    }

    /** Call k answers with the k-th loop, counting around; without sub-loops it is always the base loop. */
    method GetNextLoop() returns (loop: nat)
      requires Valid()
      modifies this
      ensures Valid() && calls == old(calls) + 1
      ensures loop == LoopOfCall(old(calls)) == if loops == [] then baseLoop else loops[old(calls) % |loops|]
    {
      loop := baseLoop;
      if loops != [] {
        loop := loops[next];
        next := next + 1;
        if next >= |loops| {
          next := 0;
        }
        Successor(|loops|, calls);
      }
      calls := calls + 1;
    }

    /** All loops in the order in which getNextLoop goes round them: once round the list, and around again. */
    method GetAllLoops() returns (all: seq<nat>)
      ensures all == if loops == [] then [baseLoop] else loops
      ensures forall k: nat :: LoopOfCall(k) == all[Assigned(|all|, k)]
    {
      if loops == [] {
        all := [baseLoop];
      } else {
        all := loops;
      }
    }
  }

  lemma Successor(n: nat, k: nat)
    requires n > 0
    ensures k % n + 1 < n ==> (k + 1) / n == k / n && (k + 1) % n == k % n + 1
    ensures k % n + 1 == n ==> (k + 1) / n == k / n + 1 && (k + 1) % n == 0
  {
    var q, r := k / n, k % n;
    assert k == q * n + r;
    if r + 1 < n {
      Quotient(n, k + 1, q, r + 1);
    } else {
      assert k + 1 == (q + 1) * n + 0;
      Quotient(n, k + 1, q + 1, 0);
    }
  }

  lemma Quotient(n: nat, x: nat, q: nat, r: nat)
    requires n > 0 && r < n && x == q * n + r
    ensures x % n == r && x / n == q
  {
    var p, m := x / n, x % n;
    assert (p - q) * n == r - m;
    OnlyZeroFits(p - q, n);
  }

  lemma OnlyZeroFits(d: int, n: nat)
    requires 0 - n < d * n < n
    ensures d == 0
  {
  }

  // how many of the first k calls went to loop j
  function Load(n: nat, k: nat, j: nat): nat
    requires n > 0
  {
    if k == 0 then 0 else Load(n, k - 1, j) + if Assigned(n, k - 1) == j then 1 else 0
  }

  lemma {:induction false} LoadIs(n: nat, k: nat, j: nat)
    requires j < n
    ensures Load(n, k, j) == k / n + if j < k % n then 1 else 0
  {
    if k == 0 {
      Quotient(n, 0, 0, 0);
    } else {
      LoadIs(n, k - 1, j);
      Successor(n, k - 1);
    }
  }

  /** After any number of connections no loop has been given two more than another. */
  lemma Balanced(n: nat, k: nat, i: nat, j: nat)
    requires i < n && j < n
    ensures -1 <= Load(n, k, i) - Load(n, k, j) <= 1
  {
    LoadIs(n, k, i);
    LoadIs(n, k, j);
  }

  // how many of the first k calls were answered with that loop
  function Answered(loops: seq<nat>, k: nat, loop: nat): nat
    requires loops != []
  {
    if k == 0 then 0 else Answered(loops, k - 1, loop) + if loops[(k - 1) % |loops|] == loop then 1 else 0
  }

  lemma {:induction false} AnsweredIsLoad(loops: seq<nat>, k: nat, j: nat)
    requires j < |loops| && forall a, b :: 0 <= a < b < |loops| ==> loops[a] != loops[b]
    ensures Answered(loops, k, loops[j]) == Load(|loops|, k, j)
  {
    if k > 0 {
      AnsweredIsLoad(loops, k - 1, j);
    }
  }

  /** So after any number of calls of getNextLoop no two sub-loops have been the answer a different number of times by more
      than one, and each has been the answer for every whole round. */
  lemma LoopsAreBalanced(loops: seq<nat>, k: nat, i: nat, j: nat)
    requires i < |loops| && j < |loops| && forall a, b :: 0 <= a < b < |loops| ==> loops[a] != loops[b]
    ensures -1 <= Answered(loops, k, loops[i]) - Answered(loops, k, loops[j]) <= 1
    ensures k / |loops| <= Answered(loops, k, loops[i]) <= k / |loops| + 1
  {
    AnsweredIsLoad(loops, k, i);
    AnsweredIsLoad(loops, k, j);
    LoadIs(|loops|, k, i);
    LoadIs(|loops|, k, j);
  }

  // ---------------------------------------------------------------- names

  // what snprintf leaves in newConnection's 64-byte buffer
  const NAME_ROOM: nat := 63
  const MAX_INT: nat := 0x7FFF_FFFF

  function Decimal(n: nat): (s: string)
    ensures s != [] && (|s| == 1 <==> n < 10)
  {
    if n < 10 then ["0123456789"[n]] else Decimal(n / 10) + ["0123456789"[n % 10]]
  }

  function ConnName(serverName: string, ipPort: string, id: nat): string {
    var tail := "-" + ipPort + "#" + Decimal(id);
    serverName + if |tail| <= NAME_ROOM then tail else tail[..NAME_ROOM]
  }

  lemma {:induction false} DecimalLength(n: nat, digits: nat)
    requires digits > 0 && n < Power10(digits)
    ensures |Decimal(n)| <= digits
  {
    if n >= 10 {
      DecimalLength(n / 10, digits - 1);
    }
  }

  function Power10(k: nat): nat {
    if k == 0 then 1 else 10 * Power10(k - 1)
  }

  predicate IsDigit(c: char) {
    '0' <= c <= '9'
  }

  function DigitValue(c: char): nat
    requires IsDigit(c)
  {
    c as int - '0' as int
  }

  // the number a string of digits stands for
  function Value(s: string): nat
    requires forall i :: 0 <= i < |s| ==> IsDigit(s[i])
  {
    if s == [] then 0 else 10 * Value(s[..|s| - 1]) + DigitValue(s[|s| - 1])
  }

  lemma DigitIs(d: nat)
    requires d < 10
    ensures IsDigit("0123456789"[d]) && DigitValue("0123456789"[d]) == d
  {
    var digits := "0123456789";
    assert digits[0] == '0' && digits[1] == '1' && digits[2] == '2' && digits[3] == '3' && digits[4] == '4';
    assert digits[5] == '5' && digits[6] == '6' && digits[7] == '7' && digits[8] == '8' && digits[9] == '9';
  }

  // the number reads back
  lemma {:induction false} DecimalReadsBack(n: nat)
    ensures forall i :: 0 <= i < |Decimal(n)| ==> IsDigit(Decimal(n)[i])
    ensures Value(Decimal(n)) == n
  {
    DigitIs(n % 10);
    var s := Decimal(n);
    if n < 10 {
      assert s[..|s| - 1] == [];
    } else {
      DecimalReadsBack(n / 10);
      assert s[..|s| - 1] == Decimal(n / 10);
    }
  }

  /** The name of a connection an int can number is not cut off: the server's name, the address, and behind the sign the
      number, which reads back. */
  lemma NameIs(serverName: string, ipPort: string, id: nat)
    requires |ipPort| <= 21 && id <= MAX_INT
    ensures ConnName(serverName, ipPort, id) == serverName + ("-" + ipPort + "#" + Decimal(id))
    ensures forall i :: 0 <= i < |Decimal(id)| ==> IsDigit(Decimal(id)[i])
    ensures Value(Decimal(id)) == id
  {
    assert Power10(10) == 10_000_000_000 by {
      assert Power10(5) == 100_000;
    }
    DecimalLength(id, 10);
    DecimalReadsBack(id);
  }

  /** Two connection numbers an int can hold never get the same name: an IPv4 address and port leave the
      number room enough not to be cut off. */
  lemma NamesDiffer(serverName: string, ipPort: string, a: nat, b: nat)
    requires |ipPort| <= 21 && a <= MAX_INT && b <= MAX_INT
    requires ConnName(serverName, ipPort, a) == ConnName(serverName, ipPort, b)
    ensures a == b
  {
    NameIs(serverName, ipPort, a);
    NameIs(serverName, ipPort, b);
    var ta, tb := "-" + ipPort + "#" + Decimal(a), "-" + ipPort + "#" + Decimal(b);
    var n := |serverName|;
    assert ConnName(serverName, ipPort, a)[n..] == ta && ConnName(serverName, ipPort, b)[n..] == tb;
    assert ta[|ipPort| + 2..] == Decimal(a) && tb[|ipPort| + 2..] == Decimal(b);
  }
}
