/** `EventLoopThreadPool` (src/EventLoopThreadPool.cc): the round-robin choice of
    the loop that serves the next connection. */
module ThreadPools {

  /** The slot of the k-th connection, counted from 1, among n loops. */
  function Slot(k: nat, n: nat): nat
    requires k > 0 && n > 0
  {
    (k - 1) % n
  }

  function NextCursor(cursor: nat, n: nat): nat {
    if cursor + 1 >= n then 0 else cursor + 1
  }

  /** How many of the first k connections loop i gets. */
  function Load(k: nat, n: nat, i: nat): nat
    requires n > 0
  {
    if k == 0 then 0 else Load(k - 1, n, i) + if Slot(k, n) == i then 1 else 0
  }

  lemma DivModStep(k: nat, n: nat)
    requires n > 0
    ensures k % n == n - 1 ==> (k + 1) / n == k / n + 1 && (k + 1) % n == 0
    ensures k % n < n - 1 ==> (k + 1) / n == k / n && (k + 1) % n == k % n + 1
    ensures k % n < n
  {
    var q, r := k / n, k % n;
    assert k == n * q + r;
    if r == n - 1 {
      assert k + 1 == n * (q + 1);
      DivModUnique(k + 1, n, q + 1, 0);
    } else {
      DivModUnique(k + 1, n, q, r + 1);
    }
  }

  lemma DivModUnique(k: nat, n: nat, q: nat, r: nat)
    requires r < n && k == n * q + r
    ensures k / n == q && k % n == r
  {
    var q', r' := k / n, k % n;
    var e: int := q' - q;
    assert k == q' * n + r';
    assert n * e == r - r' by {
      assert n * e == n * q' - n * q;
    }
    MulApart(n, e);
  }

  /** A multiple of n is 0 or at least n away from it. */
  lemma {:induction false} MulApart(n: int, e: int)
    requires n > 0
    ensures e > 0 ==> n * e >= n
    ensures e < 0 ==> n * e <= -n
    decreases if e < 0 then -e else e
  {
    if e > 1 {
      MulApart(n, e - 1);
    } else if e < -1 {
      MulApart(n, e + 1);
    }
  }

  /** The wrapping cursor follows the slots. */
  lemma CursorFollows(k: nat, n: nat)
    requires n > 0
    ensures NextCursor(k % n, n) == (k + 1) % n
  {
    DivModStep(k, n);
  }

  lemma {:induction false} LoadExact(k: nat, n: nat, i: nat)
    requires i < n
    ensures Load(k, n, i) == k / n + if i < k % n then 1 else 0
  {
    if k == 0 {
      DivModUnique(0, n, 0, 0);
    } else {
      LoadExact(k - 1, n, i);
      DivModStep(k - 1, n);
    }
  }

  /** After any number of connections, two loops differ by at most one. */
  lemma Balanced(k: nat, n: nat, i: nat, j: nat)
    requires i < n && j < n
    ensures -1 <= Load(k, n, i) - Load(k, n, j) <= 1
  {
    LoadExact(k, n, i);
    LoadExact(k, n, j);
  }

  class EventLoopThreadPool<L> {
    const baseLoop: L
    var loops: seq<L>
    var next: nat

    ghost predicate Valid()
      reads this
    {
      next == 0 || next < |loops|
    }

    constructor (baseLoop: L)
      ensures Valid() && this.baseLoop == baseLoop && loops == [] && next == 0
    {
      this.baseLoop := baseLoop;
      loops := [];
      next := 0;
    }

    /** Appends the loops of the threads just started. */
    method Start(started: seq<L>)
      requires Valid() && loops == []
      modifies this`loops
      ensures Valid() && loops == started
    {
      for i := 0 to |started|
        invariant Valid() && loops == started[..i]
      {
        loops := loops + [started[i]];
      }
    }

    method GetNextLoop() returns (loop: L)
      requires Valid()
      modifies this`next
      ensures Valid()
      ensures loops == [] ==> loop == baseLoop && next == old(next)
      ensures loops != [] ==> loop == loops[old(next)] && next == NextCursor(old(next), |loops|)
    {
      loop := baseLoop;
      if loops != [] {
        loop := loops[next];
        next := next + 1;
        if next >= |loops| {
          next := 0;
        }
      }
    }
  }
}
