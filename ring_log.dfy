/** The circular log of thermocouple readings shared by both copies of the
    logging code: entry `head` is the next to be overwritten, and so the oldest. */
module RingLog {
  import Arith

  /** One row of the log: the boot-relative timestamp and the temperatures. */
  datatype LogEntry = LogEntry(timestampMs: nat, temps: seq<real>)

  /** The `i`-th entry printed, `(head + i) % n`. */
  function Slot(head: int, i: nat, n: nat): (k: nat)
    requires 0 <= head && 0 < n
    ensures k < n
  {
    (head + i) % n
  }

  /** Printing from `head` reaches no entry twice. */
  lemma SlotsDistinct(head: int, n: nat, i: nat, j: nat)
    requires 0 <= head && i < j < n
    ensures Slot(head, i, n) != Slot(head, j, n)
  {
    var a, b: nat := head + i, head + j;
    var qa, qb := a / n, b / n;
    if a % n == b % n {
      assert b - a == (qb - qa) * n;
      if qb > qa {
        Arith.MulAtLeast(qb - qa, n);
      }
    }
  }

  /** Where entry `k` comes in the printout that starts at `head`. */
  function Position(head: int, k: nat, n: nat): (i: nat)
    requires 0 < n
    ensures i < n
  {
    (k - head) % n
  }

  /** Printing from `head` reaches every entry, at its position. */
  lemma SlotReaches(head: int, n: nat, k: nat)
    requires 0 <= head && k < n
    ensures Slot(head, Position(head, k, n), n) == k
  {
    var i := Position(head, k, n);
    var q := (k - head) / n;
    assert k - head == q * n + i;
    if q > 0 {
      Arith.MulAtLeast(q, n);
    }
    Arith.ModUnique(head + i, n, -q, k);
  }

  /** Printing from `head` visits each of the `n` entries exactly once. */
  lemma VisitsEachOnce(head: int, n: nat)
    requires 0 <= head && 0 < n
    ensures forall i, j :: 0 <= i < j < n ==> Slot(head, i, n) != Slot(head, j, n)
    ensures forall k :: 0 <= k < n ==> Slot(head, Position(head, k, n), n) == k
  {
    forall i, j | 0 <= i < j < n
      ensures Slot(head, i, n) != Slot(head, j, n)
    {
      SlotsDistinct(head, n, i, j);
    }
    forall k | 0 <= k < n
      ensures Slot(head, Position(head, k, n), n) == k
    {
      SlotReaches(head, n, k);
    }
  }

  /** After an entry is written at `head` and the head moves on, that entry is
      the last one printed. */
  lemma NewestPrintedLast(head: int, n: nat)
    requires 0 <= head < n
    ensures Slot((head + 1) % n, n - 1, n) == head
  {
    Arith.ModSucc(head, n);
    var h := (head + 1) % n;
    if h == 0 {
      Arith.ModUnique(n - 1, n, 0, n - 1);
    } else {
      Arith.ModUnique(h + n - 1, n, 1, head);
    }
  }
}
