/**
 `_await_memory_settle` of router/engines.py: poll available memory until it stops rising.
 The curve is what the polls read, `None` for an unreadable one; the deadline is a number of polls.
*/
module MemorySettle {
  import opened Wrappers

  /** A step that still counts as rising, in kB. */
  const RISE := 1_000_000

  type Curve = seq<Option<nat>>

  datatype End = Steady | Unreadable | TimedOut

  /** The step into poll `i` rose by less than RISE. */
  predicate Flat(curve: Curve, i: int) {
    0 < i < |curve| && curve[i - 1].Some? && curve[i].Some? && curve[i].value - curve[i - 1].value < RISE
  }

  ghost predicate Rising(curve: Curve) {
    && (forall i :: 0 <= i < |curve| ==> curve[i].Some?)
    && (forall i :: 0 < i < |curve| ==> curve[i - 1].value <= curve[i].value)
  }

  /** Without two flat steps in a row, every second step rises by at least RISE. */
  lemma {:induction false} KeepsRising(curve: Curve, n: nat)
    requires Rising(curve) && n < |curve|
    requires forall j :: 0 < j <= n ==> !(Flat(curve, j) && Flat(curve, j - 1))
    ensures curve[n].value >= curve[0].value + RISE * (n / 2)
    decreases n
  {
    if n >= 2 {
      KeepsRising(curve, n - 2);
      assert !Flat(curve, n) || !Flat(curve, n - 1);
      assert n / 2 == (n - 2) / 2 + 1;
    }
  }

  lemma {:induction false} Monotone(curve: Curve, i: nat, j: nat)
    requires Rising(curve) && i <= j < |curve|
    ensures curve[i].value <= curve[j].value
    decreases j - i
  {
    if i < j { Monotone(curve, i, j - 1); }
  }

  /** How often a curve can rise by RISE. */
  function Rises(curve: Curve): nat
    requires forall i :: 0 <= i < |curve| ==> curve[i].Some?
  {
    if curve == [] || curve[|curve| - 1].value < curve[0].value then 0
    else (curve[|curve| - 1].value - curve[0].value) / RISE
  }

  /** So polls without two flat steps in a row run out: there are at most two per possible rise, and two more. */
  lemma RestlessPollsRunOut(curve: Curve, n: nat)
    requires Rising(curve) && n < |curve|
    requires forall j :: 0 < j <= n ==> !(Flat(curve, j) && Flat(curve, j - 1))
    ensures n <= 2 * Rises(curve) + 1
  {
    KeepsRising(curve, n);
    Monotone(curve, n, |curve| - 1);
    assert RISE * (n / 2) <= curve[|curve| - 1].value - curve[0].value;
  }

  /**
   Settling is exact: it happens at the first poll that ends two flat steps in a row, unless a poll
   before it is unreadable; without either the deadline ends the wait.  On a readable curve that never
   falls it settles within 2 * Rises + 3 polls, or hits the deadline before that.
  */
  method AwaitSettle(curve: Curve) returns (polls: nat, end: End)
    ensures polls <= |curve|
    ensures forall j :: 0 <= j < polls - 1 ==> curve[j].Some? && !(Flat(curve, j) && Flat(curve, j - 1))
    ensures end.Steady? ==> polls >= 3 && Flat(curve, polls - 1) && Flat(curve, polls - 2)
    ensures end.Steady? ==>
      && curve[polls - 1].value < curve[polls - 2].value + 1_000_000
      && curve[polls - 2].value < curve[polls - 3].value + 1_000_000
    ensures end.Unreadable? ==> polls >= 1 && curve[polls - 1].None?
    ensures end.TimedOut? ==>
      polls == |curve| && forall j :: 0 <= j < polls ==> curve[j].Some? && !(Flat(curve, j) && Flat(curve, j - 1))
    ensures Rising(curve) ==> polls <= 2 * Rises(curve) + (if end.Steady? then 3 else 2)
  {
    var prev, stable := -1, 0;
    polls := 0;
    end := TimedOut;
    while polls < |curve|
      invariant 0 <= polls <= |curve| && 0 <= stable < 2
      invariant prev == if polls == 0 then -1 else if curve[polls - 1].Some? then curve[polls - 1].value else -1
      invariant stable == 1 <==> Flat(curve, polls - 1)
      invariant forall j :: 0 <= j < polls ==> curve[j].Some? && !(Flat(curve, j) && Flat(curve, j - 1))
    {
      var avail := curve[polls];
      polls := polls + 1;
      if avail.None? { return polls, Unreadable; }
      if prev >= 0 && avail.value - prev < RISE {
        stable := stable + 1;
        if stable >= 2 {
          if Rising(curve) { RestlessPollsRunOut(curve, polls - 2); }
          return polls, Steady;
        }
      } else {
        stable := 0;
      }
      prev := avail.value;
    }
    if Rising(curve) && polls > 0 { RestlessPollsRunOut(curve, polls - 1); }
  }
}
