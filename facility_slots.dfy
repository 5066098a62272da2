/*
 * How the transit system spreads its stops around the ring.  There are
 * nt + nh stops, evenly spaced; stop i is a terminus stop (a ring terminus,
 * a ground terminus, an elevator car and an elevator cable) when
 * floor(i * nt / (nt + nh)) differs from the value at the stop before, and a
 * habitat otherwise.  The first stop has no stop before it.
 */
module FacilitySlots {

  /** floor(i * nt / nts): the number of termini strictly before stop i, in the even spread. */
  function Stop(i: nat, nt: nat, nts: nat): nat
    requires nts > 0
  {
    i * nt / nts
  }

  /**
   * The test as the code writes it: the value before the first stop is -1, so
   * stop 0 is always a terminus stop, even when there are no termini at all.
   */
  predicate TerminusSlotAsWritten(i: nat, nt: nat, nh: nat)
    requires nt + nh > 0
  {
    Stop(i, nt, nt + nh) != (if i == 0 then -1 else Stop(i - 1, nt, nt + nh))
  }

  /** The intended test: stop 0 is a terminus stop exactly when there are termini. */
  predicate TerminusSlot(i: nat, nt: nat, nh: nat)
    requires nt + nh > 0
  {
    if i == 0 then nt > 0 else Stop(i, nt, nt + nh) != Stop(i - 1, nt, nt + nh)
  }

  /** Which terminus test a list of facilities is built with: the code's own, or the intended one. */
  datatype SlotTest = AsWritten | Intended

  /** Whether stop i is a terminus stop under test t. */
  predicate IsTerminusStop(t: SlotTest, i: nat, nt: nat, nh: nat)
    requires nt + nh > 0
  {
    if t == AsWritten then TerminusSlotAsWritten(i, nt, nh) else TerminusSlot(i, nt, nh)
  }

  /** The number of terminus stops among the first n stops under test t. */
  function TerminusStops(t: SlotTest, nt: nat, nh: nat, n: nat): nat
    requires nt + nh > 0
  {
    if t == AsWritten then TerminusSlotsAsWritten(nt, nh, n) else TerminusSlots(nt, nh, n)
  }

  /** The number of terminus stops among the first n stops. */
  function TerminusSlots(nt: nat, nh: nat, n: nat): nat
    requires nt + nh > 0
  {
    if n == 0 then 0 else TerminusSlots(nt, nh, n - 1) + (if TerminusSlot(n - 1, nt, nh) then 1 else 0)
  }

  function TerminusSlotsAsWritten(nt: nat, nh: nat, n: nat): nat
    requires nt + nh > 0
  {
    if n == 0 then 0 else TerminusSlotsAsWritten(nt, nh, n - 1) + (if TerminusSlotAsWritten(n - 1, nt, nh) then 1 else 0)
  }

  lemma TerminusStopsNext(t: SlotTest, nt: nat, nh: nat, n: nat)
    requires nt + nh > 0 && n > 0
    ensures TerminusStops(t, nt, nh, n) == TerminusStops(t, nt, nh, n - 1) + (if IsTerminusStop(t, n - 1, nt, nh) then 1 else 0)
  {
  }

  /** x / m is the q with q*m <= x < q*m + m. */
  lemma DivUnique(x: nat, m: nat, q: nat)
    requires m > 0 && q * m <= x < q * m + m
    ensures x / m == q
  {
    var d, r := x / m, x % m;
    assert x == d * m + r;
    MulMono(q + 1, d, m);
    MulMono(d + 1, q, m);
    assert (q + 1) * m == q * m + m && (d + 1) * m == d * m + m;
  }

  lemma MulMono(a: nat, b: nat, m: nat)
    ensures a <= b ==> a * m <= b * m
  {
    if a <= b {
      var d: nat := b - a;
      assert b * m == a * m + d * m;
    }
  }

  /** Adding at most m to a numerator raises the quotient by m by at most one. */
  lemma DivStep(a: nat, d: nat, m: nat)
    requires m > 0 && d <= m
    ensures (a + d) / m == a / m || (a + d) / m == a / m + 1
  {
    var q := a / m;
    var r := a % m;
    assert a == q * m + r;
    if r + d < m {
      DivUnique(a + d, m, q);
    } else {
      assert (q + 1) * m == q * m + m;
      DivUnique(a + d, m, q + 1);
    }
  }

  /** Consecutive stops differ in Stop by zero or one, since nt <= nt + nh. */
  lemma StopStep(i: nat, nt: nat, nh: nat)
    requires nt + nh > 0 && i > 0
    ensures Stop(i, nt, nt + nh) == Stop(i - 1, nt, nt + nh) || Stop(i, nt, nt + nh) == Stop(i - 1, nt, nt + nh) + 1
  {
    assert i * nt == (i - 1) * nt + nt;
    DivStep((i - 1) * nt, nt, nt + nh);
  }

  /** Before stop n there are Stop(n-1) + 1 terminus stops when there are termini, and none otherwise. */
  lemma {:induction false} TerminusSlotsSoFar(nt: nat, nh: nat, n: nat)
    requires nt + nh > 0 && n > 0
    ensures TerminusSlots(nt, nh, n) == if nt > 0 then Stop(n - 1, nt, nt + nh) + 1 else 0
  {
    if n == 1 {
      assert Stop(0, nt, nt + nh) == 0;
    } else {
      TerminusSlotsSoFar(nt, nh, n - 1);
      StopStep(n - 1, nt, nh);
      if nt == 0 {
        assert Stop(n - 1, nt, nt + nh) == 0 && Stop(n - 2, nt, nt + nh) == 0;
      }
    }
  }

  lemma {:induction false} TerminusSlotsAsWrittenSoFar(nt: nat, nh: nat, n: nat)
    requires nt + nh > 0 && n > 0
    ensures TerminusSlotsAsWritten(nt, nh, n) == Stop(n - 1, nt, nt + nh) + 1
  {
    if n == 1 {
      assert Stop(0, nt, nt + nh) == 0;
    } else {
      TerminusSlotsAsWrittenSoFar(nt, nh, n - 1);
      StopStep(n - 1, nt, nh);
    }
  }

  /** With termini, the stop before the last has nt - 1 termini before it. */
  lemma LastStop(nt: nat, nh: nat)
    requires nt > 0
    ensures Stop(nt + nh - 1, nt, nt + nh) == nt - 1
  {
    var m := nt + nh;
    assert (m - 1) * nt == (nt - 1) * m + (m - nt);
    DivUnique((m - 1) * nt, m, nt - 1);
  }

  /**
   * All the stops together: exactly nt terminus stops and nh habitat stops,
   * so the counters the system records match the objects it creates.
   */
  lemma TerminusSlotsCount(nt: nat, nh: nat)
    requires nt + nh > 0
    ensures TerminusSlots(nt, nh, nt + nh) == nt
    ensures (nt + nh) - TerminusSlots(nt, nh, nt + nh) == nh
  {
    TerminusSlotsSoFar(nt, nh, nt + nh);
    if nt > 0 {
      LastStop(nt, nh);
    }
  }

  /** The two tests agree whenever there is at least one terminus. */
  lemma AsWrittenAgreesWithTermini(i: nat, nt: nat, nh: nat)
    requires nt > 0
    ensures TerminusSlotAsWritten(i, nt, nh) == TerminusSlot(i, nt, nh)
  {
    if i == 0 {
      assert Stop(0, nt, nt + nh) == 0;
    }
  }

  /**
   * As written, with no termini and nh > 0 habitats the code still makes one
   * terminus stop, and loses one habitat, while it records zero termini.
   */
  lemma AsWrittenStrayTerminus(nh: nat)
    requires nh > 0
    ensures TerminusSlotsAsWritten(0, nh, nh) == 1
    ensures TerminusSlotAsWritten(0, 0, nh)
  {
    TerminusSlotsAsWrittenSoFar(0, nh, nh);
  }

  /** The concrete case: no termini, two habitats. */
  lemma AsWrittenExample()
    ensures TerminusSlotsAsWritten(0, 2, 2) == 1 && TerminusSlots(0, 2, 2) == 0
  {
    AsWrittenStrayTerminus(2);
    TerminusSlotsCount(0, 2);
  }
}
