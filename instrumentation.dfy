/**
 * The client's per-flight instrumentation arithmetic: elapsed ticks of the
 * two clocks, and the energy estimate built from the four energest domains.
 * All of it is `unsigned long` arithmetic, so every step wraps modulo 2^32.
 */
module Instrumentation {
  import opened Common

  /** A snapshot of the four energest counters: CPU, LPM, radio transmit, radio listen. */
  datatype Energest = Energest(cpu: ulong, lpm: ulong, transmit: ulong, listen: ulong)

  /** Per-domain current draw and supply voltage used by the estimate. */
  const CpuCurrent: nat := 2
  const LpmCurrent: nat := 1
  const TransmitCurrent: nat := 23
  const ListenCurrent: nat := 21
  const Volt: nat := 4

  /** `now - start` on `unsigned long`: the ticks elapsed, also across one counter wrap. */
  function Sub(now: ulong, start: ulong): (d: ulong)
    ensures now >= start ==> d == now - start
    ensures now < start ==> d == now + ULongModulus - start
  {
    (now - start) % ULongModulus
  }

  /** `a + b` on `unsigned long`. */
  function AddU(a: ulong, b: ulong): ulong
  {
    (a + b) % ULongModulus
  }

  /** `k * x` with `k` a small `int` constant, computed as `unsigned long`. */
  function MulU(k: nat, x: ulong): ulong
  {
    (k * x) % ULongModulus
  }

  /** The weighted tick sum, in unbounded arithmetic. */
  function WeightedTicks(d: Energest): nat
  {
    CpuCurrent * d.cpu + LpmCurrent * d.lpm + TransmitCurrent * d.transmit + ListenCurrent * d.listen
  }

  /** The estimate in the order the code accumulates it, wrapping at each step. */
  function EnergyOfDeltas(d: Energest, rtimerSecond: nat): ulong
    requires rtimerSecond > 0
  {
    MulU(Volt, WrappedSum(d)) / rtimerSecond
  }

  lemma AddModLeft(a: int, b: int)
    ensures (a % ULongModulus + b) % ULongModulus == (a + b) % ULongModulus
  {
  }

  lemma MulModRight(k: nat, a: int)
    ensures (k * (a % ULongModulus)) % ULongModulus == (k * a) % ULongModulus
  {
    var q := a / ULongModulus;
    assert a == q * ULongModulus + a % ULongModulus;
    assert k * a == k * q * ULongModulus + k * (a % ULongModulus);
  }

  /** One accumulation step: adding a wrapped term to a wrapped partial sum wraps the exact sum. */
  lemma AccumulateStep(partial: int, k: nat, x: ulong)
    ensures AddU(partial % ULongModulus, MulU(k, x)) == (partial + k * x) % ULongModulus
  {
    AddModLeft(partial, MulU(k, x));
    AddModLeft(k * x, partial);
  }

  /** The wrapped running sum of the four weighted terms, in the code's order. */
  function WrappedSum(d: Energest): ulong
  {
    var e0 := MulU(CpuCurrent, d.cpu);
    var e1 := AddU(e0, MulU(LpmCurrent, d.lpm));
    var e2 := AddU(e1, MulU(TransmitCurrent, d.transmit));
    AddU(e2, MulU(ListenCurrent, d.listen))
  }

  /** Summing term by term in `unsigned long` wraps the exact weighted sum once. */
  lemma WrappedSumIsSumWrapped(d: Energest)
    ensures WrappedSum(d) == WeightedTicks(d) % ULongModulus
  {
    var c := CpuCurrent * d.cpu;
    var cl := c + LpmCurrent * d.lpm;
    var clt := cl + TransmitCurrent * d.transmit;
    AccumulateStep(c, LpmCurrent, d.lpm);
    AccumulateStep(cl, TransmitCurrent, d.transmit);
    AccumulateStep(clt, ListenCurrent, d.listen);
  }

  /** Wrapping at every step is the same as wrapping the exact product once. */
  lemma EnergyOfDeltasWrapsOnce(d: Energest, rtimerSecond: nat)
    requires rtimerSecond > 0
    ensures EnergyOfDeltas(d, rtimerSecond)
            == ((Volt * WeightedTicks(d)) % ULongModulus) / rtimerSecond
  {
    WrappedSumIsSumWrapped(d);
    MulModRight(Volt, WeightedTicks(d));
  }

  /** When the product fits in 32 bits the estimate is the exact formula. */
  lemma EnergyExactWithoutWrap(d: Energest, rtimerSecond: nat)
    requires rtimerSecond > 0
    requires Volt * WeightedTicks(d) < ULongModulus
    ensures EnergyOfDeltas(d, rtimerSecond) == Volt * WeightedTicks(d) / rtimerSecond
  {
    EnergyOfDeltasWrapsOnce(d, rtimerSecond);
    ModOfSmall(Volt * WeightedTicks(d));
  }

  lemma ModOfSmall(w: nat)
    requires w < ULongModulus
    ensures w % ULongModulus == w
  {
  }

  /** More ticks in every domain never lower the estimate, as long as nothing wraps. */
  lemma EnergyMonotone(d1: Energest, d2: Energest, rtimerSecond: nat)
    requires rtimerSecond > 0
    requires d1.cpu <= d2.cpu && d1.lpm <= d2.lpm && d1.transmit <= d2.transmit && d1.listen <= d2.listen
    requires Volt * WeightedTicks(d2) < ULongModulus
    ensures EnergyOfDeltas(d1, rtimerSecond) <= EnergyOfDeltas(d2, rtimerSecond)
  {
    assert WeightedTicks(d1) <= WeightedTicks(d2);
    EnergyExactWithoutWrap(d1, rtimerSecond);
    EnergyExactWithoutWrap(d2, rtimerSecond);
    DivMonotone(Volt * WeightedTicks(d1), Volt * WeightedTicks(d2), rtimerSecond);
  }

  lemma {:induction false} MulMonotone(x: nat, y: nat, k: nat)
    requires x <= y
    ensures x * k <= y * k
    decreases y - x
  {
    if x < y {
      MulMonotone(x, y - 1, k);
      assert y * k == (y - 1) * k + k;
    }
  }

  lemma DivMonotone(a: nat, b: nat, k: nat)
    requires k > 0 && a <= b
    ensures a / k <= b / k
  {
    var qa, qb := a / k, b / k;
    assert qa * k <= a;
    assert b < (qb + 1) * k;
    if qb + 1 <= qa {
      MulMonotone(qb + 1, qa, k);
    }
  }

  /** The per-domain deltas as the code computes them: the listen delta subtracts the transmit start. */
  function DomainDeltasAsWritten(start: Energest, now: Energest): (d: Energest)
    ensures now.cpu >= start.cpu ==> d.cpu == now.cpu - start.cpu
    ensures now.lpm >= start.lpm ==> d.lpm == now.lpm - start.lpm
    ensures now.transmit >= start.transmit ==> d.transmit == now.transmit - start.transmit
    ensures now.listen >= start.transmit ==> d.listen == now.listen - start.transmit
  {
    Energest(Sub(now.cpu, start.cpu), Sub(now.lpm, start.lpm),
             Sub(now.transmit, start.transmit), Sub(now.listen, start.transmit))
  }

  /** The per-domain deltas, each domain against its own start. */
  function DomainDeltas(start: Energest, now: Energest): (d: Energest)
    ensures now.cpu >= start.cpu ==> d.cpu == now.cpu - start.cpu
    ensures now.lpm >= start.lpm ==> d.lpm == now.lpm - start.lpm
    ensures now.transmit >= start.transmit ==> d.transmit == now.transmit - start.transmit
    ensures now.listen >= start.listen ==> d.listen == now.listen - start.listen
  {
    Energest(Sub(now.cpu, start.cpu), Sub(now.lpm, start.lpm),
             Sub(now.transmit, start.transmit), Sub(now.listen, start.listen))
  }

  /** The millijoule figure `energy_tracking_stop` prints, as written. */
  function EnergyEstimateAsWritten(start: Energest, now: Energest, rtimerSecond: nat): ulong
    requires rtimerSecond > 0
  {
    EnergyOfDeltas(DomainDeltasAsWritten(start, now), rtimerSecond)
  }

  /** The millijoule figure with every domain differenced against its own start. */
  function EnergyEstimate(start: Energest, now: Energest, rtimerSecond: nat): ulong
    requires rtimerSecond > 0
  {
    EnergyOfDeltas(DomainDeltas(start, now), rtimerSecond)
  }

  /** A flight in which no counter moved costs nothing. */
  lemma EnergyIdleIsZero(snapshot: Energest, rtimerSecond: nat)
    requires rtimerSecond > 0
    ensures EnergyEstimate(snapshot, snapshot, rtimerSecond) == 0
  {
    EnergyOfDeltasWrapsOnce(DomainDeltas(snapshot, snapshot), rtimerSecond);
  }

  /** The estimate over a flight is the exact weighted formula whenever no counter wrapped and the product fits. */
  lemma EnergyEstimateExact(start: Energest, now: Energest, rtimerSecond: nat)
    requires rtimerSecond > 0
    requires start.cpu <= now.cpu && start.lpm <= now.lpm
    requires start.transmit <= now.transmit && start.listen <= now.listen
    requires Volt * WeightedTicks(Energest(now.cpu - start.cpu, now.lpm - start.lpm,
                                           now.transmit - start.transmit,
                                           now.listen - start.listen)) < ULongModulus
    ensures EnergyEstimate(start, now, rtimerSecond)
            == Volt * (CpuCurrent * (now.cpu - start.cpu) + LpmCurrent * (now.lpm - start.lpm)
                       + TransmitCurrent * (now.transmit - start.transmit)
                       + ListenCurrent * (now.listen - start.listen)) / rtimerSecond
  {
    EnergyExactWithoutWrap(DomainDeltas(start, now), rtimerSecond);
  }

  /**
   * The figure the code prints, when nothing wraps: the weighted sum in which
   * the listen term is the listen counter's distance from the transmit start.
   */
  lemma EnergyEstimateAsWrittenExact(start: Energest, now: Energest, rtimerSecond: nat)
    requires rtimerSecond > 0
    requires start.cpu <= now.cpu && start.lpm <= now.lpm
    requires start.transmit <= now.transmit && start.transmit <= now.listen
    requires Volt * WeightedTicks(Energest(now.cpu - start.cpu, now.lpm - start.lpm,
                                           now.transmit - start.transmit,
                                           now.listen - start.transmit)) < ULongModulus
    ensures EnergyEstimateAsWritten(start, now, rtimerSecond)
            == Volt * (CpuCurrent * (now.cpu - start.cpu) + LpmCurrent * (now.lpm - start.lpm)
                       + TransmitCurrent * (now.transmit - start.transmit)
                       + ListenCurrent * (now.listen - start.transmit)) / rtimerSecond
  {
    EnergyExactWithoutWrap(DomainDeltasAsWritten(start, now), rtimerSecond);
  }

  /**
   * As written, an idle flight is charged for the listen counter's distance
   * from the transmit counter: with the 32768 Hz rtimer of the sky mote, a
   * flight over which every counter stood still at (0, 0, 0, 1000000)
   * reports 2563 mJ.
   */
  lemma AsWrittenChargesIdleFlight()
    ensures EnergyEstimateAsWritten(Energest(0, 0, 0, 1000000), Energest(0, 0, 0, 1000000), 32768) == 2563
    ensures EnergyEstimate(Energest(0, 0, 0, 1000000), Energest(0, 0, 0, 1000000), 32768) == 0
  {
    var s := Energest(0, 0, 0, 1000000);
    assert DomainDeltasAsWritten(s, s) == Energest(0, 0, 0, 1000000);
    EnergyExactWithoutWrap(DomainDeltasAsWritten(s, s), 32768);
    EnergyIdleIsZero(s, 32768);
  }

  /** The two agree whenever the listen and transmit counters started equal. */
  lemma AsWrittenAgreesWhenStartsMatch(start: Energest, now: Energest, rtimerSecond: nat)
    requires rtimerSecond > 0
    requires start.listen == start.transmit
    ensures EnergyEstimateAsWritten(start, now, rtimerSecond) == EnergyEstimate(start, now, rtimerSecond)
  {
  }

  /** Ticks to whole seconds, as the latency figures are printed. */
  function Latency(elapsed: ulong, second: nat): (secs: nat)
    requires second > 0
    ensures secs * second <= elapsed < (secs + 1) * second
  {
    elapsed / second
  }
}
