/**
 * The flight counter both handlers keep in `cert_flight_count`: every
 * new-data event advances it, the event that brings it to MAX_CERT_FLIGHT
 * resets it to 0, and retransmission requests leave it alone.  This module
 * follows the counter over whole event traces.
 */
module Flight {
  import opened Common

  /** MAX_CERT_FLIGHT: exchanges per flight. */
  const MaxCertFlight: nat := 18

  /** The values the counter holds between events. */
  type FlightCount = c: int | 0 <= c < MaxCertFlight

  /** Where a new-data event falls in its flight, judged by the post-increment count. */
  datatype Phase = FirstOfFlight | MidFlight | LastOfFlight

  /** Phase of the new-data event that finds the counter at `c`. */
  function PhaseOf(c: FlightCount): (ph: Phase)
    ensures ph == LastOfFlight <==> c == MaxCertFlight - 1
    ensures ph == FirstOfFlight <==> c == 0
  {
    if c + 1 == MaxCertFlight then LastOfFlight
    else if c + 1 == 1 then FirstOfFlight
    else MidFlight
  }

  /** The counter after one event. */
  function StepCount(c: FlightCount, ev: TcpipEvent): (r: FlightCount)
    ensures !ev.NewData? ==> r == c
    ensures ev.NewData? ==> r == (c + 1) % MaxCertFlight
  {
    if ev.NewData? then
      (if c + 1 == MaxCertFlight then 0 else c + 1)
    else c
  }

  /** The counter after a trace of events. */
  function CountAfter(c: FlightCount, evs: seq<TcpipEvent>): FlightCount
    decreases |evs|
  {
    if evs == [] then c else CountAfter(StepCount(c, evs[0]), evs[1..])
  }

  /** Number of new-data events in a trace. */
  function NewDataCount(evs: seq<TcpipEvent>): nat
    decreases |evs|
  {
    if evs == [] then 0 else (if evs[0].NewData? then 1 else 0) + NewDataCount(evs[1..])
  }

  /** Number of events that call the send routine: every new-data and every retransmission event. */
  function Replies(evs: seq<TcpipEvent>): nat
    decreases |evs|
  {
    if evs == [] then 0 else (if evs[0].NoData? then 0 else 1) + Replies(evs[1..])
  }

  /** Number of events in a trace that open a flight (post-increment count 1). */
  function FirstsIn(c: FlightCount, evs: seq<TcpipEvent>): nat
    decreases |evs|
  {
    if evs == [] then 0
    else (if evs[0].NewData? && PhaseOf(c) == FirstOfFlight then 1 else 0)
         + FirstsIn(StepCount(c, evs[0]), evs[1..])
  }

  /** Number of events in a trace that close a flight (post-increment count MAX_CERT_FLIGHT). */
  function LastsIn(c: FlightCount, evs: seq<TcpipEvent>): nat
    decreases |evs|
  {
    if evs == [] then 0
    else (if evs[0].NewData? && PhaseOf(c) == LastOfFlight then 1 else 0)
         + LastsIn(StepCount(c, evs[0]), evs[1..])
  }

  /**
   * The counter depends only on how many new-data events arrived:
   * retransmission requests and other events never perturb it.
   */
  lemma {:induction false} CountAfterIsMod(c: FlightCount, evs: seq<TcpipEvent>)
    ensures CountAfter(c, evs) == (c + NewDataCount(evs)) % MaxCertFlight
    decreases |evs|
  {
    if evs != [] {
      CountAfterIsMod(StepCount(c, evs[0]), evs[1..]);
    }
  }

  /** From the initial counter 0, after k new-data events the counter is k mod 18. */
  lemma CountFromZero(evs: seq<TcpipEvent>)
    ensures CountAfter(0, evs) == NewDataCount(evs) % MaxCertFlight
  {
    CountAfterIsMod(0, evs);
  }

  /** Flight openings are the post-increment counts c+1 .. c+n that are 1 mod 18. */
  lemma {:induction false} FirstsClosedForm(c: FlightCount, evs: seq<TcpipEvent>)
    ensures FirstsIn(c, evs)
            == (c + NewDataCount(evs) + 17) / MaxCertFlight - (c + 17) / MaxCertFlight
    decreases |evs|
  {
    if evs != [] {
      FirstsClosedForm(StepCount(c, evs[0]), evs[1..]);
    }
  }

  /** Flight closings are the post-increment counts c+1 .. c+n that are 0 mod 18. */
  lemma {:induction false} LastsClosedForm(c: FlightCount, evs: seq<TcpipEvent>)
    ensures LastsIn(c, evs) == (c + NewDataCount(evs)) / MaxCertFlight - c / MaxCertFlight
    decreases |evs|
  {
    if evs != [] {
      LastsClosedForm(StepCount(c, evs[0]), evs[1..]);
    }
  }

  /**
   * From the initial counter, the workload runs once per 18 new-data events
   * (rounded up) and the flight closes once per 18 (rounded down).
   */
  lemma FlightsFromZero(evs: seq<TcpipEvent>)
    ensures FirstsIn(0, evs) == (NewDataCount(evs) + 17) / MaxCertFlight
    ensures LastsIn(0, evs) == NewDataCount(evs) / MaxCertFlight
  {
    FirstsClosedForm(0, evs);
    LastsClosedForm(0, evs);
  }

  /**
   * In every trace from the initial counter, closings never outnumber
   * openings and openings lead by at most one: each stop follows its start.
   */
  lemma StartsAndStopsAlternate(evs: seq<TcpipEvent>)
    ensures LastsIn(0, evs) <= FirstsIn(0, evs) <= LastsIn(0, evs) + 1
  {
    FlightsFromZero(evs);
  }

  /** In a trace of new-data events only, every event is one reply. */
  lemma {:induction false} AllNewData(evs: seq<TcpipEvent>)
    requires forall i :: 0 <= i < |evs| ==> evs[i].NewData?
    ensures NewDataCount(evs) == |evs| && Replies(evs) == |evs|
    decreases |evs|
  {
    if evs != [] {
      AllNewData(evs[1..]);
    }
  }
}
