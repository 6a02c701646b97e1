/**
 * The observable effects of one handler run, as entries of a trace: the
 * datagrams handed to UDP, the workload passes, the instrumentation calls
 * with the figures they print, and the cool-down wait.
 */
module Actions {
  import opened Common
  import Message
  import Instrumentation

  datatype Action =
    | Sent(packet: Message.Packet)
    | HashPass(digest: byte)
    | KeyGen(iterations: nat)
    | TimeStart(rtimer: ulong, clock: ulong)
    | TimeStop(rElapsed: ulong, rLatency: nat, cElapsed: ulong, cLatency: nat)
    | EnergyStart(snapshot: Instrumentation.Energest)
    | EnergyStop(millijoules: ulong)
    | Wait(seconds: nat)

  datatype Kind = SentK | HashK | KeyGenK | TimeStartK | TimeStopK | EnergyStartK | EnergyStopK | WaitK

  function KindOf(a: Action): Kind
  {
    match a
    case Sent(_) => SentK
    case HashPass(_) => HashK
    case KeyGen(_) => KeyGenK
    case TimeStart(_, _) => TimeStartK
    case TimeStop(_, _, _, _) => TimeStopK
    case EnergyStart(_) => EnergyStartK
    case EnergyStop(_) => EnergyStopK
    case Wait(_) => WaitK
  }

  /** How many entries of a trace are of kind `k`. */
  function Count(acts: seq<Action>, k: Kind): nat
    decreases |acts|
  {
    if acts == [] then 0 else (if KindOf(acts[0]) == k then 1 else 0) + Count(acts[1..], k)
  }

  lemma CountSingle(a: Action, k: Kind)
    ensures Count([a], k) == if KindOf(a) == k then 1 else 0
  {
    assert [a][1..] == [];
  }

  lemma {:induction false} CountConcat(a: seq<Action>, b: seq<Action>, k: Kind)
    ensures Count(a + b, k) == Count(a, k) + Count(b, k)
    decreases |a|
  {
    if a != [] {
      assert (a + b)[1..] == a[1..] + b;
      CountConcat(a[1..], b, k);
    } else {
      assert a + b == b;
    }
  }

  /** The sequence numbers of the datagrams in a trace, in the order they were sent. */
  function SentSeqnos(acts: seq<Action>): seq<uint8>
    decreases |acts|
  {
    if acts == [] then []
    else (if acts[0].Sent? then [acts[0].packet.msg.seqno] else []) + SentSeqnos(acts[1..])
  }

  /** The destinations of the datagrams in a trace, in the order they were sent. */
  function SentDests(acts: seq<Action>): seq<IpAddr>
    decreases |acts|
  {
    if acts == [] then []
    else (if acts[0].Sent? then [acts[0].packet.dest] else []) + SentDests(acts[1..])
  }

  lemma {:induction false} SentConcat(a: seq<Action>, b: seq<Action>)
    ensures SentSeqnos(a + b) == SentSeqnos(a) + SentSeqnos(b)
    ensures SentDests(a + b) == SentDests(a) + SentDests(b)
    decreases |a|
  {
    if a != [] {
      assert (a + b)[1..] == a[1..] + b;
      SentConcat(a[1..], b);
    } else {
      assert a + b == b;
    }
  }

  /** A stretch of trace with no datagram in it contributes no sequence number and no destination. */
  lemma {:induction false} NoSends(acts: seq<Action>)
    requires Count(acts, SentK) == 0
    ensures SentSeqnos(acts) == [] && SentDests(acts) == []
    decreases |acts|
  {
    if acts != [] {
      NoSends(acts[1..]);
    }
  }
}
