/** Fixed-width integers, addresses and transport events shared by both roles. */
module Common {

  datatype Option<T> = None | Some(value: T)

  const UInt8Modulus: int := 0x100
  /** `unsigned long` is 32 bits wide on the MSP430 motes the firmware targets. */
  const ULongModulus: int := 0x1_0000_0000

  /** C `uint8_t`. */
  type uint8 = x: int | 0 <= x < 0x100
  /** C `uint16_t`. */
  type uint16 = x: int | 0 <= x < 0x1_0000
  /** C `unsigned long` on the target (32 bits). */
  type ulong = x: int | 0 <= x < 0x1_0000_0000
  /** One byte of a buffer; a bit-vector so that XOR is available. */
  type byte = bv8

  /** An IPv6 address, as its bytes. */
  type IpAddr = seq<byte>

  /** A buffer of `n` copies of `b`, as `memset` leaves it. */
  function Repeat(b: byte, n: nat): (r: seq<byte>)
    ensures |r| == n
    ensures forall i :: 0 <= i < n ==> r[i] == b
  {
    seq(n, _ => b)
  }

  /**
   * One `tcpip_event` as the handler sees it.  `NewData` is a datagram
   * (uip_newdata() holds), `Rexmit` a retransmission request (uip_rexmit()
   * holds and uip_newdata() does not), `NoData` any other tcpip event.
   * `src` is the source address in the IP buffer at that moment.
   */
  datatype TcpipEvent =
    | NewData(src: IpAddr)
    | Rexmit(src: IpAddr)
    | NoData

  /** One event together with what the collaborators report while it is handled. */
  datatype Input<E> = Input(ev: TcpipEvent, env: E)

  /** The events of a trace of inputs. */
  function Events<E>(ins: seq<Input<E>>): (evs: seq<TcpipEvent>)
    ensures |evs| == |ins|
    decreases |ins|
  {
    if ins == [] then [] else [ins[0].ev] + Events(ins[1..])
  }

  lemma {:induction false} EventsAt<E>(ins: seq<Input<E>>)
    ensures forall i :: 0 <= i < |ins| ==> Events(ins)[i] == ins[i].ev
    decreases |ins|
  {
    if ins != [] {
      EventsAt(ins[1..]);
    }
  }
}
