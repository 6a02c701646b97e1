/**
 * The telemetry datagram both send routines assemble: a sequence byte, an
 * alignment byte, the routing summary handed to the collect-view message
 * builder, and a 256-byte payload of which only the first 128 bytes go on
 * the wire.
 */
module Message {
  import opened Common

  const UdpClientPort: uint16 := 8775
  const UdpServerPort: uint16 := 5688

  /** Size of the `payload` member of the message struct. */
  const PayloadCapacity: nat := 256
  /** Payload bytes filled and sent. */
  const PayloadSent: nat := 128
  /** The filler byte, 'A'. */
  const FillByte: byte := 0x41

  /** The preferred parent as the neighbour table reports it: its link address and its ETX. */
  datatype ParentLink = ParentLink(addr: seq<byte>, etx: uint16)

  /**
   * What the routing collaborator reports about the current DAG: our rank,
   * the beacon interval, the neighbour count and, when the preferred parent
   * is in the neighbour table, that parent.
   */
  datatype DagView = DagView(rank: uint16, beaconInterval: uint16, numNeighbors: uint16,
                             parent: Option<ParentLink>)

  /** The fields passed to the collect-view builder; a parent of `None` is `linkaddr_null`. */
  datatype RoutingSummary = RoutingSummary(parent: Option<seq<byte>>, parentEtx: uint16,
                                           rtmetric: uint16, numNeighbors: uint16,
                                           beaconInterval: uint16)

  const ZeroSummary := RoutingSummary(None, 0, 0, 0, 0)

  /** The routing summary of one send; all zero when no DAG is known. */
  function Summarize(dag: Option<DagView>): (r: RoutingSummary)
    ensures dag.None? ==> r == ZeroSummary
    ensures dag.Some? ==> r.rtmetric == dag.value.rank
                          && r.beaconInterval == dag.value.beaconInterval
                          && r.numNeighbors == dag.value.numNeighbors
    ensures dag.Some? && dag.value.parent.Some? ==>
              r.parent == Some(dag.value.parent.value.addr) && r.parentEtx == dag.value.parent.value.etx
    ensures (dag.None? || dag.value.parent.None?) ==> r.parent.None? && r.parentEtx == 0
  {
    match dag
    case None => ZeroSummary
    case Some(d) =>
      match d.parent
      case None => RoutingSummary(None, 0, d.rank, d.numNeighbors, d.beaconInterval)
      case Some(p) => RoutingSummary(Some(p.addr), p.etx, d.rank, d.numNeighbors, d.beaconInterval)
  }

  /** The message struct: `seqno`, `for_alignment`, the collect-view part and `payload`. */
  datatype Msg = Msg(seqno: uint8, forAlignment: byte, summary: RoutingSummary, payload: seq<byte>)

  /** One datagram handed to the UDP layer: destination, port, byte count and the struct it is cut from. */
  datatype Packet = Packet(dest: IpAddr, port: uint16, size: nat, msg: Msg)

  /** The payload member after the zeroing of the struct, the 'A' fill and the terminator. */
  function PayloadImage(): seq<byte>
  {
    Repeat(FillByte, PayloadSent - 1) + [0] + Repeat(0, PayloadCapacity - PayloadSent)
  }

  /**
   * Fills the payload buffer as the send routines do: zero the whole
   * buffer, write 'A' over the first 128 bytes, terminate at byte 127.
   */
  method BuildPayload() returns (payload: seq<byte>)
    ensures |payload| == PayloadCapacity
    ensures forall i :: 0 <= i < PayloadSent - 1 ==> payload[i] == FillByte
    ensures payload[PayloadSent - 1] == 0
    ensures forall i :: PayloadSent <= i < PayloadCapacity ==> payload[i] == 0
    ensures payload == PayloadImage()
  {
    var buf := new byte[PayloadCapacity];
    var i := 0;
    while i < PayloadCapacity
      invariant 0 <= i <= PayloadCapacity
      invariant forall k :: 0 <= k < i ==> buf[k] == 0
    {
      buf[i] := 0;
      i := i + 1;
    }
    i := 0;
    while i < PayloadSent
      invariant 0 <= i <= PayloadSent
      invariant forall k :: 0 <= k < i ==> buf[k] == FillByte
      invariant forall k :: PayloadSent <= k < PayloadCapacity ==> buf[k] == 0
    {
      buf[i] := FillByte;
      i := i + 1;
    }
    buf[PayloadSent - 1] := 0;
    payload := buf[..];
    assert forall k :: 0 <= k < PayloadCapacity ==> payload[k] == PayloadImage()[k];
  }

  /** The datagram one send builds: `packet_size` is the struct minus its payload, plus 128. */
  function MakePacket(dest: IpAddr, port: uint16, headerLen: nat, seqno: uint8,
                      dag: Option<DagView>): Packet
  {
    Packet(dest, port, headerLen + PayloadSent, Msg(seqno, 0, Summarize(dag), PayloadImage()))
  }

  /** The payload bytes that go on the wire: the first `size - headerLen` bytes of the payload member. */
  function SentPayload(pkt: Packet, headerLen: nat): (r: seq<byte>)
    requires headerLen <= pkt.size <= headerLen + |pkt.msg.payload|
    ensures |r| == pkt.size - headerLen
  {
    pkt.msg.payload[..pkt.size - headerLen]
  }

  /**
   * Every datagram is the header plus 128 payload bytes: 127 copies of 'A'
   * and a terminating zero; the unsent rest of the payload member is zero.
   */
  lemma PacketLayout(dest: IpAddr, port: uint16, headerLen: nat, seqno: uint8, dag: Option<DagView>)
    ensures var pkt := MakePacket(dest, port, headerLen, seqno, dag);
            pkt.size == headerLen + PayloadSent
            && |pkt.msg.payload| == PayloadCapacity
            && SentPayload(pkt, headerLen) == Repeat(FillByte, PayloadSent - 1) + [0]
            && pkt.msg.payload[PayloadSent..] == Repeat(0, PayloadCapacity - PayloadSent)
            && pkt.msg.seqno == seqno && pkt.msg.forAlignment == 0
  {
    var pkt := MakePacket(dest, port, headerLen, seqno, dag);
    var a := Repeat(FillByte, PayloadSent - 1) + [0];
    assert pkt.msg.payload == a + Repeat(0, PayloadCapacity - PayloadSent);
  }
}
