/**
 * The service provider (responder).  Its tcpip handler advances the same
 * flight counter as the client, runs signature verification and key
 * generation when a flight opens, has no instrumentation and no cool-down,
 * and answers every datagram and every retransmission request with one
 * telemetry message to whichever node the IP buffer names as the source.
 *
 * `Step` states what one event does to the provider's state and which
 * trace entries it produces; `CertProvider.Handle` is proved to do exactly
 * that, and the lemmas below follow `Step` over whole event traces.
 */
module Provider {
  import opened Common
  import opened Flight
  import opened Seqno
  import opened Message
  import opened Actions
  import Security

  /** The remote address of a connection opened with no remote host: all zero. */
  const UnspecifiedAddr: IpAddr := Repeat(0, 16)

  /**
   * The provider's statics: the flight counter, the send sequence number,
   * whether `server_conn` is set up, and the connection's remote address.
   */
  datatype ServerState = ServerState(count: FlightCount, seqno: uint8, connected: bool, peer: IpAddr)

  /** Statics are zero at boot and the connection does not exist yet. */
  const InitialState := ServerState(0, 0, false, UnspecifiedAddr)

  datatype Reaction = Reaction(next: ServerState, acts: seq<Action>)

  /** The flight-opening workload: signature verification, then key generation. */
  function Workload(): seq<Action>
  {
    Security.SignatureVerificationActs() + Security.KeyGenActs()
  }

  /**
   * `send_reply_to_peer` for a packet from `src`: a no-op until the
   * connection exists; otherwise the remote address becomes `src` and one
   * datagram goes to it on the client port.
   */
  function Send(headerLen: nat, s: ServerState, src: IpAddr, dag: Option<DagView>): Reaction
  {
    if !s.connected then Reaction(s, [])
    else
      var q := NextSeq(s.seqno);
      Reaction(s.(seqno := q, peer := src), [Sent(MakePacket(src, UdpClientPort, headerLen, q, dag))])
  }

  /** One run of `tcpip_handler`. */
  function Step(headerLen: nat, s: ServerState, ev: TcpipEvent, dag: Option<DagView>): Reaction
  {
    match ev
    case NoData => Reaction(s, [])
    case Rexmit(src) => Send(headerLen, s, src, dag)
    case NewData(src) =>
      if s.count + 1 == MaxCertFlight then
        Send(headerLen, s.(count := 0), src, dag)
      else if s.count + 1 == 1 then
        var r := Send(headerLen, s.(count := 1), src, dag);
        Reaction(r.next, Workload() + r.acts)
      else
        Send(headerLen, s.(count := s.count + 1), src, dag)
  }

  /** The provider after a trace of events, with everything it did on the way. */
  function Run(headerLen: nat, s: ServerState, ins: seq<Input<Option<DagView>>>): Reaction
    decreases |ins|
  {
    if ins == [] then Reaction(s, [])
    else
      var r := Step(headerLen, s, ins[0].ev, ins[0].env);
      var rest := Run(headerLen, r.next, ins[1..]);
      Reaction(rest.next, r.acts + rest.acts)
  }

  /** The source addresses of the events that call the send routine, in order. */
  function ReplySources(evs: seq<TcpipEvent>): (srcs: seq<IpAddr>)
    ensures |srcs| == Replies(evs)
    decreases |evs|
  {
    if evs == [] then []
    else (if evs[0].NoData? then [] else [evs[0].src]) + ReplySources(evs[1..])
  }

  /** Every datagram the provider sends goes to the client port with a non-zero sequence number and the fixed size. */
  ghost predicate SendsWellFormed(headerLen: nat, acts: seq<Action>)
  {
    forall a :: a in acts && a.Sent? ==>
      a.packet.port == UdpClientPort && a.packet.size == headerLen + PayloadSent
      && a.packet.msg.seqno != 0 && a.packet.msg.payload == PayloadImage()
  }

  /**
   * How many trace entries of kind `k` a stretch of handling produces, given
   * how many sends went out and how many flights opened: an opening is two
   * hash passes and one key generation, and nothing is timed or waited.
   */
  function Tally(k: Kind, sends: nat, opens: nat): nat
  {
    match k
    case SentK => sends
    case HashK => 2 * opens
    case KeyGenK => opens
    case _ => 0
  }

  lemma WorkloadCounts()
    ensures forall k :: Count(Workload(), k) == Tally(k, 0, 1)
  {
    var h := Security.HashActs();
    forall k ensures Count(Workload(), k) == Tally(k, 0, 1) {
      CountSingle(h[0], k);
      CountSingle(Security.KeyGenActs()[0], k);
      CountConcat(h, h, k);
      CountConcat(h + h, Security.KeyGenActs(), k);
    }
  }

  /** A send is one well-formed datagram to `src` once the connection exists, and nothing before. */
  lemma SendFacts(headerLen: nat, s: ServerState, src: IpAddr, dag: Option<DagView>)
    ensures var r := Send(headerLen, s, src, dag);
            r.next == (if s.connected then s.(seqno := NextSeq(s.seqno), peer := src) else s)
            && (forall k :: Count(r.acts, k) == Tally(k, if s.connected then 1 else 0, 0))
            && SentSeqnos(r.acts) == (if s.connected then [NextSeq(s.seqno)] else [])
            && SentDests(r.acts) == (if s.connected then [src] else [])
            && SendsWellFormed(headerLen, r.acts)
  {
    if s.connected {
      var a := Send(headerLen, s, src, dag).acts;
      assert a[1..] == [];
    }
  }

  /**
   * One event's accounting: the counter moves as the flight counter says,
   * the workload (2 hash passes, 1 key generation) runs exactly on a
   * flight's first datagram, and every datagram or retransmission request is
   * one send.
   */
  lemma StepAccounting(headerLen: nat, s: ServerState, ev: TcpipEvent, dag: Option<DagView>)
    ensures var r := Step(headerLen, s, ev, dag);
            var first := ev.NewData? && PhaseOf(s.count) == FirstOfFlight;
            var sends := s.connected && !ev.NoData?;
            r.next.count == StepCount(s.count, ev)
            && r.next.connected == s.connected
            && r.next.seqno == (if sends then NextSeq(s.seqno) else s.seqno)
            && r.next.peer == (if sends then ev.src else s.peer)
            && (forall k :: Count(r.acts, k) == Tally(k, if sends then 1 else 0, if first then 1 else 0))
  {
    match ev
    case NoData =>
    case Rexmit(src) =>
      SendFacts(headerLen, s, src, dag);
    case NewData(src) =>
      if s.count + 1 == MaxCertFlight {
        SendFacts(headerLen, s.(count := 0), src, dag);
      } else if s.count == 0 {
        var snd := Send(headerLen, s.(count := 1), src, dag);
        SendFacts(headerLen, s.(count := 1), src, dag);
        WorkloadCounts();
        forall k ensures Count(Workload() + snd.acts, k) == Count(Workload(), k) + Count(snd.acts, k) {
          CountConcat(Workload(), snd.acts, k);
        }
      } else {
        SendFacts(headerLen, s.(count := s.count + 1), src, dag);
      }
  }

  /** The flight-opening workload sends nothing, so the datagrams after it are all there are. */
  lemma WorkloadThenSend(headerLen: nat, acts: seq<Action>)
    requires SendsWellFormed(headerLen, acts)
    ensures SentSeqnos(Workload() + acts) == SentSeqnos(acts)
    ensures SentDests(Workload() + acts) == SentDests(acts)
    ensures SendsWellFormed(headerLen, Workload() + acts)
  {
    var w := Workload();
    assert w == [HashPass(Security.HashSeed), HashPass(Security.HashSeed), KeyGen(Security.KeyGenBound * Security.KeyGenBound)];
    assert Count(w, SentK) == 0;
    NoSends(w);
    SentConcat(w, acts);
  }

  /** The reply of one event is numbered next and addressed to that event's source. */
  lemma StepReplies(headerLen: nat, s: ServerState, ev: TcpipEvent, dag: Option<DagView>)
    ensures var r := Step(headerLen, s, ev, dag);
            var sends := s.connected && !ev.NoData?;
            SentSeqnos(r.acts) == (if sends then [NextSeq(s.seqno)] else [])
            && SentDests(r.acts) == (if sends then [ev.src] else [])
            && SendsWellFormed(headerLen, r.acts)
  {
    match ev
    case NoData =>
    case Rexmit(src) =>
      SendFacts(headerLen, s, src, dag);
    case NewData(src) =>
      if s.count + 1 == MaxCertFlight {
        SendFacts(headerLen, s.(count := 0), src, dag);
      } else if s.count == 0 {
        SendFacts(headerLen, s.(count := 1), src, dag);
        WorkloadThenSend(headerLen, Send(headerLen, s.(count := 1), src, dag).acts);
      } else {
        SendFacts(headerLen, s.(count := s.count + 1), src, dag);
      }
  }

  /**
   * Over any trace of events: the counter is the number of datagrams mod 18
   * whatever retransmission requests are interleaved, the workload runs once
   * per flight opened, and one reply goes out per datagram or
   * retransmission request once connected.
   */
  lemma {:induction false} RunAccounting(headerLen: nat, s: ServerState, ins: seq<Input<Option<DagView>>>)
    ensures var r := Run(headerLen, s, ins);
            var evs := Events(ins);
            r.next.count == CountAfter(s.count, evs)
            && r.next.connected == s.connected
            && r.next.seqno == (if s.connected then SeqAfter(s.seqno, Replies(evs)) else s.seqno)
            && (forall k :: Count(r.acts, k)
                            == Tally(k, if s.connected then Replies(evs) else 0, FirstsIn(s.count, evs)))
    decreases |ins|
  {
    if ins != [] {
      var r := Step(headerLen, s, ins[0].ev, ins[0].env);
      StepAccounting(headerLen, s, ins[0].ev, ins[0].env);
      RunAccounting(headerLen, r.next, ins[1..]);
      var rest := Run(headerLen, r.next, ins[1..]);
      forall k ensures Count(r.acts + rest.acts, k) == Count(r.acts, k) + Count(rest.acts, k) {
        CountConcat(r.acts, rest.acts, k);
      }
      assert Events(ins)[1..] == Events(ins[1..]);
    }
  }

  /**
   * Once connected, the replies carry successive sequence numbers and go,
   * one for one and in order, to the sources of the events that asked for
   * them.
   */
  lemma {:induction false} RunReplies(headerLen: nat, s: ServerState, ins: seq<Input<Option<DagView>>>)
    ensures var r := Run(headerLen, s, ins);
            var evs := Events(ins);
            SentSeqnos(r.acts) == (if s.connected then SeqRun(s.seqno, Replies(evs)) else [])
            && SentDests(r.acts) == (if s.connected then ReplySources(evs) else [])
            && SendsWellFormed(headerLen, r.acts)
    decreases |ins|
  {
    if ins != [] {
      var r := Step(headerLen, s, ins[0].ev, ins[0].env);
      StepAccounting(headerLen, s, ins[0].ev, ins[0].env);
      StepReplies(headerLen, s, ins[0].ev, ins[0].env);
      RunReplies(headerLen, r.next, ins[1..]);
      SentConcat(r.acts, Run(headerLen, r.next, ins[1..]).acts);
      assert Events(ins)[1..] == Events(ins[1..]);
    }
  }

  /**
   * The remote address always names the most recent node that asked for a
   * reply; before any such event it keeps its earlier value.
   */
  lemma {:induction false} PeerIsLatestSender(headerLen: nat, s: ServerState, ins: seq<Input<Option<DagView>>>)
    requires s.connected
    ensures var srcs := ReplySources(Events(ins));
            Run(headerLen, s, ins).next.peer == (if srcs == [] then s.peer else srcs[|srcs| - 1])
    decreases |ins|
  {
    if ins != [] {
      var r := Step(headerLen, s, ins[0].ev, ins[0].env);
      StepAccounting(headerLen, s, ins[0].ev, ins[0].env);
      PeerIsLatestSender(headerLen, r.next, ins[1..]);
      assert Events(ins)[1..] == Events(ins[1..]);
    }
  }

  /**
   * A fresh, connected provider that receives 18 datagrams verifies one
   * signature (2 hash passes), generates one key, sends 18 replies, each
   * to the sender of its datagram, times and meters nothing, never waits,
   * and ends with the counter back at 0.
   */
  lemma OneFullFlight(headerLen: nat, ins: seq<Input<Option<DagView>>>)
    requires |ins| == MaxCertFlight
    requires forall i :: 0 <= i < |ins| ==> ins[i].ev.NewData?
    ensures var r := Run(headerLen, InitialState.(connected := true), ins);
            r.next.count == 0
            && Count(r.acts, HashK) == 2 && Count(r.acts, KeyGenK) == 1
            && Count(r.acts, SentK) == 18
            && (forall k :: Count(r.acts, k) == Tally(k, 18, 1))
            && Count(r.acts, TimeStartK) == 0 && Count(r.acts, TimeStopK) == 0
            && Count(r.acts, EnergyStartK) == 0 && Count(r.acts, EnergyStopK) == 0
            && Count(r.acts, WaitK) == 0
            && |SentDests(r.acts)| == 18
            && forall i :: 0 <= i < 18 ==> SentDests(r.acts)[i] == ins[i].ev.src
  {
    var evs := Events(ins);
    EventsAt(ins);
    AllNewData(evs);
    RunAccounting(headerLen, InitialState.(connected := true), ins);
    RunReplies(headerLen, InitialState.(connected := true), ins);
    CountFromZero(evs);
    FlightsFromZero(evs);
    ReplySourcesOfNewData(evs);
    var acts := Run(headerLen, InitialState.(connected := true), ins).acts;
    assert Count(acts, HashK) == Tally(HashK, 18, 1);
    assert Count(acts, KeyGenK) == Tally(KeyGenK, 18, 1);
    assert Count(acts, SentK) == Tally(SentK, 18, 1);
    assert Count(acts, TimeStartK) == Tally(TimeStartK, 18, 1);
    assert Count(acts, TimeStopK) == Tally(TimeStopK, 18, 1);
    assert Count(acts, EnergyStartK) == Tally(EnergyStartK, 18, 1);
    assert Count(acts, EnergyStopK) == Tally(EnergyStopK, 18, 1);
    assert Count(acts, WaitK) == Tally(WaitK, 18, 1);
  }

  /**
   * A retransmission request in the middle of a flight: one more reply, to
   * the requester, with the counter and the workload untouched.
   */
  lemma RetransmitLeavesFlight(headerLen: nat, s: ServerState, src: IpAddr, dag: Option<DagView>)
    requires s.connected
    ensures var r := Step(headerLen, s, Rexmit(src), dag);
            r.next.count == s.count && r.next.peer == src
            && Count(r.acts, SentK) == 1 && Count(r.acts, HashK) == 0 && Count(r.acts, KeyGenK) == 0
            && SentDests(r.acts) == [src]
  {
    StepAccounting(headerLen, s, Rexmit(src), dag);
    StepReplies(headerLen, s, Rexmit(src), dag);
    var acts := Step(headerLen, s, Rexmit(src), dag).acts;
    assert Count(acts, SentK) == Tally(SentK, 1, 0);
    assert Count(acts, HashK) == Tally(HashK, 1, 0);
    assert Count(acts, KeyGenK) == Tally(KeyGenK, 1, 0);
  }

  lemma {:induction false} ReplySourcesOfNewData(evs: seq<TcpipEvent>)
    requires forall i :: 0 <= i < |evs| ==> evs[i].NewData?
    ensures |ReplySources(evs)| == |evs|
    ensures forall i :: 0 <= i < |evs| ==> ReplySources(evs)[i] == evs[i].src
    decreases |evs|
  {
    if evs != [] {
      ReplySourcesOfNewData(evs[1..]);
    }
  }

  /**
   * The service provider.  Fields are the statics of the C file and the
   * remote address of `server_conn`; `trace` is the record of everything
   * the handler did that leaves the node or costs time.
   */
  class CertProvider {
    /** The size of the message struct without its payload. */
    const headerLen: nat
    /** Whether `server_conn` is set up. */
    var serverConn: bool
    /** `server_conn->ripaddr`. */
    var ripaddr: IpAddr
    var certFlightCount: uint8
    /** The function-local static of `send_reply_to_peer`. */
    var seqno: uint8
    ghost var trace: seq<Action>

    ghost predicate Valid()
      reads this
    {
      certFlightCount < MaxCertFlight
    }

    ghost function State(): ServerState
      reads this
      requires Valid()
    {
      ServerState(certFlightCount, seqno, serverConn, ripaddr)
    }

    constructor (headerLen: nat)
      ensures Valid() && this.headerLen == headerLen
      ensures State() == InitialState && trace == []
    {
      this.headerLen := headerLen;
      serverConn := false;
      ripaddr := UnspecifiedAddr;
      certFlightCount := 0;
      seqno := 0;
      trace := [];
    }

    /** The process start-up's `udp_new`: the connection exists unless no connection slot was free. */
    method Connect(slotFree: bool)
      requires Valid()
      modifies this`serverConn
      ensures Valid() && State() == old(State()).(connected := slotFree)
      ensures unchanged(this`trace)
    {
      serverConn := slotFree;
    }

    method SendReplyToPeer(src: IpAddr, dag: Option<DagView>)
      requires Valid()
      modifies this`seqno, this`ripaddr, this`trace
      ensures Valid()
      ensures State() == Send(headerLen, old(State()), src, dag).next
      ensures trace == old(trace) + Send(headerLen, old(State()), src, dag).acts
    {
      if !serverConn {
        return;
      }
      var payload := BuildPayload();
      seqno := (seqno + 1) % UInt8Modulus;
      if seqno == 0 {
        seqno := 128;
      }
      var msg := Msg(seqno, 0, Summarize(dag), payload);
      ripaddr := src;
      var packetSize := headerLen + PayloadSent;
      trace := trace + [Sent(Packet(ripaddr, UdpClientPort, packetSize, msg))];
    }

    method Handle(ev: TcpipEvent, dag: Option<DagView>)
      requires Valid()
      modifies this
      ensures Valid()
      ensures State() == Step(headerLen, old(State()), ev, dag).next
      ensures trace == old(trace) + Step(headerLen, old(State()), ev, dag).acts
    {
      ghost var s0 := State();
      ghost var t0 := trace;
      match ev {
        case NewData(src) =>
          certFlightCount := certFlightCount + 1;
          if certFlightCount == MaxCertFlight {
            certFlightCount := 0;
            SendReplyToPeer(src, dag);
          } else {
            if certFlightCount == 1 {
              var verify := Security.SignatureVerification();
              trace := trace + verify;
              var keygen := Security.KeyGenerationExponential();
              trace := trace + keygen;
              assert State() == s0.(count := 1) && trace == t0 + Workload();
            }
            SendReplyToPeer(src, dag);
          }
        case Rexmit(src) =>
          SendReplyToPeer(src, dag);
        case NoData =>
      }
    }
  }
}
