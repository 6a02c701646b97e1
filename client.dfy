/**
 * The service client (initiator).  Its tcpip handler advances the flight
 * counter on every datagram, opens a flight with timing, energy tracking and
 * the security workload, closes it with the stop figures and a 120-second
 * cool-down, and answers every datagram and every retransmission request
 * with one telemetry message to the server.
 *
 * `Step` states what one event does to the client's state and which trace
 * entries it produces; `CertClient.Handle` is proved to do exactly that, and
 * the lemmas below follow `Step` over whole event traces.
 */
module Client {
  import opened Common
  import opened Flight
  import opened Seqno
  import opened Message
  import opened Instrumentation
  import opened Actions
  import Security

  /** The server address aaaa::1 set at startup. */
  const ServerIpAddr: IpAddr := [0xaa, 0xaa] + Repeat(0, 13) + [1]
  /** The cool-down before the reply that closes a flight. */
  const CoolDownSeconds: nat := 120

  /**
   * Platform constants the code takes from the build: the size of the
   * message struct without its payload, RTIMER_SECOND and CLOCK_SECOND.
   */
  datatype Platform = Platform(headerLen: nat, rtimerSecond: nat, clockSecond: nat) {
    predicate Valid() { rtimerSecond > 0 && clockSecond > 0 }
  }

  /** The hardware clocks as sampled during one event: RTIMER_NOW(), clock_time() and the energest counters. */
  datatype HwSample = HwSample(rtimer: ulong, clock: ulong, energest: Energest)

  /** What the collaborators report while one event is handled. */
  datatype Env = Env(dag: Option<DagView>, hw: HwSample)

  /**
   * The client's file-scope and function-scope statics: the flight counter,
   * the send sequence number, whether `client_conn` is set up, and the
   * start figures of the flight's instrumentation.
   */
  datatype ClientState = ClientState(count: FlightCount, seqno: uint8, connected: bool,
                                     rstart: ulong, cstart: ulong, energyStart: Energest)

  /** Statics are zero at boot and the connection does not exist yet. */
  const InitialState := ClientState(0, 0, false, 0, 0, Energest(0, 0, 0, 0))

  datatype Reaction = Reaction(next: ClientState, acts: seq<Action>)

  /** The flight-opening workload: signature verification, key generation, one more hash pass. */
  function Workload(): seq<Action>
  {
    Security.SignatureVerificationActs() + Security.KeyGenActs() + Security.HashActs()
  }

  /** `collect_common_send`: a no-op until the connection exists, otherwise one datagram to the server. */
  function Send(p: Platform, s: ClientState, dag: Option<DagView>): Reaction
  {
    if !s.connected then Reaction(s, [])
    else
      var q := NextSeq(s.seqno);
      Reaction(s.(seqno := q), [Sent(MakePacket(ServerIpAddr, UdpServerPort, p.headerLen, q, dag))])
  }

  /** The figures `time_tracking_stop` prints: elapsed ticks and whole seconds of both clocks. */
  function TimeStopAct(p: Platform, rstart: ulong, cstart: ulong, hw: HwSample): Action
    requires p.Valid()
  {
    var r := Sub(hw.rtimer, rstart);
    var c := Sub(hw.clock, cstart);
    TimeStop(r, Latency(r, p.rtimerSecond), c, Latency(c, p.clockSecond))
  }

  /** What closing a flight logs before its reply: both stop figures and the cool-down. */
  function FlightClose(p: Platform, s: ClientState, hw: HwSample): seq<Action>
    requires p.Valid()
  {
    [TimeStopAct(p, s.rstart, s.cstart, hw),
     EnergyStop(EnergyEstimate(s.energyStart, hw.energest, p.rtimerSecond)),
     Wait(CoolDownSeconds)]
  }

  /** What opening a flight logs before its reply: both starts and the workload. */
  function FlightOpen(hw: HwSample): seq<Action>
  {
    [TimeStart(hw.rtimer, hw.clock), EnergyStart(hw.energest)] + Workload()
  }

  /** The instrumentation statics after a flight opened with sample `hw`. */
  function Opened(s: ClientState, hw: HwSample): ClientState
  {
    s.(count := 1, rstart := hw.rtimer, cstart := hw.clock, energyStart := hw.energest)
  }

  /** One run of `tcpip_handler`. */
  function Step(p: Platform, s: ClientState, ev: TcpipEvent, env: Env): Reaction
    requires p.Valid()
  {
    match ev
    case NoData => Reaction(s, [])
    case Rexmit(_) => Send(p, s, env.dag)
    case NewData(_) =>
      if s.count + 1 == MaxCertFlight then
        var r := Send(p, s.(count := 0), env.dag);
        Reaction(r.next, FlightClose(p, s, env.hw) + r.acts)
      else if s.count + 1 == 1 then
        var r := Send(p, Opened(s, env.hw), env.dag);
        Reaction(r.next, FlightOpen(env.hw) + r.acts)
      else
        Send(p, s.(count := s.count + 1), env.dag)
  }

  /** The client after a trace of events, with everything it did on the way. */
  function Run(p: Platform, s: ClientState, ins: seq<Input<Env>>): Reaction
    requires p.Valid()
    decreases |ins|
  {
    if ins == [] then Reaction(s, [])
    else
      var r := Step(p, s, ins[0].ev, ins[0].env);
      var rest := Run(p, r.next, ins[1..]);
      Reaction(rest.next, r.acts + rest.acts)
  }

  /** Every datagram the client sends goes to the server port with a non-zero sequence number and the fixed size. */
  ghost predicate SendsWellFormed(p: Platform, acts: seq<Action>)
  {
    forall a :: a in acts && a.Sent? ==>
      a.packet.dest == ServerIpAddr && a.packet.port == UdpServerPort
      && a.packet.size == p.headerLen + PayloadSent
      && a.packet.msg.seqno != 0 && a.packet.msg.payload == PayloadImage()
  }

  lemma WorkloadCounts()
    ensures Count(Workload(), HashK) == 3 && Count(Workload(), KeyGenK) == 1
    ensures Count(Workload(), SentK) == 0 && Count(Workload(), TimeStartK) == 0
    ensures Count(Workload(), TimeStopK) == 0 && Count(Workload(), EnergyStartK) == 0
    ensures Count(Workload(), EnergyStopK) == 0 && Count(Workload(), WaitK) == 0
  {
    var h := Security.HashActs();
    CountConcat(h, h, HashK);
    CountConcat(h + h, Security.KeyGenActs(), HashK);
    CountConcat(h + h + Security.KeyGenActs(), h, HashK);
    forall k | k != HashK
      ensures Count(Workload(), k) == (if k == KeyGenK then 1 else 0)
    {
      CountConcat(h, h, k);
      CountConcat(h + h, Security.KeyGenActs(), k);
      CountConcat(h + h + Security.KeyGenActs(), h, k);
    }
  }

  /**
   * How many trace entries of kind `k` a stretch of handling produces, given
   * how many sends went out, how many flights opened and how many closed:
   * a send is one datagram, an opening is three hash passes, one key
   * generation and both starts, a closing is both stops and one wait.
   */
  function Tally(k: Kind, sends: nat, opens: nat, closes: nat): nat
  {
    match k
    case SentK => sends
    case HashK => 3 * opens
    case KeyGenK => opens
    case TimeStartK => opens
    case EnergyStartK => opens
    case TimeStopK => closes
    case EnergyStopK => closes
    case WaitK => closes
  }

  /** A send is one well-formed datagram once the connection exists, and nothing before. */
  lemma SendFacts(p: Platform, s: ClientState, dag: Option<DagView>)
    ensures var r := Send(p, s, dag);
            r.next == (if s.connected then s.(seqno := NextSeq(s.seqno)) else s)
            && (forall k :: Count(r.acts, k) == Tally(k, if s.connected then 1 else 0, 0, 0))
            && SentSeqnos(r.acts) == (if s.connected then [NextSeq(s.seqno)] else [])
            && SendsWellFormed(p, r.acts)
  {
    if s.connected {
      var a := Send(p, s, dag).acts;
      assert a[1..] == [];
    }
  }

  lemma CountOfThree(a: Action, b: Action, c: Action, k: Kind)
    ensures Count([a, b, c], k)
            == (if KindOf(a) == k then 1 else 0) + (if KindOf(b) == k then 1 else 0)
               + (if KindOf(c) == k then 1 else 0)
  {
    CountSingle(a, k);
    CountSingle(b, k);
    CountSingle(c, k);
    CountConcat([a], [b], k);
    CountConcat([a, b], [c], k);
    assert [a] + [b] == [a, b] && [a, b] + [c] == [a, b, c];
  }

  lemma FlightCloseCounts(p: Platform, s: ClientState, hw: HwSample)
    requires p.Valid()
    ensures forall k :: Count(FlightClose(p, s, hw), k) == Tally(k, 0, 0, 1)
  {
    var c := FlightClose(p, s, hw);
    forall k ensures Count(c, k) == Tally(k, 0, 0, 1) {
      CountOfThree(c[0], c[1], c[2], k);
      assert c == [c[0], c[1], c[2]];
    }
  }

  lemma FlightOpenCounts(hw: HwSample)
    ensures forall k :: Count(FlightOpen(hw), k) == Tally(k, 0, 1, 0)
  {
    var pre := [TimeStart(hw.rtimer, hw.clock), EnergyStart(hw.energest)];
    assert pre[1..][1..] == [];
    WorkloadCounts();
    forall k ensures Count(FlightOpen(hw), k) == Count(pre, k) + Count(Workload(), k) {
      CountConcat(pre, Workload(), k);
    }
  }

  /** Prefixing a send with a block of entries adds their counts. */
  lemma PrefixedSend(p: Platform, pre: seq<Action>, s: ClientState, dag: Option<DagView>,
                     opens: nat, closes: nat)
    requires forall k :: Count(pre, k) == Tally(k, 0, opens, closes)
    requires forall a :: a in pre ==> !a.Sent?
    ensures var r := Send(p, s, dag);
            (forall k :: Count(pre + r.acts, k) == Tally(k, if s.connected then 1 else 0, opens, closes))
            && SendsWellFormed(p, pre + r.acts)
  {
    var r := Send(p, s, dag);
    SendFacts(p, s, dag);
    forall k ensures Count(pre + r.acts, k) == Count(pre, k) + Count(r.acts, k) {
      CountConcat(pre, r.acts, k);
    }
  }

  /**
   * One event's accounting: the counter moves as the flight counter says,
   * the workload (3 hash passes, 1 key generation) and both starts run
   * exactly on a flight's first datagram, both stops and the wait exactly
   * on its last, and every datagram or retransmission request is one send.
   */
  lemma StepAccounting(p: Platform, s: ClientState, ev: TcpipEvent, env: Env)
    requires p.Valid()
    ensures var r := Step(p, s, ev, env);
            var first := ev.NewData? && PhaseOf(s.count) == FirstOfFlight;
            var last := ev.NewData? && PhaseOf(s.count) == LastOfFlight;
            var sends := s.connected && !ev.NoData?;
            r.next.count == StepCount(s.count, ev)
            && r.next.connected == s.connected
            && r.next.seqno == (if sends then NextSeq(s.seqno) else s.seqno)
            && r.next.rstart == (if first then env.hw.rtimer else s.rstart)
            && r.next.cstart == (if first then env.hw.clock else s.cstart)
            && r.next.energyStart == (if first then env.hw.energest else s.energyStart)
            && (forall k :: Count(r.acts, k)
                            == Tally(k, if sends then 1 else 0, if first then 1 else 0, if last then 1 else 0))
            && SendsWellFormed(p, r.acts)
  {
    match ev
    case NoData =>
    case Rexmit(_) =>
      SendFacts(p, s, env.dag);
    case NewData(_) =>
      if s.count + 1 == MaxCertFlight {
        FlightCloseCounts(p, s, env.hw);
        SendFacts(p, s.(count := 0), env.dag);
        PrefixedSend(p, FlightClose(p, s, env.hw), s.(count := 0), env.dag, 0, 1);
      } else if s.count == 0 {
        FlightOpenCounts(env.hw);
        SendFacts(p, Opened(s, env.hw), env.dag);
        PrefixedSend(p, FlightOpen(env.hw), Opened(s, env.hw), env.dag, 1, 0);
      } else {
        SendFacts(p, s.(count := s.count + 1), env.dag);
      }
  }

  /**
   * Over any trace of events: the counter is the number of datagrams mod 18
   * whatever retransmission requests are interleaved, the workload and the
   * starts run once per flight opened, the stops and the cool-down once per
   * flight closed, and the sends and sequence numbers follow the replies.
   */
  lemma {:induction false} RunAccounting(p: Platform, s: ClientState, ins: seq<Input<Env>>)
    requires p.Valid()
    ensures var r := Run(p, s, ins);
            var evs := Events(ins);
            r.next.count == CountAfter(s.count, evs)
            && r.next.connected == s.connected
            && r.next.seqno == (if s.connected then SeqAfter(s.seqno, Replies(evs)) else s.seqno)
            && (forall k :: Count(r.acts, k)
                            == Tally(k, if s.connected then Replies(evs) else 0,
                                     FirstsIn(s.count, evs), LastsIn(s.count, evs)))
            && SendsWellFormed(p, r.acts)
    decreases |ins|
  {
    if ins != [] {
      var r := Step(p, s, ins[0].ev, ins[0].env);
      StepAccounting(p, s, ins[0].ev, ins[0].env);
      RunAccounting(p, r.next, ins[1..]);
      var rest := Run(p, r.next, ins[1..]);
      assert Run(p, s, ins) == Reaction(rest.next, r.acts + rest.acts);
      forall k ensures Count(r.acts + rest.acts, k) == Count(r.acts, k) + Count(rest.acts, k) {
        CountConcat(r.acts, rest.acts, k);
      }
      assert Events(ins)[1..] == Events(ins[1..]);
    }
  }

  /** The datagram of one event carries the next sequence number, and there is at most one. */
  lemma StepSentSeqnos(p: Platform, s: ClientState, ev: TcpipEvent, env: Env)
    requires p.Valid()
    ensures SentSeqnos(Step(p, s, ev, env).acts)
            == if s.connected && !ev.NoData? then [NextSeq(s.seqno)] else []
  {
    if ev.NewData? && s.count + 1 == MaxCertFlight {
      var r := Send(p, s.(count := 0), env.dag);
      FlightCloseCounts(p, s, env.hw);
      NoSends(FlightClose(p, s, env.hw));
      SentConcat(FlightClose(p, s, env.hw), r.acts);
    } else if ev.NewData? && s.count == 0 {
      var r := Send(p, Opened(s, env.hw), env.dag);
      FlightOpenCounts(env.hw);
      NoSends(FlightOpen(env.hw));
      SentConcat(FlightOpen(env.hw), r.acts);
    }
  }

  /**
   * Over any trace the datagrams carry, in order, the numbers of successive
   * sends from the static's starting value: one per datagram and per
   * retransmission request once connected, none before.
   */
  lemma {:induction false} RunSentSeqnos(p: Platform, s: ClientState, ins: seq<Input<Env>>)
    requires p.Valid()
    ensures SentSeqnos(Run(p, s, ins).acts)
            == if s.connected then SeqRun(s.seqno, Replies(Events(ins))) else []
    decreases |ins|
  {
    if ins != [] {
      var r := Step(p, s, ins[0].ev, ins[0].env);
      StepSentSeqnos(p, s, ins[0].ev, ins[0].env);
      StepAccounting(p, s, ins[0].ev, ins[0].env);
      RunSentSeqnos(p, r.next, ins[1..]);
      SentConcat(r.acts, Run(p, r.next, ins[1..]).acts);
      assert Events(ins)[1..] == Events(ins[1..]);
    }
  }

  /** A client connected from boot numbers its datagrams 1, 2, ..., 255, 128, 129, ... */
  lemma FreshClientNumbering(p: Platform, ins: seq<Input<Env>>)
    requires p.Valid()
    ensures var nums := SentSeqnos(Run(p, InitialState.(connected := true), ins).acts);
            |nums| == Replies(Events(ins))
            && forall i :: 0 <= i < |nums| ==> nums[i] == EmittedSeq(i + 1)
  {
    RunSentSeqnos(p, InitialState.(connected := true), ins);
    SeqRunFromFresh(Replies(Events(ins)));
  }

  /**
   * From a flight's second datagram on, the datagrams that complete the
   * flight log the figures measured from the flight's stored start samples
   * to the samples taken on the closing datagram.
   */
  lemma {:induction false} RestOfFlight(p: Platform, s: ClientState, ins: seq<Input<Env>>)
    requires p.Valid()
    requires 1 <= s.count && s.count + |ins| == MaxCertFlight
    requires forall i :: 0 <= i < |ins| ==> ins[i].ev.NewData?
    ensures var r := Run(p, s, ins);
            var hw := ins[|ins| - 1].env.hw;
            EnergyStop(EnergyEstimate(s.energyStart, hw.energest, p.rtimerSecond)) in r.acts
            && TimeStopAct(p, s.rstart, s.cstart, hw) in r.acts
    decreases |ins|
  {
    var r := Step(p, s, ins[0].ev, ins[0].env);
    var rest := Run(p, r.next, ins[1..]);
    assert Run(p, s, ins).acts == r.acts + rest.acts;
    if |ins| == 1 {
      var c := FlightClose(p, s, ins[0].env.hw);
      assert r.acts == c + Send(p, s.(count := 0), ins[0].env.dag).acts;
      assert c[0] in r.acts && c[1] in r.acts;
    } else {
      StepAccounting(p, s, ins[0].ev, ins[0].env);
      RestOfFlight(p, r.next, ins[1..]);
      assert ins[1..][|ins[1..]| - 1] == ins[|ins| - 1];
    }
  }

  /**
   * The figures logged when a flight closes measure from the samples taken
   * on its opening datagram to those taken on its closing one.
   */
  lemma FlightFigures(p: Platform, s: ClientState, ins: seq<Input<Env>>)
    requires p.Valid() && s.count == 0
    requires |ins| == MaxCertFlight
    requires forall i :: 0 <= i < |ins| ==> ins[i].ev.NewData?
    ensures var r := Run(p, s, ins);
            EnergyStop(EnergyEstimate(ins[0].env.hw.energest, ins[17].env.hw.energest, p.rtimerSecond)) in r.acts
            && TimeStopAct(p, ins[0].env.hw.rtimer, ins[0].env.hw.clock, ins[17].env.hw) in r.acts
  {
    var r := Step(p, s, ins[0].ev, ins[0].env);
    StepAccounting(p, s, ins[0].ev, ins[0].env);
    RestOfFlight(p, r.next, ins[1..]);
    assert Run(p, s, ins).acts == r.acts + Run(p, r.next, ins[1..]).acts;
  }

  /**
   * A fresh, connected client that receives 18 datagrams runs the workload
   * once, starts and stops its instrumentation once, waits once, sends 18
   * replies and ends with the counter back at 0.
   */
  lemma OneFullFlight(p: Platform, ins: seq<Input<Env>>)
    requires p.Valid()
    requires |ins| == MaxCertFlight
    requires forall i :: 0 <= i < |ins| ==> ins[i].ev.NewData?
    ensures var r := Run(p, InitialState.(connected := true), ins);
            r.next.count == 0
            && Count(r.acts, HashK) == 3 && Count(r.acts, KeyGenK) == 1
            && Count(r.acts, TimeStartK) == 1 && Count(r.acts, TimeStopK) == 1
            && Count(r.acts, EnergyStartK) == 1 && Count(r.acts, EnergyStopK) == 1
            && Count(r.acts, WaitK) == 1 && Count(r.acts, SentK) == 18
  {
    var evs := Events(ins);
    assert forall i :: 0 <= i < |evs| ==> evs[i].NewData? by {
      EventsAt(ins);
    }
    AllNewData(evs);
    RunAccounting(p, InitialState.(connected := true), ins);
    CountFromZero(evs);
    FlightsFromZero(evs);
    var acts := Run(p, InitialState.(connected := true), ins).acts;
    assert Count(acts, HashK) == Tally(HashK, 18, 1, 1);
    assert Count(acts, KeyGenK) == Tally(KeyGenK, 18, 1, 1);
    assert Count(acts, TimeStartK) == Tally(TimeStartK, 18, 1, 1);
    assert Count(acts, EnergyStartK) == Tally(EnergyStartK, 18, 1, 1);
    assert Count(acts, TimeStopK) == Tally(TimeStopK, 18, 1, 1);
    assert Count(acts, EnergyStopK) == Tally(EnergyStopK, 18, 1, 1);
    assert Count(acts, WaitK) == Tally(WaitK, 18, 1, 1);
    assert Count(acts, SentK) == Tally(SentK, 18, 1, 1);
  }

  /**
   * A datagram followed by a retransmission request: two replies, the
   * counter stays at 1, the workload ran once.
   */
  lemma DatagramThenRetransmit(p: Platform, src: IpAddr, env1: Env, env2: Env)
    requires p.Valid()
    ensures var r := Run(p, InitialState.(connected := true),
                         [Input(NewData(src), env1), Input(Rexmit(src), env2)]);
            r.next.count == 1 && Count(r.acts, SentK) == 2
            && Count(r.acts, HashK) == 3 && Count(r.acts, KeyGenK) == 1
            && Count(r.acts, TimeStopK) == 0 && Count(r.acts, EnergyStopK) == 0
            && Count(r.acts, WaitK) == 0
  {
    var ins := [Input(NewData(src), env1), Input(Rexmit(src), env2)];
    RunAccounting(p, InitialState.(connected := true), ins);
    var evs := [NewData(src), Rexmit(src)];
    assert Events(ins) == evs by {
      assert ins[1..] == [Input(Rexmit(src), env2)];
      assert Events(ins[1..]) == [Rexmit(src)];
    }
    assert evs[1..] == [Rexmit(src)] && evs[1..][1..] == [];
    assert NewDataCount(evs[1..]) == 0 && Replies(evs[1..]) == 1;
    assert NewDataCount(evs) == 1 && Replies(evs) == 2;
    CountFromZero(evs);
    FlightsFromZero(evs);
    var acts := Run(p, InitialState.(connected := true), ins).acts;
    assert Count(acts, SentK) == Tally(SentK, 2, 1, 0);
    assert Count(acts, HashK) == Tally(HashK, 2, 1, 0);
    assert Count(acts, KeyGenK) == Tally(KeyGenK, 2, 1, 0);
    assert Count(acts, TimeStopK) == Tally(TimeStopK, 2, 1, 0);
    assert Count(acts, EnergyStopK) == Tally(EnergyStopK, 2, 1, 0);
    assert Count(acts, WaitK) == Tally(WaitK, 2, 1, 0);
  }

  /**
   * The service client.  Fields are the statics of the C file; `trace` is
   * the record of everything the handler did that leaves the node or
   * costs time.
   */
  class CertClient {
    const platform: Platform
    /** Whether `client_conn` is set up. */
    var clientConn: bool
    var certFlightCount: uint8
    /** The function-local static of `collect_common_send`. */
    var seqno: uint8
    var rstartTime: ulong
    var cstartTime: ulong
    /** The four `*_energy_start` statics. */
    var energyStart: Energest
    ghost var trace: seq<Action>

    ghost predicate Valid()
      reads this
    {
      platform.Valid() && certFlightCount < MaxCertFlight
    }

    ghost function State(): ClientState
      reads this
      requires Valid()
    {
      ClientState(certFlightCount, seqno, clientConn, rstartTime, cstartTime, energyStart)
    }

    constructor (platform: Platform)
      requires platform.Valid()
      ensures Valid() && this.platform == platform
      ensures State() == InitialState && trace == []
    {
      this.platform := platform;
      clientConn := false;
      certFlightCount := 0;
      seqno := 0;
      rstartTime, cstartTime := 0, 0;
      energyStart := Energest(0, 0, 0, 0);
      trace := [];
    }

    /** The process start-up's `udp_new`: the connection exists unless no connection slot was free. */
    method Connect(slotFree: bool)
      requires Valid()
      modifies this`clientConn
      ensures Valid() && State() == old(State()).(connected := slotFree)
      ensures unchanged(this`trace)
    {
      clientConn := slotFree;
    }

    method TimeTrackingStart(hw: HwSample)
      modifies this`rstartTime, this`cstartTime, this`trace
      ensures rstartTime == hw.rtimer && cstartTime == hw.clock
      ensures trace == old(trace) + [TimeStart(hw.rtimer, hw.clock)]
    {
      rstartTime := hw.rtimer;
      cstartTime := hw.clock;
      trace := trace + [TimeStart(rstartTime, cstartTime)];
    }

    method TimeTrackingStop(hw: HwSample)
      requires Valid()
      modifies this`trace
      ensures trace == old(trace) + [TimeStopAct(platform, rstartTime, cstartTime, hw)]
    {
      var rendTime := hw.rtimer;
      var relapsedTime := Sub(rendTime, rstartTime);
      var cendTime := hw.clock;
      var celapsedTime := Sub(cendTime, cstartTime);
      trace := trace + [TimeStop(relapsedTime, relapsedTime / platform.rtimerSecond,
                                 celapsedTime, celapsedTime / platform.clockSecond)];
    }

    method EnergyTrackingStart(hw: HwSample)
      modifies this`energyStart, this`trace
      ensures energyStart == hw.energest
      ensures trace == old(trace) + [EnergyStart(hw.energest)]
    {
      energyStart := hw.energest;
      trace := trace + [EnergyStart(energyStart)];
    }

    method EnergyTrackingStop(hw: HwSample)
      requires Valid()
      modifies this`trace
      ensures trace == old(trace) + [EnergyStop(EnergyEstimate(energyStart, hw.energest, platform.rtimerSecond))]
    {
      var delta := DomainDeltas(energyStart, hw.energest);
      var energyConsumed := MulU(CpuCurrent, delta.cpu);
      energyConsumed := AddU(energyConsumed, MulU(LpmCurrent, delta.lpm));
      energyConsumed := AddU(energyConsumed, MulU(TransmitCurrent, delta.transmit));
      energyConsumed := AddU(energyConsumed, MulU(ListenCurrent, delta.listen));
      energyConsumed := MulU(Volt, energyConsumed);
      energyConsumed := energyConsumed / platform.rtimerSecond;
      assert energyConsumed == EnergyOfDeltas(delta, platform.rtimerSecond);
      trace := trace + [EnergyStop(energyConsumed)];
    }

    /** `clock_wait`: recorded, not timed. */
    method ClockWait(seconds: nat)
      modifies this`trace
      ensures trace == old(trace) + [Wait(seconds)]
    {
      trace := trace + [Wait(seconds)];
    }

    method CollectCommonSend(dag: Option<DagView>)
      requires Valid()
      modifies this`seqno, this`trace
      ensures Valid()
      ensures State() == Send(platform, old(State()), dag).next
      ensures trace == old(trace) + Send(platform, old(State()), dag).acts
    {
      if !clientConn {
        return;
      }
      var payload := BuildPayload();
      seqno := (seqno + 1) % UInt8Modulus;
      if seqno == 0 {
        seqno := 128;
      }
      var msg := Msg(seqno, 0, Summarize(dag), payload);
      var packetSize := platform.headerLen + PayloadSent;
      trace := trace + [Sent(Packet(ServerIpAddr, UdpServerPort, packetSize, msg))];
    }

    /** The closing block of the handler: both stops, then the cool-down. */
    method CloseFlight(hw: HwSample)
      requires Valid()
      modifies this`trace
      ensures trace == old(trace) + FlightClose(platform, State(), hw)
    {
      TimeTrackingStop(hw);
      EnergyTrackingStop(hw);
      ClockWait(CoolDownSeconds);
    }

    /** The opening block of the handler: both starts, then the workload. */
    method OpenFlight(hw: HwSample)
      requires Valid()
      modifies this`rstartTime, this`cstartTime, this`energyStart, this`trace
      ensures rstartTime == hw.rtimer && cstartTime == hw.clock && energyStart == hw.energest
      ensures trace == old(trace) + FlightOpen(hw)
    {
      TimeTrackingStart(hw);
      EnergyTrackingStart(hw);
      var verify := Security.SignatureVerification();
      trace := trace + verify;
      var keygen := Security.KeyGenerationExponential();
      trace := trace + keygen;
      var hash := Security.HashGeneration();
      trace := trace + hash;
    }

    method Handle(ev: TcpipEvent, env: Env)
      requires Valid()
      modifies this
      ensures Valid()
      ensures State() == Step(platform, old(State()), ev, env).next
      ensures trace == old(trace) + Step(platform, old(State()), ev, env).acts
    {
      ghost var s0 := State();
      ghost var t0 := trace;
      match ev {
        case NewData(_) =>
          certFlightCount := certFlightCount + 1;
          if certFlightCount == MaxCertFlight {
            certFlightCount := 0;
            CloseFlight(env.hw);
            assert State() == s0.(count := 0) && trace == t0 + FlightClose(platform, s0, env.hw);
            CollectCommonSend(env.dag);
          } else {
            if certFlightCount == 1 {
              OpenFlight(env.hw);
              assert State() == Opened(s0, env.hw);
            }
            CollectCommonSend(env.dag);
          }
        case Rexmit(_) =>
          CollectCommonSend(env.dag);
        case NoData =>
      }
    }
  }
}
