# Flight-windowed certificate exchange: a Dafny model

Two Contiki applications exchange telemetry datagrams in *flights* of
`MAX_CERT_FLIGHT = 18`. The **service client** (`cert-service-client.c`)
and the **service provider** (`cert-service-provider.c`) each keep a
`cert_flight_count` in their `tcpip_handler`. The counter advances on every
new-data event and resets when it reaches 18. When the counter becomes 1,
a placeholder security workload runs: signature verification, key
generation and, on the client, one more hash pass. The client also starts
timing and energy tracking at that point. When the counter reaches 18, the
client prints the elapsed time and an energy estimate and waits 120
seconds. Each role answers every new-data event and every retransmission
request with one telemetry message. That message carries a one-byte
sequence number that wraps from 255 to 128, never to 0. It also carries a
routing summary and a 128-byte filler payload.

The model is organised like this:

- `common.dfy`: the integer widths, byte sequences and the event type. An
  event is a new datagram, a retransmission request, or neither. The first
  two carry the source address found in the IP buffer.
- `seqno.dfy`: the wrap-to-128 sequence number and the numbers successive
  sends carry.
- `flight.dfy`: the flight counter followed over whole event traces, with
  closed forms for how many flights open and close.
- `message.dfy`: the routing summary, the payload buffer filled by
  `memset` (as a method with loops over an array), and the datagram.
- `instrumentation.dfy`: the 32-bit `unsigned long` arithmetic of
  `time_tracking_stop` and `energy_tracking_stop`.
- `actions.dfy`: the trace entries a handler run produces (datagrams,
  workload passes, instrumentation figures, the wait) and how they are
  counted.
- `security.dfy`: `hash_generation`, `encryption_decryption`,
  `singnature_varification` and `key_generation_exponential`, as methods
  with their loops.
- `client.dfy` and `provider.dfy`: each role as a class. The class fields
  are the C file's statics, and a ghost `trace` records the trace entries.
  Each class's `Handle` method is proved equal to a pure `Step` function.
  The lemmas that hold for every trace of events are proved about `Run`,
  which applies `Step` to each event in turn.

## Model

| member | source | states |
|---|---|---|
| `Seqno.NextSeq` | cert-service-client.c:299-303 | The next sequence number is the old one plus 1, except that 255 wraps to 128; the result is never 0. |
| `Seqno.SeqNeverZero` | cert-service-client.c:299-304 | However many sends happen from any starting value, the number sent is never 0. |
| `Seqno.SeqWrappedStaysHigh` | cert-service-provider.c:183-187 | Once the number has wrapped it stays within 128..255 forever. |
| `Seqno.SeqFromFresh` | cert-service-client.c:276 | From the zero-initialised static, the k-th send carries k for k up to 255, then 128 + (k-256) mod 128. |
| `Seqno.SeqRunFromFresh` | cert-service-provider.c:159 | From boot, the sends carry 1, 2, ..., 255, 128, 129, ..., 255, 128, ... in that order, never 0. |
| `Seqno.SeqRunAt` | cert-service-provider.c:183-188 | The i-th of n successive sends carries the value the static holds after i+1 increments. |
| `Flight.PhaseOf` | cert-service-client.c:251-259 | A new-data event is last of its flight exactly when it finds the counter at 17, and first exactly when it finds it at 0. |
| `Flight.StepCount` | cert-service-provider.c:254-256 | A new-data event moves the counter to (c+1) mod 18; any other event leaves it unchanged. |
| `Flight.CountAfterIsMod` | cert-service-client.c:251-253 | After any trace the counter is (start + number of new-data events) mod 18, whatever retransmission requests are interleaved. |
| `Flight.CountFromZero` | cert-service-provider.c:63 | From the initial 0, the counter after k new-data events is k mod 18. |
| `Flight.FirstsClosedForm` | cert-service-client.c:259 | The number of flight openings in a trace is the number of post-increment counts congruent to 1 mod 18. |
| `Flight.LastsClosedForm` | cert-service-client.c:252 | The number of flight closings in a trace is the number of post-increment counts that reach 18. |
| `Flight.FlightsFromZero` | cert-service-client.c:251-265 | From boot, the workload runs ceil(n/18) times and the flight closes floor(n/18) times for n new-data events. |
| `Flight.StartsAndStopsAlternate` | cert-service-client.c:252-265 | Closings never outnumber openings, and openings lead by at most one. |
| `Flight.AllNewData` | cert-service-client.c:243 | In a trace of new-data events only, every event counts and every event is one reply. |
| `Message.Summarize` | cert-service-client.c:306-330 | With no DAG the routing summary is all zero with a null parent. With a DAG, rank, beacon interval and neighbour count are copied. The parent and its ETX are reported only when the parent is in the neighbour table. |
| `Message.BuildPayload` | cert-service-client.c:298-338 | Zeroing the buffer, filling 128 bytes with 'A' and terminating at byte 127 leaves bytes 0..126 'A', byte 127 zero and bytes 128..255 zero. |
| `Message.PacketLayout` | cert-service-provider.c:223-226 | Every datagram is the header plus 128 payload bytes. Those bytes are 127 copies of 'A' and a zero. The alignment byte is 0. |
| `Message.SentPayload` | cert-service-client.c:336-343 | The bytes on the wire after the header are the first (size - header) bytes of the payload member. |
| `Instrumentation.Sub` | cert-service-client.c:168-171 | Elapsed ticks are end - start, or end + 2^32 - start when the counter wrapped once. |
| `Instrumentation.Latency` | cert-service-client.c:173-174 | The printed latency is the whole number of seconds in the elapsed ticks. |
| `Instrumentation.WrappedSumIsSumWrapped` | cert-service-client.c:146-149 | Adding the four weighted domain terms one by one in unsigned long gives the exact weighted sum reduced modulo 2^32. |
| `Instrumentation.EnergyOfDeltasWrapsOnce` | cert-service-client.c:146-151 | Accumulating the weighted sum in unsigned long, wrapping at each step, equals wrapping the exact product once, then dividing by the tick rate. |
| `Instrumentation.EnergyExactWithoutWrap` | cert-service-client.c:146-150 | When 4 x (2 cpu + lpm + 23 tx + 21 listen) fits in 32 bits, the estimate is exactly that divided by RTIMER_SECOND. |
| `Instrumentation.EnergyEstimateAsWrittenExact` | cert-service-client.c:141-151 | As written, with nothing wrapping, the printed figure is 4 x (2 dcpu + dlpm + 23 dtx + 21 (listen_now - transmit_start)) / RTIMER_SECOND. |
| `Instrumentation.AsWrittenChargesIdleFlight` | cert-service-client.c:144 | A flight over which no counter moved, with listen at 1000000 and transmit at 0, is reported as 2563 mJ as written and as 0 mJ when corrected. |
| `Instrumentation.AsWrittenAgreesWhenStartsMatch` | cert-service-client.c:126-127 | The code's figure and the corrected one agree whenever the listen and transmit counters started equal. |
| `Instrumentation.DomainDeltas` | cert-service-client.c:141-143 | Each of the four domains' deltas (cpu, lpm, transmit, listen) is its own counter's distance from its own start. |
| `Instrumentation.DomainDeltasAsWritten` | cert-service-client.c:141-144 | The cpu, lpm and transmit deltas are each measured from their own start. The listen delta is measured from the transmit start. |
| `Instrumentation.EnergyIdleIsZero` | cert-service-client.c:131-151 | With every domain differenced against its own start, a flight in which nothing moved costs 0 mJ. |
| `Instrumentation.EnergyEstimateExact` | cert-service-client.c:146-151 | With no wrap, the corrected figure is the exact weighted formula over the four domain deltas. |
| `Instrumentation.EnergyMonotone` | cert-service-client.c:133-138 | With non-negative currents and no wrap, more ticks in any domain never lower the estimate. |
| `Security.XorFoldUniform` | cert-service-provider.c:122-124 | Folding n equal bytes into an accumulator leaves it unchanged for even n and XORs the byte once for odd n. |
| `Security.HashDigestIsSeed` | cert-service-provider.c:118-121 | The fold of 1024 bytes of 'A' into an accumulator starting at 1 ends at 1. |
| `Security.HashGeneration` | cert-service-client.c:178-205 | The memset and XOR loops compute the fold of 1024 'A' bytes from seed 1, and record one hash pass with that digest. |
| `Security.EncryptionDecryption` | cert-service-client.c:207-212 | Encryption/decryption is exactly one hash pass. |
| `Security.SignatureVerification` | cert-service-provider.c:134-139 | Signature verification is exactly two hash passes, one direct and one through encryption/decryption. |
| `Security.KeyGenerationExponential` | cert-service-client.c:221-233 | The nested loops run 65300 x 65300 inner iterations. |
| `Client.WorkloadCounts` | cert-service-client.c:262-264 | The client's flight-opening workload is exactly 3 hash passes and 1 key generation and nothing else. |
| `Client.SendFacts` | cert-service-client.c:294-343 | Before the connection exists a send does nothing and the number does not advance. Afterwards it sends exactly one datagram, and that datagram carries the next number. It goes to aaaa::1 on the server port with the fixed size and the filler payload. |
| `Client.FlightCloseCounts` | cert-service-client.c:254-256 | Closing a flight logs one time stop, one energy stop and one wait, and nothing else. |
| `Client.FlightOpenCounts` | cert-service-client.c:260-264 | Opening a flight logs one time start, one energy start, 3 hash passes and one key generation, and nothing else. |
| `Client.StepAccounting` | cert-service-client.c:243-270 | For one event, the counter moves as `StepCount` says and the starts and workload run exactly on a flight's first datagram. The stored rtimer, clock and energest start samples are replaced by that event's samples on a flight's first datagram and kept on every other event. The stops and the wait run exactly on its last. Every datagram or retransmission request is one well-formed send once connected. |
| `Client.RunAccounting` | cert-service-client.c:235-271 | Over any trace: the counter is the datagram count mod 18; the starts and workload run once per opening; the stops and wait once per closing; one send per reply; the sequence number advanced once per send. |
| `Client.StepSentSeqnos` | cert-service-client.c:299-304 | The datagram of one event carries the next sequence number, and no event sends two. |
| `Client.RunSentSeqnos` | cert-service-client.c:257-304 | Over any trace, the datagrams carry in order the numbers of successive sends from the static's start value, one per reply once connected. |
| `Client.FreshClientNumbering` | cert-service-client.c:266-304 | A client connected from boot numbers its datagrams 1, 2, ..., 255, 128, 129, ... |
| `Client.OneFullFlight` | cert-service-client.c:251-266 | 18 datagrams to a fresh client: the workload once, each start, stop and wait once, 18 sends, and the counter back at 0. |
| `Client.DatagramThenRetransmit` | cert-service-client.c:268-270 | A datagram then a retransmission request: two sends, the counter stays at 1, the workload ran once, no time or energy stop was logged and no cool-down ran. |
| `Client.RestOfFlight` | cert-service-client.c:251-266 | From a flight's second datagram to its closing one, the trace holds the energy and time figures measured from the flight's stored start samples to the closing datagram's samples. |
| `Client.FlightFigures` | cert-service-client.c:131-172 | For a full flight from counter 0, the trace holds the energy estimate from the first datagram's energest sample to the last one's, and the elapsed times from the first datagram's rtimer and clock samples to the last one's. |
| `Client.CertClient.constructor` | cert-service-client.c:65-75 | All statics start at zero and the connection does not exist. |
| `Client.CertClient.Connect` | cert-service-client.c:415 | Sets up the connection unless no slot was free; nothing else changes. |
| `Client.CertClient.TimeTrackingStart` | cert-service-client.c:157-162 | Stores both clock samples as the flight's start and logs them. |
| `Client.CertClient.TimeTrackingStop` | cert-service-client.c:165-175 | Logs the wrapped elapsed ticks and whole seconds of both clocks since the stored start. |
| `Client.CertClient.EnergyTrackingStart` | cert-service-client.c:113-128 | Stores the four energest counters as the flight's start and logs them. |
| `Client.CertClient.EnergyTrackingStop` | cert-service-client.c:131-154 | The step-by-step unsigned long accumulation logs the energy estimate of the flight. Each domain is differenced against its own start, the corrected form of line 144. |
| `Client.CertClient.ClockWait` | cert-service-client.c:256 | Logs the 120-second cool-down. |
| `Client.CertClient.CollectCommonSend` | cert-service-client.c:274-351 | The imperative send changes the state and the trace exactly as `Send` says. |
| `Client.CertClient.CloseFlight` | cert-service-client.c:254-256 | The closing block logs the time stop, the energy stop and the 120-second wait, in that order, for the stored starts. |
| `Client.CertClient.OpenFlight` | cert-service-client.c:260-264 | The opening block stores the clock and energest samples as the flight's start and logs both starts, then signature verification, key generation and a hash pass. |
| `Client.CertClient.Handle` | cert-service-client.c:236-271 | The handler changes the statics and the trace exactly as `Step` says. It keeps the counter below 18. |
| `Provider.WorkloadCounts` | cert-service-provider.c:261-264 | The provider's flight-opening workload is exactly 2 hash passes and 1 key generation: no third hash, no instrumentation, no wait. |
| `Provider.SendFacts` | cert-service-provider.c:178-231 | Before the connection exists a reply does nothing: no number advance and no address change. Afterwards the remote address becomes the packet's source, and one datagram goes there on the client port, with the next number and the fixed layout. |
| `Provider.StepAccounting` | cert-service-provider.c:246-269 | For one event, the counter moves as `StepCount` says. The workload runs exactly on a flight's first datagram. Every datagram or retransmission request is one send that moves the remote address to its source. |
| `Provider.StepReplies` | cert-service-provider.c:183-231 | The reply of one event is numbered next, is addressed to that event's source and is well formed. |
| `Provider.RunAccounting` | cert-service-provider.c:238-270 | Over any trace: the counter is the datagram count mod 18, the workload runs once per opening, one send per reply, and nothing is timed or waited. |
| `Provider.RunReplies` | cert-service-provider.c:155-236 | Over any trace, once connected, the replies carry successive sequence numbers. They go one for one, in order, to the sources of the events that asked for them. |
| `Provider.PeerIsLatestSender` | cert-service-provider.c:216 | The remote address always names the most recent node that asked for a reply, or keeps its old value if none did. |
| `Provider.OneFullFlight` | cert-service-provider.c:254-266 | 18 datagrams to a fresh provider: 2 hash passes, 1 key generation, no instrumentation, 18 replies each to its datagram's sender, and the counter back at 0. Every kind of trace entry is counted: no time or energy start or stop and no wait. |
| `Provider.RetransmitLeavesFlight` | cert-service-provider.c:267-269 | A retransmission request sends one reply to the requester and leaves the counter and the workload untouched. |
| `Provider.CertProvider.constructor` | cert-service-provider.c:60-63 | The counter and number start at zero, the remote address is unspecified, and the connection does not exist. |
| `Provider.CertProvider.Connect` | cert-service-provider.c:327 | Sets up the connection unless no slot was free; nothing else changes. |
| `Provider.CertProvider.SendReplyToPeer` | cert-service-provider.c:155-236 | The imperative reply changes the number, the remote address and the trace exactly as `Send` says. |
| `Provider.CertProvider.Handle` | cert-service-provider.c:238-270 | The handler changes the statics, the remote address and the trace exactly as `Step` says. It keeps the counter below 18. |

## Left out

- Contiki process machinery (`PROCESS_THREAD`, `PROCESS_YIELD`, autostart) is not modelled. Each handler is a method called with one event.
- Networking is reduced to inputs and trace entries. `uip_newdata()`/`uip_rexmit()` become the event kind. The IP buffer's source address is a field of the event. `uip_udp_packet_send(to)` is a `Sent` entry in the ghost trace. `udp_new` becomes `Connect` with a flag for whether a slot was free, and `udp_bind` is not modelled.
- `Client.CertClient.Connect`, `Provider.CertProvider.Connect`: with the flag false, the model treats the node as running unconnected. In the source, a failed `udp_new` is followed by `udp_bind` and `PRINT6ADDR` on the null connection (cert-service-client.c:416, 419; cert-service-provider.c:327, 330). That null dereference is not modelled.
- `collect_common_process`, which starts with the client (cert-service-client.c:82), is not part of this model. It is a second caller of `collect_common_send` and sends periodically, advancing the same sequence number. `Client.RunAccounting`'s sequence-number clause, `Client.RunSentSeqnos` and `Client.FreshClientNumbering` therefore describe traces driven by the tcpip handler alone. `Client.SendFacts` and `Client.CertClient.CollectCommonSend` describe any single call, whoever makes it.
- RPL and neighbour-table queries are not modelled. The DAG, the preferred parent's link address and ETX, the rank, the beacon interval and the neighbour count are all one optional input record. `collect_view_construct_message` is modelled only as the routing summary it is given.
- `collect_common_recv` and the sender, seqno and hop decoding of the inbound packet are not modelled, since nothing the core keeps depends on them.
- Hardware clocks and energest are sampled once per event and passed in as `HwSample`. `energest_flush` is not modelled.
- `clock_wait(CLOCK_SECOND * 120)` is recorded as a `Wait(120)` trace entry. Real time is not modelled.
- `key_generation_exponential`'s key is not modelled because `key` is uninitialised, so its value is undefined. Only the iteration count is kept.
- `sizeof(msg) - sizeof(msg.payload)` is a platform constant (`headerLen`). It depends on the compiler's struct layout.
- `Instrumentation.Sub`: the clocks are modelled as 32-bit `unsigned long` counters. On the MSP430 motes `RTIMER_NOW()` and `clock_time()` are 16 bits wide, so the model's single-wrap case does not describe a 16-bit counter that wraps during a flight.
- `unsigned long` is taken to be 32 bits, as on the MSP430 motes. The client's `int` current constants are small, so their products are reduced modulo 2^32 like the rest of the `unsigned long` arithmetic.
- Both roles' `int hash_output` (cert-service-client.c:182, cert-service-provider.c:120) is an 8-bit `byte`: XOR-ing bytes into 1 never sets a bit above the low eight.
- All printing (`printf`, `PRINTF`, `PRINT6ADDR`) and the commented-out SHA-256 test are not modelled.
- Address setup is not modelled: `set_global_address`, `print_local_addresses`, the RPL root creation, `collect_common_net_init/net_print`, `collect_common_set_sink`, the provider's empty `collect_common_send` and the button-triggered repair. The client's server address aaaa::1 is the constant `ServerIpAddr`.
- Client.CertClient.EnergyTrackingStop: differences the listen counter against the listen start, not the transmit start as line 144 does; the as-written figure is `Instrumentation.EnergyEstimateAsWritten`, see Findings.
- Client.Step: the flight-closing energy figure is the corrected `EnergyEstimate`, not the code's `EnergyEstimateAsWritten`; see Findings.

## Findings

| source | as written | input that shows it | evidently intended | confidence | as-written member | corrected member |
|---|---|---|---|---|---|---|
| cert-service-client.c:144 | The listen-domain delta subtracts `transmit_energy_start` from the listen counter. | With the sky mote's RTIMER_SECOND = 32768, start and end snapshots both (cpu 0, lpm 0, transmit 0, listen 1000000) give 2563 mJ although no counter moved. | `listen_energy_start`, as stored at cert-service-client.c:127, so an idle flight costs 0 mJ. | not executed | `Instrumentation.AsWrittenChargesIdleFlight` | `Instrumentation.EnergyIdleIsZero` |
