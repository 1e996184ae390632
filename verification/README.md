# FPGA network processing engine: a verified model

This project models the clocked modules of the network processing engine in Dafny 4.11 and proves
what they keep, conserve and bound in every run. Each RTL block is a class whose fields are the
block's registers and whose `Clock` method is one rising clock edge. Every right-hand side is
computed from the values before the edge, and the last nonblocking assignment wins. `Clock` is
proved against a function from old state and input wires to new state, and the main results are
lemmas about all runs of that function.

| file | models |
|---|---|
| `NpePkg.dfy` | shared types, byte lanes, big-endian words |
| `AxisFifo.dfy` | ring buffer with wrap-bit pointers as a bounded queue |
| `PacketScheduler.dfy` | class routing, strict and round-robin arbiter, credits, three FIFOs |
| `ElasticChain.dfy` | the one-slot elastic stage, chains of stages under any stalls |
| `AxisRegister.dfy` | the plain pipeline register |
| `Parsers.dfy` | Ethernet, VLAN, IPv4, UDP and TCP field extraction and stage registers |
| `HeaderFields.dfy` | header layouts field by field, and what the parsers make of them |
| `MatchTable.dfy` | wildcard rules, priority encoder, built-in table |
| `PacketModifier.dfy` | byte rewriting, first-beat flag, tag push and pop |
| `ParserPipeline.dfy` | the eight-stage pipeline with its ready chain and its UDP/TCP fork and join |
| `FlowTable.dfy` | two-way flow cache with idle timeout against the packet log |
| `Crc32.dfy`, `PacketMon.dfy` | bit-serial hardware CRC and table-driven software CRC |
| `TokenBucket.dfy` | rate limiter |
| `Checksum.dfy` | Internet checksum: definition, software loop, two-fold hardware |
| `PacketGen.dfy` | frame builders and their round trip through the parsers |
| `EndToEnd.dfy` | runs of generated frames through the pipeline with its built-in rules; what a scheduler behind it would see |

Conventions. Bus width, FIFO depth (a power of two, at least two), number of sets and number of
rules are symbolic. A lane that the bus does not have reads as 0, where the hardware reads an
unknown value. Metadata registers are not reset, so runs start from arbitrary contents of them. A
constructor leaves a block in its state after reset. Bytes of the CRC files are bit-vectors, all
other fields are bounded integers. The hash of the flow table and the way it replaces are arbitrary.
No module of the source instantiates the scheduler. `docs/architecture.md` draws it behind the pipeline,
whose `m_meta` is then the only class it can see; `EndToEnd.dfy` states queue choices with that in mind.

## Where the code and its documentation differ

The code is modelled as it is. These statements are proved about it:

- Weights in round-robin mode have no effect as long as they are constant and non-zero
  (`PacketScheduler.WeightsMakeNoDifference`), because a credit counter is cleared by the beat that
  would reach its weight; a queue is served until it is empty (`PacketScheduler.ServedUntilEmpty`).
- "0 = no service" is true of the middle and the low queue
  (`PacketScheduler.ZeroWeightIsNoServiceButForQueue0`) but not of the high one, which the arbiter starts
  with and keeps until another queue becomes eligible (`PacketScheduler.ZeroWeightIsSelectedExactlyWhen`;
  input: `PacketScheduler.ZeroWeightIsServed`).
- `docs/verification.md` reports that metadata does not propagate because of the first-beat tracking.
  On a bus that carries all headers in the first beat it does, up to the match stage
  (`ParserPipeline.PipelineIsLatencyInsensitive`). Only `pkt_length` goes wrong
  (`ParserPipeline.MatchedLengthIsRightExactlyWhen`; input: `Parsers.LengthsPileUp`).
- Behind the match stage the metadata is not delayed with the data. At the output, at the statistics and at
  the flow table it is that of the youngest beat that has reached the match stage
  (`ParserPipeline.MetaIsOfTheYoungest`), so that it belongs to the packet at hand only under the conditions of
  `ParserPipeline.MetaBelongsExactlyWhen`, `ParserPipeline.StatsMetaIsOwnExactlyWhen` and
  `ParserPipeline.FlowKeyIsOwnExactlyWhen` (input: `EndToEnd.SchedulerWouldSeeThreeAhead`).
- The 6-bit layer-4 offset wraps for long IPv4 headers (`HeaderFields.L4OffsetIsRightExactlyWhen`; input:
  `HeaderFields.LongHeaderPorts`).
- The modifier loses or misplaces rewrites when its input stalls
  (`PacketModifier.FirstBeatIsRecognisedExactlyWhen`; input: `PacketModifier.StalledFirstBeatIsMissed`). What
  that does to the data of whole pipeline runs is `ParserPipeline.DeliveredWrongExactlyWhen`, with an input
  in `ParserPipeline.StalledRewriteIsLost`.
- The TTL, DSCP and ECN actions damage the header checksum
  (`PacketModifier.TtlDecrementKeepsChecksumExactlyWhen`, `PacketModifier.DscpSetKeepsChecksumExactlyWhen`,
  `PacketModifier.EcnSetKeepsChecksumExactlyWhen`; one input for all three: `PacketModifier.DamagedHeader`), and
  the built-in catch-all rule rewrites ARP frames (`EndToEnd.ArpFrameIsRewritten`).
- The token bucket refills every `cfg_interval + 1` cycles (`TokenBucket.RefillsAreRegular`), a
  refill is lost when a packet is allowed at the same edge (`TokenBucket.RefillIsLostExactlyWhen`; input:
  `TokenBucket.RefillIsLost`), and saturation fails when the 48-bit sum wraps
  (`TokenBucket.RefillSaturatesExactlyWhen`; input: `TokenBucket.RefillWraps`).
- The idle timeout of a flow aliases after the 32-bit clock wraps (`FlowTable.ClockWrapHarmlessExactlyWhen`;
  input: `FlowTable.WrappedFlowHits`).
- The software checksum of more than 131074 bytes can be that of another sum
  (`Checksum.WrapIsHarmlessExactlyWhen`; input: `Checksum.WrapIsHarmful`).
- The generator stores the IPv4 checksum in host byte order (`Checksum.HostOrderIsAcceptedExactlyWhen`; input:
  `PacketGen.GeneratedHeaderIsRejected`).
- A DROP verdict only sets a flag; no packet is removed (`ParserPipeline.NoPacketIsLost`).

## Model

| member | source | states |
|---|---|---|
| AxisFifo.Conservation | rtl/interfaces/axis_fifo.sv:46-78 | for every run, what was stored and every beat offered while there was room equals what was taken followed by what is held, in order; occupancy never exceeds the depth |
| AxisFifo.StalledBeatIsStable | rtl/interfaces/axis_fifo.sv:45-82 | an offered beat that is not taken is offered unchanged at the next edge |
| AxisFifo.PointersStayInRange | rtl/interfaces/axis_fifo.sv:30-37 | the pointers only name existing cells exactly when the depth is the power of two of A_WIDTH |
| AxisFifo.AfterWrite | rtl/interfaces/axis_fifo.sv:53-56 | writing the cell of the write pointer and stepping it appends the beat to the stored queue |
| AxisFifo.AfterRead | rtl/interfaces/axis_fifo.sv:59-70 | the cell of the read pointer is the oldest beat, and stepping the pointer removes exactly it |
| AxisFifo.Fifo.Contents | rtl/interfaces/axis_fifo.sv:32-37 | the stored queue fits the depth and is empty exactly when m_tvalid is low |
| AxisFifo.Fifo.Used | rtl/interfaces/axis_fifo.sv:87-90 | the wrapped pointer difference is the number of stored beats |
| AxisFifo.Fifo.SReady | rtl/interfaces/axis_fifo.sv:92-96 | s_tready is high exactly when fewer beats than the depth are stored |
| AxisFifo.Fifo.Empty | rtl/interfaces/axis_fifo.sv:91 | empty holds exactly when nothing is stored, which is when m_tvalid is low |
| AxisFifo.Fifo.Head | rtl/interfaces/axis_fifo.sv:81-82 | the combinational read port shows the oldest stored beat |
| AxisFifo.Fifo.Clock | rtl/interfaces/axis_fifo.sv:45-78 | one edge is one step of the abstract bounded queue: a beat offered under s_tready is stored last, the head shown under m_tvalid and taken is removed, and nothing else changes |
| PacketScheduler.SchedulerConservation | rtl/schedulers/packet_scheduler.sv:44-91 | at every step of every run from reset, in any mode and for any weights, the beats offered for a queue while it had room are those released from it followed by its contents |
| PacketScheduler.EdgeOnQueue | rtl/schedulers/packet_scheduler.sv:66-91 | one edge removes the head of the selected queue if it is taken, and stores a beat of the queue's classes as its youngest whenever there is room |
| PacketScheduler.QueueStep | rtl/schedulers/packet_scheduler.sv:162-177 | one edge gives at most the head of the selected queue to the output and stores exactly the beat offered with room |
| PacketScheduler.StrictChoice | rtl/schedulers/packet_scheduler.sv:111-114 | the strict choice is the most urgent queue that holds data, or none is chosen anew |
| PacketScheduler.RoundRobinChoice | rtl/schedulers/packet_scheduler.sv:115-135 | the round-robin choice stays while data and credit last, and then is the next eligible queue in cyclic order |
| PacketScheduler.CreditCountsBeats | rtl/schedulers/packet_scheduler.sv:146-157 | in every run, for weights that may change, a credit counter holds the beats its queue has released since the beat that last cleared it |
| PacketScheduler.StrictPriorityLag | rtl/schedulers/packet_scheduler.sv:103-114 | in strict mode a beat leaves a queue only if every more urgent queue was empty one cycle before |
| PacketScheduler.AtMostOneInversion | rtl/schedulers/packet_scheduler.sv:111-143 | while a queue keeps holding data at most one less urgent beat leaves, and only at the first edge |
| PacketScheduler.DrainBound | rtl/schedulers/packet_scheduler.sv:108-167 | without input and with m_tready high every state empties within held beats + 2 cycles, in strict mode or with non-zero weights |
| PacketScheduler.DrainsExactlyWhen | rtl/schedulers/packet_scheduler.sv:115-135 | with constant weights, zero ones included, the exact condition under which round robin empties all queues |
| PacketScheduler.CanDrainStep | rtl/schedulers/packet_scheduler.sv:115-135 | that condition is kept by every quiet edge, and the measure of held beats and waiting queues falls |
| PacketScheduler.ZeroWeightIsSelectedExactlyWhen | rtl/schedulers/packet_scheduler.sv:115-135 | under any traffic from reset, a queue of weight zero is selected exactly if it is queue 0 and no eligible queue has turned up since reset |
| PacketScheduler.ZeroWeightIsNoServiceButForQueue0 | rtl/schedulers/packet_scheduler.sv:22-26 | no beat ever leaves the middle or the low queue while its weight is zero |
| PacketScheduler.ZeroWeightIsServed | rtl/schedulers/packet_scheduler.sv:22-26 | a run in which a beat leaves the high queue at weight zero |
| PacketScheduler.CreditNeverRunsOut | rtl/schedulers/packet_scheduler.sv:146-157 | with constant non-zero weights every credit counter stays below its weight |
| PacketScheduler.ServedUntilEmpty | rtl/schedulers/packet_scheduler.sv:115-151 | with constant non-zero weights the selected queue stays selected while it holds data |
| PacketScheduler.WeightsMakeNoDifference | rtl/schedulers/packet_scheduler.sv:115-157 | any two constant non-zero weight settings give the same queues and the same output in every run |
| PacketScheduler.Scheduler.Ready | rtl/schedulers/packet_scheduler.sv:91 | s_tready is high exactly when the queue of the packet's class has room |
| PacketScheduler.Scheduler.Output | rtl/schedulers/packet_scheduler.sv:169-177 | the output port shows the head of the selected queue, if it has one |
| PacketScheduler.Scheduler.Routed | rtl/schedulers/packet_scheduler.sv:67-72 | a FIFO is offered the beat exactly if it is the destination and has room, and is read exactly if it is selected and m_tready is high |
| PacketScheduler.Scheduler.ArbDecision | rtl/schedulers/packet_scheduler.sv:108-136 | the nested arbiter cases are strict priority, or stay-or-search in cyclic order |
| PacketScheduler.Scheduler.ClockArbiter | rtl/schedulers/packet_scheduler.sv:138-159 | the counter loop moves only the counter of the served queue |
| PacketScheduler.Scheduler.Clock | rtl/schedulers/packet_scheduler.sv:74-177 | one edge of arbiter, counters and three FIFOs is one step of the abstract scheduler; a beat handed over under s_tready is the youngest of its queue afterwards |
| ElasticChain.ReadyExactlyWhen | rtl/interfaces/axis_register.sv:36 | a chain's s_tready is high exactly when m_tready is high or some slot is free |
| ElasticChain.StepKeepsFuture | rtl/interfaces/axis_register.sv:25-40 | under any gap and any stall, what leaves at an edge followed by the future of the new state is the future of the old state |
| ElasticChain.LatencyInsensitive | rtl/interfaces/axis_register.sv:25-40 | in every run what has left is a prefix of the stall-free stream of what has entered, and exactly the occupied slots are outstanding |
| ElasticChain.PassConservation | rtl/interfaces/axis_register.sv:25-40 | in every run of pass-through stages nothing is lost, added or reordered |
| ElasticChain.ExactLatency | rtl/interfaces/axis_register.sv:25-40 | with m_tready always high a token accepted by n stages leaves n edges later |
| AxisRegister.Register.Clock | rtl/interfaces/axis_register.sv:25-40 | one edge of the register is one edge of an elastic stage |
| Parsers.JoinIsSequence | rtl/top/parser_pipeline.sv:105-111 | the metadata mux behind the two layer-4 parsers equals running both in sequence |
| Parsers.CaptureStream | rtl/parsers/vlan_parser.sv:32-84 | a parser stage passes beats unchanged and gives each the capture of its own packet's first beat |
| Parsers.CapturesCompose | rtl/top/parser_pipeline.sv:59-122 | a chain of parser stages gives each beat the composed captures of its own packet's first beat |
| Parsers.EthernetStream | rtl/parsers/ethernet_parser.sv:46-107 | the Ethernet stage passes beats unchanged and gives a first beat its own layer-2 fields |
| Parsers.LengthOnLastBeat | rtl/parsers/ethernet_parser.sv:49-64 | the length that goes with the last beat of a packet of several beats counts all its enabled lanes, modulo 2^16 |
| Parsers.LengthRegCounts | rtl/parsers/ethernet_parser.sv:51-63 | the counter holds, on 16 bits, the enabled lanes of the latest packet of several beats and of all single-beat packets since |
| Parsers.LengthSeenIsRightExactlyWhen | rtl/parsers/ethernet_parser.sv:51-104 | the length that later stages copy is the packet's own exactly when the lanes counted wrongly, or not at all, are a multiple of 2^16 |
| Parsers.LengthsPileUp | rtl/parsers/ethernet_parser.sv:54-56 | the second of two single-beat packets is taken to be as long as both |
| Parsers.CountKeep | rtl/parsers/ethernet_parser.sv:37-41 | the loop counts the enabled lanes |
| Parsers.KeepCountIsCardinality | rtl/parsers/ethernet_parser.sv:37-41 | the count is the number of enabled lanes |
| Parsers.ParserStage.Clock | rtl/parsers/ipv4_parser.sv:39-110 | one edge of a parser's flag, slot and metadata register is one edge of an elastic stage with its capture |
| Parsers.EthernetParser.Clock | rtl/parsers/ethernet_parser.sv:49-107 | one edge of the Ethernet parser, the doubly assigned metadata register included, is one edge of its elastic stage |
| HeaderFields.EthernetFields | rtl/parsers/ethernet_parser.sv:66-76 | the addresses and the ethertype written in an Ethernet header are the ones parsed |
| HeaderFields.TagMetaFields | rtl/parsers/vlan_parser.sv:50-82 | priority, CFI, identifier and inner ethertype of any tag are parsed |
| HeaderFields.Ipv4Fields | rtl/parsers/ipv4_parser.sv:46-104 | header length, TTL, protocol and addresses of any IPv4 header, at the tag-dependent offset, are parsed, and its checksum is judged |
| HeaderFields.UdpFields | rtl/parsers/udp_parser.sv:32-74 | both ports of any UDP header are parsed |
| HeaderFields.TcpFields | rtl/parsers/tcp_parser.sv:39-91 | ports, sequence and acknowledgement number, flags and window of any TCP header are parsed |
| HeaderFields.HeadersParse | rtl/top/parser_pipeline.sv:50-111 | any stack of headers, tagged or not, with any IPv4 options and any field values, parses to exactly the fields it was written from |
| HeaderFields.L4OffsetIsRightExactlyWhen | rtl/parsers/tcp_parser.sv:46-49 | the layer-4 offset is right exactly while it fits its six bits |
| HeaderFields.LongHeaderPorts | rtl/parsers/udp_parser.sv:32-50 | a header of 13 words makes the parser read the ports out of the destination address |
| MatchTable.Encode | rtl/classifiers/match_table.sv:66-98 | the guarded loop returns the lowest-index matching rule, or DROP when none matches |
| EndToEnd.RuleMatchesHeadersExactlyWhen | rtl/classifiers/match_table.sv:78-87 | a rule matches a packet exactly when each of its five fields is empty or is the field of the same name written in the packet's headers, ports counting only for packets with ports |
| EndToEnd.RuleMatchesArpExactlyWhen | rtl/classifiers/match_table.sv:78-87 | an ARP frame is matched exactly by valid rules without protocol and addresses |
| MatchTable.LookupMissesExactlyWhen | rtl/classifiers/match_table.sv:66-71 | the default verdict is returned exactly when no rule matches |
| MatchTable.CoversExactlyWhen | rtl/classifiers/match_table.sv:78-87 | one rule matches everything another one does exactly when it does so field by field |
| MatchTable.ShadowedRuleIsDead | rtl/classifiers/match_table.sv:73-97 | removing a rule that an earlier one covers changes no verdict |
| MatchTable.DefaultVerdict | rtl/classifiers/match_table.sv:37-55 | the built-in rules drop nothing, and which class and action every packet gets |
| PacketModifier.PushTag | rtl/classifiers/packet_modifier.sv:111-120 | the two downward loops insert the tag bytes before lane 12 and shift the lanes and their enables |
| PacketModifier.PopTag | rtl/classifiers/packet_modifier.sv:121-126 | the loops remove lanes 12 to 15 and clear the top four |
| PacketModifier.DecrementTtl | rtl/classifiers/packet_modifier.sv:66-72 | of the two checksum writes the second one overwrites the first, because both hit the high byte |
| PacketModifier.SwapMacs | rtl/classifiers/packet_modifier.sv:73-86 | the twelve lane writes read the old lanes and exchange the addresses |
| PacketModifier.SetMacs | rtl/classifiers/packet_modifier.sv:87-100 | the twelve slices are the big-endian bytes of the two addresses |
| PacketModifier.SetIps | rtl/classifiers/packet_modifier.sv:101-110 | the eight slices are the big-endian bytes of the two addresses, at the tag-dependent offset |
| PacketModifier.SetDscp | rtl/classifiers/packet_modifier.sv:127-139 | the upper six bits are set, and the two checksum writes again hit one byte |
| PacketModifier.SetEcn | rtl/classifiers/packet_modifier.sv:140-147 | the lower two bits are set and nothing else |
| PacketModifier.PushIsInvisibleAboveL2 | rtl/classifiers/packet_modifier.sv:111-120 | parsing a pushed beat gives the pushed tag and otherwise the parse of the untagged beat, checksum verdict included |
| PacketModifier.PopAfterPush | rtl/classifiers/packet_modifier.sv:111-126 | pop undoes push below the top four lanes, and restores tkeep exactly when those were unused |
| PacketModifier.PushAfterPopExactlyWhen | rtl/classifiers/packet_modifier.sv:111-126 | push undoes pop exactly when the beat carried that tag on enabled lanes |
| PacketModifier.MacSwapParses | rtl/classifiers/packet_modifier.sv:73-86 | swapping twice restores the beat, and the parser sees the addresses exchanged |
| PacketModifier.MacSetParses | rtl/classifiers/packet_modifier.sv:87-100 | the addresses that are set are the addresses that are parsed |
| PacketModifier.IpSetParses | rtl/classifiers/packet_modifier.sv:101-110 | the IP addresses that are set are the ones that are parsed, and only the checksum verdict may change |
| PacketModifier.TtlDecrementKeepsChecksumExactlyWhen | rtl/classifiers/packet_modifier.sv:66-72 | which valid headers are still valid after the TTL action, both checksum writes hitting one byte |
| PacketModifier.DscpSetKeepsChecksumExactlyWhen | rtl/classifiers/packet_modifier.sv:127-139 | a valid header stays valid after the DSCP action only if nothing changed |
| PacketModifier.EcnSetKeepsChecksumExactlyWhen | rtl/classifiers/packet_modifier.sv:140-147 | a valid header stays valid after the ECN action only if the field was kept |
| PacketModifier.DamagedHeader | rtl/classifiers/packet_modifier.sv:66-147 | an IPv4 frame with a valid header that the TTL, the DSCP and the ECN action all make invalid |
| PacketModifier.FirstBeatIsRecognisedExactlyWhen | rtl/classifiers/packet_modifier.sv:42-48 | a beat is treated as a first beat when it should be, exactly unless it had to wait and is not both or neither of first and last |
| PacketModifier.PrevLastMeans | rtl/classifiers/packet_modifier.sv:42-46 | what prev_tlast holds at every edge of a run, stalled or not |
| PacketModifier.WrittenExactly | rtl/classifiers/packet_modifier.sv:42-48 | what the modifier makes of every beat of every stream of packets under any stalls |
| PacketModifier.StalledFirstBeatIsMissed | rtl/classifiers/packet_modifier.sv:42-48 | a first beat that waits one edge is passed on unmodified |
| PacketModifier.MacSetAction | rtl/classifiers/packet_modifier.sv:87-100 | after MAC set the parser sees the rule's new destination and new source, and no other lane changes |
| PacketModifier.MacSwapAction | rtl/classifiers/packet_modifier.sv:73-86 | after MAC swap the parser sees the addresses exchanged, and no other lane changes |
| PacketModifier.IpSetAction | rtl/classifiers/packet_modifier.sv:101-110 | after IP set the parser sees the rule's new addresses, tagged or not, and only the checksum verdict may change with them |
| PacketModifier.VlanPushAction | rtl/classifiers/packet_modifier.sv:111-120 | after VLAN push the parsers see the rule's identifier and priority and everything else as before |
| PacketModifier.VlanPopAction | rtl/classifiers/packet_modifier.sv:121-126 | after VLAN pop the parsers see the packet without its tag and everything else as before |
| PacketModifier.VlanPopUndoesPush | rtl/classifiers/packet_modifier.sv:111-126 | pop after push restores all lanes and enables but the top four, which come back empty |
| PacketModifier.TtlDecAction | rtl/classifiers/packet_modifier.sv:66-72 | the TTL's byte is one less on eight bits, and the checksum's high byte is overwritten by its low byte |
| PacketModifier.DscpSetAction | rtl/classifiers/packet_modifier.sv:127-139 | with an IPv4 header the DSCP bits are the rule's, the ECN bits stay and the checksum is damaged; without one nothing changes |
| PacketModifier.EcnSetAction | rtl/classifiers/packet_modifier.sv:140-147 | with an IPv4 header the ECN bits are the rule's and nothing else changes; without one nothing changes |
| PacketModifier.Rewrite | rtl/classifiers/packet_modifier.sv:60-151 | the block's slice writes, action by action and in the source's order, produce the beat of the action lemmas for a first beat and pass any other |
| PacketModifier.Modifier.Clock | rtl/classifiers/packet_modifier.sv:43-170 | one edge of flag and slot is one step of the modifier stage |
| ParserPipeline.LockstepKept | rtl/top/parser_pipeline.sv:87-105 | the UDP and TCP stages agree on readiness, valid, first beat and beat after every edge |
| ParserPipeline.LockstepAlways | rtl/top/parser_pipeline.sv:87-111 | in every reachable state the two layer-4 stages agree on valid, first beat and beat, and r_udp equals r_tcp |
| ParserPipeline.ForkJoinIsOneStage | rtl/top/parser_pipeline.sv:87-111 | fork, two parsers and join step like one stage that runs both parsers in sequence |
| ParserPipeline.FrontIsAChain | rtl/top/parser_pipeline.sv:50-122 | one edge of stages 1 to 5 with their wiring is one edge of a five-stage chain |
| ParserPipeline.LengthIsCarriedAlong | rtl/top/parser_pipeline.sv:59-122 | no parser and no rule looks at the packet length |
| ParserPipeline.PipelineIsLatencyInsensitive | rtl/top/parser_pipeline.sv:50-122 | in every run from reset, under any gaps and stalls, what has left the match stage is the accepted beats in order, each with the metadata and modifier orders of its own packet's first beat |
| ParserPipeline.MatchedBeatsObeyTheTable | rtl/classifiers/match_table.sv:66-142 | in every run a beat leaves the match stage with the parse of its packet's first beat and the class, drop flag, action and operands of the first rule that matches it, or marked as dropped if none does |
| ParserPipeline.StallsMakeNoDifference | rtl/top/parser_pipeline.sv:50-122 | runs that accept the same beats agree on everything both have sent on |
| ParserPipeline.PipelineIsAChain | rtl/top/parser_pipeline.sv:50-160 | one edge of all eight stages is, for any view of beats the modifier respects, one edge of eight pass-through stages |
| ParserPipeline.PipelineConservation | rtl/top/parser_pipeline.sv:50-160 | in every run the accepted beats are, to such a view, the delivered ones followed by at most eight in flight, in order |
| ParserPipeline.NoPacketIsLost | rtl/top/parser_pipeline.sv:124-160 | for any rules no end of packet is lost, added or moved under backpressure |
| ParserPipeline.ModRunIsPersistent | rtl/top/parser_pipeline.sv:113-132 | inside the pipeline the match stage offers a beat until the modifier takes it |
| ParserPipeline.DeliveredExactly | rtl/top/parser_pipeline.sv:50-160 | for any rules, gaps and stalls, every delivered beat is the accepted one, rewritten by its packet's orders if it did not wait and is a first beat, or waited and is a last beat |
| ParserPipeline.DeliveredWrongExactlyWhen | rtl/top/parser_pipeline.sv:50-160 | the delivered beat differs from what the rules order exactly if it waited for the modifier, is not both or neither of first and last, and its packet's orders would change it |
| ParserPipeline.NeverStalledIsAsIntended | rtl/top/parser_pipeline.sv:50-160 | with m_tready always high every first beat is delivered rewritten as its rule orders and every other beat as it came |
| ParserPipeline.DataIsUnchanged | rtl/top/parser_pipeline.sv:50-160 | a packet whose rule asks for no rewrite is delivered bit for bit, whatever the stalls |
| ParserPipeline.BackpressureMakesWait | rtl/top/parser_pipeline.sv:50-132 | whenever s_tready is low at one edge and m_tready high at the next, the beat leaving the match stage has waited |
| ParserPipeline.StalledRewriteIsLost | rtl/top/parser_pipeline.sv:50-160 | a run in which the first beat of a packet is delivered without its rewrite, for any rules |
| ParserPipeline.MatchedLengthIsRightExactlyWhen | rtl/top/parser_pipeline.sv:50-122 | in every run the length leaving the match stage is the packet's own exactly under a condition on the accepted stream |
| ParserPipeline.MetaIsOfTheYoungest | rtl/top/parser_pipeline.sv:161 | in every run m_meta is the metadata of the youngest beat that has reached the match stage |
| ParserPipeline.MetaBelongsExactlyWhen | rtl/top/parser_pipeline.sv:156-161 | m_meta belongs to the offered beat exactly when no packet ends between that beat and the match stage |
| ParserPipeline.StatsMetaIsOwnExactlyWhen | rtl/top/parser_pipeline.sv:134-145 | the statistics engine sees a packet's own metadata at its end exactly when the match stage's slot is empty |
| ParserPipeline.FlowKeyIsOwnExactlyWhen | rtl/top/parser_pipeline.sv:147-155 | the flow table sees a packet's own key at its end exactly when the slots of match stage and modifier are empty |
| ParserPipeline.BackToBackMetaIsThreeAhead | rtl/top/parser_pipeline.sv:156-161 | at full rate m_meta is three beats ahead of the output |
| ParserPipeline.InputReadyExactlyWhen | rtl/top/parser_pipeline.sv:50-155 | in every reachable state s_tready is high exactly when m_tready is high or one of eight slots is free |
| ParserPipeline.LatencyIsEight | rtl/top/parser_pipeline.sv:50-160 | with m_tready always high a beat leaves exactly eight edges after it was accepted |
| ParserPipeline.Pipeline.L4Token | rtl/top/parser_pipeline.sv:107-111 | the data and metadata muxes form the joined token |
| ParserPipeline.Pipeline.SReady | rtl/top/parser_pipeline.sv:51-57 | s_tready is the end of the combinational ready chain |
| ParserPipeline.Pipeline.MMeta | rtl/top/parser_pipeline.sv:161 | the metadata port shows the match stage's register |
| ParserPipeline.Pipeline.ResetEdge | rtl/top/parser_pipeline.sv:50-155 | an edge with rst_n low empties every slot and puts every stage between packets |
| ParserPipeline.Pipeline.Clock | rtl/top/parser_pipeline.sv:50-161 | one edge of the nine stage instances is one step of the pipeline model |
| FlowTable.HitsExclude | rtl/memory/flow_table.sv:117-135 | in every reachable state hit and expired hit exclude each other, and the counter mux shows the way that hit |
| FlowTable.KeysAreUnique | rtl/memory/flow_table.sv:108-180 | in every reachable state, for any victims, a key is held at one place at most |
| FlowTable.EntriesAgreeWithTheLog | rtl/memory/flow_table.sv:111-180 | every valid entry lies in its own set and counts the packets and bytes of its flow since insertion or expiry, which followed each other within the timeout |
| FlowTable.HitsExactlyWhen | rtl/memory/flow_table.sv:112-138 | a packet hits exactly when its flow is held and its latest packet on the log is recent, and the outputs then report the log's counts |
| FlowTable.HeldExactlyWhen | rtl/memory/flow_table.sv:149-180 | in every run a flow is in the table exactly if a packet of it has ended and no packet of a new flow has since replaced its entry |
| FlowTable.HoldStep | rtl/memory/flow_table.sv:149-180 | an edge keeps every flow but one that the packet of a new flow in its set replaces, and adds that of the packet |
| FlowTable.ClockWrapHarmlessExactlyWhen | rtl/memory/flow_table.sv:92-115 | the 32-bit idle test agrees with an unbounded clock exactly unless the true gap has wrapped to a small one |
| FlowTable.WrappedFlowHits | rtl/memory/flow_table.sv:92-115 | a run in which a flow silent for 2^32 cycles hits, for every timeout |
| FlowTable.SetStep | rtl/memory/flow_table.sv:141-180 | hit, expired and miss updates keep a set unique and in agreement with the log |
| FlowTable.Flows.ResetEdge | rtl/memory/flow_table.sv:142-148 | the reset loops clear every entry |
| FlowTable.Flows.Update | rtl/memory/flow_table.sv:149-180 | the update loops over the ways write exactly the specified entries |
| FlowTable.Flows.Clock | rtl/memory/flow_table.sv:94-210 | one edge updates the table when a last beat is accepted and moves data through the slot |
| EndToEnd.FlowOfHeaders | rtl/memory/flow_table.sv:47-51 | the flow key is made of the addresses, protocol and ports written in the packet's headers |
| Crc32.StateIsRecoverable | rtl/interfaces/crc32.sv:16-24 | for any data the register's start value can be told from its end value |
| Crc32.StepsAreLinear | rtl/interfaces/crc32.sv:16-24 | zero-input steps are linear over the two-element field |
| Crc32.Absorb | rtl/interfaces/crc32.sv:16-24 | up to 32 steps over data equal as many zero-input steps of the state xor the data |
| Crc32.BurstsAreDetected | rtl/interfaces/crc32.sv:16-24 | streams that differ within 32 consecutive bits have different CRCs |
| Crc32.Burst33IsMissedExactlyWhen | rtl/interfaces/crc32.sv:16-24 | two 33-bit windows are confused exactly when they differ by the generator polynomial |
| Crc32.ResidueExactlyWhen | rtl/interfaces/crc32.sv:16-41 | appending a word gives the residue 0x2144DF1C exactly when the word is the stream's CRC |
| Crc32.FrameCheck | rtl/interfaces/crc32.sv:26-44 | the same on the wires, for the last word of a packet |
| Crc32.StateIsOpenPacket | rtl/interfaces/crc32.sv:26-44 | at every edge crc_state belongs to the open packet alone, whatever came before |
| Crc32.CrcUnit.CrcNext | rtl/interfaces/crc32.sv:16-24 | the loop over the data bits is the fold of the bit step |
| Crc32.CrcUnit.Clock | rtl/interfaces/crc32.sv:26-44 | one edge of the three registers is one step of the CRC unit |
| PacketMon.TableIsByteSteps | sim/packet_monitors/packet_mon.h:138-182 | each of the 256 table entries is eight zero-input steps of its index |
| PacketMon.TableStepIsEightSteps | sim/packet_monitors/packet_mon.h:186-188 | one turn of the table loop equals eight bit-serial steps |
| PacketMon.TableCrcIsCrc | sim/packet_monitors/packet_mon.h:184-190 | the table form computes the bit-serial CRC of every byte string |
| PacketMon.MonitorCrc32 | sim/packet_monitors/packet_mon.h:184-190 | the monitor's loop returns that CRC |
| PacketMon.HardwareMatchesMonitor | rtl/interfaces/crc32.sv:26-44 | for every packet sequence with any idle cycles the hardware reports one value per packet, the monitor's CRC of its bytes |
| PacketMon.OutIsLatest | rtl/interfaces/crc32.sv:26-44 | crc_valid is high exactly one edge after a last word, and crc_out keeps the CRC of the latest packet |
| PacketMon.KnownValues | sim/testbenches/tb_crc.cpp:21-66 | the hardware reports the two CRC values that the testbench expects |
| TokenBucket.RateBound | rtl/filters/token_bucket.sv:23-50 | over every window the bytes allowed are bounded by the tokens at its start plus rate times refills, and by burst plus rate times the rounded-up number of periods |
| TokenBucket.TokensPayForBytes | rtl/filters/token_bucket.sv:23-50 | allowed bytes and tokens left never exceed tokens at the start plus refills, and tokens never exceed the burst |
| TokenBucket.RefillsAreRegular | rtl/filters/token_bucket.sv:28-38 | the timer comes round every cfg_interval + 1 cycles whatever the traffic |
| TokenBucket.PacketPassesExactlyWhen | rtl/filters/token_bucket.sv:41-50 | a packet's bytes get through exactly when the tokens cover them to the last one; they are then paid for, and a refusal leaves the bucket as an idle edge would |
| TokenBucket.AllPassExactlyWhen | rtl/filters/token_bucket.sv:23-50 | over every window all bytes get through exactly when every packet is covered by the tokens then left |
| TokenBucket.PassesAfterSilence | rtl/filters/token_bucket.sv:23-50 | after a silence a packet passes exactly when the tokens and the refills since, up to the burst, cover it |
| TokenBucket.AfterReset | rtl/filters/token_bucket.sv:24-26 | reset leaves a full bucket whose refills come at every full period |
| TokenBucket.RefillSaturatesExactlyWhen | rtl/filters/token_bucket.sv:31-35 | a refill saturates as documented exactly unless the 48-bit sum wraps below the burst |
| TokenBucket.RefillWraps | rtl/filters/token_bucket.sv:31-35 | a run in which an idle edge takes a full bucket to one token |
| TokenBucket.RefillIsLostExactlyWhen | rtl/filters/token_bucket.sv:29-46 | an edge refills and spends exactly unless it would do both |
| TokenBucket.RefillIsLost | rtl/filters/token_bucket.sv:29-46 | a run in which a refill is lost |
| TokenBucket.IdleFills | rtl/filters/token_bucket.sv:28-38 | without traffic the bucket holds exactly its start plus the refills, up to the burst |
| TokenBucket.Limiter.Clock | rtl/filters/token_bucket.sv:23-48 | one edge, with consumption overriding the refill, is one step of the bucket; a packet that the tokens cover is paid for |
| Checksum.OnesSumIsCanon | sim/packet_generators/packet_gen.h:126-134 | the one's-complement sum of section 3.1 of RFC 791 is the word sum modulo 0xFFFF with zero kept apart |
| Checksum.IpChecksum | sim/packet_generators/packet_gen.h:126-134 | the software loop returns the complemented one's-complement sum for up to 131074 bytes, and for longer input that of the wrapped sum |
| Checksum.FoldAndInvert | sim/packet_generators/packet_gen.h:132-133 | the open-ended fold loop terminates and reduces any sum |
| Checksum.WrapIsHarmlessExactlyWhen | sim/packet_generators/packet_gen.h:127-131 | when the wrap of the 32-bit accumulator leaves the checksum right |
| Checksum.WrapIsHarmful | sim/packet_generators/packet_gen.h:127-131 | 131076 bytes that get a wrong checksum |
| Checksum.HardwareChecksum | rtl/parsers/ipv4_parser.sv:66-77 | two folds suffice for ten words, and the result is zero exactly when the one's-complement sum is all ones |
| Checksum.AcceptedFields | rtl/parsers/ipv4_parser.sv:66-77 | which contents of the checksum field the parser accepts |
| Checksum.StoredChecksumIsAccepted | rtl/parsers/ipv4_parser.sv:66-77 | the software value in network byte order passes the hardware check |
| Checksum.HostOrderIsAcceptedExactlyWhen | sim/packet_generators/packet_gen.h:145-152 | the value as the generator stores it passes exactly when its two bytes are equal |
| PacketGen.GeneratedHeaderIsRejected | sim/packet_generators/packet_gen.h:136-153 | a header of the generator that the parser rejects |
| PacketGen.Generator.FillEth | sim/packet_generators/packet_gen.h:115-124 | the filled vector is the Ethernet header |
| PacketGen.Generator.FillIpv4 | sim/packet_generators/packet_gen.h:136-153 | the header with its stored checksum is written in place, and the identification counter advances |
| PacketGen.Generator.MakeUdpPacket | sim/packet_generators/packet_gen.h:155-190 | building in place gives the UDP frame |
| PacketGen.Generator.MakeTcpPacket | sim/packet_generators/packet_gen.h:192-230 | building in place gives the TCP frame |
| PacketGen.Generator.MakeArpPacket | sim/packet_generators/packet_gen.h:232-254 | building in place gives the ARP frame |
| PacketGen.UdpParsesBack | sim/packet_generators/packet_gen.h:155-190 | every UDP frame parses back to what it was built from |
| PacketGen.TcpParsesBack | sim/packet_generators/packet_gen.h:192-230 | every TCP frame parses back to what it was built from |
| PacketGen.ArpParsesBack | sim/packet_generators/packet_gen.h:232-254 | every ARP frame parses back to its addresses and shows no other header |
| PacketGen.UdpFrameFields | sim/packet_generators/packet_gen.h:145-190 | both length fields of a UDP frame are true, its payload lies behind its headers, and its other fields are the generator's |
| PacketGen.TcpFrameFields | sim/packet_generators/packet_gen.h:145-230 | the total length and data offset of a TCP frame are true, its payload lies behind its headers, and its other fields are the generator's |
| PacketGen.ArpFrameFields | sim/packet_generators/packet_gen.h:238-254 | all fields of the ARP request |
| EndToEnd.TcpFrameQueue | rtl/classifiers/match_table.sv:41-54 | in every run each beat of a generated TCP frame leaves the match stage with a class whose scheduler queue is high for ports 443 and 22, middle for 80, low otherwise |
| EndToEnd.UdpFrameQueue | rtl/schedulers/packet_scheduler.sv:44-51 | in every run each beat of a generated UDP frame leaves the match stage with a class whose scheduler queue is middle for port 53, low otherwise |
| EndToEnd.SchedulerWouldSeeThreeAhead | rtl/top/parser_pipeline.sv:161 | with single-beat packets at full rate the class beside a delivered packet is that of the packet three behind it |
| EndToEnd.CatchAllKeepsChecksumExactlyWhen | rtl/classifiers/match_table.sv:53-54 | in every run, which valid IPv4 headers under the catch-all rule are delivered valid |
| EndToEnd.RedirectedPacket | rtl/classifiers/packet_modifier.sv:87-100 | in every run, for any table, a packet whose first matching rule sets the MAC addresses is delivered to the rule's destination and from its source |
| EndToEnd.ArpFrameIsRewritten | rtl/classifiers/match_table.sv:53-54 | in every run a generated ARP frame whose first beat is recognised is delivered with its sender address damaged |

## Left out

- Reset in the middle of a run: every class has its reset edge, but the lemmas about runs start after reset.
- Least-recently-used order of the flow table: the victim way is arbitrary, since the source indexes a two-bit register by set.
- The Toeplitz hash: an arbitrary function of the key, since its last fold slice runs past bit 31.
- Victim choice out of range: the source's choice is always one of the two ways, so inputs have victims below 2.
- Flow-table contents at pipeline level: the flow key is a free input of `FlowTable`, since the pipeline gives it a packet's own key only as `ParserPipeline.FlowKeyIsOwnExactlyWhen` says.
- Statistics counters: saturating additions of the same metadata.
- almost_full and almost_empty flags of the FIFO: plain comparisons of the occupancy.
- Packet contiguity and output stability at the scheduler: the arbiter may switch between beats and while stalled.
- Rates shared by weight in round-robin mode: they do not exist in the code, see above.
- Buses narrower than the headers: the parsers only look at the first beat, so that fields beyond its lanes are unknown values there.
- FIFO depths that are not powers of two: `AxisFifo.PointersStayInRange` shows that the source would leave its memory.
- Random packets of the generator, scoreboard and logging of the monitor: random numbers, I/O and container plumbing.
- register_iface, control_plane, packet_classifier, rule_engine: register plumbing and earlier variants of the match table.
- crc_error and parse_error: never written by any modelled stage.
