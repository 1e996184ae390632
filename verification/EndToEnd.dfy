/**
  From the packet generator through the pipeline with its built-in rules: classes, queues and rewriting of
  generated frames, in every run.  No module of the source connects the scheduler; docs/architecture.md puts
  it behind the pipeline, where m_meta is the only class there is.
 */
module EndToEnd {
  import opened NpePkg
  import opened Checksum
  import opened ElasticChain
  import opened Parsers
  import opened MatchTable
  import opened PacketModifier
  import opened ParserPipeline
  import opened HeaderFields
  import opened PacketGen
  import FlowTable
  import PacketScheduler

  /** The data of the first beat of the packet that accepted beat i belongs to. */
  function FirstData(xs: seq<Token>, i: nat): seq<byte>
    requires i < |xs|
  {
    xs[Head(xs, i)].beat.data
  }

  lemma MatchedClass(rules: seq<Rule>, s: Pipe, run: seq<Edge>, i: nat)
    requires IsReset(s) && i < |MatchedBeats(rules, s, run)|
    ensures i < |AcceptedBeats(rules, s, run)|
    ensures MatchedBeats(rules, s, run)[i].info.meta.classId
      == ClassOf(rules, FirstData(AcceptedBeats(rules, s, run), i))
  {
    hide IsReset, MatchedBeats, AcceptedBeats, Parse, Lookup;
    PipelineIsLatencyInsensitive(rules, s, run, i);
  }

  /** The class of a packet with the given first lanes. */
  function ClassOf(rules: seq<Rule>, d: seq<byte>): nat {
    Lookup(rules, Parse(d)).classId
  }

  lemma TcpClass(n: nat, d: seq<byte>, srcMac: MacAddress, dstMac: MacAddress, id: uint16, srcIp: uint32,
                 dstIp: uint32, srcPort: uint16, dstPort: uint16, payload: seq<byte>, flags: uint8)
    requires n >= 5 && |d| >= 54
    requires Carries(d, TcpFrame(srcMac, dstMac, id, srcIp, dstIp, srcPort, dstPort, payload, flags))
    ensures ClassOf(DefaultRules(n), d) ==
      if dstPort == 80 then 2 else if dstPort == 443 then 3 else if dstPort == 22 then 4 else 0
  {
    hide Parse, Carries, Ipv4Frame, TcpHeader, Lookup, DefaultRules, ChecksumSurvives, BareIpv4Header, Mac;
    TcpParsesBack(d, srcMac, dstMac, id, srcIp, dstIp, srcPort, dstPort, payload, flags);
    DefaultVerdict(n, Parse(d));
  }

  lemma UdpClass(n: nat, d: seq<byte>, srcMac: MacAddress, dstMac: MacAddress, id: uint16, srcIp: uint32,
                 dstIp: uint32, srcPort: uint16, dstPort: uint16, payload: seq<byte>)
    requires n >= 5 && |d| >= 38
    requires Carries(d, UdpFrame(srcMac, dstMac, id, srcIp, dstIp, srcPort, dstPort, payload))
    ensures ClassOf(DefaultRules(n), d) == if dstPort == 53 then 1 else 0
  {
    hide Parse, Carries, Ipv4Frame, UdpHeader, Lookup, DefaultRules, ChecksumSurvives, BareIpv4Header, Mac;
    UdpParsesBack(d, srcMac, dstMac, id, srcIp, dstIp, srcPort, dstPort, payload);
    DefaultVerdict(n, Parse(d));
  }

  /** A rule field is empty, or it is the field of the header. */
  predicate FieldIs(want: nat, have: nat) {
    want == 0 || want == have
  }

  /** Which packets a rule matches, by what is written in their headers: each of its addresses stands for the address of
      the same name, and its ports count only for packets that have ports. */
  lemma RuleMatchesHeadersExactlyWhen(r: Rule, d: seq<byte>, h: Headers)
    requires HeadersFit(h) && Carried(d, h)
    ensures Matches(r, Parse(d)) <==>
      && r.valid
      && FieldIs(r.protocol, h.ip.protocol) && FieldIs(r.srcIp, h.ip.srcIp) && FieldIs(r.dstIp, h.ip.dstIp)
      && (h.l4.Some? ==> FieldIs(r.srcPort, h.l4.value.srcPort) && FieldIs(r.dstPort, h.l4.value.dstPort))
  {
    hide Parse, Carried, HeadersFit, ChecksumOk, IpBytes, Mac;
    HeadersParse(d, h);
  }

  /** An ARP frame is matched by the rules that ask for no protocol and no address. */
  lemma RuleMatchesArpExactlyWhen(r: Rule, d: seq<byte>, srcMac: MacAddress, dstMac: MacAddress, senderIp: uint32,
                                  targetIp: uint32)
    requires |d| >= 14 && Carries(d, ArpFrame(srcMac, dstMac, senderIp, targetIp))
    ensures Matches(r, Parse(d)) <==> r.valid && r.protocol == 0 && r.srcIp == 0 && r.dstIp == 0
  {
    hide Parse, Carries, ArpFrame, Mac;
    ArpParsesBack(d, srcMac, dstMac, senderIp, targetIp);
  }

  /** The flow a packet is counted under, by what is written in its headers. */
  lemma FlowOfHeaders(d: seq<byte>, h: Headers)
    requires HeadersFit(h) && Carried(d, h)
    ensures var l4 := h.l4;
      FlowTable.FlowPacket(Parse(d)).key == FlowTable.Key(h.ip.srcIp, h.ip.dstIp, h.ip.protocol,
        if l4.Some? then l4.value.srcPort else 0, if l4.Some? then l4.value.dstPort else 0)
  {
    hide Parse, Carried, HeadersFit, ChecksumOk, IpBytes, Mac;
    HeadersParse(d, h);
  }

  /** In every run each beat of a generated TCP frame leaves the match stage with a class for which the
      scheduler has the high queue (HTTPS and SSH), the middle one (HTTP) or the low one (all other ports). */
  lemma TcpFrameQueue(n: nat, s: Pipe, run: seq<Edge>, i: nat, srcMac: MacAddress, dstMac: MacAddress, id: uint16,
                      srcIp: uint32, dstIp: uint32, srcPort: uint16, dstPort: uint16, payload: seq<byte>, flags: uint8)
    requires n >= 5 && IsReset(s) && i < |MatchedBeats(DefaultRules(n), s, run)|
    requires var xs := AcceptedBeats(DefaultRules(n), s, run);
      && i < |xs| && |FirstData(xs, i)| >= 54
      && Carries(FirstData(xs, i), TcpFrame(srcMac, dstMac, id, srcIp, dstIp, srcPort, dstPort, payload, flags))
    ensures PacketScheduler.Dest(MatchedBeats(DefaultRules(n), s, run)[i].info.meta.classId) ==
      if dstPort == 443 || dstPort == 22 then PacketScheduler.HIGH
      else if dstPort == 80 then PacketScheduler.MED
      else PacketScheduler.LOW
  {
    hide IsReset, MatchedBeats, AcceptedBeats, ClassOf, DefaultRules, FirstData, Carries, TcpFrame;
    MatchedClass(DefaultRules(n), s, run, i);
    TcpClass(n, FirstData(AcceptedBeats(DefaultRules(n), s, run), i),
             srcMac, dstMac, id, srcIp, dstIp, srcPort, dstPort, payload, flags);
  }

  /** The same for generated UDP frames: the middle queue for DNS, the low one for all other ports. */
  lemma UdpFrameQueue(n: nat, s: Pipe, run: seq<Edge>, i: nat, srcMac: MacAddress, dstMac: MacAddress, id: uint16,
                      srcIp: uint32, dstIp: uint32, srcPort: uint16, dstPort: uint16, payload: seq<byte>)
    requires n >= 5 && IsReset(s) && i < |MatchedBeats(DefaultRules(n), s, run)|
    requires var xs := AcceptedBeats(DefaultRules(n), s, run);
      && i < |xs| && |FirstData(xs, i)| >= 38
      && Carries(FirstData(xs, i), UdpFrame(srcMac, dstMac, id, srcIp, dstIp, srcPort, dstPort, payload))
    ensures PacketScheduler.Dest(MatchedBeats(DefaultRules(n), s, run)[i].info.meta.classId) ==
      if dstPort == 53 then PacketScheduler.MED else PacketScheduler.LOW
  {
    hide IsReset, MatchedBeats, AcceptedBeats, ClassOf, DefaultRules, FirstData, Carries, UdpFrame;
    MatchedClass(DefaultRules(n), s, run, i);
    UdpClass(n, FirstData(AcceptedBeats(DefaultRules(n), s, run), i),
             srcMac, dstMac, id, srcIp, dstIp, srcPort, dstPort, payload);
  }

  /** A scheduler behind the pipeline would see m_meta.  With single-beat packets back to back and m_tready
      always high it would so put every packet into the queue of the packet three behind it. */
  lemma SchedulerWouldSeeThreeAhead(rules: seq<Rule>, s: Pipe, run: seq<Edge>)
    requires IsReset(s) && |run| >= 8 && forall e <- run :: e.mReady && e.x.Some? && e.x.value.last
    ensures var xs, j := AcceptedBeats(rules, s, run), |DeliveredBeats(rules, s, run)|;
      && j + 3 < |xs| && Head(xs, j + 3) == j + 3
      && MetaOut(PipeRun(rules, s, run)).classId == ClassOf(rules, xs[j + 3].beat.data)
  {
    hide IsReset, PipeRun, AcceptedBeats, DeliveredBeats, Parse, Lookup, Reached, LengthSeen;
    BackToBackMetaIsThreeAhead(rules, s, run);
    MetaIsOfTheYoungest(rules, s, run);
    AllLast(rules, s, run);
  }

  lemma {:induction false} AllLast(rules: seq<Rule>, s: Pipe, run: seq<Edge>)
    requires forall e <- run :: e.x.Some? && e.x.value.last
    ensures forall x <- AcceptedBeats(rules, s, run) :: x.beat.last
    decreases |run|
  {
    hide PipeNext, EthReady;
    if run != [] {
      assert forall e <- run[1..] :: e in run;
      AllLast(rules, PipeNext(rules, s, run[0].x, run[0].mReady), run[1..]);
    }
  }

  /** Accepted beat i is the first beat of a packet, and is the whole packet or did not have to wait. */
  predicate Recognised(rules: seq<Rule>, s: Pipe, run: seq<Edge>, i: nat) {
    var xs := AcceptedBeats(rules, s, run);
    i < |xs| && i < |Waited(rules, s, run)| && Head(xs, i) == i && (xs[i].beat.last || !Waited(rules, s, run)[i])
  }

  lemma RecognisedIsRewritten(rules: seq<Rule>, s: Pipe, run: seq<Edge>, i: nat)
    requires IsReset(s) && i < |DeliveredBeats(rules, s, run)| && Recognised(rules, s, run, i)
    ensures var b := AcceptedBeats(rules, s, run)[i].beat;
      DeliveredBeats(rules, s, run)[i] == Modified(b, PacketInfo(rules, b))
  {
    hide IsReset, AcceptedBeats, DeliveredBeats, Waited, Modified, PacketInfo, Head;
    DeliveredExactly(rules, s, run, i);
  }

  /** In every run, for any table: a packet whose first matching rule sets the MAC addresses is delivered, if its
      first beat is recognised, to the rule's destination and from the rule's source. */
  lemma RedirectedPacket(rules: seq<Rule>, s: Pipe, run: seq<Edge>, i: nat, j: nat)
    requires IsReset(s) && i < |DeliveredBeats(rules, s, run)| && Recognised(rules, s, run, i)
    requires var d := AcceptedBeats(rules, s, run)[i].beat.data;
      |d| >= 14 && IsFirstMatch(rules, Parse(d), j) && rules[j].modAction == MacSet
    requires rules[j].modData.newDstMac < 0x1_0000_0000_0000 && rules[j].modData.newSrcMac < 0x1_0000_0000_0000
    ensures var m := EthernetMeta(DeliveredBeats(rules, s, run)[i].data, NO_METADATA);
      m.dstMac == rules[j].modData.newDstMac && m.srcMac == rules[j].modData.newSrcMac
  {
    hide IsReset, AcceptedBeats, DeliveredBeats, Parse, Modified, Lookup, IsFirstMatch, EthernetMeta;
    RecognisedIsRewritten(rules, s, run, i);
    var b := AcceptedBeats(rules, s, run)[i].beat;
    hide Recognised;
    FirstMatchIsFound(rules, Parse(b.data), j);
    MacSetAction(b, PacketInfo(rules, b), NO_METADATA);
  }

  /** In every run a valid IPv4 header under the catch-all rule is delivered valid, if its first beat is recognised,
      exactly when its checksum's bytes are as far apart as the misplaced write makes up for. */
  lemma CatchAllKeepsChecksumExactlyWhen(n: nat, s: Pipe, run: seq<Edge>, i: nat, off: nat)
    requires n >= 5 && IsReset(s) && i < |DeliveredBeats(DefaultRules(n), s, run)|
    requires Recognised(DefaultRules(n), s, run, i)
    requires var d := AcceptedBeats(DefaultRules(n), s, run)[i].beat.data;
      && ClassOf(DefaultRules(n), d) == 0
      && off == IpOffset(Parse(d)) && off + 20 <= |d| && ChecksumOk(d, off)
    ensures var d := AcceptedBeats(DefaultRules(n), s, run)[i].beat.data;
      ChecksumOk(DeliveredBeats(DefaultRules(n), s, run)[i].data, off) <==>
        Lane(d, off + 11) - Lane(d, off + 10) == if Lane(d, off + 8) == 0 then -255 else 1
  {
    hide IsReset, AcceptedBeats, DeliveredBeats, DefaultRules, ChecksumOk, Parse, IpOffset, Lane, Modified, PacketInfo,
      ClassOf;
    RecognisedIsRewritten(DefaultRules(n), s, run, i);
    var b := AcceptedBeats(DefaultRules(n), s, run)[i].beat;
    hide Recognised;
    CatchAllOutcome(n, b);
    TtlDecrementKeepsChecksumExactlyWhen(b.data, off);
  }

  lemma CatchAllOutcome(n: nat, b: Beat)
    requires n >= 5 && ClassOf(DefaultRules(n), b.data) == 0
    ensures Modified(b, PacketInfo(DefaultRules(n), b)).data == TtlDecremented(b.data, IpOffset(Parse(b.data)))
  {
    hide DefaultRules, Lookup, Parse, TtlDecremented, Overlay, Pushed, Popped, MacSwapped, DscpSetTo, EcnSetTo, Be32,
      Be48;
    DefaultVerdict(n, Parse(b.data));
  }

  /** The catch-all rule decrements a TTL without asking whether there is one: in every run a generated ARP frame
      whose first beat is recognised is delivered with the first byte of its sender address changed. */
  lemma ArpFrameIsRewritten(n: nat, s: Pipe, run: seq<Edge>, i: nat, srcMac: MacAddress, dstMac: MacAddress,
                            senderIp: uint32, targetIp: uint32)
    requires n >= 5 && IsReset(s) && i < |DeliveredBeats(DefaultRules(n), s, run)|
    requires Recognised(DefaultRules(n), s, run, i)
    requires var d := AcceptedBeats(DefaultRules(n), s, run)[i].beat.data;
      |d| >= 42 && Carries(d, ArpFrame(srcMac, dstMac, senderIp, targetIp))
    ensures Lane(AcceptedBeats(DefaultRules(n), s, run)[i].beat.data, 22) == srcMac[0]
    ensures Lane(DeliveredBeats(DefaultRules(n), s, run)[i].data, 22) == (srcMac[0] as int + 0xFF) % 0x100 != srcMac[0]
  {
    hide IsReset, AcceptedBeats, DeliveredBeats, PacketInfo, DefaultRules, Carries, ArpFrame, Modified;
    RecognisedIsRewritten(DefaultRules(n), s, run, i);
    var b := AcceptedBeats(DefaultRules(n), s, run)[i].beat;
    hide Recognised;
    ArpOrders(n, b, srcMac, dstMac, senderIp, targetIp);
    ArpSender(b.data, srcMac, dstMac, senderIp, targetIp);
    UntaggedTtl(b, PacketInfo(DefaultRules(n), b));
  }

  lemma ArpOrders(n: nat, b: Beat, srcMac: MacAddress, dstMac: MacAddress, senderIp: uint32, targetIp: uint32)
    requires n >= 5 && |b.data| >= 42 && Carries(b.data, ArpFrame(srcMac, dstMac, senderIp, targetIp))
    ensures PacketInfo(DefaultRules(n), b).action == TtlDec && !PacketInfo(DefaultRules(n), b).meta.vlanValid
  {
    hide Parse, Lookup, DefaultRules, Mac, ArpFrame, Carries;
    ArpParsesBack(b.data, srcMac, dstMac, senderIp, targetIp);
    DefaultVerdict(n, Parse(b.data));
  }

  lemma UntaggedTtl(b: Beat, i: Info)
    requires i.action == TtlDec && !i.meta.vlanValid && |b.data| >= 42
    ensures Lane(Modified(b, i).data, 22) == (Lane(b.data, 22) + 0xFF) % 0x100
  {
    hide Pushed, Popped, MacSwapped, DscpSetTo, EcnSetTo, Be32, Be48;
  }

  lemma ArpSender(d: seq<byte>, srcMac: MacAddress, dstMac: MacAddress, senderIp: uint32, targetIp: uint32)
    requires |d| >= 42 && Carries(d, ArpFrame(srcMac, dstMac, senderIp, targetIp))
    ensures Lane(d, 22) == srcMac[0]
  {
    hide Be16, Be32;
    assert ArpFrame(srcMac, dstMac, senderIp, targetIp)[22] == srcMac[0];
  }
}
