/**
  The eight-stage pipeline (rtl/top/parser_pipeline.sv): Ethernet, VLAN, IPv4, UDP and TCP side by
  side, match table, modifier, statistics and flow table, joined by combinational ready wires.
 */
module ParserPipeline {
  import opened NpePkg
  import opened ElasticChain
  import opened Parsers
  import opened MatchTable
  import opened PacketModifier
  import opened AxisRegister
  import opened Checksum

  datatype Pipe = Pipe(
    eth: Stage<Tracker, Token>, vlan: Stage<Tracker, Token>, ip: Stage<Tracker, Token>,
    udp: Stage<Tracker, Token>, tcp: Stage<Tracker, Token>, table: Stage<Tracker, Token>,
    modifier: ModStage, stats: Stage<(), Beat>, flow: Stage<(), Beat>)

  const NO_INFO := Info(NO_METADATA, Nop, NO_MOD_DATA)

  /** The input port of the Ethernet stage: its s_meta is tied to zero. */
  function Incoming(x: Option<Beat>): Option<Token> {
    if x.Some? then Some(Token(x.value, NO_INFO)) else None
  }

  /** v_l4, d_l4, k_l4, l_l4 and m_l4. */
  function JoinSlot(udp: Stage<Tracker, Token>, tcp: Stage<Tracker, Token>): Option<Token> {
    var info := JoinInfo(udp.tracker.info, tcp.tracker.info);
    if tcp.slot.Some? then Some(Token(tcp.slot.value.beat, info))
    else if udp.slot.Some? then Some(Token(udp.slot.value.beat, info))
    else None
  }

  // The ready wires, named after the stage that drives them.
  predicate FlowReady(s: Pipe, mReady: bool) { StageReady(s.flow, mReady) }
  predicate StatsReady(s: Pipe, mReady: bool) { StageReady(s.stats, FlowReady(s, mReady)) }
  predicate ModifierReady(s: Pipe, mReady: bool) { ModReady(s.modifier, StatsReady(s, mReady)) }
  predicate TableReady(s: Pipe, mReady: bool) { StageReady(s.table, ModifierReady(s, mReady)) }
  predicate L4Ready(s: Pipe, mReady: bool) {
    StageReady(s.udp, TableReady(s, mReady)) && StageReady(s.tcp, TableReady(s, mReady))
  }
  predicate IpReady(s: Pipe, mReady: bool) { StageReady(s.ip, L4Ready(s, mReady)) }
  predicate VlanReady(s: Pipe, mReady: bool) { StageReady(s.vlan, IpReady(s, mReady)) }
  predicate EthReady(s: Pipe, mReady: bool) { StageReady(s.eth, VlanReady(s, mReady)) }

  function PipeNext(rules: seq<Rule>, s: Pipe, x: Option<Beat>, mReady: bool): Pipe {
    Pipe(
      StageNext(ETHERNET_STEP, s.eth, Incoming(x), VlanReady(s, mReady)),
      StageNext(CaptureStep(VLAN_CAPTURE), s.vlan, s.eth.slot, IpReady(s, mReady)),
      StageNext(CaptureStep(IPV4_CAPTURE), s.ip, s.vlan.slot, L4Ready(s, mReady)),
      StageNext(CaptureStep(UDP_CAPTURE), s.udp, s.ip.slot, TableReady(s, mReady)),
      StageNext(CaptureStep(TCP_CAPTURE), s.tcp, s.ip.slot, TableReady(s, mReady)),
      StageNext(CaptureStep(MatchCapture(rules)), s.table, JoinSlot(s.udp, s.tcp), ModifierReady(s, mReady)),
      ModNext(s.modifier, s.table.slot, StatsReady(s, mReady)),
      StageNext(PassStep<Beat>(), s.stats, s.modifier.slot, FlowReady(s, mReady)),
      StageNext(PassStep<Beat>(), s.flow, s.stats.slot, mReady))
  }

  // ---------------------------------------------------------------------------
  // Fork and join
  // ---------------------------------------------------------------------------

  /** What a parser stage holds: the metadata on the wire is the register, and once a packet has
      been seen no stage ahead of the TCP parser claims a TCP header. */
  ghost predicate NoTcpYet(s: Stage<Tracker, Token>) {
    && (s.slot.Some? ==> s.slot.value.info == s.tracker.info)
    && (s.slot.Some? || !s.tracker.first ==> !s.tracker.info.meta.tcpValid)
  }

  ghost predicate Lockstep(s: Pipe) {
    && s.udp.tracker.first == s.tcp.tracker.first
    && s.udp.slot.Some? == s.tcp.slot.Some?
    && (s.udp.slot.Some? ==> s.udp.slot.value.beat == s.tcp.slot.value.beat)
  }

  ghost predicate Inv(s: Pipe) {
    Lockstep(s) && NoTcpYet(s.eth) && NoTcpYet(s.vlan) && NoTcpYet(s.ip)
  }

  /** After reset: no beat anywhere, every stage between packets; the metadata registers are not reset. */
  ghost predicate IsReset(s: Pipe) {
    && s.eth.slot.None? && s.vlan.slot.None? && s.ip.slot.None?
    && s.udp.slot.None? && s.tcp.slot.None? && s.table.slot.None?
    && s.modifier == MOD_RESET && s.stats.slot.None? && s.flow.slot.None?
    && s.eth.tracker.first && s.vlan.tracker.first && s.ip.tracker.first
    && s.udp.tracker.first && s.tcp.tracker.first && s.table.tracker.first
    && s.eth.tracker.length == 0
  }

  lemma EthKeepsNoTcp(s: Stage<Tracker, Token>, x: Option<Beat>, mReady: bool)
    requires NoTcpYet(s)
    ensures NoTcpYet(StageNext(ETHERNET_STEP, s, Incoming(x), mReady))
  {
    hide Add16, KeepCount, Mac, Word16;
  }

  lemma VlanKeepsNoTcp(s: Stage<Tracker, Token>, up: Stage<Tracker, Token>, mReady: bool)
    requires NoTcpYet(s) && NoTcpYet(up)
    ensures NoTcpYet(StageNext(CaptureStep(VLAN_CAPTURE), s, up.slot, mReady))
  {
    hide Word16;
  }

  lemma Ipv4KeepsNoTcp(s: Stage<Tracker, Token>, up: Stage<Tracker, Token>, mReady: bool)
    requires NoTcpYet(s) && NoTcpYet(up)
    ensures NoTcpYet(StageNext(CaptureStep(IPV4_CAPTURE), s, up.slot, mReady))
  {
    hide Word16, Word32, Lane;
  }

  /** The two layer-4 parsers never drift apart. */
  lemma LockstepKept(s: Pipe, x: Option<Token>, ready: bool)
    requires Lockstep(s)
    ensures StageReady(s.udp, ready) == StageReady(s.tcp, ready)
    ensures Lockstep(s.(udp := StageNext(CaptureStep(UDP_CAPTURE), s.udp, x, ready),
                        tcp := StageNext(CaptureStep(TCP_CAPTURE), s.tcp, x, ready)))
  {
    hide UdpMeta, TcpMeta;
  }

  lemma InvKept(rules: seq<Rule>, s: Pipe, x: Option<Beat>, mReady: bool)
    requires Inv(s)
    ensures Inv(PipeNext(rules, s, x, mReady))
  {
    EthKeepsNoTcp(s.eth, x, VlanReady(s, mReady));
    VlanKeepsNoTcp(s.vlan, s.eth, IpReady(s, mReady));
    Ipv4KeepsNoTcp(s.ip, s.vlan, L4Ready(s, mReady));
    LockstepKept(s, s.ip.slot, TableReady(s, mReady));
    hide StageNext, ModNext, CaptureStep, JoinSlot, NoTcpYet, StageReady, ModReady;
  }

  /** The two parsers and their mux, seen as one stage. */
  function Joined(udp: Stage<Tracker, Token>, tcp: Stage<Tracker, Token>): Stage<Tracker, Token> {
    Stage(udp.tracker.(info := JoinInfo(udp.tracker.info, tcp.tracker.info)), JoinSlot(udp, tcp))
  }

  /** Fork, two parsers, join: one stage that runs the UDP parser and then the TCP parser. */
  lemma ForkJoinIsOneStage(s: Pipe, ready: bool)
    requires Lockstep(s) && NoTcpYet(s.ip)
    ensures L4Ready(s, ready) == StageReady(Joined(s.udp, s.tcp), TableReady(s, ready))
    ensures Joined(StageNext(CaptureStep(UDP_CAPTURE), s.udp, s.ip.slot, TableReady(s, ready)),
                   StageNext(CaptureStep(TCP_CAPTURE), s.tcp, s.ip.slot, TableReady(s, ready)))
      == StageNext(CaptureStep(L4_CAPTURE), Joined(s.udp, s.tcp), s.ip.slot, TableReady(s, ready))
  {
    if s.ip.slot.Some? {
      JoinIsSequence(s.ip.slot.value.beat, s.ip.slot.value.info);
    }
    hide UdpMeta, TcpMeta, TableReady;
  }

  // ---------------------------------------------------------------------------
  // The five parser stages as a chain
  // ---------------------------------------------------------------------------

  function FrontCaptures(rules: seq<Rule>): (fs: seq<Capture>)
    ensures |fs| == 4
  {
    [VLAN_CAPTURE, IPV4_CAPTURE, L4_CAPTURE, MatchCapture(rules)]
  }

  function FrontSteps(rules: seq<Rule>): (fs: seq<StepFn<Tracker, Token>>)
    ensures |fs| == 5
  {
    [ETHERNET_STEP] + CaptureSteps(FrontCaptures(rules))
  }

  function Front(s: Pipe): (c: seq<Stage<Tracker, Token>>)
    ensures |c| == 5
  {
    [s.eth, s.vlan, s.ip, Joined(s.udp, s.tcp), s.table]
  }

  lemma ReadyOfFive<K, X>(a: Stage<K, X>, b: Stage<K, X>, c: Stage<K, X>, d: Stage<K, X>, e: Stage<K, X>, mReady: bool)
    ensures Ready([e], mReady) == StageReady(e, mReady)
    ensures Ready([d, e], mReady) == StageReady(d, Ready([e], mReady))
    ensures Ready([c, d, e], mReady) == StageReady(c, Ready([d, e], mReady))
    ensures Ready([b, c, d, e], mReady) == StageReady(b, Ready([c, d, e], mReady))
    ensures Ready([a, b, c, d, e], mReady) == StageReady(a, Ready([b, c, d, e], mReady))
  {
    assert [d, e][1..] == [e] && [c, d, e][1..] == [d, e] && [b, c, d, e][1..] == [c, d, e];
    assert [a, b, c, d, e][1..] == [b, c, d, e];
    hide StageReady;
  }

  lemma NextOfFive<K, X>(
      f: StepFn<K, X>, g: StepFn<K, X>, h: StepFn<K, X>, k: StepFn<K, X>, l: StepFn<K, X>,
      a: Stage<K, X>, b: Stage<K, X>, c: Stage<K, X>, d: Stage<K, X>, e: Stage<K, X>, x: Option<X>, mReady: bool)
    ensures Next([f, g, h, k, l], [a, b, c, d, e], x, mReady) ==
      [StageNext(f, a, x, Ready([b, c, d, e], mReady)), StageNext(g, b, a.slot, Ready([c, d, e], mReady)),
       StageNext(h, c, b.slot, Ready([d, e], mReady)), StageNext(k, d, c.slot, Ready([e], mReady)),
       StageNext(l, e, d.slot, mReady)]
  {
    hide StageNext, Ready;
    NextCons(f, [g, h, k, l], a, [b, c, d, e], x, mReady);
    NextCons(g, [h, k, l], b, [c, d, e], a.slot, mReady);
    NextCons(h, [k, l], c, [d, e], b.slot, mReady);
    NextCons(k, [l], d, [e], c.slot, mReady);
    NextCons(l, [], e, [], d.slot, mReady);
    ReadyOfNone<K, X>(mReady);
    hide Next;
  }

  lemma ReadyOfNone<K, X>(mReady: bool)
    ensures Ready<K, X>([], mReady) == mReady
    ensures forall x: Option<X> :: Next<K, X>([], [], x, mReady) == []
  {
  }

  lemma NextCons<K, X>(f: StepFn<K, X>, fs: seq<StepFn<K, X>>, a: Stage<K, X>, c: seq<Stage<K, X>>,
                       x: Option<X>, mReady: bool)
    requires |fs| == |c|
    ensures Next([f] + fs, [a] + c, x, mReady) == [StageNext(f, a, x, Ready(c, mReady))] + Next(fs, c, a.slot, mReady)
  {
    assert ([f] + fs)[1..] == fs && ([a] + c)[1..] == c;
  }

  lemma FrontStepsList(rules: seq<Rule>)
    ensures FrontSteps(rules) == [ETHERNET_STEP, CaptureStep(VLAN_CAPTURE), CaptureStep(IPV4_CAPTURE),
                                  CaptureStep(L4_CAPTURE), CaptureStep(MatchCapture(rules))]
  {
    var fs := FrontCaptures(rules);
    StepsCons(VLAN_CAPTURE, [IPV4_CAPTURE, L4_CAPTURE, MatchCapture(rules)]);
    StepsCons(IPV4_CAPTURE, [L4_CAPTURE, MatchCapture(rules)]);
    StepsCons(L4_CAPTURE, [MatchCapture(rules)]);
    StepsCons(MatchCapture(rules), []);
    assert fs == [VLAN_CAPTURE] + [IPV4_CAPTURE, L4_CAPTURE, MatchCapture(rules)];
    hide CaptureStep;
  }

  lemma StepsCons(f: Capture, fs: seq<Capture>)
    ensures CaptureSteps([f] + fs) == [CaptureStep(f)] + CaptureSteps(fs)
    ensures CaptureSteps([]) == []
  {
    assert ([f] + fs)[1..] == fs;
  }

  /** One edge of the front of the pipeline is one edge of the chain, at the ready level the modifier drives. */
  lemma FrontIsAChain(rules: seq<Rule>, s: Pipe, x: Option<Beat>, mReady: bool)
    requires Inv(s)
    ensures Front(PipeNext(rules, s, x, mReady))
      == Next(FrontSteps(rules), Front(s), Incoming(x), ModifierReady(s, mReady))
    ensures EthReady(s, mReady) == Ready(Front(s), ModifierReady(s, mReady))
  {
    var r := ModifierReady(s, mReady);
    ForkJoinIsOneStage(s, mReady);
    ReadyOfFive(s.eth, s.vlan, s.ip, Joined(s.udp, s.tcp), s.table, r);
    FrontStepsList(rules);
    NextOfFive(ETHERNET_STEP, CaptureStep(VLAN_CAPTURE), CaptureStep(IPV4_CAPTURE), CaptureStep(L4_CAPTURE),
               CaptureStep(MatchCapture(rules)), s.eth, s.vlan, s.ip, Joined(s.udp, s.tcp), s.table, Incoming(x), r);
    hide StageNext, StageReady, Next, Ready, CaptureStep, JoinSlot, JoinInfo, ModReady, FrontSteps, ModNext, Incoming;
  }

  // ---------------------------------------------------------------------------
  // Runs
  // ---------------------------------------------------------------------------

  /** The environment at one edge: s_tvalid with its beat, and m_tready. */
  datatype Edge = Edge(x: Option<Beat>, mReady: bool)

  function PipeRun(rules: seq<Rule>, s: Pipe, run: seq<Edge>): Pipe
    decreases |run|
  {
    if run == [] then s else PipeRun(rules, PipeNext(rules, s, run[0].x, run[0].mReady), run[1..])
  }

  /** The beats accepted at the input port. */
  function AcceptedBeats(rules: seq<Rule>, s: Pipe, run: seq<Edge>): seq<Token>
    decreases |run|
  {
    if run == [] then []
    else
      (if EthReady(s, run[0].mReady) then ToSeq(Incoming(run[0].x)) else [])
      + AcceptedBeats(rules, PipeNext(rules, s, run[0].x, run[0].mReady), run[1..])
  }

  /** What leaves the match stage, with metadata and modifier orders. */
  function MatchedBeats(rules: seq<Rule>, s: Pipe, run: seq<Edge>): seq<Token>
    decreases |run|
  {
    if run == [] then []
    else
      (if ModifierReady(s, run[0].mReady) then ToSeq(s.table.slot) else [])
      + MatchedBeats(rules, PipeNext(rules, s, run[0].x, run[0].mReady), run[1..])
  }

  /** The run as the front chain sees it. */
  function FrontRun(rules: seq<Rule>, s: Pipe, run: seq<Edge>): (pins: seq<Pins<Token>>)
    ensures |pins| == |run|
    decreases |run|
  {
    if run == [] then []
    else
      [Pins(Incoming(run[0].x), ModifierReady(s, run[0].mReady))]
      + FrontRun(rules, PipeNext(rules, s, run[0].x, run[0].mReady), run[1..])
  }

  lemma {:induction false} RunIsAChainRun(rules: seq<Rule>, s: Pipe, run: seq<Edge>)
    requires Inv(s)
    ensures Inv(PipeRun(rules, s, run))
    ensures AcceptedBeats(rules, s, run) == Accepted(FrontSteps(rules), Front(s), FrontRun(rules, s, run))
    ensures MatchedBeats(rules, s, run) == Emitted(FrontSteps(rules), Front(s), FrontRun(rules, s, run))
    ensures Front(PipeRun(rules, s, run)) == Run(FrontSteps(rules), Front(s), FrontRun(rules, s, run))
    decreases |run|
  {
    hide PipeNext, Inv, FrontSteps, Next, Ready, EthReady, ModifierReady, Incoming, ToSeq;
    if run != [] {
      var s' := PipeNext(rules, s, run[0].x, run[0].mReady);
      InvKept(rules, s, run[0].x, run[0].mReady);
      FrontIsAChain(rules, s, run[0].x, run[0].mReady);
      RunIsAChainRun(rules, s', run[1..]);
      var pins := FrontRun(rules, s, run);
      assert pins[0] == Pins(Incoming(run[0].x), ModifierReady(s, run[0].mReady));
      assert pins[1..] == FrontRun(rules, s', run[1..]);
    }
  }

  /** In every reachable state the two layer-4 stages agree on readiness, valid, first beat and beat, so that
      the join neither drops nor doubles a beat. */
  lemma LockstepAlways(rules: seq<Rule>, s: Pipe, run: seq<Edge>, mReady: bool)
    requires IsReset(s)
    ensures var now := PipeRun(rules, s, run);
      && Lockstep(now)
      && StageReady(now.udp, TableReady(now, mReady))
        == StageReady(now.tcp, TableReady(now, mReady)) == L4Ready(now, mReady)
  {
    assert Inv(s);
    hide IsReset, AcceptedBeats, MatchedBeats, Front, FrontRun, PipeRun, TableReady, NoTcpYet;
    RunIsAChainRun(rules, s, run);
    LockstepKept(PipeRun(rules, s, run), None, TableReady(PipeRun(rules, s, run), mReady));
  }

  /** Everything the five stages find out about a packet, as a function of its first beat alone. */
  function PacketInfo(rules: seq<Rule>, first: Beat): Info {
    var m := Parse(first.data);
    Decided(m, Lookup(rules, m))
  }

  function WithLength(i: Info, n: nat): Info {
    i.(meta := i.meta.(pktLength := n))
  }

  lemma VlanIgnoresLength(d: seq<byte>, m: Metadata, n: nat)
    ensures VlanMeta(d, m.(pktLength := n)) == VlanMeta(d, m).(pktLength := n)
  {
    hide Word16;
  }

  lemma Ipv4IgnoresLength(d: seq<byte>, m: Metadata, n: nat)
    ensures Ipv4Meta(d, m.(pktLength := n)) == Ipv4Meta(d, m).(pktLength := n)
  {
    assert IpOffset(m.(pktLength := n)) == IpOffset(m);
    hide Word32, Lane, ChecksumOk, IpOffset;
  }

  lemma L4IgnoresLength(d: seq<byte>, m: Metadata, n: nat)
    ensures UdpMeta(d, m.(pktLength := n)) == UdpMeta(d, m).(pktLength := n)
    ensures TcpMeta(d, m.(pktLength := n)) == TcpMeta(d, m).(pktLength := n)
  {
    assert L4Offset(m.(pktLength := n)) == L4Offset(m);
    hide Word16, Word32, Lane, L4Offset;
  }

  /** No parser or rule looks at the packet length. */
  lemma LengthIsCarriedAlong(rules: seq<Rule>, b: Beat, n: nat)
    ensures var m := EthernetMeta(b.data, NO_METADATA).(pktLength := n);
      CaptureAll(FrontCaptures(rules), b, NO_INFO.(meta := m)) == WithLength(PacketInfo(rules, b), n)
  {
    hide VlanMeta, Ipv4Meta, UdpMeta, TcpMeta, EthernetMeta, Lookup;
    var d := b.data;
    var m0 := EthernetMeta(d, NO_METADATA);
    var m1 := VlanMeta(d, m0);
    var m2 := Ipv4Meta(d, m1);
    var m3 := UdpMeta(d, m2);
    VlanIgnoresLength(d, m0, n);
    Ipv4IgnoresLength(d, m1, n);
    L4IgnoresLength(d, m2, n);
    L4IgnoresLength(d, m3, n);
    LookupIgnoresLength(rules, TcpMeta(d, m3), n);
    hide CaptureAll;
    CaptureAllOfFour(VLAN_CAPTURE, IPV4_CAPTURE, L4_CAPTURE, MatchCapture(rules), b,
                     NO_INFO.(meta := m0.(pktLength := n)));
  }

  lemma {:induction false} LookupIgnoresLength(rules: seq<Rule>, m: Metadata, n: nat)
    ensures Lookup(rules, m.(pktLength := n)) == Lookup(rules, m)
  {
    if rules != [] {
      LookupIgnoresLength(rules[1..], m, n);
    }
  }

  lemma CaptureAllOfFour(f: Capture, g: Capture, h: Capture, k: Capture, b: Beat, i: Info)
    ensures CaptureAll([f, g, h, k], b, i) == k(b, h(b, g(b, f(b, i))))
  {
    CaptureCons(f, [g, h, k], b, i);
    CaptureCons(g, [h, k], b, f(b, i));
    CaptureCons(h, [k], b, g(b, f(b, i)));
    CaptureCons(k, [], b, h(b, g(b, f(b, i))));
    assert [f, g, h, k] == [f] + [g, h, k];
  }

  lemma CaptureCons(f: Capture, fs: seq<Capture>, b: Beat, i: Info)
    ensures CaptureAll([f] + fs, b, i) == CaptureAll(fs, b, f(b, i))
  {
    assert ([f] + fs)[1..] == fs;
  }

  /** The accepted tokens are the offered beats with empty side information. */
  lemma {:induction false} AcceptedAreBare(rules: seq<Rule>, s: Pipe, run: seq<Edge>)
    ensures forall x <- AcceptedBeats(rules, s, run) :: x.info == NO_INFO
    decreases |run|
  {
    hide PipeNext, EthReady;
    if run != [] {
      AcceptedAreBare(rules, PipeNext(rules, s, run[0].x, run[0].mReady), run[1..]);
    }
  }

  /** The stream semantics of the front: each beat unchanged, with the metadata, class, drop flag and
      modifier orders of its own packet's first beat. */
  lemma FrontStream(rules: seq<Rule>, s: Pipe, xs: seq<Token>, i: nat)
    requires IsReset(s) && i < |xs| && forall x <- xs :: x.info == NO_INFO
    ensures var h := Head(xs, i);
      StreamThrough(FrontSteps(rules), Front(s), xs)[i]
      == Token(xs[i].beat, WithLength(PacketInfo(rules, xs[h].beat), LengthSeen(xs, h)))
  {
    hide PacketInfo, WithLength, CaptureSteps, CaptureAll, FrontCaptures, LengthSeen, EthernetMeta, Stream,
      StreamThrough;
    var ys := Stream(ETHERNET_STEP, s.eth.tracker, xs);
    var h := Head(xs, i);
    EthernetKeepsHeads(s.eth.tracker, xs, i);
    assert xs[h] in xs;
    FrontUnfolds(rules, s, xs);
    assert BetweenPackets(Front(s)[1..]);
    CapturesCompose(FrontCaptures(rules), Front(s)[1..], ys, i);
    LengthIsCarriedAlong(rules, xs[h].beat, LengthSeen(xs, h));
  }

  lemma FrontUnfolds(rules: seq<Rule>, s: Pipe, xs: seq<Token>)
    ensures StreamThrough(FrontSteps(rules), Front(s), xs)
      == StreamThrough(CaptureSteps(FrontCaptures(rules)), Front(s)[1..], Stream(ETHERNET_STEP, s.eth.tracker, xs))
  {
    assert FrontSteps(rules)[1..] == CaptureSteps(FrontCaptures(rules));
  }

  lemma EthernetKeepsHeads(k: Tracker, xs: seq<Token>, i: nat)
    requires k.first && k.length == 0 && i < |xs|
    ensures var ys, h := Stream(ETHERNET_STEP, k, xs), Head(xs, i);
      && Head(ys, i) == h && ys[i].beat == xs[i].beat && ys[h].beat == xs[h].beat
      && ys[h].info
        == xs[h].info.(meta := EthernetMeta(xs[h].beat.data, xs[h].info.meta).(pktLength := LengthSeen(xs, h)))
  {
    var ys := Stream(ETHERNET_STEP, k, xs);
    hide EthernetMeta, LengthSeen, Stream;
    forall j | 0 <= j < |xs| ensures ys[j].beat == xs[j].beat {
      EthernetStream(k, xs, j);
    }
    SameHeads(xs, ys, |xs|, i);
    HeadOfHead(xs, i);
    EthernetStream(k, xs, Head(xs, i));
  }

  /** Latency insensitivity of the parsing pipeline: in every run from reset, under every pattern of
      input gaps and output stalls, what has left the match stage is the accepted beats in order,
      unchanged, each with the metadata and modifier orders that are a function of the first beat of
      its own packet, but for the packet length, which is the one the Ethernet stage had counted. */
  lemma PipelineIsLatencyInsensitive(rules: seq<Rule>, s: Pipe, run: seq<Edge>, i: nat)
    requires IsReset(s) && i < |MatchedBeats(rules, s, run)|
    ensures i < |AcceptedBeats(rules, s, run)|
    ensures var xs := AcceptedBeats(rules, s, run);
      var h := Head(xs, i);
      MatchedBeats(rules, s, run)[i]
      == Token(xs[i].beat, WithLength(PacketInfo(rules, xs[h].beat), LengthSeen(xs, h)))
  {
    hide Accepted, Emitted, StreamThrough, FrontRun, AcceptedBeats, MatchedBeats, PacketInfo, WithLength,
      LengthSeen, Run, FrontSteps;
    RunIsAChainRun(rules, s, run);
    var xs := AcceptedBeats(rules, s, run);
    LatencyInsensitive(FrontSteps(rules), Front(s), FrontRun(rules, s, run));
    assert |MatchedBeats(rules, s, run)| <= |xs|;
    AcceptedAreBare(rules, s, run);
    FrontStream(rules, s, xs, i);
  }

  /** In every run each beat that has left the match stage carries the parse of its packet's first beat and what
      the first rule that matches it asks for: class, drop flag, action and operands.  Without a matching rule it
      is marked as dropped, in class 0 and without orders. */
  lemma MatchedBeatsObeyTheTable(rules: seq<Rule>, s: Pipe, run: seq<Edge>, i: nat)
    requires IsReset(s) && i < |MatchedBeats(rules, s, run)|
    ensures i < |AcceptedBeats(rules, s, run)|
    ensures var xs, x := AcceptedBeats(rules, s, run), MatchedBeats(rules, s, run)[i];
      var m := Parse(xs[Head(xs, i)].beat.data);
      && x.beat == xs[i].beat
      && x.info.meta.(classId := 0, drop := false, pktLength := 0) == m
      && (forall j: nat :: IsFirstMatch(rules, m, j) ==>
            && x.info.meta.drop == (rules[j].action == Drop) && x.info.meta.classId == rules[j].classId
            && x.info.action == rules[j].modAction && x.info.modData == rules[j].modData)
      && ((forall r <- rules :: !Matches(r, m)) ==>
            x.info.meta.drop && x.info.meta.classId == 0 && x.info.action == Nop && x.info.modData == NO_MOD_DATA)
  {
    hide IsReset, MatchedBeats, AcceptedBeats, Parse, LengthSeen, Matches, Lookup, Head, IsFirstMatch;
    PipelineIsLatencyInsensitive(rules, s, run, i);
    var xs := AcceptedBeats(rules, s, run);
    var m := Parse(xs[Head(xs, i)].beat.data);
    ParseLeavesVerdictOpen(xs[Head(xs, i)].beat.data);
    LookupMissesExactlyWhen(rules, m);
    forall j: nat | IsFirstMatch(rules, m, j) ensures j < |rules| && Lookup(rules, m) == VerdictOf(rules[j]) {
      FirstMatchIsFound(rules, m, j);
    }
  }

  lemma FirstMatchIsFound(rules: seq<Rule>, m: Metadata, j: nat)
    requires IsFirstMatch(rules, m, j)
    ensures j < |rules| && Lookup(rules, m) == VerdictOf(rules[j])
  {
    LookupIsFirstMatch(rules, m, j);
  }

  lemma ParseLeavesVerdictOpen(d: seq<byte>)
    ensures Parse(d).classId == 0 && !Parse(d).drop && Parse(d).pktLength == 0
  {
    hide Word16, Word32, Mac, Lane, ChecksumOk, L4Offset, IpOffset;
  }

  /** Two runs that accept the same beats agree on everything that both have sent on. */
  lemma StallsMakeNoDifference(rules: seq<Rule>, s: Pipe, run: seq<Edge>, s': Pipe, run': seq<Edge>, i: nat)
    requires IsReset(s) && IsReset(s') && AcceptedBeats(rules, s, run) == AcceptedBeats(rules, s', run')
    requires i < |MatchedBeats(rules, s, run)| && i < |MatchedBeats(rules, s', run')|
    ensures MatchedBeats(rules, s, run)[i] == MatchedBeats(rules, s', run')[i]
  {
    PipelineIsLatencyInsensitive(rules, s, run, i);
    PipelineIsLatencyInsensitive(rules, s', run', i);
  }

  /** In every run the packet length that leaves the match stage with the last beat of a packet is the number
      of the packet's enabled lanes exactly when the lanes counted wrongly, or not at all, cancel. */
  lemma MatchedLengthIsRightExactlyWhen(rules: seq<Rule>, s: Pipe, run: seq<Edge>, e: nat)
    requires IsReset(s) && e < |MatchedBeats(rules, s, run)|
    ensures e < |AcceptedBeats(rules, s, run)|
    ensures var xs, m := AcceptedBeats(rules, s, run), MatchedBeats(rules, s, run)[e].info.meta;
      xs[e].beat.last ==>
        (m.pktLength == Low16(KeepSum(xs, Head(xs, e), e + 1)) <==> LanesCancel(xs, Head(xs, e), e))
  {
    hide IsReset, MatchedBeats, AcceptedBeats, Head, LengthSeen, LanesCancel, KeepSum, Low16, PacketInfo;
    PipelineIsLatencyInsensitive(rules, s, run, e);
    AcceptedAreBare(rules, s, run);
    var xs := AcceptedBeats(rules, s, run);
    if xs[e].beat.last {
      assert xs[Head(xs, e)] in xs;
      LengthSeenIsRightExactlyWhen(xs, Head(xs, e), e);
    }
  }

  // ---------------------------------------------------------------------------
  // All eight stages, seen through a view of the beats that the modifier respects
  // ---------------------------------------------------------------------------

  /** Orders that the match table can give. */
  ghost predicate FromTable(rules: seq<Rule>, i: Info) {
    exists m :: i == Decided(m, Lookup(rules, m))
  }

  ghost predicate Respected<Y>(rules: seq<Rule>, view: Beat -> Y) {
    forall b, i :: FromTable(rules, i) ==> view(Modified(b, i)) == view(b)
  }

  /** The modifier is only ever given orders from the table. */
  ghost predicate OrdersFromTable(rules: seq<Rule>, s: Stage<Tracker, Token>) {
    && (s.slot.Some? ==> s.slot.value.info == s.tracker.info)
    && (s.slot.Some? || !s.tracker.first ==> FromTable(rules, s.tracker.info))
  }

  ghost predicate FullInv(rules: seq<Rule>, s: Pipe) {
    Inv(s) && OrdersFromTable(rules, s.table)
  }

  lemma FullInvKept(rules: seq<Rule>, s: Pipe, x: Option<Beat>, mReady: bool)
    requires FullInv(rules, s)
    ensures FullInv(rules, PipeNext(rules, s, x, mReady))
  {
    InvKept(rules, s, x, mReady);
    TableKept(rules, s.table, JoinSlot(s.udp, s.tcp), ModifierReady(s, mReady));
    hide Inv, StageNext, OrdersFromTable, JoinSlot, ModifierReady, StageReady;
  }

  lemma TableKept(rules: seq<Rule>, s: Stage<Tracker, Token>, x: Option<Token>, mReady: bool)
    requires OrdersFromTable(rules, s)
    ensures OrdersFromTable(rules, StageNext(CaptureStep(MatchCapture(rules)), s, x, mReady))
  {
    hide Lookup, Decided;
    if x.Some? {
      var m := x.value.info.meta;
      assert Decided(m, Lookup(rules, m)) == MatchCapture(rules)(x.value.beat, x.value.info);
    }
  }

  function View<Y>(view: Beat -> Y, x: Option<Beat>): Option<Y> {
    if x.Some? then Some(view(x.value)) else None
  }

  function TokenView<Y>(view: Beat -> Y, x: Option<Token>): Option<Y> {
    if x.Some? then Some(view(x.value.beat)) else None
  }

  function Seen<Y>(view: Beat -> Y, s: Stage<Tracker, Token>): Stage<(), Y> {
    Stage((), TokenView(view, s.slot))
  }

  /** The eight slots. */
  function Slots<Y>(view: Beat -> Y, s: Pipe): (c: seq<Stage<(), Y>>)
    ensures |c| == 8
  {
    [Seen(view, s.eth), Seen(view, s.vlan), Seen(view, s.ip), Seen(view, Joined(s.udp, s.tcp)), Seen(view, s.table),
     Stage((), View(view, s.modifier.slot)), Stage((), View(view, s.stats.slot)), Stage((), View(view, s.flow.slot))]
  }

  function PassSteps<Y>(n: nat): (fs: seq<StepFn<(), Y>>)
    ensures |fs| == n
  {
    if n == 0 then [] else [PassStep<Y>()] + PassSteps(n - 1)
  }

  lemma {:induction false} PassStepsPass<Y(!new)>(n: nat)
    ensures PassThrough(PassSteps<Y>(n))
  {
    if n > 0 {
      PassStepsPass<Y>(n - 1);
    }
  }

  lemma CaptureSeen<Y>(f: Capture, view: Beat -> Y, s: Stage<Tracker, Token>, x: Option<Token>, mReady: bool)
    ensures Seen(view, StageNext(CaptureStep(f), s, x, mReady))
      == StageNext(PassStep<Y>(), Seen(view, s), TokenView(view, x), mReady)
    ensures StageReady(s, mReady) == StageReady(Seen(view, s), mReady)
  {
  }

  lemma EthernetSeen<Y>(view: Beat -> Y, s: Stage<Tracker, Token>, x: Option<Beat>, mReady: bool)
    ensures Seen(view, StageNext(ETHERNET_STEP, s, Incoming(x), mReady))
      == StageNext(PassStep<Y>(), Seen(view, s), View(view, x), mReady)
    ensures StageReady(s, mReady) == StageReady(Seen(view, s), mReady)
  {
  }

  lemma ModifierSeen<Y>(rules: seq<Rule>, view: Beat -> Y, s: ModStage, up: Stage<Tracker, Token>, mReady: bool)
    requires Respected(rules, view) && OrdersFromTable(rules, up)
    ensures var before: Stage<(), Y> := Stage((), View(view, s.slot));
      && Stage((), View(view, ModNext(s, up.slot, mReady).slot))
        == StageNext(PassStep<Y>(), before, TokenView(view, up.slot), mReady)
      && ModReady(s, mReady) == StageReady(before, mReady)
  {
    hide Modified, FromTable;
  }

  lemma RegisterSeen<Y>(view: Beat -> Y, s: Stage<(), Beat>, x: Option<Beat>, mReady: bool)
    ensures var before: Stage<(), Y> := Stage((), View(view, s.slot));
      && Stage((), View(view, StageNext(PassStep<Beat>(), s, x, mReady).slot))
        == StageNext(PassStep<Y>(), before, View(view, x), mReady)
      && StageReady(s, mReady) == StageReady(before, mReady)
  {
  }

  /** One edge of the pipeline, seen through the view, is one edge of a chain of eight pass-through stages. */
  lemma PipelineIsAChain<Y>(rules: seq<Rule>, view: Beat -> Y, s: Pipe, x: Option<Beat>, mReady: bool)
    requires FullInv(rules, s) && Respected(rules, view)
    ensures Slots(view, PipeNext(rules, s, x, mReady)) == Next(PassSteps<Y>(8), Slots(view, s), View(view, x), mReady)
    ensures EthReady(s, mReady) == Ready(Slots(view, s), mReady)
  {
    hide StageReady, ModReady, StageNext, ModNext, CaptureStep, Ready, Next, PassSteps, Inv, OrdersFromTable,
      Respected, Joined, JoinSlot, Incoming, View, TokenView;
    var c := Slots(view, s);
    var l4 := Joined(s.udp, s.tcp);
    ForkJoin(s, mReady);
    EthernetSeen(view, s.eth, x, VlanReady(s, mReady));
    CaptureSeen(VLAN_CAPTURE, view, s.vlan, s.eth.slot, IpReady(s, mReady));
    CaptureSeen(IPV4_CAPTURE, view, s.ip, s.vlan.slot, L4Ready(s, mReady));
    CaptureSeen(L4_CAPTURE, view, l4, s.ip.slot, TableReady(s, mReady));
    CaptureSeen(MatchCapture(rules), view, s.table, JoinSlot(s.udp, s.tcp), ModifierReady(s, mReady));
    ModifierSeen(rules, view, s.modifier, s.table, StatsReady(s, mReady));
    RegisterSeen(view, s.stats, s.modifier.slot, FlowReady(s, mReady));
    RegisterSeen(view, s.flow, s.stats.slot, mReady);
    NextOfEight(c[0], c[1], c[2], c[3], c[4], c[5], c[6], c[7], View(view, x), mReady);
  }

  lemma ForkJoin(s: Pipe, mReady: bool)
    requires Inv(s)
    ensures L4Ready(s, mReady) == StageReady(Joined(s.udp, s.tcp), TableReady(s, mReady))
    ensures Joined(s.udp, s.tcp).slot == JoinSlot(s.udp, s.tcp)
    ensures Joined(StageNext(CaptureStep(UDP_CAPTURE), s.udp, s.ip.slot, TableReady(s, mReady)),
                   StageNext(CaptureStep(TCP_CAPTURE), s.tcp, s.ip.slot, TableReady(s, mReady)))
      == StageNext(CaptureStep(L4_CAPTURE), Joined(s.udp, s.tcp), s.ip.slot, TableReady(s, mReady))
  {
    ForkJoinIsOneStage(s, mReady);
    hide StageNext, JoinSlot;
  }

  lemma PassCons<Y>(n: nat, a: Stage<(), Y>, c: seq<Stage<(), Y>>, x: Option<Y>, mReady: bool)
    requires n == |c|
    ensures Next(PassSteps<Y>(n + 1), [a] + c, x, mReady)
      == [StageNext(PassStep<Y>(), a, x, Ready(c, mReady))] + Next(PassSteps<Y>(n), c, a.slot, mReady)
    ensures Ready([a] + c, mReady) == StageReady(a, Ready(c, mReady))
  {
    NextCons(PassStep<Y>(), PassSteps<Y>(n), a, c, x, mReady);
    assert ([a] + c)[1..] == c;
    hide Next, StageNext, StageReady;
  }

  lemma NextOfFour<Y>(n: nat, a: Stage<(), Y>, b: Stage<(), Y>, c: Stage<(), Y>, d: Stage<(), Y>,
                      rest: seq<Stage<(), Y>>, x: Option<Y>, mReady: bool)
    requires n == |rest|
    ensures var rd := Ready(rest, mReady);
      var rc := StageReady(d, rd);
      var rb := StageReady(c, rc);
      var ra := StageReady(b, rb);
      && Ready([a, b, c, d] + rest, mReady) == StageReady(a, ra)
      && Next(PassSteps<Y>(n + 4), [a, b, c, d] + rest, x, mReady) ==
        [StageNext(PassStep<Y>(), a, x, ra), StageNext(PassStep<Y>(), b, a.slot, rb),
         StageNext(PassStep<Y>(), c, b.slot, rc), StageNext(PassStep<Y>(), d, c.slot, rd)]
        + Next(PassSteps<Y>(n), rest, d.slot, mReady)
  {
    hide StageReady, StageNext, Next, Ready, PassSteps;
    var c3 := [d] + rest;
    var c2 := [c] + c3;
    var c1 := [b] + c2;
    assert [a, b, c, d] + rest == [a] + c1;
    PassCons(n + 3, a, c1, x, mReady);
    PassCons(n + 2, b, c2, a.slot, mReady);
    PassCons(n + 1, c, c3, b.slot, mReady);
    PassCons(n, d, rest, c.slot, mReady);
  }

  lemma NextOfEight<Y>(
      a: Stage<(), Y>, b: Stage<(), Y>, c: Stage<(), Y>, d: Stage<(), Y>,
      e: Stage<(), Y>, f: Stage<(), Y>, g: Stage<(), Y>, h: Stage<(), Y>, x: Option<Y>, mReady: bool)
    ensures var rg := StageReady(h, mReady);
      var rf := StageReady(g, rg);
      var re := StageReady(f, rf);
      var rd := StageReady(e, re);
      var rc := StageReady(d, rd);
      var rb := StageReady(c, rc);
      var ra := StageReady(b, rb);
      && Ready([a, b, c, d, e, f, g, h], mReady) == StageReady(a, ra)
      && Next(PassSteps<Y>(8), [a, b, c, d, e, f, g, h], x, mReady) ==
        [StageNext(PassStep<Y>(), a, x, ra), StageNext(PassStep<Y>(), b, a.slot, rb),
         StageNext(PassStep<Y>(), c, b.slot, rc), StageNext(PassStep<Y>(), d, c.slot, rd),
         StageNext(PassStep<Y>(), e, d.slot, re), StageNext(PassStep<Y>(), f, e.slot, rf),
         StageNext(PassStep<Y>(), g, f.slot, rg), StageNext(PassStep<Y>(), h, g.slot, mReady)]
  {
    hide StageReady, StageNext, Next, Ready, PassSteps;
    NextOfFour(4, a, b, c, d, [e, f, g, h], x, mReady);
    assert [a, b, c, d, e, f, g, h] == [a, b, c, d] + [e, f, g, h];
    NextOfFour(0, e, f, g, h, [], d.slot, mReady);
    assert [e, f, g, h] == [e, f, g, h] + [];
    NoStages<Y>(h.slot, mReady);
  }

  lemma NoStages<Y>(x: Option<Y>, mReady: bool)
    ensures Ready<(), Y>([], mReady) == mReady
    ensures Next(PassSteps<Y>(0), [], x, mReady) == []
  {
  }

  // ---------------------------------------------------------------------------
  // Conservation, capacity and latency of the whole pipeline
  // ---------------------------------------------------------------------------

  /** The beats taken from the output port. */
  function DeliveredBeats(rules: seq<Rule>, s: Pipe, run: seq<Edge>): seq<Beat>
    decreases |run|
  {
    if run == [] then []
    else
      (if run[0].mReady then ToSeq(s.flow.slot) else [])
      + DeliveredBeats(rules, PipeNext(rules, s, run[0].x, run[0].mReady), run[1..])
  }

  function MapTokens<Y>(view: Beat -> Y, xs: seq<Token>): (ys: seq<Y>)
    ensures |ys| == |xs|
  {
    if xs == [] then [] else [view(xs[0].beat)] + MapTokens(view, xs[1..])
  }

  function MapBeats<Y>(view: Beat -> Y, xs: seq<Beat>): (ys: seq<Y>)
    ensures |ys| == |xs|
  {
    if xs == [] then [] else [view(xs[0])] + MapBeats(view, xs[1..])
  }

  function ViewRun<Y>(view: Beat -> Y, run: seq<Edge>): (pins: seq<Pins<Y>>)
    ensures |pins| == |run|
    ensures forall t :: 0 <= t < |run| ==> pins[t] == Pins(View(view, run[t].x), run[t].mReady)
  {
    if run == [] then [] else [Pins(View(view, run[0].x), run[0].mReady)] + ViewRun(view, run[1..])
  }

  lemma {:induction false} RunIsAViewRun<Y>(rules: seq<Rule>, view: Beat -> Y, s: Pipe, run: seq<Edge>)
    requires FullInv(rules, s) && Respected(rules, view)
    ensures MapTokens(view, AcceptedBeats(rules, s, run))
      == Accepted(PassSteps<Y>(8), Slots(view, s), ViewRun(view, run))
    ensures MapBeats(view, DeliveredBeats(rules, s, run))
      == Emitted(PassSteps<Y>(8), Slots(view, s), ViewRun(view, run))
    ensures Slots(view, PipeRun(rules, s, run)) == Run(PassSteps<Y>(8), Slots(view, s), ViewRun(view, run))
    ensures FullInv(rules, PipeRun(rules, s, run))
    decreases |run|
  {
    hide PipeNext, FullInv, Respected, Slots, PassSteps, Next, Ready, EthReady;
    if run != [] {
      var x, mReady := run[0].x, run[0].mReady;
      var s' := PipeNext(rules, s, x, mReady);
      FullInvKept(rules, s, x, mReady);
      PipelineIsAChain(rules, view, s, x, mReady);
      RunIsAViewRun(rules, view, s', run[1..]);
      var pins := ViewRun(view, run);
      assert pins[0] == Pins(View(view, x), mReady) && pins[1..] == ViewRun(view, run[1..]);
      MapTokensAdd(view, if EthReady(s, mReady) then ToSeq(Incoming(x)) else [], AcceptedBeats(rules, s', run[1..]));
      MapBeatsAdd(view, if mReady then ToSeq(s.flow.slot) else [], DeliveredBeats(rules, s', run[1..]));
      EntersAndLeaves(view, s, x, mReady);
    }
  }

  lemma EntersAndLeaves<Y>(view: Beat -> Y, s: Pipe, x: Option<Beat>, mReady: bool)
    requires EthReady(s, mReady) == Ready(Slots(view, s), mReady)
    ensures MapTokens(view, if EthReady(s, mReady) then ToSeq(Incoming(x)) else [])
      == Enters(Slots(view, s), View(view, x), mReady)
    ensures MapBeats(view, if mReady then ToSeq(s.flow.slot) else []) == Leaves(Slots(view, s), View(view, x), mReady)
  {
    hide EthReady, Ready;
  }

  lemma Reassociate<Y>(a: seq<Y>, b: seq<Y>, c: seq<Y>)
    ensures a + (b + c) == (a + b) + c
  {
  }

  lemma {:induction false} MapTokensAdd<Y>(view: Beat -> Y, a: seq<Token>, b: seq<Token>)
    ensures MapTokens(view, a + b) == MapTokens(view, a) + MapTokens(view, b)
  {
    if a == [] {
      assert a + b == b;
    } else {
      MapTokensAdd(view, a[1..], b);
      assert (a + b)[1..] == a[1..] + b && (a + b)[0] == a[0];
      Reassociate([view(a[0].beat)], MapTokens(view, a[1..]), MapTokens(view, b));
    }
  }

  lemma {:induction false} MapBeatsAdd<Y>(view: Beat -> Y, a: seq<Beat>, b: seq<Beat>)
    ensures MapBeats(view, a + b) == MapBeats(view, a) + MapBeats(view, b)
  {
    if a == [] {
      assert a + b == b;
    } else {
      MapBeatsAdd(view, a[1..], b);
      assert (a + b)[1..] == a[1..] + b && (a + b)[0] == a[0];
      Reassociate([view(a[0])], MapBeats(view, a[1..]), MapBeats(view, b));
    }
  }

  lemma ResetIsEmpty<Y>(rules: seq<Rule>, view: Beat -> Y, s: Pipe)
    requires IsReset(s)
    ensures FullInv(rules, s) && AllEmpty(Slots(view, s)) && InFlight(Slots(view, s)) == []
  {
    hide FromTable;
    var c := Slots(view, s);
    assert AllEmpty(c);
    EmptyHoldsNothing(c);
  }

  lemma {:induction false} EmptyHoldsNothing<K, X>(c: seq<Stage<K, X>>)
    requires AllEmpty(c)
    ensures InFlight(c) == []
  {
    if c != [] {
      assert forall i :: 0 <= i < |c| - 1 ==> c[1..][i] == c[i + 1];
      EmptyHoldsNothing(c[1..]);
    }
  }

  /** No loss under backpressure: whatever the gaps and stalls, the accepted beats are, as far as the
      view can tell, the delivered beats followed by at most eight beats in flight, in order. */
  lemma PipelineConservation<Y(!new)>(rules: seq<Rule>, view: Beat -> Y, s: Pipe, run: seq<Edge>)
    requires IsReset(s) && Respected(rules, view)
    ensures MapTokens(view, AcceptedBeats(rules, s, run))
      == MapBeats(view, DeliveredBeats(rules, s, run)) + InFlight(Slots(view, PipeRun(rules, s, run)))
    ensures |InFlight(Slots(view, PipeRun(rules, s, run)))| <= 8
  {
    hide Slots, Accepted, Emitted, MapTokens, MapBeats, AcceptedBeats, DeliveredBeats, PipeRun, Run, InFlight, IsReset;
    ResetIsEmpty(rules, view, s);
    RunIsAViewRun(rules, view, s, run);
    PassStepsPass<Y>(8);
    PassConservation(PassSteps<Y>(8), Slots(view, s), ViewRun(view, run));
    assert [] + Accepted(PassSteps<Y>(8), Slots(view, s), ViewRun(view, run))
      == Accepted(PassSteps<Y>(8), Slots(view, s), ViewRun(view, run));
  }

  const LAST_MARK: Beat -> bool := (b: Beat) => b.last

  /** The end-of-packet marks are a view the modifier always respects. */
  lemma LastIsRespected(rules: seq<Rule>)
    ensures Respected(rules, LAST_MARK)
  {
    hide Overlay, Pushed, Popped, FromTable;
  }

  /** Whatever the rules, no end of packet is lost, added or moved, and no drop flag removes a packet. */
  lemma NoPacketIsLost(rules: seq<Rule>, s: Pipe, run: seq<Edge>)
    requires IsReset(s)
    ensures MapTokens(LAST_MARK, AcceptedBeats(rules, s, run))
      == MapBeats(LAST_MARK, DeliveredBeats(rules, s, run)) + InFlight(Slots(LAST_MARK, PipeRun(rules, s, run)))
    ensures |DeliveredBeats(rules, s, run)| <= |AcceptedBeats(rules, s, run)| <= |DeliveredBeats(rules, s, run)| + 8
  {
    hide MapTokens, MapBeats, Slots, PipeRun, DeliveredBeats, AcceptedBeats, InFlight, IsReset, Respected;
    LastIsRespected(rules);
    PipelineConservation(rules, LAST_MARK, s, run);
  }

  /** s_tready is high exactly when m_tready is high or one of the eight slots is free. */
  lemma InputReadyExactlyWhen<Y(!new)>(rules: seq<Rule>, view: Beat -> Y, s: Pipe, run: seq<Edge>, mReady: bool)
    requires IsReset(s) && Respected(rules, view)
    ensures var now := PipeRun(rules, s, run);
      EthReady(now, mReady) <==> mReady || exists i :: 0 <= i < 8 && Slots(view, now)[i].slot.None?
  {
    hide Slots, IsReset, EthReady, PipeRun, AcceptedBeats, DeliveredBeats;
    var now := PipeRun(rules, s, run);
    ResetIsEmpty(rules, view, s);
    RunIsAViewRun(rules, view, s, run);
    PipelineIsAChain(rules, view, now, None, mReady);
    ReadyExactlyWhen(Slots(view, now), mReady);
  }

  lemma AlwaysTaken<Y>(view: Beat -> Y, run: seq<Edge>)
    requires forall e <- run :: e.mReady
    ensures forall p <- ViewRun(view, run) :: p.mReady
  {
    var pins := ViewRun(view, run);
    forall p | p in pins ensures p.mReady {
      var t :| 0 <= t < |pins| && pins[t] == p;
      assert run[t] in run;
    }
  }

  /** With m_tready always high slot i shows at every edge what the input offered i + 1 edges before. */
  lemma SlotAfter<Y(!new)>(rules: seq<Rule>, view: Beat -> Y, s: Pipe, run: seq<Edge>, i: nat)
    requires IsReset(s) && Respected(rules, view) && i < 8 && forall e <- run :: e.mReady
    ensures Slots(view, PipeRun(rules, s, run))[i].slot
      == if i < |run| then View(view, run[|run| - 1 - i].x) else None
  {
    hide IsReset, PipeRun, AcceptedBeats, DeliveredBeats, Run, PassSteps, PassThrough, Accepted, Emitted, InFlight,
      Slots, Respected, FullInv;
    var c, pins := Slots(view, s), ViewRun(view, run);
    ResetIsEmpty(rules, view, s);
    assert Slots(view, PipeRun(rules, s, run)) == Run(PassSteps<Y>(8), c, pins) by {
      RunIsAViewRun(rules, view, s, run);
    }
    PassStepsPass<Y>(8);
    AlwaysTaken(view, run);
    assert c[if i < |run| then 0 else i - |run|].slot.None?;
    hide AllEmpty, ViewRun, View;
    ExactLatency(PassSteps<Y>(8), c, pins, i);
  }

  /** So the output offers what the input offered eight edges before: a beat accepted at edge t leaves at
      edge t + 8. */
  lemma LatencyIsEight<Y(!new)>(rules: seq<Rule>, view: Beat -> Y, s: Pipe, run: seq<Edge>)
    requires IsReset(s) && Respected(rules, view) && forall e <- run :: e.mReady
    ensures View(view, PipeRun(rules, s, run).flow.slot) == if |run| >= 8 then View(view, run[|run| - 8].x) else None
  {
    hide IsReset, PipeRun, Slots, Respected;
    SlotAfter(rules, view, s, run, 7);
    LastSlot(view, PipeRun(rules, s, run));
  }

  lemma LastSlot<Y>(view: Beat -> Y, s: Pipe)
    ensures Slots(view, s)[7].slot == View(view, s.flow.slot)
  {
  }

  // ---------------------------------------------------------------------------
  // What the modifier does to the data, in runs of the whole pipeline
  // ---------------------------------------------------------------------------

  /** The state before edge t. */
  function PipeAt(rules: seq<Rule>, s: Pipe, run: seq<Edge>, t: nat): Pipe
    requires t <= |run|
  {
    PipeRun(rules, s, run[..t])
  }

  /** One more edge at the end of a run. */
  lemma {:induction false} LastEdge(rules: seq<Rule>, s: Pipe, run: seq<Edge>, e: Edge)
    ensures var now := PipeRun(rules, s, run);
      && PipeRun(rules, s, run + [e]) == PipeNext(rules, now, e.x, e.mReady)
      && AcceptedBeats(rules, s, run + [e])
        == AcceptedBeats(rules, s, run) + (if EthReady(now, e.mReady) then ToSeq(Incoming(e.x)) else [])
      && MatchedBeats(rules, s, run + [e])
        == MatchedBeats(rules, s, run) + (if ModifierReady(now, e.mReady) then ToSeq(now.table.slot) else [])
      && DeliveredBeats(rules, s, run + [e])
        == DeliveredBeats(rules, s, run) + (if e.mReady then ToSeq(now.flow.slot) else [])
    decreases |run|
  {
    hide PipeNext, EthReady, ModifierReady, Incoming, ToSeq;
    var longer := run + [e];
    if run == [] {
      assert longer[1..] == [];
    } else {
      assert longer[0] == run[0] && longer[1..] == run[1..] + [e];
      LastEdge(rules, PipeNext(rules, s, run[0].x, run[0].mReady), run[1..], e);
    }
  }

  lemma PrefixGrows(run: seq<Edge>, t: nat)
    requires t < |run|
    ensures run[..t + 1] == run[..t] + [run[t]]
  {
  }

  /** What the modifier sees at each edge: the match stage's output, and the ready level behind it. */
  function ModRun(rules: seq<Rule>, s: Pipe, run: seq<Edge>): (pins: seq<ModPins>)
    ensures |pins| == |run|
    ensures forall t :: 0 <= t < |run| ==>
      pins[t] == ModPins(PipeAt(rules, s, run, t).table.slot, StatsReady(PipeAt(rules, s, run, t), run[t].mReady))
  {
    seq(|run|, t requires 0 <= t < |run| =>
      ModPins(PipeAt(rules, s, run, t).table.slot, StatsReady(PipeAt(rules, s, run, t), run[t].mReady)))
  }

  /** The slots behind the modifier's input, the one next to the output first. */
  function Behind(s: Pipe): seq<Beat> {
    ToSeq(s.flow.slot) + ToSeq(s.stats.slot) + ToSeq(s.modifier.slot)
  }

  lemma BehindStep(rules: seq<Rule>, s: Pipe, x: Option<Beat>, mReady: bool)
    ensures Behind(s)
      + (if s.table.slot.Some? && ModifierReady(s, mReady) then [Rewritten(s.modifier, s.table.slot.value)] else [])
      == (if mReady then ToSeq(s.flow.slot) else []) + Behind(PipeNext(rules, s, x, mReady))
  {
    PassBalance(s.flow, s.stats.slot, mReady);
    PassBalance(s.stats, s.modifier.slot, FlowReady(s, mReady));
    ModifierBalance(s.modifier, s.table.slot, StatsReady(s, mReady));
    var s' := PipeNext(rules, s, x, mReady);
    hide StageNext, ModNext, ModReady, StageReady, Rewritten, CaptureStep, PassStep, JoinSlot, ToSeq;
    ThreeInARow(
      ToSeq(s.flow.slot), ToSeq(s.stats.slot), ToSeq(s.modifier.slot),
      if s.table.slot.Some? && ModifierReady(s, mReady) then [Rewritten(s.modifier, s.table.slot.value)] else [],
      if StatsReady(s, mReady) then ToSeq(s.modifier.slot) else [],
      if FlowReady(s, mReady) then ToSeq(s.stats.slot) else [],
      if mReady then ToSeq(s.flow.slot) else [],
      ToSeq(s'.flow.slot), ToSeq(s'.stats.slot), ToSeq(s'.modifier.slot));
  }

  lemma PassBalance<X>(s: Stage<(), X>, x: Option<X>, mReady: bool)
    ensures ToSeq(s.slot) + (if StageReady(s, mReady) then ToSeq(x) else [])
      == (if mReady then ToSeq(s.slot) else []) + ToSeq(StageNext(PassStep<X>(), s, x, mReady).slot)
  {
  }

  lemma ModifierBalance(s: ModStage, x: Option<Token>, mReady: bool)
    ensures ToSeq(s.slot) + (if x.Some? && ModReady(s, mReady) then [Rewritten(s, x.value)] else [])
      == (if mReady then ToSeq(s.slot) else []) + ToSeq(ModNext(s, x, mReady).slot)
  {
    hide Rewritten;
  }

  /** Three stages in a row: w enters, c passes between the first two, b between the last two, a leaves. */
  lemma ThreeInARow<X>(f: seq<X>, s: seq<X>, m: seq<X>, w: seq<X>, c: seq<X>, b: seq<X>, a: seq<X>,
                       f': seq<X>, s': seq<X>, m': seq<X>)
    requires m + w == c + m' && s + c == b + s' && f + b == a + f'
    ensures (f + s + m) + w == a + (f' + s' + m')
  {
    assert (f + s + m) + w == f + s + (m + w);
    assert f + s + (c + m') == f + (s + c) + m';
    assert f + (b + s') + m' == (f + b) + s' + m';
    assert (a + f') + s' + m' == a + (f' + s' + m');
  }

  /** In a run of the pipeline the modifier is in the state its own run says, and what it has written
      is what was delivered, followed by what is behind it. */
  lemma {:induction false} ModifierInside(rules: seq<Rule>, s: Pipe, run: seq<Edge>, t: nat)
    requires IsReset(s) && t <= |run|
    ensures var pins, now := ModRun(rules, s, run), PipeAt(rules, s, run, t);
      && ModAt(pins, t) == now.modifier
      && Taken(pins, t) == MatchedBeats(rules, s, run[..t])
      && Written(pins, t) == DeliveredBeats(rules, s, run[..t]) + Behind(now)
  {
    hide PipeNext, PipeRun, MatchedBeats, DeliveredBeats, Rewritten, Behind, StatsReady, IsReset;
    var pins, now := ModRun(rules, s, run), PipeAt(rules, s, run, t);
    if t == 0 {
      AtReset(rules, s);
    } else {
      var u := t - 1;
      var before, e := PipeAt(rules, s, run, u), run[u];
      ModifierInside(rules, s, run, u);
      PrefixGrows(run, u);
      LastEdge(rules, s, run[..u], e);
      BehindStep(rules, before, e.x, e.mReady);
      ModifierOfNext(rules, before, e.x, e.mReady);
      Splice(Written(pins, u), DeliveredBeats(rules, s, run[..u]), Behind(before),
        if TakenAt(pins, u) then [Rewritten(before.modifier, before.table.slot.value)] else [],
        if e.mReady then ToSeq(before.flow.slot) else [], Behind(now));
    }
  }

  lemma AtReset(rules: seq<Rule>, s: Pipe)
    requires IsReset(s)
    ensures PipeRun(rules, s, []) == s && s.modifier == MOD_RESET && Behind(s) == []
    ensures MatchedBeats(rules, s, []) == [] && DeliveredBeats(rules, s, []) == []
  {
  }

  lemma ModifierOfNext(rules: seq<Rule>, s: Pipe, x: Option<Beat>, mReady: bool)
    ensures PipeNext(rules, s, x, mReady).modifier == ModNext(s.modifier, s.table.slot, StatsReady(s, mReady))
    ensures ModifierReady(s, mReady) == ModReady(s.modifier, StatsReady(s, mReady))
    ensures !ModifierReady(s, mReady) && s.table.slot.Some? ==> PipeNext(rules, s, x, mReady).table == s.table
  {
    hide CaptureStep, JoinSlot, ModNext, StatsReady, StageNext;
    if !ModifierReady(s, mReady) && s.table.slot.Some? {
      var f, x' := CaptureStep(MatchCapture(rules)), JoinSlot(s.udp, s.tcp);
      assert PipeNext(rules, s, x, mReady).table == StageNext(f, s.table, x', ModifierReady(s, mReady));
      FullSlotHolds(f, s.table, x', false);
    }
  }

  lemma FullSlotHolds<K, X>(f: StepFn<K, X>, s: Stage<K, X>, x: Option<X>, mReady: bool)
    requires s.slot.Some? && !mReady
    ensures StageNext(f, s, x, mReady) == s
  {
  }

  /** The match stage offers a beat until the modifier takes it, so that the runs that the modifier sees
      inside the pipeline are persistent. */
  lemma ModRunIsPersistent(rules: seq<Rule>, s: Pipe, run: seq<Edge>)
    requires IsReset(s)
    ensures Persistent(ModRun(rules, s, run))
  {
    hide PipeNext, PipeRun, IsReset, StatsReady, ModAt;
    var pins := ModRun(rules, s, run);
    forall t: nat | t < |run| && WasStalled(pins, t) ensures pins[t].x == pins[t - 1].x {
      var u := t - 1;
      ModifierInside(rules, s, run, u);
      PrefixGrows(run, u);
      LastEdge(rules, s, run[..u], run[u]);
      ModifierOfNext(rules, PipeAt(rules, s, run, u), run[u].x, run[u].mReady);
    }
  }

  /** For each beat that has left the match stage, whether the modifier kept it waiting. */
  function Waited(rules: seq<Rule>, s: Pipe, run: seq<Edge>): seq<bool> {
    Waits(ModRun(rules, s, run), |run|)
  }

  lemma OutcomeIgnoresLength(b: Beat, i: Info, n: nat, first: bool, waited: bool)
    ensures Outcome(b, WithLength(i, n), first, waited) == Outcome(b, i, first, waited)
  {
    hide Overlay, Pushed, Popped, MacSwapped, TtlDecremented, DscpSetTo, EcnSetTo, Be32, Be48;
  }

  /** The beats that the modifier has worked on, delivered or on their way to the output. */
  function ModifiedBeats(rules: seq<Rule>, s: Pipe, run: seq<Edge>): seq<Beat> {
    DeliveredBeats(rules, s, run) + Behind(PipeRun(rules, s, run))
  }

  lemma ModifiedExactly(rules: seq<Rule>, s: Pipe, run: seq<Edge>, i: nat)
    requires IsReset(s) && i < |ModifiedBeats(rules, s, run)|
    ensures i < |AcceptedBeats(rules, s, run)| && i < |Waited(rules, s, run)|
    ensures var xs := AcceptedBeats(rules, s, run);
      var h := Head(xs, i);
      ModifiedBeats(rules, s, run)[i]
      == Outcome(xs[i].beat, PacketInfo(rules, xs[h].beat), h == i, Waited(rules, s, run)[i])
  {
    hide IsReset, AcceptedBeats, MatchedBeats, DeliveredBeats, Outcome, PacketInfo, WithLength, LengthSeen, Behind,
      Head, Written, Waits, Taken, PipeRun, ModRun, Persistent;
    var pins, xs, ys := ModRun(rules, s, run), AcceptedBeats(rules, s, run), MatchedBeats(rules, s, run);
    assert run[..|run|] == run;
    ModifierInside(rules, s, run, |run|);
    ModRunIsPersistent(rules, s, run);
    WrittenExactly(pins, |run|, i);
    PipelineIsLatencyInsensitive(rules, s, run, i);
    forall j | 0 <= j <= i ensures j < |xs| && ys[j].beat == xs[j].beat {
      PipelineIsLatencyInsensitive(rules, s, run, j);
    }
    SameHeads(ys, xs, i + 1, i);
    var h := Head(xs, i);
    OutcomeIgnoresLength(xs[i].beat, PacketInfo(rules, xs[h].beat), LengthSeen(xs, h), h == i, Waits(pins, |run|)[i]);
  }

  /** Every delivered beat of every run from reset, under any rules, gaps and stalls: the accepted beat,
      rewritten under the orders that its packet's first beat earned if it waited for the modifier and is
      a last beat, or did not wait and is a first beat. */
  lemma DeliveredExactly(rules: seq<Rule>, s: Pipe, run: seq<Edge>, i: nat)
    requires IsReset(s) && i < |DeliveredBeats(rules, s, run)|
    ensures i < |AcceptedBeats(rules, s, run)| && i < |Waited(rules, s, run)|
    ensures var xs := AcceptedBeats(rules, s, run);
      var h := Head(xs, i);
      DeliveredBeats(rules, s, run)[i]
      == Outcome(xs[i].beat, PacketInfo(rules, xs[h].beat), h == i, Waited(rules, s, run)[i])
  {
    hide IsReset, AcceptedBeats, DeliveredBeats, Waited, Outcome, PacketInfo, Behind, Head, PipeRun;
    ModifiedExactly(rules, s, run, i);
  }

  /** What should be delivered for accepted beat i: a first beat rewritten as the rules order, any other as it is. */
  function Intended(rules: seq<Rule>, xs: seq<Token>, i: nat): Beat
    requires i < |xs|
  {
    if Head(xs, i) == i then Modified(xs[i].beat, PacketInfo(rules, xs[i].beat)) else xs[i].beat
  }

  /** The delivered data is wrong exactly for beats that waited for the modifier, are not both or neither
      of first and last, and would be changed by their packet's orders. */
  lemma DeliveredWrongExactlyWhen(rules: seq<Rule>, s: Pipe, run: seq<Edge>, i: nat)
    requires IsReset(s) && i < |DeliveredBeats(rules, s, run)|
    ensures i < |AcceptedBeats(rules, s, run)| && i < |Waited(rules, s, run)|
    ensures var xs := AcceptedBeats(rules, s, run);
      var h := Head(xs, i);
      DeliveredBeats(rules, s, run)[i] != Intended(rules, xs, i) <==>
        && Waited(rules, s, run)[i]
        && xs[i].beat.last != (h == i)
        && Modified(xs[i].beat, PacketInfo(rules, xs[h].beat)) != xs[i].beat
  {
    hide AcceptedBeats, DeliveredBeats, Waited, Modified, PacketInfo, IsReset, Head;
    DeliveredExactly(rules, s, run, i);
  }

  /** With m_tready always high no beat waits, and everything is delivered as intended. */
  lemma NeverStalledIsAsIntended(rules: seq<Rule>, s: Pipe, run: seq<Edge>, i: nat)
    requires IsReset(s) && i < |DeliveredBeats(rules, s, run)| && forall e <- run :: e.mReady
    ensures i < |AcceptedBeats(rules, s, run)|
    ensures DeliveredBeats(rules, s, run)[i] == Intended(rules, AcceptedBeats(rules, s, run), i)
  {
    hide AcceptedBeats, DeliveredBeats, Intended, IsReset, ModRun, PipeRun, Waits, Modified, PacketInfo, Head;
    DeliveredWrongExactlyWhen(rules, s, run, i);
    NoneWaits(rules, s, run, |run|);
    assert Waited(rules, s, run)[i] in Waited(rules, s, run);
  }

  lemma {:induction false} NoneWaits(rules: seq<Rule>, s: Pipe, run: seq<Edge>, t: nat)
    requires t <= |run| && forall e <- run :: e.mReady
    ensures forall w <- Waits(ModRun(rules, s, run), t) :: !w
    ensures !WasStalled(ModRun(rules, s, run), t)
  {
    hide PipeRun, ModAt;
    if t > 0 {
      NoneWaits(rules, s, run, t - 1);
      assert run[t - 1] in run;
      assert StatsReady(PipeAt(rules, s, run, t - 1), true);
    }
  }

  /** A packet whose rule asks for no rewrite leaves bit for bit as it came, whatever the stalls. */
  lemma DataIsUnchanged(rules: seq<Rule>, s: Pipe, run: seq<Edge>, i: nat)
    requires IsReset(s) && i < |DeliveredBeats(rules, s, run)|
    ensures i < |AcceptedBeats(rules, s, run)|
    ensures var xs := AcceptedBeats(rules, s, run);
      PacketInfo(rules, xs[Head(xs, i)].beat).action == Nop ==> DeliveredBeats(rules, s, run)[i] == xs[i].beat
  {
    hide AcceptedBeats, DeliveredBeats, Waited, PacketInfo, IsReset, Head;
    DeliveredExactly(rules, s, run, i);
  }

  // ---------------------------------------------------------------------------
  // Backpressure that reaches the input
  // ---------------------------------------------------------------------------

  /** When s_tready is low the match stage offers a beat and the modifier does not take it. */
  lemma BlockedAtTheTable(s: Pipe, mReady: bool)
    requires !EthReady(s, mReady)
    ensures s.table.slot.Some? && !ModifierReady(s, mReady)
  {
    hide ModifierReady;
  }

  /** If s_tready is low at one edge and m_tready is high at the next, the beat that then leaves the match
      stage has waited for the modifier. */
  lemma BackpressureMakesWait(rules: seq<Rule>, s: Pipe, run: seq<Edge>, t: nat)
    requires IsReset(s) && t + 1 < |run|
    requires !EthReady(PipeAt(rules, s, run, t), run[t].mReady) && run[t + 1].mReady
    ensures var i := |MatchedBeats(rules, s, run[..t])|;
      i < |Waited(rules, s, run)| && Waited(rules, s, run)[i]
  {
    hide PipeNext, PipeRun, IsReset, EthReady, MatchedBeats, DeliveredBeats, Written, ModNext;
    var pins, now, next := ModRun(rules, s, run), PipeAt(rules, s, run, t), PipeAt(rules, s, run, t + 1);
    BlockedAtTheTable(now, run[t].mReady);
    ModifierInside(rules, s, run, t);
    ModifierInside(rules, s, run, t + 1);
    ModifierOfNext(rules, now, run[t].x, run[t].mReady);
    PrefixGrows(run, t);
    LastEdge(rules, s, run[..t], run[t]);
    assert next.table == now.table && StatsReady(next, true);
    assert !TakenAt(pins, t) && TakenAt(pins, t + 1) && WasStalled(pins, t + 1);
    hide TakenAt, WasStalled, ModAt, StatsReady;
    assert Waits(pins, t + 2) == Waits(pins, t + 1) + [true];
    WaitsGrow(pins, t + 2, |run|);
  }

  lemma {:induction false} WaitsGrow(pins: seq<ModPins>, t: nat, u: nat)
    requires t <= u <= |pins|
    ensures Waits(pins, t) <= Waits(pins, u)
  {
    if t < u {
      WaitsGrow(pins, t, u - 1);
    }
  }

  /** As long as nothing has been delivered, a stalled pipeline accepts exactly until it holds eight beats. */
  lemma FullExactlyAtEight(rules: seq<Rule>, s: Pipe, run: seq<Edge>)
    requires IsReset(s) && DeliveredBeats(rules, s, run) == []
    ensures var n, now := |AcceptedBeats(rules, s, run)|, PipeRun(rules, s, run);
      && n <= 8
      && (EthReady(now, false) <==> n < 8)
      && (n == 8 ==> forall i :: 0 <= i < 8 ==> Slots(LAST_MARK, now)[i].slot.Some?)
  {
    hide IsReset, EthReady, Slots, PipeRun, InFlight, AcceptedBeats, DeliveredBeats, Respected, Occupied;
    LastIsRespected(rules);
    NoPacketIsLost(rules, s, run);
    FullExactlyWhen(Slots(LAST_MARK, PipeRun(rules, s, run)));
    InputReadyExactlyWhen(rules, LAST_MARK, s, run, false);
  }

  /** While the output is stalled the first eight beats offered are accepted, and then all slots stay full. */
  lemma {:induction false} FillsUp(rules: seq<Rule>, s: Pipe, run: seq<Edge>, t: nat)
    requires IsReset(s) && t <= |run| && forall j :: 0 <= j < t ==> run[j].x.Some? && !run[j].mReady
    ensures DeliveredBeats(rules, s, run[..t]) == []
    ensures var xs := AcceptedBeats(rules, s, run[..t]);
      |xs| == (if t < 8 then t else 8) && forall j :: 0 <= j < |xs| ==> xs[j].beat == run[j].x.value
  {
    hide PipeNext, IsReset, EthReady, Slots, PipeRun, AcceptedBeats, DeliveredBeats, MatchedBeats, ModifierReady;
    if t > 0 {
      FillsUp(rules, s, run, t - 1);
      FullExactlyAtEight(rules, s, run[..t - 1]);
      PrefixGrows(run, t - 1);
      LastEdge(rules, s, run[..t - 1], run[t - 1]);
    } else {
      StartOfRun(rules, s);
    }
  }

  lemma StartOfRun(rules: seq<Rule>, s: Pipe)
    ensures AcceptedBeats(rules, s, []) == [] && DeliveredBeats(rules, s, []) == []
  {
  }

  /** A taken output moves the occupied slots behind the table on. */
  lemma TakenMovesOn(rules: seq<Rule>, s: Pipe, x: Option<Beat>)
    ensures var s' := PipeNext(rules, s, x, true);
      && s'.flow.slot == s.stats.slot && s'.stats.slot == s.modifier.slot
      && (s.table.slot.Some? ==> s'.modifier.slot.Some?)
  {
    assert FlowReady(s, true) && StatsReady(s, true);
    PassMovesOn(s.flow, s.stats.slot);
    PassMovesOn(s.stats, s.modifier.slot);
    hide StageNext, CaptureStep, JoinSlot, Rewritten, PassStep, FlowReady, StatsReady;
  }

  lemma PassMovesOn<X>(s: Stage<(), X>, x: Option<X>)
    ensures StageNext(PassStep<X>(), s, x, true).slot == x
  {
  }

  /** The four beats that a stalled pipeline holds from the table on leave at the next four edges. */
  lemma FourLeave(rules: seq<Rule>, s: Pipe, run: seq<Edge>, t: nat)
    requires t + 4 <= |run| && forall j :: t <= j < t + 4 ==> run[j].mReady
    requires var now := PipeAt(rules, s, run, t);
      now.flow.slot.Some? && now.stats.slot.Some? && now.modifier.slot.Some? && now.table.slot.Some?
    ensures |DeliveredBeats(rules, s, run[..t + 4])| >= 4
  {
    hide PipeNext, PipeRun, DeliveredBeats, AcceptedBeats, MatchedBeats;
    EdgeTaken(rules, s, run, t);
    EdgeTaken(rules, s, run, t + 1);
    EdgeTaken(rules, s, run, t + 2);
    EdgeTaken(rules, s, run, t + 3);
  }

  lemma EdgeTaken(rules: seq<Rule>, s: Pipe, run: seq<Edge>, t: nat)
    requires t < |run| && run[t].mReady
    ensures var now, next := PipeAt(rules, s, run, t), PipeAt(rules, s, run, t + 1);
      && next.flow.slot == now.stats.slot && next.stats.slot == now.modifier.slot
      && (now.table.slot.Some? ==> next.modifier.slot.Some?)
      && DeliveredBeats(rules, s, run[..t + 1]) == DeliveredBeats(rules, s, run[..t]) + ToSeq(now.flow.slot)
  {
    hide PipeNext, PipeRun, DeliveredBeats, AcceptedBeats, MatchedBeats;
    PrefixGrows(run, t);
    LastEdge(rules, s, run[..t], run[t]);
    TakenMovesOn(rules, PipeAt(rules, s, run, t), run[t].x);
  }

  lemma {:induction false} RunsGrow(rules: seq<Rule>, s: Pipe, run: seq<Edge>, t: nat, u: nat)
    requires t <= u <= |run|
    ensures AcceptedBeats(rules, s, run[..t]) <= AcceptedBeats(rules, s, run[..u])
    ensures DeliveredBeats(rules, s, run[..t]) <= DeliveredBeats(rules, s, run[..u])
  {
    hide AcceptedBeats, DeliveredBeats, PipeRun, Incoming, EthReady;
    if t < u {
      RunsGrow(rules, s, run, t, u - 1);
      PrefixGrows(run, u - 1);
      LastEdge(rules, s, run[..u - 1], run[u - 1]);
    }
  }

  /** Nine offers against a stalled output, and then four edges that take it: the fourth beat has waited
      at the table. */
  lemma FourthBeatWaits(rules: seq<Rule>, s: Pipe, run: seq<Edge>)
    requires IsReset(s) && |run| == 13
    requires forall j :: 0 <= j < 9 ==> run[j].x.Some? && !run[j].mReady
    requires forall j :: 9 <= j < 13 ==> run[j].mReady
    ensures |Waited(rules, s, run)| > 3 && Waited(rules, s, run)[3]
    ensures |AcceptedBeats(rules, s, run)| >= 8 && |DeliveredBeats(rules, s, run)| >= 4
    ensures forall j :: 0 <= j < 8 ==> AcceptedBeats(rules, s, run)[j].beat == run[j].x.value
  {
    hide IsReset, EthReady, PipeRun, AcceptedBeats, DeliveredBeats, MatchedBeats, Waited, ModRun, ModAt, Taken, Written;
    FillsUp(rules, s, run, 8);
    FillsUp(rules, s, run, 9);
    FullExactlyAtEight(rules, s, run[..8]);
    FullExactlyAtEight(rules, s, run[..9]);
    ModifierInside(rules, s, run, 8);
    SlotsShow(PipeAt(rules, s, run, 8));
    SlotsShow(PipeAt(rules, s, run, 9));
    hide Slots;
    assert |MatchedBeats(rules, s, run[..8])| == 3;
    BackpressureMakesWait(rules, s, run, 8);
    FourLeave(rules, s, run, 9);
    RunsGrow(rules, s, run, 8, 13);
    assert run[..13] == run;
  }

  lemma SlotsShow(s: Pipe)
    ensures var c := Slots(LAST_MARK, s);
      && c[4].slot.Some? == s.table.slot.Some? && c[5].slot.Some? == s.modifier.slot.Some?
      && c[6].slot.Some? == s.stats.slot.Some? && c[7].slot.Some? == s.flow.slot.Some?
  {
  }

  /** Three single-beat packets and a long one, offered to a stalled output: the long packet's first beat leaves
      as it came, whatever its rule orders. */
  lemma StalledRewriteIsLost(rules: seq<Rule>, s: Pipe, single: Beat, first: Beat)
    requires IsReset(s) && single.last && !first.last
    ensures var run := seq(13, t => Edge(Some(if t < 3 then single else first), t >= 9));
      var xs := AcceptedBeats(rules, s, run);
      && |xs| > 3 && |DeliveredBeats(rules, s, run)| > 3
      && Intended(rules, xs, 3) == Modified(first, PacketInfo(rules, first))
      && DeliveredBeats(rules, s, run)[3] == first
  {
    hide IsReset, AcceptedBeats, DeliveredBeats, Waited, Modified, PacketInfo;
    var run := seq(13, t => Edge(Some(if t < 3 then single else first), t >= 9));
    FourthBeatWaits(rules, s, run);
    DeliveredExactly(rules, s, run, 3);
    FirstOfPacket(AcceptedBeats(rules, s, run), 3);
  }

  // ---------------------------------------------------------------------------
  // The metadata beside the output
  // ---------------------------------------------------------------------------

  /** m_meta: the match stage's register, wired to the output port without delay. */
  function MetaOut(s: Pipe): Metadata {
    s.table.tracker.info.meta
  }

  /** Beats that have left the table's input and not yet the pipeline. */
  function Reached(s: Pipe): nat {
    |Behind(s)| + |ToSeq(s.table.slot)|
  }

  /** The register holds what goes with the latest of the given tokens. */
  ghost predicate HoldsLatest(s: Stage<Tracker, Token>, all: seq<Token>) {
    all != [] ==> s.tracker.info == all[|all| - 1].info
  }

  lemma RegisterStep(
      f: Capture, s: Stage<Tracker, Token>, x: Option<Token>, mReady: bool, before: seq<Token>)
    requires HoldsLatest(s, before + ToSeq(s.slot))
    ensures var s' := StageNext(CaptureStep(f), s, x, mReady);
      HoldsLatest(s', (before + if mReady then ToSeq(s.slot) else []) + ToSeq(s'.slot))
  {
  }

  lemma {:induction false} RegisterHoldsLatest(rules: seq<Rule>, s: Pipe, run: seq<Edge>, t: nat)
    requires IsReset(s) && t <= |run|
    ensures var table := PipeAt(rules, s, run, t).table;
      HoldsLatest(table, MatchedBeats(rules, s, run[..t]) + ToSeq(table.slot))
  {
    hide PipeRun, MatchedBeats, AcceptedBeats, DeliveredBeats, HoldsLatest;
    if t == 0 {
      AtReset(rules, s);
      NothingYet(s.table);
    } else {
      var now, e := PipeAt(rules, s, run, t - 1), run[t - 1];
      RegisterHoldsLatest(rules, s, run, t - 1);
      PrefixGrows(run, t - 1);
      LastEdge(rules, s, run[..t - 1], e);
      hide StageNext, CaptureStep, JoinSlot, ModifierReady, ToSeq, IsReset;
      RegisterStep(MatchCapture(rules), now.table, JoinSlot(now.udp, now.tcp), ModifierReady(now, e.mReady),
                   MatchedBeats(rules, s, run[..t - 1]));
    }
  }

  lemma NothingYet(s: Stage<Tracker, Token>)
    ensures HoldsLatest(s, [] + [])
  {
  }

  /** At every edge m_meta is the metadata of the packet of the youngest beat that has got as far as the table,
      wherever the beat is that the output, the statistics or the flow table looks at. */
  lemma MetaIsOfTheYoungest(rules: seq<Rule>, s: Pipe, run: seq<Edge>)
    requires IsReset(s) && |DeliveredBeats(rules, s, run)| + Reached(PipeRun(rules, s, run)) > 0
    ensures var xs, now := AcceptedBeats(rules, s, run), PipeRun(rules, s, run);
      var i := |DeliveredBeats(rules, s, run)| + Reached(now) - 1;
      && i < |xs|
      && MetaOut(now)
        == WithLength(PacketInfo(rules, xs[Head(xs, i)].beat), LengthSeen(xs, Head(xs, i))).meta
  {
    hide IsReset, PipeRun, AcceptedBeats, MatchedBeats, DeliveredBeats, PacketInfo, WithLength, LengthSeen, Head,
      Reached;
    var now, longer := PipeRun(rules, s, run), run + [Edge(None, true)];
    TokensUpToTheRegister(rules, s, run);
    PipelineIsLatencyInsensitive(rules, s, longer, |MatchedBeats(rules, s, longer)| - 1);
  }

  /** If the output were taken at one more edge without input, the token in the table would leave it. */
  lemma TokensUpToTheRegister(rules: seq<Rule>, s: Pipe, run: seq<Edge>)
    requires IsReset(s)
    ensures var now, longer := PipeRun(rules, s, run), run + [Edge(None, true)];
      var all := MatchedBeats(rules, s, longer);
      && |all| == |DeliveredBeats(rules, s, run)| + Reached(now)
      && HoldsLatest(now.table, all)
      && AcceptedBeats(rules, s, longer) == AcceptedBeats(rules, s, run)
  {
    hide IsReset, PipeRun, PipeNext, AcceptedBeats, MatchedBeats, DeliveredBeats, Written, Taken, EthReady, ModRun,
      ModAt, HoldsLatest, Behind;
    var now := PipeRun(rules, s, run);
    assert run[..|run|] == run;
    LastEdge(rules, s, run, Edge(None, true));
    assert StatsReady(now, true);
    ModifierInside(rules, s, run, |run|);
    RegisterHoldsLatest(rules, s, run, |run|);
  }

  /** Two beats belong to the same packet exactly when no packet ends from the first of them on. */
  lemma {:induction false} SamePacketExactlyWhen(xs: seq<Token>, i: nat, j: nat)
    requires i <= j < |xs|
    ensures Head(xs, i) == Head(xs, j) <==> forall m :: i <= m < j ==> !xs[m].beat.last
  {
    if i < j && !xs[j - 1].beat.last {
      SamePacketExactlyWhen(xs, i, j - 1);
    }
  }

  /** m_meta at this edge goes with accepted beat j: the youngest beat that has reached the table is of its packet. */
  ghost predicate MetaBelongsTo(rules: seq<Rule>, s: Pipe, run: seq<Edge>, j: nat) {
    var xs, i := AcceptedBeats(rules, s, run), |DeliveredBeats(rules, s, run)| + Reached(PipeRun(rules, s, run)) - 1;
    0 <= i < |xs| && j < |xs| && Head(xs, i) == Head(xs, j)
  }

  /** At the output: m_meta belongs to the offered beat exactly when no packet ends between it and the table. */
  lemma MetaBelongsExactlyWhen(rules: seq<Rule>, s: Pipe, run: seq<Edge>)
    requires IsReset(s) && PipeRun(rules, s, run).flow.slot.Some?
    ensures var xs, j := AcceptedBeats(rules, s, run), |DeliveredBeats(rules, s, run)|;
      var k := Reached(PipeRun(rules, s, run));
      && j + k <= |xs|
      && (MetaBelongsTo(rules, s, run, j) <==> forall m :: j <= m < j + k - 1 ==> !xs[m].beat.last)
  {
    hide IsReset, PipeRun, AcceptedBeats, DeliveredBeats, PacketInfo, WithLength, LengthSeen, Head;
    MetaIsOfTheYoungest(rules, s, run);
    var j := |DeliveredBeats(rules, s, run)|;
    SamePacketExactlyWhen(AcceptedBeats(rules, s, run), j, j + Reached(PipeRun(rules, s, run)) - 1);
  }

  /** At the flow table, which counts a packet when its last beat comes from the statistics stage: the flow key
      belongs to that packet exactly when the slots of modifier and table are empty. */
  lemma FlowKeyIsOwnExactlyWhen(rules: seq<Rule>, s: Pipe, run: seq<Edge>)
    requires IsReset(s)
    requires var slot := PipeRun(rules, s, run).stats.slot; slot.Some? && slot.value.last
    ensures var now := PipeRun(rules, s, run);
      MetaBelongsTo(rules, s, run, |DeliveredBeats(rules, s, run)| + |ToSeq(now.flow.slot)|)
      <==> now.modifier.slot.None? && now.table.slot.None?
  {
    hide IsReset, PipeRun, AcceptedBeats, DeliveredBeats, Head;
    var now := PipeRun(rules, s, run);
    LastBeatMeta(rules, s, run, |ToSeq(now.flow.slot)|);
  }

  /** At the statistics engine, one stage earlier: exactly when the table's slot is empty. */
  lemma StatsMetaIsOwnExactlyWhen(rules: seq<Rule>, s: Pipe, run: seq<Edge>)
    requires IsReset(s)
    requires var slot := PipeRun(rules, s, run).modifier.slot; slot.Some? && slot.value.last
    ensures var now := PipeRun(rules, s, run);
      MetaBelongsTo(rules, s, run, |DeliveredBeats(rules, s, run)| + |ToSeq(now.flow.slot)| + |ToSeq(now.stats.slot)|)
      <==> now.table.slot.None?
  {
    hide IsReset, PipeRun, AcceptedBeats, DeliveredBeats, Head;
    var now := PipeRun(rules, s, run);
    LastBeatMeta(rules, s, run, |ToSeq(now.flow.slot)| + |ToSeq(now.stats.slot)|);
  }

  /** A last beat behind the modifier has its own metadata beside it exactly if it is the youngest. */
  lemma LastBeatMeta(rules: seq<Rule>, s: Pipe, run: seq<Edge>, k: nat)
    requires IsReset(s)
    requires var behind := Behind(PipeRun(rules, s, run)); k < |behind| && behind[k].last
    ensures MetaBelongsTo(rules, s, run, |DeliveredBeats(rules, s, run)| + k)
      <==> k + 1 == Reached(PipeRun(rules, s, run))
  {
    hide IsReset, PipeRun, AcceptedBeats, DeliveredBeats, PacketInfo, WithLength, LengthSeen, Head, Behind, Waited,
      Modified;
    var n := |DeliveredBeats(rules, s, run)|;
    var j, i := n + k, n + Reached(PipeRun(rules, s, run)) - 1;
    MetaIsOfTheYoungest(rules, s, run);
    ModifiedExactly(rules, s, run, j);
    var xs := AcceptedBeats(rules, s, run);
    ModifiedKeepsLast(xs[j].beat, PacketInfo(rules, xs[Head(xs, j)].beat));
    SamePacketExactlyWhen(xs, j, i);
  }

  lemma ModifiedKeepsLast(b: Beat, i: Info)
    ensures Modified(b, i).last == b.last
  {
    hide Overlay, Pushed, Popped, MacSwapped, TtlDecremented, DscpSetTo, EcnSetTo, Be32, Be48;
  }

  /** With beats back to back and m_tready always high, four beats are between the table's input and the output. */
  lemma BackToBackMetaIsThreeAhead(rules: seq<Rule>, s: Pipe, run: seq<Edge>)
    requires IsReset(s) && |run| >= 8 && forall e <- run :: e.mReady && e.x.Some?
    ensures PipeRun(rules, s, run).flow.slot.Some? && Reached(PipeRun(rules, s, run)) == 4
  {
    hide IsReset, PipeRun, Slots, Respected;
    assert forall t :: 0 <= t < |run| ==> run[t] in run;
    LastIsRespected(rules);
    SlotAfter(rules, LAST_MARK, s, run, 4);
    SlotAfter(rules, LAST_MARK, s, run, 5);
    SlotAfter(rules, LAST_MARK, s, run, 6);
    SlotAfter(rules, LAST_MARK, s, run, 7);
    SlotsShow(PipeRun(rules, s, run));
  }

  // ---------------------------------------------------------------------------
  // The stage instances
  // ---------------------------------------------------------------------------

  class Pipeline {
    const rules: seq<Rule>
    const eth: EthernetParser
    const vlan: ParserStage
    const ip: ParserStage
    const udp: ParserStage
    const tcp: ParserStage
    const table: ParserStage
    const modifier: Modifier
    const stats: Register
    const flow: Register

    ghost predicate Wired() {
      && vlan.capture == VLAN_CAPTURE && ip.capture == IPV4_CAPTURE
      && udp.capture == UDP_CAPTURE && tcp.capture == TCP_CAPTURE && table.capture == MatchCapture(rules)
      && vlan != ip && vlan != udp && vlan != tcp && vlan != table
      && ip != udp && ip != tcp && ip != table
      && udp != tcp && udp != table && tcp != table
      && stats != flow
    }

    ghost function State(): Pipe
      reads eth, vlan, ip, udp, tcp, table, modifier, stats, flow
    {
      Pipe(eth.State(), vlan.State(), ip.State(), udp.State(), tcp.State(), table.State(),
           modifier.State(), stats.State(), flow.State())
    }

    constructor (rules: seq<Rule>)
      ensures Wired() && IsReset(State()) && this.rules == rules
      ensures fresh({eth, vlan, ip, udp, tcp, table, modifier, stats, flow})
    {
      this.rules := rules;
      eth := new EthernetParser();
      vlan := new ParserStage(VLAN_CAPTURE);
      ip := new ParserStage(IPV4_CAPTURE);
      udp := new ParserStage(UDP_CAPTURE);
      tcp := new ParserStage(TCP_CAPTURE);
      table := new ParserStage(MatchCapture(rules));
      modifier := new Modifier();
      stats := new Register();
      flow := new Register();
    }

    // The ready wires, each driven by the stage behind it.
    predicate RFlow(mReady: bool)
      reads eth, vlan, ip, udp, tcp, table, modifier, stats, flow
      ensures RFlow(mReady) == FlowReady(State(), mReady)
    {
      flow.SReady(mReady)
    }

    predicate RStats(mReady: bool)
      reads eth, vlan, ip, udp, tcp, table, modifier, stats, flow
      ensures RStats(mReady) == StatsReady(State(), mReady)
    {
      stats.SReady(RFlow(mReady))
    }

    predicate RMod(mReady: bool)
      reads eth, vlan, ip, udp, tcp, table, modifier, stats, flow
      ensures RMod(mReady) == ModifierReady(State(), mReady)
    {
      modifier.SReady(RStats(mReady))
    }

    predicate RMatch(mReady: bool)
      reads eth, vlan, ip, udp, tcp, table, modifier, stats, flow
      ensures RMatch(mReady) == TableReady(State(), mReady)
    {
      table.SReady(RMod(mReady))
    }

    /** r_ip = r_udp && r_tcp. */
    predicate RIp(mReady: bool)
      reads eth, vlan, ip, udp, tcp, table, modifier, stats, flow
      ensures RIp(mReady) == L4Ready(State(), mReady)
    {
      udp.SReady(RMatch(mReady)) && tcp.SReady(RMatch(mReady))
    }

    predicate RVlan(mReady: bool)
      reads eth, vlan, ip, udp, tcp, table, modifier, stats, flow
      ensures RVlan(mReady) == IpReady(State(), mReady)
    {
      ip.SReady(RIp(mReady))
    }

    predicate REth(mReady: bool)
      reads eth, vlan, ip, udp, tcp, table, modifier, stats, flow
      ensures REth(mReady) == VlanReady(State(), mReady)
    {
      vlan.SReady(RVlan(mReady))
    }

    /** s_tready. */
    predicate SReady(mReady: bool)
      reads eth, vlan, ip, udp, tcp, table, modifier, stats, flow
      ensures SReady(mReady) == EthReady(State(), mReady)
    {
      eth.SReady(REth(mReady))
    }

    /** The metadata mux; the beat comes from the TCP side when that is valid. */
    function L4Token(): (x: Token)
      reads udp, tcp
      ensures JoinSlot(udp.State(), tcp.State()) == if udp.MValid() || tcp.MValid() then Some(x) else None
    {
      Token(if tcp.MValid() then tcp.pipeBeat else udp.pipeBeat,
            if tcp.pipeInfo.meta.tcpValid then tcp.pipeInfo else udp.pipeInfo)
    }

    /** m_tvalid, and the beat on the output wires. */
    function Output(): (o: Option<Beat>)
      reads flow
      ensures o == flow.State().slot
    {
      if flow.MValid() then Some(flow.pipeBeat) else None
    }

    /** m_meta: the match stage's wires. */
    function MMeta(): (m: Metadata)
      reads eth, vlan, ip, udp, tcp, table, modifier, stats, flow
      ensures m == MetaOut(State())
    {
      table.pipeInfo.meta
    }

    /** Stages 1 to 3, on the ready levels of the stages behind them. */
    method ClockHeaders(x: Option<Beat>, rEth: bool, rVlan: bool, rIp: bool)
      requires Wired()
      modifies eth, vlan, ip
      ensures eth.State() == StageNext(ETHERNET_STEP, old(eth.State()), Incoming(x), rEth)
      ensures vlan.State() == StageNext(CaptureStep(VLAN_CAPTURE), old(vlan.State()), old(eth.State()).slot, rVlan)
      ensures ip.State() == StageNext(CaptureStep(IPV4_CAPTURE), old(ip.State()), old(vlan.State()).slot, rIp)
    {
      var fromEth, vEth := Token(eth.pipeBeat, eth.pipeInfo), eth.MValid();
      var fromVlan, vVlan := Token(vlan.pipeBeat, vlan.pipeInfo), vlan.MValid();
      hide StageNext, CaptureStep;
      eth.Clock(true, x.Some?, Token(if x.Some? then x.value else Beat([], [], false), NO_INFO), rEth);
      vlan.Clock(true, vEth, fromEth, rVlan);
      ip.Clock(true, vVlan, fromVlan, rIp);
    }

    /** Stages 4 and 5: both layer-4 parsers get the same input and the same ready level. */
    method ClockL4(vIp: bool, fromIp: Token, rMatch: bool, rMod: bool)
      requires Wired()
      modifies udp, tcp, table
      ensures udp.State()
        == StageNext(CaptureStep(UDP_CAPTURE), old(udp.State()), if vIp then Some(fromIp) else None, rMatch)
      ensures tcp.State()
        == StageNext(CaptureStep(TCP_CAPTURE), old(tcp.State()), if vIp then Some(fromIp) else None, rMatch)
      ensures table.State()
        == StageNext(CaptureStep(MatchCapture(rules)), old(table.State()),
                     JoinSlot(old(udp.State()), old(tcp.State())), rMod)
    {
      var fromL4, vL4 := L4Token(), udp.MValid() || tcp.MValid();
      hide StageNext, CaptureStep, JoinSlot, L4Token;
      udp.Clock(true, vIp, fromIp, rMatch);
      tcp.Clock(true, vIp, fromIp, rMatch);
      table.Clock(true, vL4, fromL4, rMod);
    }

    /** Stages 6 to 8. */
    method ClockBack(vTable: bool, fromTable: Token, rStats: bool, rFlow: bool, mReady: bool)
      requires Wired()
      modifies modifier, stats, flow
      ensures modifier.State() == ModNext(old(modifier.State()), if vTable then Some(fromTable) else None, rStats)
      ensures stats.State() == StageNext(PassStep<Beat>(), old(stats.State()), old(modifier.State()).slot, rFlow)
      ensures flow.State() == StageNext(PassStep<Beat>(), old(flow.State()), old(stats.State()).slot, mReady)
    {
      var fromMod, vMod := modifier.pipeBeat, modifier.MValid();
      var fromStats, vStats := stats.pipeBeat, stats.MValid();
      hide StageNext, ModNext;
      modifier.Clock(true, vTable, fromTable, rStats);
      stats.Clock(true, vMod, fromMod, rFlow);
      flow.Clock(true, vStats, fromStats, mReady);
    }

    /** One rising edge with rst_n low, stages 1 to 3. */
    method ResetHeaders()
      requires Wired()
      modifies eth, vlan, ip
      ensures eth.State().slot.None? && eth.State().tracker.first && eth.State().tracker.length == 0
      ensures vlan.State().slot.None? && vlan.State().tracker.first
      ensures ip.State().slot.None? && ip.State().tracker.first
    {
      var anything := Token(Beat([], [], false), NO_INFO);
      eth.Clock(false, false, anything, true);
      vlan.Clock(false, false, anything, true);
      ip.Clock(false, false, anything, true);
    }

    /** Stages 4 and 5. */
    method ResetL4()
      requires Wired()
      modifies udp, tcp, table
      ensures udp.State().slot.None? && udp.State().tracker.first
      ensures tcp.State().slot.None? && tcp.State().tracker.first
      ensures table.State().slot.None? && table.State().tracker.first
    {
      var anything := Token(Beat([], [], false), NO_INFO);
      udp.Clock(false, false, anything, true);
      tcp.Clock(false, false, anything, true);
      table.Clock(false, false, anything, true);
    }

    /** All stages. */
    method ResetEdge()
      requires Wired()
      modifies eth, vlan, ip, udp, tcp, table, modifier, stats, flow
      ensures IsReset(State())
    {
      var anything := Token(Beat([], [], false), NO_INFO);
      ResetHeaders();
      ResetL4();
      modifier.Clock(false, false, anything, true);
      stats.Clock(false, false, anything.beat, true);
      flow.Clock(false, false, anything.beat, true);
    }

    /** One rising edge: all wires settle on the values before the edge, then every stage steps. */
    method Clock(x: Option<Beat>, mReady: bool)
      requires Wired()
      modifies eth, vlan, ip, udp, tcp, table, modifier, stats, flow
      ensures State() == PipeNext(rules, old(State()), x, mReady)
    {
      ghost var was := State();
      hide StageNext, ModNext, JoinSlot, CaptureStep, StageReady, FlowReady, StatsReady, ModifierReady, TableReady,
        L4Ready, IpReady, VlanReady, RFlow, RStats, RMod, RMatch, RIp, RVlan, REth;
      var rFlow, rStats, rMod, rMatch := RFlow(mReady), RStats(mReady), RMod(mReady), RMatch(mReady);
      var rIp, rVlan, rEth := RIp(mReady), RVlan(mReady), REth(mReady);
      var fromIp, vIp := Token(ip.pipeBeat, ip.pipeInfo), ip.MValid();
      var fromTable, vTable := Token(table.pipeBeat, table.pipeInfo), table.MValid();
      ClockHeaders(x, rEth, rVlan, rIp);
      ClockL4(vIp, fromIp, rMatch, rMod);
      ClockBack(vTable, fromTable, rStats, rFlow, mReady);
    }
  }
}
