/**
  The header parsers (the files of rtl/parsers).  What each parser extracts from the first beat of a packet
  is a pure function; around it every parser has the same registers: a first-beat flag, one
  pipeline slot, and the metadata register that is loaded on first beats only.
 */
module Parsers {
  import opened NpePkg
  import opened Checksum
  import opened ElasticChain

  // ---------------------------------------------------------------------------
  // Field extraction
  // ---------------------------------------------------------------------------

  function EthernetMeta(d: seq<byte>, m: Metadata): Metadata {
    m.(dstMac := Mac(d, 0), srcMac := Mac(d, 6), ethertype := Word16(d, 12), vlanValid := Word16(d, 12) == ETYPE_VLAN)
  }

  function VlanMeta(d: seq<byte>, m: Metadata): Metadata {
    if m.vlanValid then
      var tci := Word16(d, 14);
      m.(vlanId := tci % 0x1000, vlanPrio := tci / 0x2000, vlanCfi := tci / 0x1000 % 2, ethertype := Word16(d, 16))
    else m
  }

  function IpOffset(m: Metadata): nat {
    if m.vlanValid then 18 else 14
  }

  function Ipv4Meta(d: seq<byte>, m: Metadata): Metadata {
    if m.ethertype == ETYPE_IPV4 then
      var off := IpOffset(m);
      m.(ipv4Valid := true, srcIp := Word32(d, off + 12), dstIp := Word32(d, off + 16),
         protocol := Lane(d, off + 9), ttl := Lane(d, off + 8), ipHdrLen := Lane(d, off) % 16,
         ipChecksumOk := ChecksumOk(d, off))
    else m
  }

  /** l4_off is a 6-bit wire. */
  function L4Offset(m: Metadata): nat {
    (IpOffset(m) + 4 * m.ipHdrLen) % 64
  }

  predicate IsUdp(m: Metadata) {
    m.protocol == PROTO_UDP && m.ipv4Valid
  }

  predicate IsTcp(m: Metadata) {
    m.protocol == PROTO_TCP && m.ipv4Valid
  }

  function UdpMeta(d: seq<byte>, m: Metadata): Metadata {
    if IsUdp(m) then
      m.(udpValid := true, srcPort := Word16(d, L4Offset(m)), dstPort := Word16(d, L4Offset(m) + 2))
    else m
  }

  function TcpMeta(d: seq<byte>, m: Metadata): Metadata {
    if IsTcp(m) then
      var off := L4Offset(m);
      m.(tcpValid := true, srcPort := Word16(d, off), dstPort := Word16(d, off + 2),
         tcpSeq := Word32(d, off + 4), tcpAck := Word32(d, off + 8),
         tcpFlags := Lane(d, off + 13) % 16, tcpWindow := Word16(d, off + 14))
    else m
  }

  /** All the parsers in sequence, on one beat. */
  function ParseFrom(d: seq<byte>, m: Metadata): Metadata {
    TcpMeta(d, UdpMeta(d, Ipv4Meta(d, VlanMeta(d, EthernetMeta(d, m)))))
  }

  function Parse(d: seq<byte>): Metadata {
    ParseFrom(d, NO_METADATA)
  }

  // ---------------------------------------------------------------------------
  // Tokens, packets and stage functions
  // ---------------------------------------------------------------------------

  /** What travels beside a beat: the metadata and, behind the match stage, the modifier's orders. */
  datatype Info = Info(meta: Metadata, action: ModAction, modData: ModData)

  datatype Token = Token(beat: Beat, info: Info)

  /** First-beat flag, metadata register, and the packet-length counter of the Ethernet parser. */
  datatype Tracker = Tracker(first: bool, info: Info, length: nat)

  type Capture = (Beat, Info) -> Info

  /** A parser stage: on a first beat the register is loaded, on any other beat it is kept. */
  function CaptureStep(f: Capture): StepFn<Tracker, Token> {
    (k: Tracker, x: Token) =>
      var info := if k.first then f(x.beat, x.info) else k.info;
      (k.(first := x.beat.last, info := info), Token(x.beat, info))
  }

  function KeepCount(keep: seq<bool>): (n: nat)
    ensures n <= |keep|
  {
    if keep == [] then 0 else KeepCount(keep[..|keep| - 1]) + if keep[|keep| - 1] then 1 else 0
  }

  /** The lanes that are enabled. */
  function EnabledLanes(keep: seq<bool>): set<int> {
    set i | 0 <= i < |keep| && keep[i]
  }

  /** The count is the number of enabled lanes. */
  lemma {:induction false} KeepCountIsCardinality(keep: seq<bool>)
    ensures KeepCount(keep) == |EnabledLanes(keep)|
  {
    if keep != [] {
      var n := |keep| - 1;
      KeepCountIsCardinality(keep[..n]);
      assert EnabledLanes(keep) == EnabledLanes(keep[..n]) + if keep[n] then {n} else {};
    }
  }

  /** Addition on 16 bits. */
  function Add16(a: nat, b: nat): (s: nat)
    ensures s < 0x1_0000
  {
    (a + b) % 0x1_0000
  }

  /** pkt_len after a beat: restarted by a first beat only if that beat is not also the last one. */
  function LengthAfter(first: bool, length: nat, b: Beat): (n: nat)
    ensures n < 0x1_0000
  {
    if first && !b.last then Add16(0, KeepCount(b.keep)) else Add16(length, KeepCount(b.keep))
  }

  /** The metadata register of the Ethernet parser after a beat; the length is written on last beats. */
  function EthernetInfo(first: bool, held: Info, length: nat, x: Token): Info {
    var info := if first then x.info.(meta := EthernetMeta(x.beat.data, x.info.meta)) else held;
    if x.beat.last then info.(meta := info.meta.(pktLength := Add16(length, KeepCount(x.beat.keep)))) else info
  }

  const ETHERNET_STEP: StepFn<Tracker, Token> :=
    (k: Tracker, x: Token) =>
      var info := EthernetInfo(k.first, k.info, k.length, x);
      (Tracker(x.beat.last, info, LengthAfter(k.first, k.length, x.beat)), Token(x.beat, info))

  const VLAN_CAPTURE: Capture := (b: Beat, i: Info) => i.(meta := VlanMeta(b.data, i.meta))
  const IPV4_CAPTURE: Capture := (b: Beat, i: Info) => i.(meta := Ipv4Meta(b.data, i.meta))
  const UDP_CAPTURE: Capture := (b: Beat, i: Info) => i.(meta := UdpMeta(b.data, i.meta))
  const TCP_CAPTURE: Capture := (b: Beat, i: Info) => i.(meta := TcpMeta(b.data, i.meta))
  const L4_CAPTURE: Capture := (b: Beat, i: Info) => i.(meta := TcpMeta(b.data, UdpMeta(b.data, i.meta)))

  /** The mux behind the two layer-4 parsers, which both see the same input. */
  function JoinInfo(udp: Info, tcp: Info): Info {
    if tcp.meta.tcpValid then tcp else udp
  }

  /** The mux equals running both parsers one after the other. */
  lemma JoinIsSequence(b: Beat, i: Info)
    requires !i.meta.tcpValid
    ensures JoinInfo(UDP_CAPTURE(b, i), TCP_CAPTURE(b, i)) == L4_CAPTURE(b, i)
  {
    assert IsTcp(i.meta) ==> !IsUdp(i.meta);
    hide Word16, Word32, Lane, L4Offset;
  }

  /** Index of the first beat of the packet that beat i belongs to. */
  function Head(xs: seq<Token>, i: nat): (h: nat)
    requires i < |xs|
    ensures h <= i
    ensures h == 0 || xs[h - 1].beat.last
    ensures forall j :: h <= j < i ==> !xs[j].beat.last
  {
    if i == 0 || xs[i - 1].beat.last then i else Head(xs, i - 1)
  }

  /** Two streams that agree on their first n beats. */
  ghost predicate SameBeats(xs: seq<Token>, ys: seq<Token>, n: nat) {
    n <= |xs| && n <= |ys| && forall i :: 0 <= i < n ==> xs[i].beat == ys[i].beat
  }

  lemma {:induction false} SameHeads(xs: seq<Token>, ys: seq<Token>, n: nat, i: nat)
    requires SameBeats(xs, ys, n) && i < n
    ensures Head(xs, i) == Head(ys, i)
  {
    if i > 0 && !xs[i - 1].beat.last {
      SameHeads(xs, ys, n, i - 1);
    }
  }

  lemma {:induction false} CaptureTracker(f: Capture, k: Tracker, xs: seq<Token>, n: nat)
    requires k.first && n <= |xs|
    ensures TrackerAt(CaptureStep(f), k, xs, n).first <==> n == 0 || xs[n - 1].beat.last
    ensures n > 0 ==> var h := Head(xs, n - 1); TrackerAt(CaptureStep(f), k, xs, n).info == f(xs[h].beat, xs[h].info)
  {
    if n > 0 {
      CaptureTracker(f, k, xs, n - 1);
    }
  }

  /** A parser stage on a stream of packets: the beats pass unchanged, and each carries the capture
      of the first beat of its own packet. */
  lemma CaptureStream(f: Capture, k: Tracker, xs: seq<Token>, i: nat)
    requires k.first && i < |xs|
    ensures var h := Head(xs, i); Stream(CaptureStep(f), k, xs)[i] == Token(xs[i].beat, f(xs[h].beat, xs[h].info))
  {
    StreamAt(CaptureStep(f), k, xs, i);
    CaptureTracker(f, k, xs, i);
  }

  function CaptureAll(fs: seq<Capture>, b: Beat, info: Info): Info {
    if fs == [] then info else CaptureAll(fs[1..], b, fs[0](b, info))
  }

  function CaptureSteps(fs: seq<Capture>): (steps: seq<StepFn<Tracker, Token>>)
    ensures |steps| == |fs|
  {
    if fs == [] then [] else [CaptureStep(fs[0])] + CaptureSteps(fs[1..])
  }

  /** No stage has seen part of a packet. */
  ghost predicate BetweenPackets(c: seq<Stage<Tracker, Token>>) {
    forall i :: 0 <= i < |c| ==> c[i].tracker.first
  }

  /** A chain of parser stages: every beat passes unchanged and carries all the captures, composed,
      of the first beat of its own packet. */
  lemma {:induction false} CapturesCompose(fs: seq<Capture>, c: seq<Stage<Tracker, Token>>, xs: seq<Token>, i: nat)
    requires |fs| == |c| > 0 && BetweenPackets(c) && i < |xs|
    ensures StreamThrough(CaptureSteps(fs), c, xs)[i]
      == Token(xs[i].beat, CaptureAll(fs, xs[Head(xs, i)].beat, xs[Head(xs, i)].info))
    decreases |fs|
  {
    hide StreamThrough, Stream, CaptureStep, CaptureSteps, Head;
    CapturesUnfold(fs, c, xs);
    if |fs| == 1 {
      NoCaptures(fs[1..], c[1..], Stream(CaptureStep(fs[0]), c[0].tracker, xs));
      CaptureStream(fs[0], c[0].tracker, xs, i);
    } else {
      var ys, h := Stream(CaptureStep(fs[0]), c[0].tracker, xs), Head(xs, i);
      CaptureKeepsHeads(fs[0], c[0].tracker, xs, i);
      assert BetweenPackets(c[1..]) by {
        assert forall j :: 0 <= j < |c| - 1 ==> c[1..][j] == c[j + 1];
      }
      CapturesCompose(fs[1..], c[1..], ys, i);
    }
  }

  lemma CaptureKeepsHeads(f: Capture, k: Tracker, xs: seq<Token>, i: nat)
    requires k.first && i < |xs|
    ensures var ys, h := Stream(CaptureStep(f), k, xs), Head(xs, i);
      && Head(ys, i) == h && ys[i].beat == xs[i].beat
      && ys[h] == Token(xs[h].beat, f(xs[h].beat, xs[h].info))
  {
    var ys := Stream(CaptureStep(f), k, xs);
    forall j | 0 <= j < |xs| ensures ys[j].beat == xs[j].beat {
      CaptureStream(f, k, xs, j);
    }
    SameHeads(xs, ys, |xs|, i);
    HeadOfHead(xs, i);
    CaptureStream(f, k, xs, Head(xs, i));
  }

  lemma NoCaptures(fs: seq<Capture>, c: seq<Stage<Tracker, Token>>, xs: seq<Token>)
    requires fs == [] && c == []
    ensures StreamThrough(CaptureSteps(fs), c, xs) == xs
  {
  }

  lemma CapturesUnfold(fs: seq<Capture>, c: seq<Stage<Tracker, Token>>, xs: seq<Token>)
    requires |fs| == |c| > 0
    ensures StreamThrough(CaptureSteps(fs), c, xs)
      == StreamThrough(CaptureSteps(fs[1..]), c[1..], Stream(CaptureStep(fs[0]), c[0].tracker, xs))
  {
    assert CaptureSteps(fs)[1..] == CaptureSteps(fs[1..]);
  }

  lemma HeadOfHead(xs: seq<Token>, i: nat)
    requires i < |xs|
    ensures Head(xs, Head(xs, i)) == Head(xs, i)
  {
  }

  // ---------------------------------------------------------------------------
  // The Ethernet stage
  // ---------------------------------------------------------------------------

  /** pkt_len of the Ethernet parser after the first n beats since reset. */
  function LengthReg(xs: seq<Token>, n: nat): (r: nat)
    requires n <= |xs|
    ensures r < 0x1_0000
  {
    if n == 0 then 0
    else LengthAfter(Head(xs, n - 1) == n - 1, LengthReg(xs, n - 1), xs[n - 1].beat)
  }

  /** The pkt_length that goes with the first beat at index h when it leaves the Ethernet parser. */
  function LengthSeen(xs: seq<Token>, h: nat): nat
    requires h < |xs|
  {
    if xs[h].beat.last then Add16(LengthReg(xs, h), KeepCount(xs[h].beat.keep))
    else xs[h].info.meta.pktLength
  }

  lemma {:induction false} EthernetTracker(k: Tracker, xs: seq<Token>, n: nat)
    requires k.first && k.length == 0 && n <= |xs|
    ensures TrackerAt(ETHERNET_STEP, k, xs, n).first <==> n == 0 || xs[n - 1].beat.last
    ensures TrackerAt(ETHERNET_STEP, k, xs, n).length == LengthReg(xs, n)
  {
    if n > 0 {
      EthernetTracker(k, xs, n - 1);
    }
  }

  /** The Ethernet stage on a stream of packets: every beat passes unchanged, and a first beat
      carries its own layer-2 fields and the length seen so far. */
  lemma EthernetStream(k: Tracker, xs: seq<Token>, i: nat)
    requires k.first && k.length == 0 && i < |xs|
    ensures Stream(ETHERNET_STEP, k, xs)[i].beat == xs[i].beat
    ensures Head(xs, i) == i ==>
      Stream(ETHERNET_STEP, k, xs)[i].info
      == xs[i].info.(meta := EthernetMeta(xs[i].beat.data, xs[i].info.meta).(pktLength := LengthSeen(xs, i)))
  {
    hide Add16, Mac, Word16, LengthReg, LengthAfter, KeepCount;
    StreamAt(ETHERNET_STEP, k, xs, i);
    EthernetTracker(k, xs, i);
    hide TrackerAt, Stream;
  }

  /** The low 16 bits. */
  function Low16(a: nat): nat {
    a % 0x1_0000
  }

  /** Enabled lanes of beats h, ..., n - 1. */
  function KeepSum(xs: seq<Token>, h: nat, n: nat): nat
    requires h <= n <= |xs|
  {
    if h == n then 0 else KeepSum(xs, h, n - 1) + KeepCount(xs[n - 1].beat.keep)
  }

  /** Beat j opens a packet of more than one beat. */
  predicate OpensLongPacket(xs: seq<Token>, j: nat)
    requires j < |xs|
  {
    Head(xs, j) == j && !xs[j].beat.last
  }

  /** Where the length counter last restarted before beat n: at the first beat of the latest packet of more
      than one beat.  Single-beat packets do not restart it. */
  function CountedFrom(xs: seq<Token>, n: nat): (h: nat)
    requires n <= |xs|
    ensures h == n == 0 || h < n
    ensures h == 0 || OpensLongPacket(xs, h)
    ensures forall j :: h < j < n ==> !OpensLongPacket(xs, j)
  {
    if n == 0 then 0 else if OpensLongPacket(xs, n - 1) then n - 1 else CountedFrom(xs, n - 1)
  }

  /** The counter in closed form: the enabled lanes of the latest longer packet and of all single-beat
      packets since, on 16 bits. */
  lemma {:induction false} LengthRegCounts(xs: seq<Token>, n: nat)
    requires n <= |xs|
    ensures LengthReg(xs, n) == Low16(KeepSum(xs, CountedFrom(xs, n), n))
  {
    hide KeepCount, Add16, Low16, Head;
    if n == 0 {
      StartsAt(0);
    } else if OpensLongPacket(xs, n - 1) {
      assert KeepSum(xs, n - 1, n) == KeepCount(xs[n - 1].beat.keep);
      StartsAt(KeepCount(xs[n - 1].beat.keep));
    } else {
      LengthRegCounts(xs, n - 1);
      AddWraps(KeepSum(xs, CountedFrom(xs, n - 1), n - 1), KeepCount(xs[n - 1].beat.keep));
    }
  }

  lemma StartsAt(c: nat)
    ensures Add16(0, c) == Low16(c) && Low16(0) == 0
  {
  }

  lemma AddWraps(a: nat, c: nat)
    ensures Add16(Low16(a), c) == Low16(a + c)
  {
  }

  lemma LengthWithLastBeat(k: Tracker, xs: seq<Token>, i: nat)
    requires k.first && k.length == 0 && i < |xs| && xs[i].beat.last
    ensures Stream(ETHERNET_STEP, k, xs)[i].info.meta.pktLength == Add16(LengthReg(xs, i), KeepCount(xs[i].beat.keep))
  {
    hide KeepCount, Add16, EthernetMeta, LengthReg;
    StreamAt(ETHERNET_STEP, k, xs, i);
    EthernetTracker(k, xs, i);
    hide TrackerAt, Stream;
  }

  /** With the last beat of a packet of several beats the Ethernet parser does report the packet's
      length, the number of enabled lanes of all its beats. */
  lemma LengthOnLastBeat(k: Tracker, xs: seq<Token>, i: nat)
    requires k.first && k.length == 0 && i < |xs| && xs[i].beat.last && Head(xs, i) < i
    ensures Stream(ETHERNET_STEP, k, xs)[i].info.meta.pktLength == Low16(KeepSum(xs, Head(xs, i), i + 1))
  {
    hide KeepCount, KeepSum, Add16, Low16, LengthReg, Stream, Head, CountedFrom;
    LengthWithLastBeat(k, xs, i);
    CountsOwnPacket(xs, i);
    NextLength(xs, i);
  }

  /** Inside a packet of several beats the counter has restarted at its own first beat. */
  lemma CountsOwnPacket(xs: seq<Token>, i: nat)
    requires i < |xs| && Head(xs, i) < i
    ensures CountedFrom(xs, i) == Head(xs, i)
  {
    var h := Head(xs, i);
    HeadOfHead(xs, i);
    assert OpensLongPacket(xs, h);
    assert forall j :: h < j < i ==> !OpensLongPacket(xs, j) by {
      forall j | h < j < i ensures Head(xs, j) != j {
        assert !xs[j - 1].beat.last;
      }
    }
  }

  lemma NextLength(xs: seq<Token>, i: nat)
    requires i < |xs|
    ensures Add16(LengthReg(xs, i), KeepCount(xs[i].beat.keep)) == Low16(KeepSum(xs, CountedFrom(xs, i), i + 1))
  {
    hide KeepCount, KeepSum, Add16, Low16, LengthReg, CountedFrom, OpensLongPacket;
    LengthRegCounts(xs, i);
    OneMoreBeat(xs, CountedFrom(xs, i), i);
  }

  lemma OneMoreBeat(xs: seq<Token>, h: nat, i: nat)
    requires h <= i < |xs| && LengthReg(xs, i) == Low16(KeepSum(xs, h, i))
    ensures Add16(LengthReg(xs, i), KeepCount(xs[i].beat.keep)) == Low16(KeepSum(xs, h, i + 1))
  {
    hide KeepCount, KeepSum, Add16, Low16, LengthReg;
    KeepSumNext(xs, h, i);
    AddWraps(KeepSum(xs, h, i), KeepCount(xs[i].beat.keep));
  }

  lemma KeepSumNext(xs: seq<Token>, h: nat, n: nat)
    requires h <= n < |xs|
    ensures KeepSum(xs, h, n + 1) == KeepSum(xs, h, n) + KeepCount(xs[n].beat.keep)
  {
    hide KeepCount;
  }

  /** The packet of beats h, ..., e: for a single-beat packet, the lanes counted since the counter last restarted
      add up to nothing on 16 bits; for a longer one, its own enabled lanes do. */
  predicate LanesCancel(xs: seq<Token>, h: nat, e: nat)
    requires h <= e < |xs|
  {
    if h == e then KeepSum(xs, CountedFrom(xs, h), h) % 0x1_0000 == 0 else KeepSum(xs, h, e + 1) % 0x1_0000 == 0
  }

  /** What later stages take for the packet length is right exactly when those lanes cancel: a single-beat
      packet's length is added onto what was counted before, and for a longer packet they see zero. */
  lemma LengthSeenIsRightExactlyWhen(xs: seq<Token>, h: nat, e: nat)
    requires e < |xs| && xs[e].beat.last && Head(xs, e) == h && xs[h].info.meta.pktLength == 0
    ensures LengthSeen(xs, h) == Low16(KeepSum(xs, h, e + 1)) <==> LanesCancel(xs, h, e)
  {
    hide Add16, Low16, LengthReg, KeepCount, KeepSum, Head, CountedFrom, OpensLongPacket, LengthSeen;
    if h == e {
      OwnLanes(xs, h);
      SingleBeatLength(xs, h);
      WrapsBackExactlyWhen(KeepSum(xs, CountedFrom(xs, h), h), KeepCount(xs[h].beat.keep));
    } else {
      assert !xs[h].beat.last;
      LongPacketLength(xs, h);
      ZeroExactlyWhen(KeepSum(xs, h, e + 1));
    }
  }

  lemma SingleBeatLength(xs: seq<Token>, h: nat)
    requires h < |xs| && xs[h].beat.last
    ensures LengthSeen(xs, h) == Low16(KeepSum(xs, CountedFrom(xs, h), h) + KeepCount(xs[h].beat.keep))
  {
    hide Add16, Low16, LengthReg, KeepCount, KeepSum, CountedFrom, OpensLongPacket;
    NextLength(xs, h);
    KeepSumNext(xs, CountedFrom(xs, h), h);
  }

  lemma LongPacketLength(xs: seq<Token>, h: nat)
    requires h < |xs| && !xs[h].beat.last
    ensures LengthSeen(xs, h) == xs[h].info.meta.pktLength
  {
  }

  lemma OwnLanes(xs: seq<Token>, h: nat)
    requires h < |xs|
    ensures KeepSum(xs, h, h + 1) == KeepCount(xs[h].beat.keep)
  {
    hide KeepSum, KeepCount;
    KeepSumNext(xs, h, h);
    NothingSummed(xs, h);
  }

  lemma NothingSummed(xs: seq<Token>, h: nat)
    requires h <= |xs|
    ensures KeepSum(xs, h, h) == 0
  {
  }

  lemma ZeroExactlyWhen(a: nat)
    ensures Low16(a) == 0 <==> a % 0x1_0000 == 0
  {
  }

  lemma WrapsBackExactlyWhen(a: nat, c: nat)
    ensures Low16(a + c) == Low16(c) <==> a % 0x1_0000 == 0
  {
  }

  /** Two single-beat packets in a row: the second one is taken to be as long as both together. */
  lemma LengthsPileUp(a: Token, b: Token)
    requires a.beat.last && b.beat.last && KeepCount(a.beat.keep) + KeepCount(b.beat.keep) < 0x1_0000
    ensures LengthSeen([a, b], 1) == KeepCount(a.beat.keep) + KeepCount(b.beat.keep)
  {
    hide KeepCount;
    assert LengthReg([a, b], 1) == KeepCount(a.beat.keep);
  }

  // ---------------------------------------------------------------------------
  // The registers
  // ---------------------------------------------------------------------------

  method CountKeep(k: seq<bool>) returns (c: nat)
    ensures c == KeepCount(k) == |EnabledLanes(k)|
  {
    c := 0;
    for i := 0 to |k|
      invariant c == KeepCount(k[..i])
    {
      assert k[..i + 1][..i] == k[..i];
      if k[i] {
        c := c + 1;
      }
    }
    assert k[..|k|] == k;
    KeepCountIsCardinality(k);
  }

  /** The VLAN, IPv4, UDP, TCP and match stages: they differ in the capture only. */
  class ParserStage {
    const capture: Capture
    var firstBeat: bool
    var pipeValid: bool
    var pipeBeat: Beat
    var pipeInfo: Info

    ghost function State(): Stage<Tracker, Token>
      reads this
    {
      Stage(Tracker(firstBeat, pipeInfo, 0), if pipeValid then Some(Token(pipeBeat, pipeInfo)) else None)
    }

    constructor (capture: Capture)
      ensures this.capture == capture
      ensures State().tracker.first && State().slot.None?
    {
      this.capture := capture;
      firstBeat, pipeValid := true, false;
    }

    predicate SReady(mReady: bool)
      reads this
      ensures SReady(mReady) <==> StageReady(State(), mReady)
    {
      mReady || !pipeValid
    }

    /** m_tvalid, and the beat and the metadata on the output wires. */
    function MValid(): (v: bool)
      reads this
      ensures v <==> State().slot.Some?
      ensures v ==> State().slot == Some(Token(pipeBeat, pipeInfo))
    {
      pipeValid
    }

    /** One rising edge; data wires carry something even when s_tvalid is low. */
    method Clock(rstN: bool, sValid: bool, s: Token, mReady: bool)
      modifies this
      ensures rstN ==>
        State() == StageNext(CaptureStep(capture), old(State()), if sValid then Some(s) else None, mReady)
      ensures !rstN ==> State() == Stage(old(State().tracker).(first := true), None)
    {
      var sReady, first := SReady(mReady), firstBeat;
      if !rstN {
        firstBeat := true;
      } else if sValid && sReady && s.beat.last {
        firstBeat := true;
      } else if sValid && sReady && firstBeat {
        firstBeat := false;
      }
      if !rstN {
        pipeValid := false;
      } else if mReady || !pipeValid {
        pipeBeat := s.beat;
        pipeValid := sValid;
        if first && sValid && sReady {
          pipeInfo := capture(s.beat, s.info);
        }
      }
    }
  }

  class EthernetParser {
    var firstBeat: bool
    var pktLen: nat
    var pipeValid: bool
    var pipeBeat: Beat
    var pipeInfo: Info

    ghost function State(): Stage<Tracker, Token>
      reads this
    {
      Stage(Tracker(firstBeat, pipeInfo, pktLen), if pipeValid then Some(Token(pipeBeat, pipeInfo)) else None)
    }

    constructor ()
      ensures State().tracker.first && State().tracker.length == 0 && State().slot.None?
    {
      firstBeat, pktLen, pipeValid := true, 0, false;
    }

    predicate SReady(mReady: bool)
      reads this
      ensures SReady(mReady) <==> StageReady(State(), mReady)
    {
      mReady || !pipeValid
    }

    function MValid(): (v: bool)
      reads this
      ensures v <==> State().slot.Some?
      ensures v ==> State().slot == Some(Token(pipeBeat, pipeInfo))
    {
      pipeValid
    }

    /** One rising edge.  The metadata register may be assigned twice; the later assignment,
        which replaces the length field only, is the one that stands. */
    method Clock(rstN: bool, sValid: bool, s: Token, mReady: bool)
      modifies this
      ensures rstN ==> State() == StageNext(ETHERNET_STEP, old(State()), if sValid then Some(s) else None, mReady)
      ensures !rstN ==> State() == Stage(Tracker(true, old(State().tracker.info), 0), None)
    {
      hide Add16;
      var count := CountKeep(s.beat.keep);
      var sReady, first, length := SReady(mReady), firstBeat, pktLen;
      if !rstN {
        firstBeat, pktLen := true, 0;
      } else if sValid && sReady {
        if s.beat.last {
          firstBeat, pktLen := true, Add16(length, count);
        } else if first {
          firstBeat, pktLen := false, Add16(0, count);
        } else {
          pktLen := Add16(length, count);
        }
      }
      if !rstN {
        pipeValid := false;
      } else if mReady || !pipeValid {
        pipeBeat := s.beat;
        pipeValid := sValid;
        if first && sValid && sReady {
          pipeInfo := s.info.(meta := EthernetMeta(s.beat.data, s.info.meta));
        }
        if sValid && sReady && s.beat.last {
          pipeInfo := pipeInfo.(meta := pipeInfo.meta.(pktLength := Add16(length, count)));
        }
      }
    }
  }
}
