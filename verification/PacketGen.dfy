/**
  The packet generator (sim/packet_generators/packet_gen.h) as the printer that the header parsers
  read back.  Integers are stored as a little-endian host stores them, htons and htonl included.
 */
module PacketGen {
  import opened NpePkg
  import opened Checksum
  import opened Parsers
  import opened HeaderFields

  /** static_cast<uint16_t>. */
  function Length16(n: nat): uint16 {
    n % 0x1_0000
  }

  // ---------------------------------------------------------------------------
  // The frames
  // ---------------------------------------------------------------------------

  /** The IPv4 header that fill_ipv4 sets up. */
  function GeneratedIp(totalLength: uint16, id: uint16, protocol: uint8, checksum: uint16, srcIp: uint32,
                       dstIp: uint32): (h: IpHeader)
    ensures h.ihl < 16
  {
    IpHeader(5, 0, totalLength, id, 0, 64, protocol, checksum, srcIp, dstIp)
  }

  /** Its 20 bytes with a zero checksum field. */
  function BareIpv4Header(totalLength: uint16, id: uint16, protocol: uint8, srcIp: uint32, dstIp: uint32)
    : (h: seq<byte>)
    ensures |h| == 20
  {
    IpBytes(GeneratedIp(totalLength, id, protocol, 0, srcIp, dstIp))
  }

  /** The header as it is stored: the checksum goes in unswapped, so its low byte comes first. */
  function StoredHeader(h: seq<byte>): (r: seq<byte>)
    requires |h| == 20
    ensures |r| == 20
  {
    WithField(h, HeaderChecksum(h) % 0x100, HeaderChecksum(h) / 0x100)
  }

  function GeneratedUdp(srcPort: uint16, dstPort: uint16, payload: seq<byte>): (l4: L4)
    ensures l4.Udp?
  {
    Udp(srcPort, dstPort, Length16(8 + |payload|), 0)
  }

  function GeneratedTcp(srcPort: uint16, dstPort: uint16, flags: uint8): (l4: L4)
    ensures l4.Tcp?
  {
    Tcp(srcPort, dstPort, 1000, 0, 0x50, flags, 0xFFFF, 0, 0)
  }

  function UdpHeader(srcPort: uint16, dstPort: uint16, payload: seq<byte>): (h: seq<byte>)
    ensures |h| == 8
  {
    L4Bytes(GeneratedUdp(srcPort, dstPort, payload))
  }

  function TcpHeader(srcPort: uint16, dstPort: uint16, flags: uint8): (h: seq<byte>)
    ensures |h| == 20
  {
    L4Bytes(GeneratedTcp(srcPort, dstPort, flags))
  }

  /** Ethernet, IPv4 and a layer-4 header in a row, then the payload. */
  function Ipv4Frame(srcMac: MacAddress, dstMac: MacAddress, id: uint16, protocol: uint8, srcIp: uint32, dstIp: uint32,
                     l4: seq<byte>, payload: seq<byte>): (f: seq<byte>)
    ensures |f| == 34 + |l4| + |payload|
  {
    EthernetHeader(srcMac, dstMac, ETYPE_IPV4)
    + StoredHeader(BareIpv4Header(Length16(20 + |l4| + |payload|), id, protocol, srcIp, dstIp))
    + l4 + payload
  }

  function UdpFrame(srcMac: MacAddress, dstMac: MacAddress, id: uint16, srcIp: uint32, dstIp: uint32,
                    srcPort: uint16, dstPort: uint16, payload: seq<byte>): seq<byte> {
    Ipv4Frame(srcMac, dstMac, id, PROTO_UDP, srcIp, dstIp, UdpHeader(srcPort, dstPort, payload), payload)
  }

  function TcpFrame(srcMac: MacAddress, dstMac: MacAddress, id: uint16, srcIp: uint32, dstIp: uint32,
                    srcPort: uint16, dstPort: uint16, payload: seq<byte>, flags: uint8): seq<byte> {
    Ipv4Frame(srcMac, dstMac, id, PROTO_TCP, srcIp, dstIp, TcpHeader(srcPort, dstPort, flags), payload)
  }

  function ArpFrame(srcMac: MacAddress, dstMac: MacAddress, senderIp: uint32, targetIp: uint32): (f: seq<byte>)
    ensures |f| == 42
  {
    EthernetHeader(srcMac, dstMac, ETYPE_ARP)
    + [0x00, 0x01, 0x08, 0x00, 6, 4, 0x00, 0x01] + srcMac + Be32(senderIp) + dstMac + Be32(targetIp)
  }

  // ---------------------------------------------------------------------------
  // The builders
  // ---------------------------------------------------------------------------

  function Zeros(n: nat): (z: seq<byte>)
    ensures |z| == n
  {
    if n == 0 then [] else [0] + Zeros(n - 1)
  }

  lemma OverlayMiddle(a: seq<byte>, b: seq<byte>, c: seq<byte>, x: seq<byte>)
    requires |x| == |b|
    ensures Overlay(a + b + c, |a|, x) == a + x + c
  {
  }

  class Generator {
    var ipIdCounter: uint16

    constructor ()
      ensures ipIdCounter == 0
    {
      ipIdCounter := 0;
    }

    method FillEth(srcMac: MacAddress, dstMac: MacAddress, ethertype: uint16) returns (pkt: seq<byte>)
      ensures pkt == EthernetHeader(srcMac, dstMac, ethertype)
    {
      pkt := Zeros(14);
      pkt := Overlay(pkt, 0, dstMac);
      pkt := Overlay(pkt, 6, srcMac);
      pkt := pkt[12 := ethertype / 0x100];
      pkt := pkt[13 := ethertype % 0x100];
    }

    /** Fills the header at offset at, takes the next identification number and stores the checksum. */
    method FillIpv4(before: seq<byte>, at: nat, protocol: uint8, srcIp: uint32, dstIp: uint32) returns (pkt: seq<byte>)
      requires at + 20 <= |before|
      modifies this
      ensures ipIdCounter == (old(ipIdCounter) + 1) % 0x1_0000
      ensures pkt == Overlay(before, at,
        StoredHeader(BareIpv4Header(Length16(|before| - at), old(ipIdCounter), protocol, srcIp, dstIp)))
    {
      var hdr := BareIpv4Header(Length16(|before| - at), ipIdCounter, protocol, srcIp, dstIp);
      ipIdCounter := (ipIdCounter + 1) % 0x1_0000;
      var sum := IpChecksum(hdr);
      FieldIsZero(hdr);
      hdr := hdr[10 := sum % 0x100];
      hdr := hdr[11 := sum / 0x100];
      pkt := Overlay(before, at, hdr);
    }

    method MakeUdpPacket(srcMac: MacAddress, dstMac: MacAddress, srcIp: uint32, dstIp: uint32,
                         srcPort: uint16, dstPort: uint16, payload: seq<byte>) returns (pkt: seq<byte>)
      modifies this
      ensures ipIdCounter == (old(ipIdCounter) + 1) % 0x1_0000
      ensures pkt == UdpFrame(srcMac, dstMac, old(ipIdCounter), srcIp, dstIp, srcPort, dstPort, payload)
    {
      var eth := FillEth(srcMac, dstMac, ETYPE_IPV4);
      pkt := eth + Zeros(20) + Zeros(8) + payload;
      OverlayMiddle(eth + Zeros(20), Zeros(8), payload, UdpHeader(srcPort, dstPort, payload));
      pkt := Overlay(pkt, 34, UdpHeader(srcPort, dstPort, payload));
      pkt := BuildOn(eth, UdpHeader(srcPort, dstPort, payload), payload, pkt, PROTO_UDP, srcIp, dstIp);
    }

    method MakeTcpPacket(srcMac: MacAddress, dstMac: MacAddress, srcIp: uint32, dstIp: uint32,
                         srcPort: uint16, dstPort: uint16, payload: seq<byte>, flags: uint8) returns (pkt: seq<byte>)
      modifies this
      ensures ipIdCounter == (old(ipIdCounter) + 1) % 0x1_0000
      ensures pkt == TcpFrame(srcMac, dstMac, old(ipIdCounter), srcIp, dstIp, srcPort, dstPort, payload, flags)
    {
      var eth := FillEth(srcMac, dstMac, ETYPE_IPV4);
      pkt := eth + Zeros(20) + Zeros(20) + payload;
      OverlayMiddle(eth + Zeros(20), Zeros(20), payload, TcpHeader(srcPort, dstPort, flags));
      pkt := Overlay(pkt, 34, TcpHeader(srcPort, dstPort, flags));
      pkt := BuildOn(eth, TcpHeader(srcPort, dstPort, flags), payload, pkt, PROTO_TCP, srcIp, dstIp);
    }

    /** The step both builders end with: the IPv4 header goes into the gap behind the Ethernet header. */
    method BuildOn(eth: seq<byte>, l4: seq<byte>, payload: seq<byte>, before: seq<byte>,
                   protocol: uint8, srcIp: uint32, dstIp: uint32) returns (pkt: seq<byte>)
      requires |eth| == 14 && before == eth + Zeros(20) + l4 + payload
      modifies this
      ensures ipIdCounter == (old(ipIdCounter) + 1) % 0x1_0000
      ensures pkt == eth
        + StoredHeader(BareIpv4Header(Length16(20 + |l4| + |payload|), old(ipIdCounter), protocol, srcIp, dstIp))
        + l4 + payload
    {
      var hdr := StoredHeader(BareIpv4Header(Length16(20 + |l4| + |payload|), ipIdCounter, protocol, srcIp, dstIp));
      hide StoredHeader, BareIpv4Header, Zeros, Overlay;
      assert before == eth + Zeros(20) + (l4 + payload);
      OverlayMiddle(eth, Zeros(20), l4 + payload, hdr);
      assert eth + hdr + (l4 + payload) == eth + hdr + l4 + payload;
      pkt := FillIpv4(before, 14, protocol, srcIp, dstIp);
    }

    method MakeArpPacket(srcMac: MacAddress, dstMac: MacAddress, senderIp: uint32, targetIp: uint32)
      returns (pkt: seq<byte>)
      ensures pkt == ArpFrame(srcMac, dstMac, senderIp, targetIp)
    {
      pkt := FillEth(srcMac, dstMac, ETYPE_ARP);
      pkt := pkt + Zeros(28);
      pkt := Overlay(pkt, 14, [0x00, 0x01, 0x08, 0x00, 6, 4, 0x00, 0x01]);
      pkt := Overlay(pkt, 22, srcMac);
      pkt := Overlay(pkt, 28, Be32(senderIp));
      pkt := Overlay(pkt, 32, dstMac);
      pkt := Overlay(pkt, 38, Be32(targetIp));
    }
  }

  lemma FieldIsZero(h: seq<byte>)
    requires |h| == 20 && h[10] == h[11] == 0
    ensures HeaderChecksum(h) == 0xFFFF - OnesSum(h, 0, WordCount(h))
  {
    ZeroingZero(h);
    assert WordCount(h) == 10;
    hide OnesSum, WithField, WordCount;
  }

  lemma ZeroingZero(h: seq<byte>)
    requires |h| == 20 && h[10] == h[11] == 0
    ensures WithField(h, 0, 0) == h
  {
  }

  // ---------------------------------------------------------------------------
  // Parsing what was built
  // ---------------------------------------------------------------------------

  /** The first beat of a packet on a bus of |d| lanes: the frame's bytes, then whatever is left on the lanes. */
  ghost predicate Carries(d: seq<byte>, frame: seq<byte>) {
    forall i :: 0 <= i < |frame| && i < |d| ==> d[i] == frame[i]
  }

  /** The expected layer-2 and layer-3 fields. */
  function BuiltMeta(srcMac: MacAddress, dstMac: MacAddress, protocol: uint8, srcIp: uint32, dstIp: uint32,
                     checksumOk: bool): Metadata {
    NO_METADATA.(dstMac := Mac(dstMac, 0), srcMac := Mac(srcMac, 0), ethertype := ETYPE_IPV4,
                 ipv4Valid := true, srcIp := srcIp, dstIp := dstIp, protocol := protocol, ttl := 64,
                 ipHdrLen := 5, ipChecksumOk := checksumOk)
  }

  function WithUdp(m: Metadata, srcPort: uint16, dstPort: uint16): Metadata {
    m.(udpValid := true, srcPort := srcPort, dstPort := dstPort)
  }

  /** The builder's fixed sequence number and window come back, and the low four flag bits. */
  function WithTcp(m: Metadata, srcPort: uint16, dstPort: uint16, flags: uint8): Metadata {
    m.(tcpValid := true, srcPort := srcPort, dstPort := dstPort,
       tcpSeq := 1000, tcpAck := 0, tcpFlags := flags as int % 16, tcpWindow := 0xFFFF)
  }

  /** The header checksum survives the trip exactly when swapping its bytes changes nothing. */
  predicate ChecksumSurvives(h: seq<byte>)
    requires |h| == 20
  {
    HeaderChecksum(h) % 0x100 == HeaderChecksum(h) / 0x100
  }

  /** The header as it is stored is again a header, with the two checksum bytes exchanged. */
  lemma StoredIsHeader(totalLength: uint16, id: uint16, protocol: uint8, srcIp: uint32, dstIp: uint32)
    returns (h: IpHeader)
    ensures var bare := BareIpv4Header(totalLength, id, protocol, srcIp, dstIp);
      && h == GeneratedIp(totalLength, id, protocol, h.checksum, srcIp, dstIp)
      && IpBytes(h) == StoredHeader(bare)
      && ChecksumOk(IpBytes(h), 0) == ChecksumSurvives(bare)
  {
    var bare := BareIpv4Header(totalLength, id, protocol, srcIp, dstIp);
    var sum := HeaderChecksum(bare);
    h := GeneratedIp(totalLength, id, protocol, sum % 0x100 * 0x100 + sum / 0x100, srcIp, dstIp);
    Swapped(sum);
    HostOrderIsAcceptedExactlyWhen(bare);
    hide HeaderChecksum, ChecksumOk;
    FieldOfHeader(totalLength, id, protocol, h.checksum, srcIp, dstIp, sum % 0x100, sum / 0x100);
    hide IpBytes, WithField, Be16;
  }

  lemma Swapped(sum: uint16)
    ensures Be16(sum % 0x100 * 0x100 + sum / 0x100) == [sum % 0x100, sum / 0x100]
  {
  }

  lemma FieldOfHeader(totalLength: uint16, id: uint16, protocol: uint8, checksum: uint16, srcIp: uint32, dstIp: uint32,
                      hi: byte, lo: byte)
    requires Be16(checksum) == [hi, lo]
    ensures IpBytes(GeneratedIp(totalLength, id, protocol, checksum, srcIp, dstIp))
      == WithField(BareIpv4Header(totalLength, id, protocol, srcIp, dstIp), hi, lo)
  {
    hide Be32;
    assert Be16(0) == [0, 0];
    hide Be16;
  }

  /** A header of the generator that the parser rejects: 28 bytes of UDP from 192.168.0.1 to 192.168.0.2. */
  lemma GeneratedHeaderIsRejected()
    ensures !ChecksumOk(StoredHeader(BareIpv4Header(28, 0, PROTO_UDP, 0xC0A8_0001, 0xC0A8_0002)), 0)
  {
    SmallHeader();
    hide BareIpv4Header;
    SumIsRejected(BareIpv4Header(28, 0, PROTO_UDP, 0xC0A8_0001, 0xC0A8_0002));
  }

  lemma SumIsRejected(h: seq<byte>)
    requires h == [0x45, 0, 0, 28, 0, 0, 0, 0, 64, 0x11, 0, 0, 0xC0, 0xA8, 0, 1, 0xC0, 0xA8, 0, 2]
    ensures !ChecksumOk(StoredHeader(h), 0)
  {
    hide HeaderChecksum, ChecksumOk, WithField, WordSum;
    SmallHeaderSum(h);
    HostOrderIsRejected(h);
  }

  lemma SmallHeaderSum(h: seq<byte>)
    requires h == [0x45, 0, 0, 28, 0, 0, 0, 0, 64, 0x11, 0, 0, 0xC0, 0xA8, 0, 1, 0xC0, 0xA8, 0, 2]
    ensures WordSum(WithField(h, 0, 0), 0, 10) == 0x2_0680
  {
    hide WordSum;
    ZeroingZero(h);
    TenWords(h, 0);
    hide WithField;
  }

  lemma SmallHeader()
    ensures BareIpv4Header(28, 0, PROTO_UDP, 0xC0A8_0001, 0xC0A8_0002)
      == [0x45, 0, 0, 28, 0, 0, 0, 0, 64, 0x11, 0, 0, 0xC0, 0xA8, 0, 1, 0xC0, 0xA8, 0, 2]
  {
    assert Be32(0xC0A8_0001) == [0xC0, 0xA8, 0x00, 0x01] && Be32(0xC0A8_0002) == [0xC0, 0xA8, 0x00, 0x02];
    assert Be16(0) == [0, 0] && Be16(28) == [0, 28];
    hide Be16, Be32;
  }

  /** The headers of a frame, as they lie on the lanes. */
  lemma FrameCarries(d: seq<byte>, srcMac: MacAddress, dstMac: MacAddress, id: uint16, srcIp: uint32, dstIp: uint32,
                     l4: L4, payload: seq<byte>) returns (h: Headers)
    requires |d| >= 34 + |L4Front(l4)|
    requires Carries(d, Ipv4Frame(srcMac, dstMac, id, Protocol(l4), srcIp, dstIp, L4Bytes(l4), payload))
    ensures var tl := Length16(20 + |L4Bytes(l4)| + |payload|);
      && h == Headers(srcMac, dstMac, None, GeneratedIp(tl, id, Protocol(l4), h.ip.checksum, srcIp, dstIp), Some(l4))
      && HeadersFit(h) && Carried(d, h)
      && ChecksumOk(IpBytes(h.ip), 0) == ChecksumSurvives(BareIpv4Header(tl, id, Protocol(l4), srcIp, dstIp))
  {
    var tl := Length16(20 + |L4Bytes(l4)| + |payload|);
    var ip := StoredIsHeader(tl, id, Protocol(l4), srcIp, dstIp);
    h := Headers(srcMac, dstMac, None, ip, Some(l4));
    hide StoredHeader, BareIpv4Header, IpBytes, L4Bytes, EthernetHeader, Ipv4Frame, ChecksumOk, ChecksumSurvives;
    FrameLanes(d, srcMac, dstMac, id, Protocol(l4), srcIp, dstIp, L4Bytes(l4), payload);
  }

  /** Every UDP frame parses back to the addresses, protocol and ports it was built from. */
  lemma UdpParsesBack(d: seq<byte>, srcMac: MacAddress, dstMac: MacAddress, id: uint16, srcIp: uint32, dstIp: uint32,
                      srcPort: uint16, dstPort: uint16, payload: seq<byte>)
    requires |d| >= 38
    requires Carries(d, UdpFrame(srcMac, dstMac, id, srcIp, dstIp, srcPort, dstPort, payload))
    ensures var bare := BareIpv4Header(Length16(28 + |payload|), id, PROTO_UDP, srcIp, dstIp);
      Parse(d) == WithUdp(BuiltMeta(srcMac, dstMac, PROTO_UDP, srcIp, dstIp, ChecksumSurvives(bare)), srcPort, dstPort)
  {
    hide Carries, Ipv4Frame, L4Bytes, BareIpv4Header, ChecksumSurvives, Mac, Parse, Carried, HeadersFit, ChecksumOk;
    var h := FrameCarries(d, srcMac, dstMac, id, srcIp, dstIp, GeneratedUdp(srcPort, dstPort, payload), payload);
    HeadersParse(d, h);
  }

  /** Every TCP frame parses back as well. */
  lemma TcpParsesBack(d: seq<byte>, srcMac: MacAddress, dstMac: MacAddress, id: uint16, srcIp: uint32, dstIp: uint32,
                      srcPort: uint16, dstPort: uint16, payload: seq<byte>, flags: uint8)
    requires |d| >= 54
    requires Carries(d, TcpFrame(srcMac, dstMac, id, srcIp, dstIp, srcPort, dstPort, payload, flags))
    ensures var bare := BareIpv4Header(Length16(40 + |payload|), id, PROTO_TCP, srcIp, dstIp);
      Parse(d)
      == WithTcp(BuiltMeta(srcMac, dstMac, PROTO_TCP, srcIp, dstIp, ChecksumSurvives(bare)), srcPort, dstPort, flags)
  {
    hide Carries, Ipv4Frame, L4Bytes, BareIpv4Header, ChecksumSurvives, Mac, Parse, Carried, HeadersFit, ChecksumOk;
    var h := FrameCarries(d, srcMac, dstMac, id, srcIp, dstIp, GeneratedTcp(srcPort, dstPort, flags), payload);
    HeadersParse(d, h);
  }

  /** An ARP frame parses back to its addresses, and no other header is seen in it. */
  lemma ArpParsesBack(d: seq<byte>, srcMac: MacAddress, dstMac: MacAddress, senderIp: uint32, targetIp: uint32)
    requires |d| >= 14 && Carries(d, ArpFrame(srcMac, dstMac, senderIp, targetIp))
    ensures Parse(d) == NO_METADATA.(dstMac := Mac(dstMac, 0), srcMac := Mac(srcMac, 0), ethertype := ETYPE_ARP)
  {
    var frame, h := ArpFrame(srcMac, dstMac, senderIp, targetIp), EthernetHeader(srcMac, dstMac, ETYPE_ARP);
    assert frame[..14] == h;
    assert forall i :: 0 <= i < 14 ==> Lane(d, i) == frame[i] && frame[i] == h[i];
    EthernetFields(d, srcMac, dstMac, ETYPE_ARP, NO_METADATA);
    hide EthernetMeta;
  }

  lemma FrameLanes(d: seq<byte>, srcMac: MacAddress, dstMac: MacAddress, id: uint16, protocol: uint8,
                   srcIp: uint32, dstIp: uint32, l4: seq<byte>, payload: seq<byte>)
    requires |d| >= 34 && Carries(d, Ipv4Frame(srcMac, dstMac, id, protocol, srcIp, dstIp, l4, payload))
    ensures HeaderAt(d, 0, EthernetHeader(srcMac, dstMac, ETYPE_IPV4))
    ensures HeaderAt(d, 14, StoredHeader(BareIpv4Header(Length16(20 + |l4| + |payload|), id, protocol, srcIp, dstIp)))
    ensures forall i :: 34 <= i < |d| && i < 34 + |l4| ==> Lane(d, i) == l4[i - 34]
  {
    var e := EthernetHeader(srcMac, dstMac, ETYPE_IPV4);
    var r := StoredHeader(BareIpv4Header(Length16(20 + |l4| + |payload|), id, protocol, srcIp, dstIp));
    hide EthernetHeader, StoredHeader, BareIpv4Header;
    var f := Ipv4Frame(srcMac, dstMac, id, protocol, srcIp, dstIp, l4, payload);
    assert f == e + r + l4 + payload;
    assert forall i :: 0 <= i < 14 ==> f[i] == e[i];
    assert forall i :: 14 <= i < 34 ==> f[i] == r[i - 14];
    assert forall i :: 34 <= i < 34 + |l4| ==> f[i] == l4[i - 34];
  }

  // ---------------------------------------------------------------------------
  // The frames, field by field
  // ---------------------------------------------------------------------------

  lemma IpFieldsOf(f: seq<byte>, totalLength: uint16, id: uint16, protocol: uint8, srcIp: uint32, dstIp: uint32)
    requires HeaderAt(f, 14, StoredHeader(BareIpv4Header(totalLength, id, protocol, srcIp, dstIp)))
    ensures Lane(f, 14) == 0x45 && Lane(f, 15) == 0 && Word16(f, 16) == totalLength && Word16(f, 18) == id
    ensures Word16(f, 20) == 0 && Lane(f, 22) == 64
  {
    var h := StoredIsHeader(totalLength, id, protocol, srcIp, dstIp);
    var b := IpBytes(h);
    IpParts(h);
    assert Lane(f, 14) == b[0] && Lane(f, 15) == b[1] && Lane(f, 22) == b[8];
    hide StoredHeader, BareIpv4Header, IpBytes, Lane, HeaderAt, Word16, Be16, ChecksumOk;
    Word16At(f, 14, b, 2, totalLength);
    Word16At(f, 14, b, 4, id);
    Word16At(f, 14, b, 6, 0);
  }

  /** What a UDP frame says about itself is true: both lengths count from their header on to the end of the
      frame, on 16 bits, and the payload lies behind the headers. */
  lemma UdpFrameFields(srcMac: MacAddress, dstMac: MacAddress, id: uint16, srcIp: uint32, dstIp: uint32,
                       srcPort: uint16, dstPort: uint16, payload: seq<byte>)
    ensures var f := UdpFrame(srcMac, dstMac, id, srcIp, dstIp, srcPort, dstPort, payload);
      && f[42..] == payload
      && Word16(f, 16) == (|f| - 14) % 0x1_0000 && Word16(f, 38) == (|f| - 34) % 0x1_0000
      && Lane(f, 14) == 0x45 && Lane(f, 15) == 0 && Word16(f, 18) == id && Word16(f, 20) == 0 && Lane(f, 22) == 64
      && Word16(f, 40) == 0
  {
    var f := UdpFrame(srcMac, dstMac, id, srcIp, dstIp, srcPort, dstPort, payload);
    var b := UdpHeader(srcPort, dstPort, payload);
    FrameLanes(f, srcMac, dstMac, id, PROTO_UDP, srcIp, dstIp, b, payload);
    assert f[42..] == payload;
    assert b[4..6] == Be16(Length16(8 + |payload|)) && b[6..8] == Be16(0);
    hide UdpHeader, StoredHeader, BareIpv4Header, UdpFrame, Word16, Lane, Be16;
    IpFieldsOf(f, Length16(28 + |payload|), id, PROTO_UDP, srcIp, dstIp);
    Word16At(f, 34, b, 4, Length16(8 + |payload|));
    Word16At(f, 34, b, 6, 0);
  }

  lemma TcpFrameFields(srcMac: MacAddress, dstMac: MacAddress, id: uint16, srcIp: uint32, dstIp: uint32,
                       srcPort: uint16, dstPort: uint16, payload: seq<byte>, flags: uint8)
    ensures var f := TcpFrame(srcMac, dstMac, id, srcIp, dstIp, srcPort, dstPort, payload, flags);
      && f[54..] == payload
      && Word16(f, 16) == (|f| - 14) % 0x1_0000 && Lane(f, 46) / 16 * 4 == 54 - 34
      && Lane(f, 14) == 0x45 && Lane(f, 15) == 0 && Word16(f, 18) == id && Word16(f, 20) == 0 && Lane(f, 22) == 64
      && Lane(f, 46) % 16 == 0 && Lane(f, 47) == flags && Word16(f, 50) == 0 && Word16(f, 52) == 0
  {
    var f := TcpFrame(srcMac, dstMac, id, srcIp, dstIp, srcPort, dstPort, payload, flags);
    var b := TcpHeader(srcPort, dstPort, flags);
    FrameLanes(f, srcMac, dstMac, id, PROTO_TCP, srcIp, dstIp, b, payload);
    assert f[54..] == payload;
    TcpParts(GeneratedTcp(srcPort, dstPort, flags));
    hide TcpHeader, StoredHeader, BareIpv4Header, TcpFrame, Word16, Be16;
    IpFieldsOf(f, Length16(40 + |payload|), id, PROTO_TCP, srcIp, dstIp);
    assert Lane(f, 46) == b[12] && Lane(f, 47) == b[13];
    hide Lane;
    Word16At(f, 34, b, 16, 0);
    Word16At(f, 34, b, 18, 0);
  }

  /** The ARP request of RFC 826, all fields. */
  lemma ArpFrameFields(srcMac: MacAddress, dstMac: MacAddress, senderIp: uint32, targetIp: uint32)
    ensures var f := ArpFrame(srcMac, dstMac, senderIp, targetIp);
      && Word16(f, 14) == 1 && Word16(f, 16) == ETYPE_IPV4 && Lane(f, 18) == 6 && Lane(f, 19) == 4 && Word16(f, 20) == 1
      && Mac(f, 22) == Mac(srcMac, 0) && Word32(f, 28) == senderIp
      && Mac(f, 32) == Mac(dstMac, 0) && Word32(f, 38) == targetIp
  {
    var f := ArpFrame(srcMac, dstMac, senderIp, targetIp);
    assert f[22..28] == srcMac && f[28..32] == Be32(senderIp) && f[32..38] == dstMac && f[38..42] == Be32(targetIp);
    assert f[14] == 0 && f[15] == 1 && f[16] == 8 && f[17] == 0 && f[18] == 6 && f[19] == 4 && f[20] == 0 && f[21] == 1;
    assert HeaderAt(f, 0, f);
    hide ArpFrame, Mac, Word32, Be32;
    SubHeader(f, 0, f, 22, srcMac);
    SubHeader(f, 0, f, 32, dstMac);
    MacAt(f, 22, srcMac);
    MacAt(f, 32, dstMac);
    Word32At(f, 0, f, 28, senderIp);
    Word32At(f, 0, f, 38, targetIp);
  }
}
