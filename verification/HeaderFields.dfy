/**
  Header layouts, field by field, and what the parsers see of them: Ethernet, the tag of clause 9 of IEEE
  802.1Q, IPv4 (section 3.1 of RFC 791), UDP (RFC 768) and TCP (section 3.1 of RFC 793).
 */
module HeaderFields {
  import opened NpePkg
  import opened Checksum
  import opened Parsers

  type uint8 = byte
  type uint16 = x: int | 0 <= x < 0x1_0000
  type uint32 = x: int | 0 <= x < 0x1_0000_0000
  type MacAddress = m: seq<byte> | |m| == 6 witness [0, 0, 0, 0, 0, 0]

  // ---------------------------------------------------------------------------
  // Layouts
  // ---------------------------------------------------------------------------

  function EthernetHeader(srcMac: MacAddress, dstMac: MacAddress, ethertype: uint16): (h: seq<byte>)
    ensures |h| == 14
  {
    dstMac + srcMac + Be16(ethertype)
  }

  datatype Tag = Tag(prio: nat, cfi: nat, id: nat)

  predicate TagFits(t: Tag) {
    t.prio < 8 && t.cfi < 2 && t.id < 0x1000
  }

  function TagControl(t: Tag): uint16
    requires TagFits(t)
  {
    t.prio * 0x2000 + t.cfi * 0x1000 + t.id
  }

  /** What follows the tag's own ethertype. */
  function TagBody(t: Tag, ethertype: uint16): (h: seq<byte>)
    requires TagFits(t)
    ensures |h| == 4
  {
    Be16(TagControl(t)) + Be16(ethertype)
  }

  datatype IpHeader = IpHeader(ihl: nat, tos: uint8, totalLength: uint16, id: uint16, fragment: uint16, ttl: uint8,
                               protocol: uint8, checksum: uint16, srcIp: uint32, dstIp: uint32)

  /** The 20 bytes before the options. */
  function IpBytes(h: IpHeader): (b: seq<byte>)
    requires h.ihl < 16
    ensures |b| == 20
  {
    [0x40 + h.ihl, h.tos] + Be16(h.totalLength) + Be16(h.id) + Be16(h.fragment) + [h.ttl, h.protocol]
    + Be16(h.checksum) + Be32(h.srcIp) + Be32(h.dstIp)
  }

  datatype L4 =
    | Udp(srcPort: uint16, dstPort: uint16, length: uint16, checksum: uint16)
    | Tcp(srcPort: uint16, dstPort: uint16, seqNumber: uint32, ackNumber: uint32, dataOffset: uint8, flags: uint8,
          window: uint16, checksum: uint16, urgent: uint16)

  function L4Bytes(l4: L4): (b: seq<byte>)
    ensures |b| == if l4.Udp? then 8 else 20
  {
    match l4
    case Udp(srcPort, dstPort, length, checksum) => Be16(srcPort) + Be16(dstPort) + Be16(length) + Be16(checksum)
    case Tcp(srcPort, dstPort, seqNumber, ackNumber, dataOffset, flags, window, checksum, urgent) =>
      Be16(srcPort) + Be16(dstPort) + Be32(seqNumber) + Be32(ackNumber) + [dataOffset, flags]
      + Be16(window) + Be16(checksum) + Be16(urgent)
  }

  function Protocol(l4: L4): uint8 {
    if l4.Udp? then PROTO_UDP else PROTO_TCP
  }

  /** The part of the header that the parsers look at. */
  function L4Front(l4: L4): (b: seq<byte>) {
    L4Bytes(l4)[..if l4.Udp? then 4 else 16]
  }

  // ---------------------------------------------------------------------------
  // Bytes on the lanes
  // ---------------------------------------------------------------------------

  /** The lanes from at on carry these bytes. */
  ghost predicate HeaderAt(d: seq<byte>, at: nat, h: seq<byte>) {
    forall i :: at <= i < at + |h| ==> Lane(d, i) == h[i - at]
  }

  lemma Be16Value(x: uint16)
    ensures Be16(x)[0] as int * 0x100 + Be16(x)[1] as int == x
  {
  }

  lemma Be32Value(x: uint32)
    ensures var b := Be32(x); (b[0] as int * 0x100 + b[1] as int) * 0x1_0000 + b[2] as int * 0x100 + b[3] as int == x
  {
    Be16Value(x / 0x1_0000);
    Be16Value(x % 0x1_0000);
    assert Be32(x) == Be16(x / 0x1_0000) + Be16(x % 0x1_0000);
    hide Be16, Be32;
  }

  lemma Word16At(d: seq<byte>, at: nat, h: seq<byte>, k: nat, x: uint16)
    requires HeaderAt(d, at, h) && k + 2 <= |h| && h[k..k + 2] == Be16(x)
    ensures Word16(d, at + k) == x
  {
    assert h[k] == h[k..k + 2][0] && h[k + 1] == h[k..k + 2][1];
    Be16Value(x);
    hide Be16;
  }

  lemma Word32At(d: seq<byte>, at: nat, h: seq<byte>, k: nat, x: uint32)
    requires HeaderAt(d, at, h) && k + 4 <= |h| && h[k..k + 4] == Be32(x)
    ensures Word32(d, at + k) == x
  {
    var b := h[k..k + 4];
    assert h[k] == b[0] && h[k + 1] == b[1] && h[k + 2] == b[2] && h[k + 3] == b[3];
    Be32Value(x);
    hide Be32;
  }

  lemma MacAt(d: seq<byte>, at: nat, m: MacAddress)
    requires HeaderAt(d, at, m)
    ensures Mac(d, at) == Mac(m, 0)
  {
    assert Lane(d, at) == m[0] && Lane(d, at + 1) == m[1] && Lane(d, at + 2) == m[2];
    assert Lane(d, at + 3) == m[3] && Lane(d, at + 4) == m[4] && Lane(d, at + 5) == m[5];
  }

  lemma SubHeader(d: seq<byte>, at: nat, h: seq<byte>, k: nat, part: seq<byte>)
    requires HeaderAt(d, at, h) && k + |part| <= |h| && h[k..k + |part|] == part
    ensures HeaderAt(d, at + k, part)
  {
    forall i | at + k <= i < at + k + |part| ensures Lane(d, i) == part[i - at - k] {
      assert h[i - at] == h[k..k + |part|][i - at - k];
    }
  }

  // ---------------------------------------------------------------------------
  // Layer by layer
  // ---------------------------------------------------------------------------

  lemma EthernetFields(d: seq<byte>, srcMac: MacAddress, dstMac: MacAddress, ethertype: uint16, m: Metadata)
    requires HeaderAt(d, 0, EthernetHeader(srcMac, dstMac, ethertype))
    ensures EthernetMeta(d, m) == m.(dstMac := Mac(dstMac, 0), srcMac := Mac(srcMac, 0), ethertype := ethertype,
                                     vlanValid := ethertype == ETYPE_VLAN)
  {
    var h := EthernetHeader(srcMac, dstMac, ethertype);
    assert h[..6] == dstMac && h[6..12] == srcMac && h[12..14] == Be16(ethertype);
    hide EthernetHeader, Mac, Word16, Be16;
    SubHeader(d, 0, h, 0, dstMac);
    SubHeader(d, 0, h, 6, srcMac);
    MacAt(d, 0, dstMac);
    MacAt(d, 6, srcMac);
    Word16At(d, 0, h, 12, ethertype);
  }

  lemma TagControlFields(t: Tag)
    requires TagFits(t)
    ensures TagControl(t) % 0x1000 == t.id && TagControl(t) / 0x2000 == t.prio && TagControl(t) / 0x1000 % 2 == t.cfi
  {
    var upper := 2 * t.prio + t.cfi;
    assert TagControl(t) == 0x1000 * upper + t.id;
    assert TagControl(t) / 0x1000 == upper && TagControl(t) / 0x2000 == upper / 2;
  }

  lemma TagMetaFields(d: seq<byte>, t: Tag, ethertype: uint16, m: Metadata)
    requires TagFits(t) && m.vlanValid && HeaderAt(d, 14, TagBody(t, ethertype))
    ensures VlanMeta(d, m) == m.(vlanPrio := t.prio, vlanCfi := t.cfi, vlanId := t.id, ethertype := ethertype)
  {
    var h := TagBody(t, ethertype);
    assert h[0..2] == Be16(TagControl(t)) && h[2..4] == Be16(ethertype);
    hide TagBody, Word16, Be16, TagControl, HeaderAt;
    Word16At(d, 14, h, 0, TagControl(t));
    Word16At(d, 14, h, 2, ethertype);
    TagControlFields(t);
  }

  lemma IpParts(h: IpHeader)
    requires h.ihl < 16
    ensures var b := IpBytes(h);
      && b[0] == 0x40 + h.ihl && b[1] == h.tos && b[8] == h.ttl && b[9] == h.protocol
      && b[2..4] == Be16(h.totalLength) && b[4..6] == Be16(h.id) && b[6..8] == Be16(h.fragment)
      && b[10..12] == Be16(h.checksum) && b[12..16] == Be32(h.srcIp) && b[16..20] == Be32(h.dstIp)
  {
    hide Be16, Be32;
  }

  lemma IpWords(d: seq<byte>, off: nat, h: IpHeader)
    requires h.ihl < 16 && HeaderAt(d, off, IpBytes(h))
    ensures Lane(d, off) % 16 == h.ihl && Lane(d, off + 8) == h.ttl && Lane(d, off + 9) == h.protocol
    ensures Word32(d, off + 12) == h.srcIp && Word32(d, off + 16) == h.dstIp
  {
    var b := IpBytes(h);
    IpParts(h);
    hide IpBytes, Word32, Be32, Be16, Lane;
    assert Lane(d, off) == b[0] && Lane(d, off + 8) == b[8] && Lane(d, off + 9) == b[9];
    hide HeaderAt;
    Word32At(d, off, b, 12, h.srcIp);
    Word32At(d, off, b, 16, h.dstIp);
  }

  lemma Ipv4Fields(d: seq<byte>, h: IpHeader, m: Metadata)
    requires h.ihl < 16 && m.ethertype == ETYPE_IPV4 && HeaderAt(d, IpOffset(m), IpBytes(h))
    ensures Ipv4Meta(d, m) == m.(ipv4Valid := true, srcIp := h.srcIp, dstIp := h.dstIp, protocol := h.protocol,
      ttl := h.ttl, ipHdrLen := h.ihl, ipChecksumOk := ChecksumOk(IpBytes(h), 0))
  {
    hide IpBytes, Word32, ChecksumOk, Lane, IpOffset, HeaderAt;
    IpWords(d, IpOffset(m), h);
    SameVerdict(d, IpOffset(m), IpBytes(h));
  }

  lemma SameVerdict(d: seq<byte>, off: nat, b: seq<byte>)
    requires |b| == 20 && HeaderAt(d, off, b)
    ensures ChecksumOk(d, off) == ChecksumOk(b, 0)
  {
    assert forall i :: 0 <= i < 20 ==> Lane(d, i + off) == Lane(b, i);
    OnesSumShift(b, d, 0, off, 10);
  }

  lemma OffsetFits(m: Metadata)
    requires IpOffset(m) + 4 * m.ipHdrLen < 64
    ensures L4Offset(m) == IpOffset(m) + 4 * m.ipHdrLen
  {
  }

  lemma UdpFields(d: seq<byte>, l4: L4, m: Metadata)
    requires l4.Udp? && IsUdp(m) && IpOffset(m) + 4 * m.ipHdrLen < 64
    requires HeaderAt(d, IpOffset(m) + 4 * m.ipHdrLen, L4Front(l4))
    ensures UdpMeta(d, m) == m.(udpValid := true, srcPort := l4.srcPort, dstPort := l4.dstPort)
  {
    var off, b := IpOffset(m) + 4 * m.ipHdrLen, L4Front(l4);
    OffsetFits(m);
    hide L4Offset;
    assert b[0..2] == Be16(l4.srcPort) && b[2..4] == Be16(l4.dstPort);
    Word16At(d, off, b, 0, l4.srcPort);
    Word16At(d, off, b, 2, l4.dstPort);
    hide L4Front, Be16, Word16;
  }

  lemma TcpParts(l4: L4)
    requires l4.Tcp?
    ensures var b := L4Bytes(l4);
      && b[0..2] == Be16(l4.srcPort) && b[2..4] == Be16(l4.dstPort) && b[4..8] == Be32(l4.seqNumber)
      && b[8..12] == Be32(l4.ackNumber) && b[12] == l4.dataOffset && b[13] == l4.flags
      && b[14..16] == Be16(l4.window) && b[16..18] == Be16(l4.checksum) && b[18..20] == Be16(l4.urgent)
  {
    hide Be16, Be32;
  }

  lemma TcpWords(d: seq<byte>, off: nat, l4: L4)
    requires l4.Tcp? && HeaderAt(d, off, L4Front(l4))
    ensures Word16(d, off) == l4.srcPort && Word16(d, off + 2) == l4.dstPort
    ensures Word32(d, off + 4) == l4.seqNumber && Word32(d, off + 8) == l4.ackNumber
    ensures Lane(d, off + 13) == l4.flags && Word16(d, off + 14) == l4.window
  {
    var b, w := L4Front(l4), L4Bytes(l4);
    TcpParts(l4);
    hide L4Bytes, Be16, Be32, Word16, Word32, Lane;
    assert b[0..2] == w[0..2] && b[2..4] == w[2..4] && b[4..8] == w[4..8] && b[8..12] == w[8..12];
    assert b[14..16] == w[14..16] && b[13] == w[13] && Lane(d, off + 13) == b[13];
    hide L4Front, HeaderAt;
    Word16At(d, off, b, 0, l4.srcPort);
    Word16At(d, off, b, 2, l4.dstPort);
    Word32At(d, off, b, 4, l4.seqNumber);
    Word32At(d, off, b, 8, l4.ackNumber);
    Word16At(d, off, b, 14, l4.window);
  }

  /** Of the flag byte the metadata keeps the low four bits. */
  lemma TcpFields(d: seq<byte>, l4: L4, m: Metadata)
    requires l4.Tcp? && IsTcp(m) && IpOffset(m) + 4 * m.ipHdrLen < 64
    requires HeaderAt(d, IpOffset(m) + 4 * m.ipHdrLen, L4Front(l4))
    ensures TcpMeta(d, m) == m.(tcpValid := true, srcPort := l4.srcPort, dstPort := l4.dstPort,
      tcpSeq := l4.seqNumber, tcpAck := l4.ackNumber, tcpFlags := l4.flags as int % 16, tcpWindow := l4.window)
  {
    hide L4Offset, L4Front, HeaderAt, Word16, Word32, Lane;
    OffsetFits(m);
    TcpWords(d, IpOffset(m) + 4 * m.ipHdrLen, l4);
  }

  // ---------------------------------------------------------------------------
  // All layers
  // ---------------------------------------------------------------------------

  /** The headers of a packet, with or without tag and layer-4 header; between IPv4 and layer 4 there may be
      any options. */
  datatype Headers = Headers(srcMac: MacAddress, dstMac: MacAddress, tag: Option<Tag>, ip: IpHeader, l4: Option<L4>)

  function IpAt(h: Headers): nat {
    if h.tag.Some? then 18 else 14
  }

  /** Fields in range, the protocol number right, and a layer-4 offset that fits its 6-bit wire. */
  predicate HeadersFit(h: Headers) {
    && h.ip.ihl < 16
    && (h.tag.Some? ==> TagFits(h.tag.value))
    && (h.l4.Some? ==> h.ip.protocol == Protocol(h.l4.value) && IpAt(h) + 4 * h.ip.ihl < 64)
    && (h.l4.None? ==> h.ip.protocol != PROTO_UDP && h.ip.protocol != PROTO_TCP)
  }

  ghost predicate Carried(d: seq<byte>, h: Headers)
    requires HeadersFit(h)
  {
    && HeaderAt(d, 0, EthernetHeader(h.srcMac, h.dstMac, if h.tag.Some? then ETYPE_VLAN else ETYPE_IPV4))
    && (h.tag.Some? ==> HeaderAt(d, 14, TagBody(h.tag.value, ETYPE_IPV4)))
    && HeaderAt(d, IpAt(h), IpBytes(h.ip))
    && (h.l4.Some? ==> HeaderAt(d, IpAt(h) + 4 * h.ip.ihl, L4Front(h.l4.value)))
  }

  function LowerMeta(h: Headers): Metadata {
    var m := NO_METADATA.(dstMac := Mac(h.dstMac, 0), srcMac := Mac(h.srcMac, 0), ethertype := ETYPE_IPV4);
    if h.tag.Some? then
      m.(vlanValid := true, vlanPrio := h.tag.value.prio, vlanCfi := h.tag.value.cfi, vlanId := h.tag.value.id)
    else m
  }

  function MiddleMeta(h: Headers): Metadata
    requires h.ip.ihl < 16
  {
    LowerMeta(h).(ipv4Valid := true, srcIp := h.ip.srcIp, dstIp := h.ip.dstIp, protocol := h.ip.protocol,
                  ttl := h.ip.ttl, ipHdrLen := h.ip.ihl, ipChecksumOk := ChecksumOk(IpBytes(h.ip), 0))
  }

  function L4Meta(l4: L4, m: Metadata): Metadata {
    match l4
    case Udp(srcPort, dstPort, _, _) => m.(udpValid := true, srcPort := srcPort, dstPort := dstPort)
    case Tcp(srcPort, dstPort, seqNumber, ackNumber, _, flags, window, _, _) =>
      m.(tcpValid := true, srcPort := srcPort, dstPort := dstPort, tcpSeq := seqNumber, tcpAck := ackNumber,
         tcpFlags := flags as int % 16, tcpWindow := window)
  }

  /** The metadata that the headers stand for. */
  function HeadersMeta(h: Headers): Metadata
    requires h.ip.ihl < 16
  {
    if h.l4.Some? then L4Meta(h.l4.value, MiddleMeta(h)) else MiddleMeta(h)
  }

  lemma LowerLayers(d: seq<byte>, h: Headers)
    requires HeadersFit(h) && Carried(d, h)
    ensures VlanMeta(d, EthernetMeta(d, NO_METADATA)) == LowerMeta(h)
    ensures Ipv4Meta(d, LowerMeta(h)) == MiddleMeta(h)
  {
    hide EthernetMeta, Ipv4Meta, Mac, EthernetHeader, TagBody, IpBytes, L4Front, HeaderAt, ChecksumOk;
    EthernetFields(d, h.srcMac, h.dstMac, if h.tag.Some? then ETYPE_VLAN else ETYPE_IPV4, NO_METADATA);
    Ipv4Fields(d, h.ip, LowerMeta(h));
    if h.tag.Some? {
      hide VlanMeta;
      TagMetaFields(d, h.tag.value, ETYPE_IPV4, EthernetMeta(d, NO_METADATA));
    }
  }

  /** Every packet with these headers parses to exactly the fields they were written from, tagged or not, with
      any options, and with any values in the fields. */
  lemma HeadersParse(d: seq<byte>, h: Headers)
    requires HeadersFit(h) && Carried(d, h)
    ensures Parse(d) == HeadersMeta(h)
  {
    LowerLayers(d, h);
    var m := MiddleMeta(h);
    hide EthernetMeta, VlanMeta, Ipv4Meta, Mac, EthernetHeader, TagBody, IpBytes, L4Front, HeaderAt, ChecksumOk,
      Word16, Word32, Lane, L4Offset;
    if h.l4.Some? && h.l4.value.Udp? {
      UdpFields(d, h.l4.value, m);
    } else if h.l4.Some? {
      TcpFields(d, h.l4.value, m);
    }
  }

  /** The layer-4 offset is right exactly as long as it fits its six bits: not for a tagged packet with 12 or more
      header words, nor for an untagged one with 13 or more. */
  lemma L4OffsetIsRightExactlyWhen(m: Metadata)
    requires m.ipHdrLen < 16
    ensures L4Offset(m) == IpOffset(m) + 4 * m.ipHdrLen <==> m.ipHdrLen < if m.vlanValid then 12 else 13
  {
  }

  /** With 13 header words and no tag the ports are read out of the destination address. */
  lemma LongHeaderPorts(d: seq<byte>, m: Metadata)
    requires IsUdp(m) && !m.vlanValid && m.ipHdrLen == 13
    ensures UdpMeta(d, m).srcPort == Word16(d, 2) && UdpMeta(d, m).dstPort == Word16(d, 4)
  {
  }
}
