/**
  The packet modifier (rtl/classifiers/packet_modifier.sv): byte rewriting of the first beat of a
  packet, the flag that is meant to recognise first beats, and the usual pipeline slot.
 */
module PacketModifier {
  import opened NpePkg
  import opened Checksum
  import opened Parsers

  // ---------------------------------------------------------------------------
  // The rewritten beat
  // ---------------------------------------------------------------------------

  /** The four tag bytes: 0x8100, priority, a zero bit, identifier. */
  function TagBytes(prio: nat, id: nat): (b: seq<byte>)
    requires prio < 8 && id < 0x1000
    ensures |b| == 4
  {
    [0x81, 0x00, prio * 32 + id / 0x100, id % 0x100]
  }

  function Pushed(d: seq<byte>, prio: nat, id: nat): (r: seq<byte>)
    requires prio < 8 && id < 0x1000
    ensures |r| == |d|
  {
    Overlay(seq(|d|, i requires 0 <= i < |d| => if i >= 16 then d[i - 4] else d[i]), 12, TagBytes(prio, id))
  }

  function PushedKeep(k: seq<bool>): (r: seq<bool>)
    ensures |r| == |k|
  {
    seq(|k|, i requires 0 <= i < |k| => if i >= 16 then k[i - 4] else if i >= 12 then true else k[i])
  }

  function Popped(d: seq<byte>): (r: seq<byte>)
    ensures |r| == |d|
  {
    seq(|d|, i requires 0 <= i < |d| => if i < 12 then d[i] else if i + 4 < |d| then d[i + 4] else 0)
  }

  function PoppedKeep(k: seq<bool>): (r: seq<bool>)
    ensures |r| == |k|
  {
    seq(|k|, i requires 0 <= i < |k| => if i < 12 then k[i] else i + 4 < |k| && k[i + 4])
  }

  function MacSwapped(d: seq<byte>): (r: seq<byte>)
    ensures |r| == |d|
  {
    Overlay(d, 0, [Lane(d, 6), Lane(d, 7), Lane(d, 8), Lane(d, 9), Lane(d, 10), Lane(d, 11),
                   Lane(d, 0), Lane(d, 1), Lane(d, 2), Lane(d, 3), Lane(d, 4), Lane(d, 5)])
  }

  /** The TTL is one less, and the checksum's high byte is a copy of its low byte. */
  function TtlDecremented(d: seq<byte>, off: nat): (r: seq<byte>)
    ensures |r| == |d|
  {
    Overlay(Overlay(d, off + 8, [(Lane(d, off + 8) + 0xFF) % 0x100]), off + 10, [Lane(d, off + 11)])
  }

  function DscpSetTo(d: seq<byte>, off: nat, dscp: nat): (r: seq<byte>)
    ensures |r| == |d|
  {
    Overlay(Overlay(d, off + 1, [dscp % 64 * 4 + Lane(d, off + 1) % 4]), off + 10, [Lane(d, off + 11)])
  }

  function EcnSetTo(d: seq<byte>, off: nat, ecn: nat): (r: seq<byte>)
    ensures |r| == |d|
  {
    Overlay(d, off + 1, [Lane(d, off + 1) / 4 * 4 + ecn % 4])
  }

  /** The beat the rewriting block produces for a first beat. */
  function Modified(b: Beat, i: Info): Beat {
    var off := IpOffset(i.meta);
    match i.action
    case TtlDec => b.(data := TtlDecremented(b.data, off))
    case MacSwap => b.(data := MacSwapped(b.data))
    case MacSet => b.(data := Overlay(b.data, 0, Be48(i.modData.newDstMac) + Be48(i.modData.newSrcMac)))
    case IpSet => b.(data := Overlay(b.data, off + 12, Be32(i.modData.newSrcIp) + Be32(i.modData.newDstIp)))
    case VlanPush =>
      b.(data := Pushed(b.data, i.modData.vlanPrio % 8, i.modData.vlanId % 0x1000), keep := PushedKeep(b.keep))
    case VlanPop => b.(data := Popped(b.data), keep := PoppedKeep(b.keep))
    case DscpSet => if i.meta.ipv4Valid then b.(data := DscpSetTo(b.data, off, i.modData.newDscp)) else b
    case EcnSet => if i.meta.ipv4Valid then b.(data := EcnSetTo(b.data, off, i.modData.newEcn)) else b
    case Nop => b
  }

  // ---------------------------------------------------------------------------
  // The rewriting block: mod_tdata and mod_tkeep are written slice after slice
  // ---------------------------------------------------------------------------

  /** mod_tdata[8*i +: 8] = v; a lane the bus does not have is not written. */
  function SetLane(d: seq<byte>, i: nat, v: byte): (r: seq<byte>)
    ensures |r| == |d|
  {
    if i < |d| then d[i := v] else d
  }

  /** mod_tdata[top -: 8] = v, for a slice that ends on a byte border: the lane that bit top lies in. */
  function SetLaneBelow(d: seq<byte>, top: nat, v: byte): (r: seq<byte>)
    requires top % 8 == 7
    ensures |r| == |d|
  {
    SetLane(d, top / 8, v)
  }

  /** x >> 8*k. */
  function DropBytes(x: nat, k: nat): nat {
    if k == 0 then x else DropBytes(x, k - 1) / 0x100
  }

  /** x[8*k + 7 : 8*k] of a word. */
  function Slice(x: nat, k: nat): byte {
    DropBytes(x, k) % 0x100
  }

  /** MOD_TTL_DEC.  The first checksum write is aimed at lane off + 11 but its bits are those of lane off + 10. */
  method DecrementTtl(sData: seq<byte>, off: nat) returns (data: seq<byte>)
    ensures data == TtlDecremented(sData, off)
  {
    data := sData;
    var ttlVal: nat := Lane(sData, off + 8);
    data := SetLane(data, off + 8, (ttlVal - 1) % 0x100);
    var csumVal := Word16(sData, off + 10);
    data := SetLaneBelow(data, (off + 11) * 8 - 1, (csumVal / 0x100 + 1) % 0x100);
    data := SetLane(data, off + 10, csumVal % 0x100);
  }

  /** MOD_MAC_SWAP. */
  method SwapMacs(sData: seq<byte>) returns (data: seq<byte>)
    ensures data == MacSwapped(sData)
  {
    data := sData;
    data := SetLane(data, 0, Lane(sData, 6));
    data := SetLane(data, 1, Lane(sData, 7));
    data := SetLane(data, 2, Lane(sData, 8));
    data := SetLane(data, 3, Lane(sData, 9));
    data := SetLane(data, 4, Lane(sData, 10));
    data := SetLane(data, 5, Lane(sData, 11));
    data := SetLane(data, 6, Lane(sData, 0));
    data := SetLane(data, 7, Lane(sData, 1));
    data := SetLane(data, 8, Lane(sData, 2));
    data := SetLane(data, 9, Lane(sData, 3));
    data := SetLane(data, 10, Lane(sData, 4));
    data := SetLane(data, 11, Lane(sData, 5));
  }

  lemma SlicesOfMac(x: nat)
    ensures Be48(x) == [Slice(x, 5), Slice(x, 4), Slice(x, 3), Slice(x, 2), Slice(x, 1), Slice(x, 0)]
  {
    TwoSlices(x, 4);
    FourBytes(x);
    SlicesOfIp(x % 0x1_0000_0000);
    SlicesOfRest(x);
    hide DropBytes, Slice, Be16, Be32;
  }

  lemma SlicesOfIp(x: nat)
    ensures Be32(x) == [Slice(x, 3), Slice(x, 2), Slice(x, 1), Slice(x, 0)]
  {
    TwoSlices(x, 2);
    TwoBytes(x);
    TwoSlices(x, 0);
    assert DropBytes(x, 0) == x;
    LowHalf(x);
    hide DropBytes, Slice, Be16;
  }

  lemma TwoSlices(x: nat, k: nat)
    ensures Be16(DropBytes(x, k)) == [Slice(x, k + 1), Slice(x, k)]
  {
  }

  lemma LowHalf(x: nat)
    ensures Be16(x % 0x1_0000) == Be16(x)
  {
    var q, r := x / 0x1_0000, x % 0x1_0000;
    assert x / 0x100 == q * 0x100 + r / 0x100;
  }

  lemma HalvesOfRest(x: nat)
    ensures x % 0x1_0000_0000 / 0x1_0000 == x / 0x1_0000 % 0x1_0000
    ensures x % 0x1_0000_0000 % 0x1_0000 == x % 0x1_0000
  {
    var q, r := x / 0x1_0000_0000, x % 0x1_0000_0000;
    assert x / 0x1_0000 == q * 0x1_0000 + r / 0x1_0000;
  }

  lemma TwoBytes(x: nat)
    ensures DropBytes(x, 2) == x / 0x1_0000
  {
    assert DropBytes(x, 1) == x / 0x100;
  }

  lemma FourBytes(x: nat)
    ensures DropBytes(x, 4) == x / 0x1_0000_0000
  {
    TwoBytes(x);
    assert DropBytes(x, 3) == DropBytes(x, 2) / 0x100;
  }

  /** The low four slices do not depend on what is above them. */
  lemma SlicesOfRest(x: nat)
    ensures Slice(x % 0x1_0000_0000, 0) == Slice(x, 0) && Slice(x % 0x1_0000_0000, 1) == Slice(x, 1)
    ensures Slice(x % 0x1_0000_0000, 2) == Slice(x, 2) && Slice(x % 0x1_0000_0000, 3) == Slice(x, 3)
  {
    var r := x % 0x1_0000_0000;
    LowHalf(x);
    LowHalf(r);
    TwoSlices(x, 0);
    TwoSlices(r, 0);
    assert DropBytes(x, 0) == x && DropBytes(r, 0) == r;
    TwoBytes(x);
    TwoBytes(r);
    LowHalf(x / 0x1_0000);
    LowHalf(r / 0x1_0000);
    TwoSlices(x, 2);
    TwoSlices(r, 2);
    HalvesOfRest(x);
    hide DropBytes, Slice, Be16;
  }

  /** MOD_MAC_SET. */
  method SetMacs(sData: seq<byte>, dst: nat, src: nat) returns (data: seq<byte>)
    ensures data == Overlay(sData, 0, Be48(dst) + Be48(src))
  {
    SlicesOfMac(dst);
    SlicesOfMac(src);
    hide Slice, Be48;
    data := sData;
    data := SetLane(data, 0, Slice(dst, 5));
    data := SetLane(data, 1, Slice(dst, 4));
    data := SetLane(data, 2, Slice(dst, 3));
    data := SetLane(data, 3, Slice(dst, 2));
    data := SetLane(data, 4, Slice(dst, 1));
    data := SetLane(data, 5, Slice(dst, 0));
    data := SetLane(data, 6, Slice(src, 5));
    data := SetLane(data, 7, Slice(src, 4));
    data := SetLane(data, 8, Slice(src, 3));
    data := SetLane(data, 9, Slice(src, 2));
    data := SetLane(data, 10, Slice(src, 1));
    data := SetLane(data, 11, Slice(src, 0));
  }

  /** MOD_IP_SET. */
  method SetIps(sData: seq<byte>, off: nat, src: nat, dst: nat) returns (data: seq<byte>)
    ensures data == Overlay(sData, off + 12, Be32(src) + Be32(dst))
  {
    SlicesOfIp(src);
    SlicesOfIp(dst);
    hide Slice, Be32;
    data := sData;
    data := SetLane(data, off + 12, Slice(src, 3));
    data := SetLane(data, off + 13, Slice(src, 2));
    data := SetLane(data, off + 14, Slice(src, 1));
    data := SetLane(data, off + 15, Slice(src, 0));
    data := SetLane(data, off + 16, Slice(dst, 3));
    data := SetLane(data, off + 17, Slice(dst, 2));
    data := SetLane(data, off + 18, Slice(dst, 1));
    data := SetLane(data, off + 19, Slice(dst, 0));
  }

  /** MOD_VLAN_PUSH: two downward loops with the tag bytes written in between. */
  method PushTag(sData: seq<byte>, sKeep: seq<bool>, prio: nat, id: nat) returns (data: seq<byte>, keep: seq<bool>)
    requires prio < 8 && id < 0x1000
    ensures data == Pushed(sData, prio, id) && keep == PushedKeep(sKeep)
  {
    data, keep := sData, sKeep;
    var i := |sData|;
    while i > 12
      invariant |data| == |sData|
      invariant forall j :: 0 <= j < |data| && (j < 12 || j < i) ==> data[j] == sData[j]
      invariant forall j :: 16 <= j < |data| && i <= j ==> data[j] == sData[j - 4]
    {
      i := i - 1;
      data := SetLane(data, i, if i >= 16 then Lane(sData, i - 4) else 0);
    }
    data := SetLane(data, 12, 0x81);
    data := SetLane(data, 13, 0x00);
    data := SetLane(data, 14, prio * 32 + id / 0x100);
    data := SetLane(data, 15, id % 0x100);
    i := |sKeep|;
    while i > 12
      invariant |keep| == |sKeep|
      invariant forall j :: 0 <= j < |keep| && (j < 12 || j < i) ==> keep[j] == sKeep[j]
      invariant forall j :: 16 <= j < |keep| && i <= j ==> keep[j] == sKeep[j - 4]
      invariant forall j :: 12 <= j < 16 && i <= j < |keep| ==> keep[j]
    {
      i := i - 1;
      keep := keep[i := if i >= 16 then sKeep[i - 4] else true];
    }
    assert data == Pushed(sData, prio, id);
  }

  /** MOD_VLAN_POP. */
  method PopTag(sData: seq<byte>, sKeep: seq<bool>) returns (data: seq<byte>, keep: seq<bool>)
    ensures data == Popped(sData) && keep == PoppedKeep(sKeep)
  {
    data, keep := sData, sKeep;
    var i := 12;
    while i < |sData|
      invariant |data| == |sData| && 12 <= i
      invariant forall j :: 0 <= j < |data| && (j < 12 || j >= i) ==> data[j] == sData[j]
      invariant forall j :: 12 <= j < i && j + 4 < |data| ==> data[j] == sData[j + 4]
      invariant forall j :: 12 <= j < i && j < |data| <= j + 4 ==> data[j] == 0
    {
      data := SetLane(data, i, if i + 4 < |sData| then Lane(sData, i + 4) else 0);
      i := i + 1;
    }
    i := 12;
    while i < |sKeep|
      invariant |keep| == |sKeep| && 12 <= i
      invariant forall j :: 0 <= j < |keep| && (j < 12 || j >= i) ==> keep[j] == sKeep[j]
      invariant forall j :: 12 <= j < i && j + 4 < |keep| ==> keep[j] == sKeep[j + 4]
      invariant forall j :: 12 <= j < i && j < |keep| <= j + 4 ==> !keep[j]
    {
      keep := keep[i := i + 4 < |sKeep| && sKeep[i + 4]];
      i := i + 1;
    }
  }

  /** MOD_DSCP_SET, with the same pair of checksum writes as the TTL action. */
  method SetDscp(sData: seq<byte>, off: nat, newDscp: nat) returns (data: seq<byte>)
    ensures data == DscpSetTo(sData, off, newDscp)
  {
    data := sData;
    var oldByte: nat := Lane(sData, off + 1);
    var newByte := newDscp % 64 * 4 + oldByte % 4;
    data := SetLane(data, off + 1, newByte);
    var csumVal := Word16(sData, off + 10);
    data := SetLaneBelow(data, (off + 11) * 8 - 1, (csumVal / 0x100 + (oldByte / 4 - newDscp % 64)) % 0x100);
    data := SetLane(data, off + 10, csumVal % 0x100);
  }

  /** MOD_ECN_SET. */
  method SetEcn(sData: seq<byte>, off: nat, newEcn: nat) returns (data: seq<byte>)
    ensures data == EcnSetTo(sData, off, newEcn)
  {
    data := sData;
    var oldByte := Lane(sData, off + 1);
    data := SetLane(data, off + 1, oldByte / 4 * 4 + newEcn % 4);
  }

  /** The combinational rewriting block. */
  method Rewrite(doMod: bool, b: Beat, i: Info) returns (out: Beat)
    ensures out == if doMod then Modified(b, i) else b
  {
    var data, keep := b.data, b.keep;
    var ipOff := if i.meta.vlanValid then 18 else 14;
    hide Overlay, Pushed, Popped, MacSwapped, TtlDecremented, DscpSetTo, EcnSetTo, Be32, Be48;
    if doMod {
      match i.action
      case TtlDec => data := DecrementTtl(b.data, ipOff);
      case MacSwap => data := SwapMacs(b.data);
      case MacSet => data := SetMacs(b.data, i.modData.newDstMac, i.modData.newSrcMac);
      case IpSet => data := SetIps(b.data, ipOff, i.modData.newSrcIp, i.modData.newDstIp);
      case VlanPush => data, keep := PushTag(b.data, b.keep, i.modData.vlanPrio % 8, i.modData.vlanId % 0x1000);
      case VlanPop => data, keep := PopTag(b.data, b.keep);
      case DscpSet =>
        if i.meta.ipv4Valid {
          data := SetDscp(b.data, ipOff, i.modData.newDscp);
        }
      case EcnSet =>
        if i.meta.ipv4Valid {
          data := SetEcn(b.data, ipOff, i.modData.newEcn);
        }
      case Nop =>
    }
    out := Beat(data, keep, b.last);
  }

  // ---------------------------------------------------------------------------
  // Tags and the parsers
  // ---------------------------------------------------------------------------

  /** e is d with four bytes inserted before lane 12, at least for the first n lanes of d. */
  ghost predicate Shifted(d: seq<byte>, e: seq<byte>, n: nat) {
    && (forall i :: 0 <= i < 12 ==> Lane(e, i) == Lane(d, i))
    && (forall i :: 12 <= i < n ==> Lane(e, i + 4) == Lane(d, i))
  }

  /** How many lanes of an untagged d the parsers look at. */
  function Extent(d: seq<byte>): (n: nat)
    ensures n >= 14
  {
    var m := Parse(d);
    var l4 := if IsTcp(m) then 14 + 4 * m.ipHdrLen + 16 else if IsUdp(m) then 14 + 4 * m.ipHdrLen + 4 else 14;
    if m.ipv4Valid && l4 < 34 then 34 else l4
  }

  /** An untagged first beat of a bus with the given number of lanes, whose headers still fit four lanes
      further on and whose layer-4 offset then still fits its 6-bit wire. */
  predicate RoomForTag(d: seq<byte>) {
    var m := Parse(d);
    && !m.vlanValid
    && Extent(d) + 4 <= |d|
    && (IsTcp(m) || IsUdp(m) ==> 18 + 4 * m.ipHdrLen < 64)
  }

  function Tagged(m: Metadata, tci: nat): Metadata {
    m.(vlanValid := true, vlanId := tci % 0x1000, vlanPrio := tci / 0x2000, vlanCfi := tci / 0x1000 % 2)
  }

  lemma WordsShift(d: seq<byte>, e: seq<byte>, n: nat, i: nat)
    requires Shifted(d, e, n) && 12 <= i
    ensures i + 2 <= n ==> Word16(e, i + 4) == Word16(d, i)
    ensures i + 4 <= n ==> Word32(e, i + 4) == Word32(d, i)
  {
  }

  lemma EthernetShift(d: seq<byte>, e: seq<byte>, m: Metadata)
    requires Shifted(d, e, 14) && Word16(d, 12) != ETYPE_VLAN && Word16(e, 12) == ETYPE_VLAN
    ensures VlanMeta(d, EthernetMeta(d, m)) == EthernetMeta(d, m)
    ensures VlanMeta(e, EthernetMeta(e, m)) == Tagged(EthernetMeta(d, m), Word16(e, 14))
  {
    WordsShift(d, e, 14, 12);
  }

  lemma Ipv4Shift(d: seq<byte>, e: seq<byte>, m: Metadata, tci: nat)
    requires !m.vlanValid && Shifted(d, e, 14) && (m.ethertype == ETYPE_IPV4 ==> Shifted(d, e, 34))
    ensures Ipv4Meta(e, Tagged(m, tci)) == Tagged(Ipv4Meta(d, m), tci)
  {
    if m.ethertype == ETYPE_IPV4 {
      OnesSumShift(d, e, 14, 4, 10);
      WordsShift(d, e, 34, 26);
      WordsShift(d, e, 34, 30);
      hide Word32, OnesSum;
    }
  }

  lemma OffsetShift(m: Metadata, tci: nat)
    requires !m.vlanValid && 18 + 4 * m.ipHdrLen < 64
    ensures L4Offset(m) == 14 + 4 * m.ipHdrLen && L4Offset(Tagged(m, tci)) == 18 + 4 * m.ipHdrLen
  {
  }

  lemma UdpShift(d: seq<byte>, e: seq<byte>, m: Metadata, tci: nat)
    requires !m.vlanValid
    requires IsUdp(m) ==> 18 + 4 * m.ipHdrLen < 64 && Shifted(d, e, 14 + 4 * m.ipHdrLen + 4)
    ensures UdpMeta(e, Tagged(m, tci)) == Tagged(UdpMeta(d, m), tci)
  {
    if IsUdp(m) {
      var off := 14 + 4 * m.ipHdrLen;
      OffsetShift(m, tci);
      WordsShift(d, e, off + 4, off);
      WordsShift(d, e, off + 4, off + 2);
      hide Word16, L4Offset;
    }
  }

  lemma TcpShift(d: seq<byte>, e: seq<byte>, m: Metadata, tci: nat)
    requires !m.vlanValid
    requires IsTcp(m) ==> 18 + 4 * m.ipHdrLen < 64 && Shifted(d, e, 14 + 4 * m.ipHdrLen + 16)
    ensures TcpMeta(e, Tagged(m, tci)) == Tagged(TcpMeta(d, m), tci)
  {
    if IsTcp(m) {
      var off := 14 + 4 * m.ipHdrLen;
      OffsetShift(m, tci);
      TcpWordsShift(d, e, off);
      hide Word16, Word32, L4Offset, Lane, Shifted;
    }
  }

  lemma TcpWordsShift(d: seq<byte>, e: seq<byte>, off: nat)
    requires 12 <= off && Shifted(d, e, off + 16)
    ensures Word16(e, off + 4) == Word16(d, off) && Word16(e, off + 6) == Word16(d, off + 2)
    ensures Word32(e, off + 8) == Word32(d, off + 4) && Word32(e, off + 12) == Word32(d, off + 8)
    ensures Lane(e, off + 17) == Lane(d, off + 13) && Word16(e, off + 18) == Word16(d, off + 14)
  {
    WordsShift(d, e, off + 16, off);
    WordsShift(d, e, off + 16, off + 2);
    WordsShift(d, e, off + 16, off + 4);
    WordsShift(d, e, off + 16, off + 8);
    WordsShift(d, e, off + 16, off + 14);
    hide Word16, Word32;
  }

  /** Inserting a tag changes the tag fields of the parse and nothing else. */
  lemma ParseShift(d: seq<byte>, e: seq<byte>)
    requires RoomForTag(d) && Shifted(d, e, Extent(d)) && Word16(e, 12) == ETYPE_VLAN
    ensures Parse(e) == Tagged(Parse(d), Word16(e, 14))
  {
    var tci := Word16(e, 14);
    var m1 := EthernetMeta(d, NO_METADATA);
    var m2 := Ipv4Meta(d, m1);
    var m3 := UdpMeta(d, m2);
    EthernetShift(d, e, NO_METADATA);
    Ipv4Shift(d, e, m1, tci);
    UdpShift(d, e, m2, tci);
    TcpShift(d, e, m3, tci);
  }

  /** The tag a push writes. */
  function Tci(prio: nat, id: nat): nat {
    prio * 0x2000 + id
  }

  lemma TagFields(m: Metadata, prio: nat, id: nat)
    requires prio < 8 && id < 0x1000
    ensures Tagged(m, Tci(prio, id)) == m.(vlanValid := true, vlanId := id, vlanPrio := prio, vlanCfi := 0)
  {
    var tci := Tci(prio, id);
    assert tci == 0x1000 * (2 * prio) + id;
    assert tci % 0x1000 == id && tci / 0x1000 == 2 * prio && tci / 0x2000 == prio;
    hide Tci;
  }

  lemma TagWord(prio: nat, id: nat)
    requires prio < 8 && id < 0x1000
    ensures var t := TagBytes(prio, id); t[2] as int * 0x100 + t[3] as int == Tci(prio, id)
  {
  }

  lemma PushShifts(d: seq<byte>, prio: nat, id: nat)
    requires prio < 8 && id < 0x1000 && |d| >= 18
    ensures Shifted(d, Pushed(d, prio, id), |d| - 4)
    ensures Word16(Pushed(d, prio, id), 12) == ETYPE_VLAN && Word16(Pushed(d, prio, id), 14) == Tci(prio, id)
  {
    var t := TagBytes(prio, id);
    assert t[0] == 0x81 && t[1] == 0x00;
    TagWord(prio, id);
    hide TagBytes, Tci;
  }

  /** A pushed tag is seen by the parsers, and everything above layer 2 is parsed as before. */
  lemma PushIsInvisibleAboveL2(d: seq<byte>, prio: nat, id: nat)
    requires prio < 8 && id < 0x1000 && RoomForTag(d)
    ensures Parse(Pushed(d, prio, id)) == Parse(d).(vlanValid := true, vlanId := id, vlanPrio := prio, vlanCfi := 0)
  {
    hide Parse;
    PushShifts(d, prio, id);
    ParseShift(d, Pushed(d, prio, id));
    TagFields(Parse(d), prio, id);
  }

  /** Pop undoes push on every lane but the top four; the lane enables come back exactly when the
      top four lanes were unused. */
  lemma PopAfterPush(d: seq<byte>, k: seq<bool>, prio: nat, id: nat)
    requires prio < 8 && id < 0x1000 && |d| == |k| >= 16
    ensures var d', k' := Popped(Pushed(d, prio, id)), PoppedKeep(PushedKeep(k));
      && (forall i :: 0 <= i < |d| - 4 ==> d'[i] == d[i] && k'[i] == k[i])
      && (k' == k <==> forall i :: |k| - 4 <= i < |k| ==> !k[i])
      && (k' == k ==> forall i :: 0 <= i < |k| && k[i] ==> d'[i] == d[i])
  {
    var k' := PoppedKeep(PushedKeep(k));
    assert forall i :: |k| - 4 <= i < |k| ==> !k'[i];
  }

  /** Push undoes pop exactly when the beat carried the tag that is pushed and its lanes were in use. */
  lemma PushAfterPopExactlyWhen(d: seq<byte>, k: seq<bool>, prio: nat, id: nat)
    requires prio < 8 && id < 0x1000 && |d| == |k| >= 16
    ensures Pushed(Popped(d), prio, id) == d && PushedKeep(PoppedKeep(k)) == k <==>
      Word16(d, 12) == ETYPE_VLAN && Word16(d, 14) == Tci(prio, id) && k[12] && k[13] && k[14] && k[15]
  {
    var d', k' := Pushed(Popped(d), prio, id), PushedKeep(PoppedKeep(k));
    assert forall i :: 0 <= i < |d| && !(12 <= i < 16) ==> d'[i] == d[i] && k'[i] == k[i];
    assert d'[12..16] == TagBytes(prio, id);
    assert d' == d <==> d[12] == d'[12] && d[13] == d'[13] && d[14] == d'[14] && d[15] == d'[15];
    assert k' == k <==> k[12] && k[13] && k[14] && k[15];
  }

  /** Swapping the addresses twice restores the beat, and the parsers see just the exchange. */
  lemma MacSwapParses(d: seq<byte>)
    requires |d| >= 12
    ensures MacSwapped(MacSwapped(d)) == d
    ensures var m := EthernetMeta(d, NO_METADATA);
      EthernetMeta(MacSwapped(d), NO_METADATA) == m.(dstMac := m.srcMac, srcMac := m.dstMac)
  {
  }

  /** Addresses that were set are the addresses that are parsed. */
  lemma MacSetParses(d: seq<byte>, dst: nat, src: nat, m: Metadata)
    requires |d| >= 14 && dst < 0x1_0000_0000_0000 && src < 0x1_0000_0000_0000
    ensures EthernetMeta(Overlay(d, 0, Be48(dst) + Be48(src)), m) == EthernetMeta(d, m).(dstMac := dst, srcMac := src)
  {
    var e := Overlay(d, 0, Be48(dst) + Be48(src));
    OverlayPair(d, 0, Be48(dst), Be48(src));
    Be48At(e, 0, dst);
    Be48At(e, 6, src);
    hide Mac, Be48;
  }

  lemma OverlayPair(d: seq<byte>, at: nat, a: seq<byte>, b: seq<byte>)
    requires at + |a| + |b| <= |d|
    ensures var e := Overlay(d, at, a + b);
      e[at..at + |a|] == a && e[at + |a|..at + |a| + |b|] == b
  {
    var e := Overlay(d, at, a + b);
    forall i | at <= i < at + |a| ensures e[i] == a[i - at] {
      assert e[i] == (a + b)[i - at];
    }
    forall i | at + |a| <= i < at + |a| + |b| ensures e[i] == b[i - at - |a|] {
      assert e[i] == (a + b)[i - at];
    }
  }

  lemma Be48At(d: seq<byte>, at: nat, x: nat)
    requires at + 6 <= |d| && x < 0x1_0000_0000_0000 && d[at..at + 6] == Be48(x)
    ensures Mac(d, at) == x
  {
    var s := d[at..at + 6];
    assert s[..2] == Be16(x / 0x1_0000_0000) && s[2..] == Be32(x % 0x1_0000_0000);
    assert d[at + 2..at + 6] == s[2..];
    Be32At(d, at + 2, x % 0x1_0000_0000);
    Be16At(d, at, x / 0x1_0000_0000);
    hide Be16, Be32, Word16, Word32;
  }

  lemma Be16At(d: seq<byte>, at: nat, x: nat)
    requires at + 2 <= |d| && x < 0x1_0000 && d[at..at + 2] == Be16(x)
    ensures Word16(d, at) == x
  {
    assert d[at] == Be16(x)[0] && d[at + 1] == Be16(x)[1];
  }

  lemma Be32At(d: seq<byte>, at: nat, x: nat)
    requires at + 4 <= |d| && x < 0x1_0000_0000 && d[at..at + 4] == Be32(x)
    ensures Word32(d, at) == x
  {
    var s := d[at..at + 4];
    assert d[at..at + 2] == s[..2] == Be16(x / 0x1_0000) && d[at + 2..at + 4] == s[2..] == Be16(x % 0x1_0000);
    Be16At(d, at, x / 0x1_0000);
    Be16At(d, at + 2, x % 0x1_0000);
    hide Be16, Word16;
  }

  lemma IpSetParses(d: seq<byte>, src: nat, dst: nat, m: Metadata)
    requires m.ethertype == ETYPE_IPV4 && IpOffset(m) + 20 <= |d| && src < 0x1_0000_0000 && dst < 0x1_0000_0000
    ensures var e := Overlay(d, IpOffset(m) + 12, Be32(src) + Be32(dst));
      Ipv4Meta(e, m) == Ipv4Meta(d, m).(srcIp := src, dstIp := dst, ipChecksumOk := ChecksumOk(e, IpOffset(m)))
  {
    var off := IpOffset(m);
    var e := Overlay(d, off + 12, Be32(src) + Be32(dst));
    OverlayPair(d, off + 12, Be32(src), Be32(dst));
    assert forall i :: 0 <= i < |d| && i < off + 12 ==> e[i] == d[i];
    Be32At(e, off + 12, src);
    Be32At(e, off + 16, dst);
    hide Word32, Be32, ChecksumOk, IpOffset;
  }

  // ---------------------------------------------------------------------------
  // What each action does with which operand
  // ---------------------------------------------------------------------------

  /** Only lanes lo, ..., hi - 1 may differ. */
  ghost predicate SameOutside(b: Beat, e: Beat, lo: nat, hi: nat) {
    && |e.data| == |b.data| && e.keep == b.keep && e.last == b.last
    && forall k :: 0 <= k < |b.data| && !(lo <= k < hi) ==> e.data[k] == b.data[k]
  }

  /** MAC set: the parser sees the new destination and the new source. */
  lemma MacSetAction(b: Beat, i: Info, m: Metadata)
    requires i.action == MacSet && |b.data| >= 14
    requires i.modData.newDstMac < 0x1_0000_0000_0000 && i.modData.newSrcMac < 0x1_0000_0000_0000
    ensures var e := Modified(b, i);
      && EthernetMeta(e.data, m)
        == EthernetMeta(b.data, m).(dstMac := i.modData.newDstMac, srcMac := i.modData.newSrcMac)
      && SameOutside(b, e, 0, 12)
  {
    MacSetParses(b.data, i.modData.newDstMac, i.modData.newSrcMac, m);
    hide EthernetMeta, Be48;
  }

  /** MAC swap: the parser sees the two addresses exchanged. */
  lemma MacSwapAction(b: Beat, i: Info)
    requires i.action == MacSwap && |b.data| >= 14
    ensures var e, m := Modified(b, i), EthernetMeta(b.data, NO_METADATA);
      && EthernetMeta(e.data, NO_METADATA) == m.(dstMac := m.srcMac, srcMac := m.dstMac)
      && SameOutside(b, e, 0, 12)
  {
    MacSwapParses(b.data);
    hide EthernetMeta;
  }

  /** IP set: the parser sees the new source and the new destination, behind a tag if there is one. */
  lemma IpSetAction(b: Beat, i: Info, m: Metadata)
    requires i.action == IpSet && m.ethertype == ETYPE_IPV4 && m.vlanValid == i.meta.vlanValid
    requires |b.data| >= (if i.meta.vlanValid then 38 else 34)
    requires i.modData.newSrcIp < 0x1_0000_0000 && i.modData.newDstIp < 0x1_0000_0000
    ensures var e, off := Modified(b, i), if i.meta.vlanValid then 18 else 14;
      && Ipv4Meta(e.data, m) == Ipv4Meta(b.data, m).(srcIp := i.modData.newSrcIp, dstIp := i.modData.newDstIp,
                                                     ipChecksumOk := ChecksumOk(e.data, off))
      && SameOutside(b, e, off + 12, off + 20)
  {
    var e := Overlay(b.data, IpOffset(m) + 12, Be32(i.modData.newSrcIp) + Be32(i.modData.newDstIp));
    assert Modified(b, i) == b.(data := e);
    hide Modified, Ipv4Meta, ChecksumOk, Be32;
    IpSetParses(b.data, i.modData.newSrcIp, i.modData.newDstIp, m);
  }

  /** VLAN push: the parsers see the new identifier and priority, and everything else as before. */
  lemma VlanPushAction(b: Beat, i: Info)
    requires i.action == VlanPush && RoomForTag(b.data) && i.modData.vlanId < 0x1000 && i.modData.vlanPrio < 8
    ensures Parse(Modified(b, i).data)
      == Parse(b.data).(vlanValid := true, vlanId := i.modData.vlanId, vlanPrio := i.modData.vlanPrio, vlanCfi := 0)
    ensures Modified(b, i).last == b.last
  {
    hide Parse, Pushed, PushedKeep, RoomForTag, Tagged, Extent;
    assert Modified(b, i).data == Pushed(b.data, i.modData.vlanPrio, i.modData.vlanId);
    assert Modified(b, i).last == b.last;
    hide Modified;
    PushIsInvisibleAboveL2(b.data, i.modData.vlanPrio, i.modData.vlanId);
  }

  /** VLAN pop: the tag is gone, and the parsers see everything else as before. */
  lemma VlanPopAction(b: Beat, i: Info)
    requires i.action == VlanPop && Word16(b.data, 12) == ETYPE_VLAN && RoomForTag(Modified(b, i).data)
    ensures var tci := Word16(b.data, 14);
      Parse(b.data) == Parse(Modified(b, i).data).(vlanValid := true, vlanId := tci % 0x1000, vlanPrio := tci / 0x2000,
                                                   vlanCfi := tci / 0x1000 % 2)
    ensures Modified(b, i).last == b.last
  {
    var d := Popped(b.data);
    assert Modified(b, i).data == d && Modified(b, i).last == b.last;
    PopShifts(b.data, Extent(d));
    hide Modified, Popped, Parse, Extent;
    ParseShift(d, b.data);
  }

  lemma PopShifts(d: seq<byte>, n: nat)
    requires n + 4 <= |d|
    ensures Shifted(Popped(d), d, n)
  {
  }

  /** VLAN pop undoes VLAN push, but for the top four lanes, which come back empty. */
  lemma VlanPopUndoesPush(b: Beat, i: Info, j: Info)
    requires i.action == VlanPush && j.action == VlanPop && |b.data| == |b.keep| >= 16
    ensures var e, n := Modified(Modified(b, i), j), |b.data| - 4;
      && |e.data| == |b.data| && |e.keep| == |b.keep| && e.last == b.last
      && e.data[..n] == b.data[..n] && e.keep[..n] == b.keep[..n]
      && forall k :: n <= k < |b.data| ==> e.data[k] == 0 && !e.keep[k]
  {
    PopAfterPush(b.data, b.keep, i.modData.vlanPrio % 8, i.modData.vlanId % 0x1000);
    hide TagBytes;
  }

  /** DSCP set: with a valid IPv4 header its upper six bits of the second byte are new, and the checksum's high byte is
      overwritten by its low byte; without one nothing happens. */
  lemma DscpSetAction(b: Beat, i: Info)
    requires i.action == DscpSet && |b.data| >= 34 && i.modData.newDscp < 64
    ensures !i.meta.ipv4Valid ==> Modified(b, i) == b
    ensures i.meta.ipv4Valid ==>
      var e, off := Modified(b, i), if i.meta.vlanValid then 18 else 14;
      && e.data[off + 1] as int / 4 == i.modData.newDscp && e.data[off + 1] as int % 4 == b.data[off + 1] as int % 4
      && e.data[off + 10] == b.data[off + 11]
      && SameOutside(b, e, off + 1, off + 11) && e.data[off + 2..off + 10] == b.data[off + 2..off + 10]
  {
  }

  /** TTL decrement, with or without an IPv4 header: the byte in the TTL's place is one less on eight bits, and the one
      in the place of the checksum's high byte is overwritten by the next. */
  lemma TtlDecAction(b: Beat, i: Info)
    requires i.action == TtlDec && |b.data| >= 34
    ensures var e, off := Modified(b, i), if i.meta.vlanValid then 18 else 14;
      && e.data[off + 8] as int == (if b.data[off + 8] == 0 then 255 else b.data[off + 8] as int - 1)
      && e.data[off + 9] == b.data[off + 9] && e.data[off + 10] == b.data[off + 11]
      && SameOutside(b, e, off + 8, off + 11)
  {
  }

  /** ECN set: with a valid IPv4 header the lower two bits of its second byte are new; otherwise nothing happens. */
  lemma EcnSetAction(b: Beat, i: Info)
    requires i.action == EcnSet && |b.data| >= 34 && i.modData.newEcn < 4
    ensures !i.meta.ipv4Valid ==> Modified(b, i) == b
    ensures i.meta.ipv4Valid ==>
      var e, at := Modified(b, i), if i.meta.vlanValid then 19 else 15;
      && e.data[at] as int % 4 == i.modData.newEcn && e.data[at] as int / 4 == b.data[at] as int / 4
      && SameOutside(b, e, at, at + 1)
  {
  }

  /** A header that passed the check before its TTL was decremented passes it afterwards exactly when
      the checksum's low byte was one more than its high byte (modulo the wrap of a zero TTL). */
  lemma TtlDecrementKeepsChecksumExactlyWhen(d: seq<byte>, off: nat)
    requires off + 20 <= |d| && ChecksumOk(d, off)
    ensures ChecksumOk(TtlDecremented(d, off), off) <==>
      Lane(d, off + 11) - Lane(d, off + 10) == if Lane(d, off + 8) == 0 then -255 else 1
  {
    var e := TtlDecremented(d, off);
    var delta := (Lane(d, off + 8) + 0xFF) % 0x100 - Lane(d, off + 8) + Lane(d, off + 11) - Lane(d, off + 10);
    TtlWords(d, off);
    OkMeansDivisible(d, off);
    OkMeansDivisible(e, off);
    hide WordSum, ChecksumOk, TtlDecremented;
    DivisibleStep(WordSum(d, off, 10), WordSum(e, off, 10), delta);
  }

  lemma TtlWords(d: seq<byte>, off: nat)
    requires off + 20 <= |d|
    ensures WordSum(TtlDecremented(d, off), off, 10) == WordSum(d, off, 10)
      + 256 * ((Lane(d, off + 8) + 0xFF) % 0x100 - Lane(d, off + 8) + Lane(d, off + 11) - Lane(d, off + 10))
  {
    var e := TtlDecremented(d, off);
    TenWords(d, off);
    TenWords(e, off);
    assert Lane(e, off + 8) == (Lane(d, off + 8) + 0xFF) % 0x100 && Lane(e, off + 10) == Lane(d, off + 11);
    assert forall i :: 0 <= i < |d| && i != off + 8 && i != off + 10 ==> Lane(e, i) == Lane(d, i);
    hide WordSum, TtlDecremented, Lane, Overlay;
  }

  /** Setting the DSCP field keeps a valid header valid only if it changes nothing: neither the field
      nor, through the misplaced write, the checksum. */
  lemma DscpSetKeepsChecksumExactlyWhen(d: seq<byte>, off: nat, dscp: nat)
    requires off + 20 <= |d| && ChecksumOk(d, off)
    ensures ChecksumOk(DscpSetTo(d, off, dscp), off) <==>
      dscp % 64 == Lane(d, off + 1) / 4 && Lane(d, off + 10) == Lane(d, off + 11)
  {
    var e := DscpSetTo(d, off, dscp);
    DscpWords(d, off, dscp);
    OkMeansDivisible(d, off);
    OkMeansDivisible(e, off);
    hide WordSum, ChecksumOk, DscpSetTo;
    NoSmallMultiple(WordSum(d, off, 10), WordSum(e, off, 10),
                    dscp % 64 * 4 - Lane(d, off + 1) / 4 * 4, Lane(d, off + 11) - Lane(d, off + 10));
  }

  /** Setting the ECN field never updates the checksum, so a valid header stays valid only if the field is kept. */
  lemma EcnSetKeepsChecksumExactlyWhen(d: seq<byte>, off: nat, ecn: nat)
    requires off + 20 <= |d| && ChecksumOk(d, off)
    ensures ChecksumOk(EcnSetTo(d, off, ecn), off) <==> ecn % 4 == Lane(d, off + 1) % 4
  {
    var e := EcnSetTo(d, off, ecn);
    EcnWords(d, off, ecn);
    OkMeansDivisible(d, off);
    OkMeansDivisible(e, off);
    hide WordSum, ChecksumOk, EcnSetTo;
    NoSmallMultiple(WordSum(d, off, 10), WordSum(e, off, 10), ecn % 4 - Lane(d, off + 1) % 4, 0);
  }

  /** An IPv4 frame with a valid header that each of the three actions damages. */
  lemma DamagedHeader() returns (d: seq<byte>)
    ensures |d| == 34 && Word16(d, 12) == ETYPE_IPV4 && ChecksumOk(d, 14)
    ensures !ChecksumOk(TtlDecremented(d, 14), 14)
    ensures !ChecksumOk(DscpSetTo(d, 14, 1), 14)
    ensures !ChecksumOk(EcnSetTo(d, 14, 1), 14)
  {
    d := [0, 0, 0, 0, 0, 0, 0, 0, 0, 0, 0, 0, 0x08, 0x00]
      + [0x45, 0x00, 0x00, 0x73, 0x00, 0x00, 0x40, 0x00, 0x40, 0x11]
      + [0xB8, 0x61, 0xC0, 0xA8, 0x00, 0x01, 0xC0, 0xA8, 0x00, 0xC7];
    hide OnesSum, WordSum, TtlDecremented, DscpSetTo, EcnSetTo;
    TenWords(d, 14);
    OkMeansDivisible(d, 14);
    hide ChecksumOk;
    TtlDecrementKeepsChecksumExactlyWhen(d, 14);
    DscpSetKeepsChecksumExactlyWhen(d, 14, 1);
    EcnSetKeepsChecksumExactlyWhen(d, 14, 1);
  }

  lemma EcnWords(d: seq<byte>, off: nat, ecn: nat)
    requires off + 20 <= |d|
    ensures WordSum(EcnSetTo(d, off, ecn), off, 10) == WordSum(d, off, 10) + (ecn % 4 - Lane(d, off + 1) % 4)
  {
    var e := EcnSetTo(d, off, ecn);
    TenWords(d, off);
    TenWords(e, off);
    assert Lane(e, off + 1) == Lane(d, off + 1) / 4 * 4 + ecn % 4;
    assert forall i :: 0 <= i < |d| && i != off + 1 ==> Lane(e, i) == Lane(d, i);
    hide WordSum, EcnSetTo, Lane, Overlay;
  }

  lemma DscpWords(d: seq<byte>, off: nat, dscp: nat)
    requires off + 20 <= |d|
    ensures WordSum(DscpSetTo(d, off, dscp), off, 10) == WordSum(d, off, 10)
      + (dscp % 64 * 4 - Lane(d, off + 1) / 4 * 4) + 256 * (Lane(d, off + 11) - Lane(d, off + 10))
  {
    var e := DscpSetTo(d, off, dscp);
    TenWords(d, off);
    TenWords(e, off);
    assert Lane(e, off + 1) == dscp % 64 * 4 + Lane(d, off + 1) % 4 && Lane(e, off + 10) == Lane(d, off + 11);
    assert forall i :: 0 <= i < |d| && i != off + 1 && i != off + 10 ==> Lane(e, i) == Lane(d, i);
    hide WordSum, DscpSetTo, Lane, Overlay;
  }

  lemma NoSmallMultiple(s: nat, t: nat, low: int, high: int)
    requires s > 0 && s % 0xFFFF == 0 && t == s + low + 256 * high && -252 <= low <= 252 && -255 <= high <= 255
    ensures t > 0 && t % 0xFFFF == 0 <==> low == 0 && high == 0
  {
    if t % 0xFFFF == 0 {
      var q, r := s / 0xFFFF, t / 0xFFFF;
      assert low + 256 * high == 0xFFFF * (r - q);
    }
  }

  lemma DivisibleStep(s: nat, t: nat, delta: int)
    requires s > 0 && s % 0xFFFF == 0 && -510 <= delta <= 510 && t == s + 256 * delta
    ensures t > 0 && t % 0xFFFF == 0 <==> delta == 0
  {
    if t % 0xFFFF == 0 {
      var q, r := s / 0xFFFF, t / 0xFFFF;
      assert 256 * delta == 0xFFFF * (r - q);
    }
  }

  // ---------------------------------------------------------------------------
  // First-beat detection
  // ---------------------------------------------------------------------------

  /** The modifier's registers: prev_tlast and the pipeline slot. */
  datatype ModStage = ModStage(prevLast: bool, slot: Option<Beat>)

  predicate ModReady(s: ModStage, mReady: bool) {
    mReady || s.slot.None?
  }

  /** The beat that goes into the slot: rewritten if prev_tlast says that it is a first beat. */
  function Rewritten(s: ModStage, x: Token): Beat {
    if s.prevLast then Modified(x.beat, x.info) else x.beat
  }

  /** prev_tlast follows every offered beat, also one that is not accepted. */
  function ModNext(s: ModStage, x: Option<Token>, mReady: bool): ModStage {
    ModStage(
      if x.Some? then x.value.beat.last else s.prevLast,
      if ModReady(s, mReady) then (if x.Some? then Some(Rewritten(s, x.value)) else None) else s.slot)
  }

  datatype ModPins = ModPins(x: Option<Token>, mReady: bool)

  const MOD_RESET := ModStage(true, None)

  /** The modifier before edge t of a run from reset. */
  function ModAt(run: seq<ModPins>, t: nat): ModStage
    requires t <= |run|
  {
    if t == 0 then MOD_RESET else ModNext(ModAt(run, t - 1), run[t - 1].x, run[t - 1].mReady)
  }

  predicate TakenAt(run: seq<ModPins>, t: nat)
    requires t < |run|
  {
    run[t].x.Some? && ModReady(ModAt(run, t), run[t].mReady)
  }

  /** The beat offered at edge t was already offered, in vain, one edge before. */
  predicate WasStalled(run: seq<ModPins>, t: nat)
    requires t <= |run|
  {
    t > 0 && run[t - 1].x.Some? && !TakenAt(run, t - 1)
  }

  /** The next accepted beat opens a packet: none was accepted yet, or the latest one was a last beat. */
  predicate OpensPacket(run: seq<ModPins>, t: nat)
    requires t <= |run|
  {
    if t == 0 then true
    else if TakenAt(run, t - 1) then run[t - 1].x.value.beat.last
    else OpensPacket(run, t - 1)
  }

  /** A beat that is not accepted is offered again (section 2.2.1 of ARM IHI 0051A). */
  ghost predicate Persistent(run: seq<ModPins>) {
    forall t: nat :: t < |run| && WasStalled(run, t) ==> run[t].x == run[t - 1].x
  }

  lemma {:induction false} PrevLastMeans(run: seq<ModPins>, t: nat)
    requires Persistent(run) && t <= |run|
    ensures ModAt(run, t).prevLast == if WasStalled(run, t) then run[t - 1].x.value.beat.last else OpensPacket(run, t)
  {
    if t > 0 {
      PrevLastMeans(run, t - 1);
      assert WasStalled(run, t - 1) ==> run[t - 1].x == run[t - 2].x;
    }
  }

  /** The modifier treats an accepted beat as a first beat exactly when it should, unless the beat
      had to wait: a beat that waited is treated as a first beat if it is a last beat, so that it
      is handled rightly only if it is both the first and the last beat of its packet, or neither. */
  lemma FirstBeatIsRecognisedExactlyWhen(run: seq<ModPins>, t: nat)
    requires Persistent(run) && t < |run| && TakenAt(run, t)
    ensures ModAt(run, t).prevLast == OpensPacket(run, t) <==>
      !WasStalled(run, t) || run[t].x.value.beat.last == OpensPacket(run, t)
  {
    PrevLastMeans(run, t);
  }

  /** The beats accepted before edge t. */
  function Taken(run: seq<ModPins>, t: nat): (xs: seq<Token>)
    requires t <= |run|
  {
    if t == 0 then [] else Taken(run, t - 1) + if TakenAt(run, t - 1) then [run[t - 1].x.value] else []
  }

  /** Which of them had to wait. */
  function Waits(run: seq<ModPins>, t: nat): (ws: seq<bool>)
    requires t <= |run|
    ensures |ws| == |Taken(run, t)|
  {
    if t == 0 then [] else Waits(run, t - 1) + if TakenAt(run, t - 1) then [WasStalled(run, t - 1)] else []
  }

  /** What was put into the slot for them. */
  function Written(run: seq<ModPins>, t: nat): (bs: seq<Beat>)
    requires t <= |run|
    ensures |bs| == |Taken(run, t)|
  {
    if t == 0 then []
    else
      Written(run, t - 1)
      + if TakenAt(run, t - 1) then [Rewritten(ModAt(run, t - 1), run[t - 1].x.value)] else []
  }

  /** What becomes of a beat: one that had to wait is rewritten if it is a last beat, any other one if
      it is a first beat. */
  function Outcome(b: Beat, i: Info, first: bool, waited: bool): Beat {
    if (if waited then b.last else first) then Modified(b, i) else b
  }

  lemma {:induction false} OpensPacketMeans(run: seq<ModPins>, t: nat)
    requires t <= |run|
    ensures OpensPacket(run, t) <==> Taken(run, t) == [] || Taken(run, t)[|Taken(run, t)| - 1].beat.last
  {
    if t > 0 {
      OpensPacketMeans(run, t - 1);
    }
  }

  /** What the modifier makes of a whole stream of packets under any stalls. */
  lemma {:induction false} WrittenExactly(run: seq<ModPins>, t: nat, i: nat)
    requires Persistent(run) && t <= |run| && i < |Taken(run, t)|
    ensures var xs := Taken(run, t);
      Written(run, t)[i] == Outcome(xs[i].beat, xs[i].info, Head(xs, i) == i, Waits(run, t)[i])
  {
    hide Modified, ModNext, OpensPacket, Head;
    if t > 0 {
      var xs, before := Taken(run, t), Taken(run, t - 1);
      if i < |before| {
        WrittenExactly(run, t - 1, i);
        SameHeads(xs, before, |before|, i);
      } else {
        PrevLastMeans(run, t - 1);
        OpensPacketMeans(run, t - 1);
        FirstOfPacket(xs, i);
      }
    }
  }

  lemma FirstOfPacket(xs: seq<Token>, i: nat)
    requires i < |xs|
    ensures Head(xs, i) == i <==> i == 0 || xs[i - 1].beat.last
  {
  }

  /** A first beat that has to wait one edge behind an occupied slot is passed on as it is, whatever the orders. */
  lemma StalledFirstBeatIsMissed(a: Token, b: Token)
    requires a.beat.last && !b.beat.last
    ensures var run := [ModPins(Some(a), true), ModPins(Some(b), false), ModPins(Some(b), true)];
      && Persistent(run) && TakenAt(run, 2) && OpensPacket(run, 2)
      && Written(run, 3) == [Modified(a.beat, a.info), b.beat]
  {
    hide Modified;
    var run := [ModPins(Some(a), true), ModPins(Some(b), false), ModPins(Some(b), true)];
    assert ModAt(run, 1) == ModNext(MOD_RESET, Some(a), true);
    assert ModAt(run, 2) == ModNext(ModAt(run, 1), Some(b), false);
    assert !TakenAt(run, 1) && TakenAt(run, 0);
    assert Written(run, 1) == [Modified(a.beat, a.info)];
    assert Written(run, 2) == Written(run, 1);
  }

  // ---------------------------------------------------------------------------
  // The registers
  // ---------------------------------------------------------------------------

  class Modifier {
    var prevTlast: bool
    var pipeValid: bool
    var pipeBeat: Beat

    ghost function State(): ModStage
      reads this
    {
      ModStage(prevTlast, if pipeValid then Some(pipeBeat) else None)
    }

    constructor ()
      ensures State() == MOD_RESET
    {
      prevTlast, pipeValid := true, false;
    }

    predicate SReady(mReady: bool)
      reads this
      ensures SReady(mReady) <==> ModReady(State(), mReady)
    {
      mReady || !pipeValid
    }

    function MValid(): (v: bool)
      reads this
      ensures v <==> State().slot.Some?
      ensures v ==> State().slot == Some(pipeBeat)
    {
      pipeValid
    }

    method Clock(rstN: bool, sValid: bool, s: Token, mReady: bool)
      modifies this
      ensures State() == if rstN then ModNext(old(State()), if sValid then Some(s) else None, mReady) else MOD_RESET
    {
      var sReady := SReady(mReady);
      var doMod := sValid && sReady && prevTlast;
      var modBeat := Rewrite(doMod, s.beat, s.info);
      if !rstN {
        prevTlast := true;
      } else if sValid {
        prevTlast := s.beat.last;
      }
      if !rstN {
        pipeValid := false;
      } else if mReady || !pipeValid {
        pipeBeat := modBeat;
        pipeValid := sValid;
      }
    }
  }
}
