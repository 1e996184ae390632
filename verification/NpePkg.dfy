/**
  Shared types (rtl/common/npe_pkg.sv) and arithmetic.  A byte lane and every header field is a natural number
  below its width; a lane index that no lane has reads as 0 (the hardware reads an unknown value).
 */
module NpePkg {

  datatype Option<+T> = None | Some(value: T)

  type byte = b: int | 0 <= b < 256

  /** One AXI-Stream transfer: byte lanes, lane enables, end-of-packet mark. */
  datatype Beat = Beat(data: seq<byte>, keep: seq<bool>, last: bool)

  datatype Metadata = Metadata(
    dstMac: nat, srcMac: nat, ethertype: nat,
    vlanValid: bool, vlanId: nat, vlanPrio: nat, vlanCfi: nat,
    ipv4Valid: bool, srcIp: nat, dstIp: nat, protocol: nat, ttl: nat, ipHdrLen: nat, ipChecksumOk: bool,
    tcpValid: bool, udpValid: bool, srcPort: nat, dstPort: nat,
    tcpFlags: nat, tcpSeq: nat, tcpAck: nat, tcpWindow: nat,
    classId: nat, drop: bool,
    pktLength: nat)

  const NO_METADATA := Metadata(0, 0, 0, false, 0, 0, 0, false, 0, 0, 0, 0, 0, false,
                                false, false, 0, 0, 0, 0, 0, 0, 0, false, 0)

  const ETYPE_IPV4 := 0x0800
  const ETYPE_ARP := 0x0806
  const ETYPE_VLAN := 0x8100
  const PROTO_TCP := 0x06
  const PROTO_UDP := 0x11

  datatype RuleAction = Allow | Drop | Redirect | Mirror

  datatype ModAction = Nop | TtlDec | MacSwap | MacSet | IpSet | VlanPush | VlanPop | DscpSet | EcnSet

  datatype ModData = ModData(newDstMac: nat, newSrcMac: nat, newSrcIp: nat, newDstIp: nat,
                             vlanId: nat, vlanPrio: nat, newDscp: nat, newEcn: nat)

  const NO_MOD_DATA := ModData(0, 0, 0, 0, 0, 0, 0, 0)

  const U32 := 0x1_0000_0000

  lemma MulMonotone(d: nat, a: nat, b: nat)
    requires a <= b
    ensures d * a <= d * b
  {
    assert d * b - d * a == d * (b - a);
  }

  /** Glues one step's balance to the balance of the run before it. */
  lemma Splice<T>(had: seq<T>, gave: seq<T>, q: seq<T>, take: seq<T>, give: seq<T>, q': seq<T>)
    requires had == gave + q && q + take == give + q'
    ensures had + take == (gave + give) + q'
  {
    assert had + take == gave + (q + take);
    assert (gave + give) + q' == gave + (give + q');
  }

  function Lane(d: seq<byte>, i: int): (b: byte) {
    if 0 <= i < |d| then d[i] else 0
  }

  function Word16(d: seq<byte>, i: int): (w: nat)
    ensures w < 0x1_0000
  {
    Lane(d, i) * 0x100 + Lane(d, i + 1)
  }

  function Word32(d: seq<byte>, i: int): (w: nat)
    ensures w < 0x1_0000_0000
  {
    Word16(d, i) * 0x1_0000 + Word16(d, i + 2)
  }

  function Mac(d: seq<byte>, i: int): (w: nat)
    ensures w < 0x1_0000_0000_0000
  {
    Word16(d, i) * 0x1_0000_0000 + Word32(d, i + 2)
  }

  /** d with the lanes from at on replaced; lanes that do not exist are not written. */
  function Overlay(d: seq<byte>, at: nat, bytes: seq<byte>): (r: seq<byte>)
    ensures |r| == |d|
    ensures forall i :: 0 <= i < |d| ==> r[i] == if at <= i < at + |bytes| then bytes[i - at] else d[i]
  {
    seq(|d|, i requires 0 <= i < |d| => if at <= i < at + |bytes| then bytes[i - at] else d[i])
  }

  function Be16(x: nat): (b: seq<byte>)
    ensures |b| == 2
  {
    [x / 0x100 % 0x100, x % 0x100]
  }

  function Be32(x: nat): (b: seq<byte>)
    ensures |b| == 4
  {
    Be16(x / 0x1_0000) + Be16(x % 0x1_0000)
  }

  function Be48(x: nat): (b: seq<byte>)
    ensures |b| == 6
  {
    Be16(x / 0x1_0000_0000) + Be32(x % 0x1_0000_0000)
  }
}
