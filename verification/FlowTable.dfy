/**
  The flow table (rtl/memory/flow_table.sv): a two-way set-associative cache of per-flow counters
  with an idle timeout on a 32-bit cycle counter.  The hash is an arbitrary function of the flow
  key, and the way that a new flow replaces is an arbitrary choice made at each edge.
 */
module FlowTable {
  import opened NpePkg
  import opened ElasticChain
  import opened AxisRegister

  const U48 := 0x1_0000_0000_0000
  const U64 := 0x1_0000_0000_0000_0000

  datatype Key = Key(srcIp: nat, dstIp: nat, protocol: nat, srcPort: nat, dstPort: nat)

  datatype Entry = Entry(valid: bool, key: Key, packets: nat, bytes: nat, lastSeen: nat)

  const EMPTY := Entry(false, Key(0, 0, 0, 0, 0), 0, 0, 0)

  /** NUM_SETS, TIMEOUT_CYCLES and the hash. */
  datatype Params = Params(sets: nat, timeout: nat, hash: Key -> nat)

  ghost predicate Good(p: Params) {
    p.timeout <= U32 && forall k :: p.hash(k) < p.sets
  }

  /** The two ways, and the cycle counter. */
  datatype Table = Table(ways: seq<seq<Entry>>, now: nat)

  ghost predicate Shaped(p: Params, s: Table) {
    |s.ways| == 2 && |s.ways[0]| == p.sets && |s.ways[1]| == p.sets && s.now < U32
  }

  function Reset(p: Params): (s: Table)
    ensures Shaped(p, s)
  {
    Table([seq(p.sets, _ => EMPTY), seq(p.sets, _ => EMPTY)], 0)
  }

  /** pkt_length is 16 bits wide. */
  type Length = n: nat | n < 0x1_0000

  datatype Packet = Packet(key: Key, length: Length)

  /** flow_key, and the length that is counted. */
  function FlowPacket(m: Metadata): Packet {
    Packet(Key(m.srcIp, m.dstIp, m.protocol, m.srcPort, m.dstPort), m.pktLength % 0x1_0000)
  }

  /** The last beat of a packet, if one is accepted at this edge, and the way a new flow would replace. */
  datatype Inputs = Inputs(packet: Option<Packet>, victim: nat)

  // ---------------------------------------------------------------------------
  // Lookup
  // ---------------------------------------------------------------------------

  function Looked(p: Params, s: Table, k: Key, w: nat): Entry
    requires Shaped(p, s) && w < 2 && p.hash(k) < p.sets
  {
    s.ways[w][p.hash(k)]
  }

  predicate WayHit(e: Entry, k: Key) {
    e.valid && e.key == k
  }

  /** a - b on 32 bits. */
  function Gap(a: int, b: int): (g: nat) {
    (a - b) % U32
  }

  /** way_valid: the entry has not timed out, by the difference of two 32-bit counters. */
  predicate Live(p: Params, now: nat, e: Entry) {
    e.valid && Gap(now, e.lastSeen) < p.timeout
  }

  predicate LiveHit(p: Params, now: nat, e: Entry, k: Key) {
    WayHit(e, k) && Live(p, now, e)
  }

  predicate FlowHit(p: Params, now: nat, e0: Entry, e1: Entry, k: Key) {
    LiveHit(p, now, e0, k) || LiveHit(p, now, e1, k)
  }

  predicate ExpiredHit(p: Params, now: nat, e0: Entry, e1: Entry, k: Key) {
    (WayHit(e0, k) && !Live(p, now, e0)) || (WayHit(e1, k) && !Live(p, now, e1))
  }

  /** hit_pkt_cnt and hit_byte_cnt come from way 0 if its key matches, whether it is live or not. */
  function Counted(e0: Entry, e1: Entry, k: Key): Entry {
    if WayHit(e0, k) then e0 else e1
  }

  /** Way w of the set of packet x after the update. */
  function EntryAfter(p: Params, now: nat, e0: Entry, e1: Entry, x: Packet, victim: nat, w: nat): Entry {
    var e := if w == 0 then e0 else e1;
    if FlowHit(p, now, e0, e1, x.key) then
      if LiveHit(p, now, e, x.key) then
        var n := Counted(e0, e1, x.key);
        e.(packets := (n.packets + 1) % U48, bytes := (n.bytes + x.length) % U64, lastSeen := now)
      else e
    else if ExpiredHit(p, now, e0, e1, x.key) then
      if WayHit(e, x.key) then e.(valid := true, packets := 1, bytes := x.length, lastSeen := now) else e
    else if w == victim then Entry(true, x.key, 1, x.length, now)
    else e
  }

  function WayAfter(p: Params, s: Table, x: Packet, victim: nat, w: nat): (es: seq<Entry>)
    requires Shaped(p, s) && w < 2 && p.hash(x.key) < p.sets
    ensures |es| == p.sets
  {
    s.ways[w][p.hash(x.key) := EntryAfter(p, s.now, Looked(p, s, x.key, 0), Looked(p, s, x.key, 1), x, victim, w)]
  }

  function TableNext(p: Params, s: Table, x: Inputs): (s': Table)
    requires Good(p) && Shaped(p, s)
    ensures Shaped(p, s')
  {
    Table(if x.packet.Some?
          then [WayAfter(p, s, x.packet.value, x.victim, 0), WayAfter(p, s, x.packet.value, x.victim, 1)]
          else s.ways,
          (s.now + 1) % U32)
  }

  /** The flow_hit output for packet x. */
  predicate Hits(p: Params, s: Table, x: Packet)
    requires Good(p) && Shaped(p, s)
  {
    FlowHit(p, s.now, Looked(p, s, x.key, 0), Looked(p, s, x.key, 1), x.key)
  }

  // ---------------------------------------------------------------------------
  // The packet log
  // ---------------------------------------------------------------------------

  /** A packet, the edge at which it ended on an unbounded clock, and whether the table reported a hit. */
  datatype Record = Record(key: Key, length: Length, time: nat, hit: bool)

  /** The packets of flow k since the latest one that was not a hit, that one included. */
  function Session(log: seq<Record>, k: Key): (s: seq<Record>)
    ensures forall r <- s :: r in log && r.key == k
  {
    if log == [] then []
    else
      var r, before := log[|log| - 1], log[..|log| - 1];
      if r.key != k then Session(before, k)
      else if r.hit then Session(before, k) + [r]
      else [r]
  }

  function TotalLength(s: seq<Record>): nat {
    if s == [] then 0 else TotalLength(s[..|s| - 1]) + s[|s| - 1].length
  }

  /** The counters of an entry say what the log says. */
  ghost predicate Agrees(e: Entry, s: seq<Record>) {
    && s != []
    && e.packets == |s| % U48
    && e.bytes == TotalLength(s) % U64
    && e.lastSeen == s[|s| - 1].time % U32
  }

  ghost predicate EntryOk(p: Params, log: seq<Record>, e: Entry, i: nat) {
    e.valid ==> p.hash(e.key) == i && Agrees(e, Session(log, e.key))
  }

  /** A key is held in one way at most. */
  ghost predicate Distinct(e0: Entry, e1: Entry) {
    e0.valid && e1.valid ==> e0.key != e1.key
  }

  ghost predicate SetOk(p: Params, log: seq<Record>, e0: Entry, e1: Entry, i: nat) {
    EntryOk(p, log, e0, i) && EntryOk(p, log, e1, i) && Distinct(e0, e1)
  }

  /** Consecutive packets are less than the timeout apart on the 32-bit clock. */
  ghost predicate InTime(p: Params, s: seq<Record>) {
    forall j :: 0 < j < |s| ==> Gap(s[j].time, s[j - 1].time) < p.timeout
  }

  ghost predicate Inv(p: Params, s: Table, log: seq<Record>, t: nat) {
    && Shaped(p, s)
    && s.now == t % U32
    && (forall i :: 0 <= i < p.sets ==> SetOk(p, log, s.ways[0][i], s.ways[1][i], i))
    && (forall k :: InTime(p, Session(log, k)))
  }

  lemma AgeIsModular(t: nat, u: nat)
    ensures Gap(t % U32, u % U32) == Gap(t, u)
  {
  }

  lemma SessionAfter(log: seq<Record>, r: Record, k: Key)
    ensures Session(log + [r], k) ==
      if r.key != k then Session(log, k) else if r.hit then Session(log, k) + [r] else [r]
  {
    assert (log + [r])[..|log|] == log;
  }

  lemma AgreesAfterHit(e: Entry, s: seq<Record>, r: Record, now: nat)
    requires Agrees(e, s) && now == r.time % U32
    ensures Agrees(e.(packets := (e.packets + 1) % U48, bytes := (e.bytes + r.length) % U64, lastSeen := now), s + [r])
  {
    assert (s + [r])[..|s|] == s;
    assert (|s| % U48 + 1) % U48 == (|s| + 1) % U48;
    assert (TotalLength(s) % U64 + r.length) % U64 == (TotalLength(s) + r.length) % U64;
  }

  lemma AgreesAfterReset(r: Record, now: nat, e: Entry)
    requires now == r.time % U32 && e.packets == 1 && e.bytes == r.length && e.lastSeen == now
    ensures Agrees(e, [r])
  {
    assert [r][..0] == [];
    assert TotalLength([r]) == r.length;
  }

  /** An entry of another key is not touched, and neither is its session. */
  lemma EntryKept(p: Params, log: seq<Record>, r: Record, e: Entry, i: nat)
    requires EntryOk(p, log, e, i) && (e.valid ==> e.key != r.key)
    ensures EntryOk(p, log + [r], e, i)
  {
    SessionAfter(log, r, e.key);
  }

  /** In a set that holds a key at one place at most, hit and expired hit exclude each other. */
  lemma HitsExcludeInSet(p: Params, now: nat, e0: Entry, e1: Entry, k: Key)
    requires Distinct(e0, e1)
    ensures !(FlowHit(p, now, e0, e1, k) && ExpiredHit(p, now, e0, e1, k))
    ensures LiveHit(p, now, e0, k) ==> Counted(e0, e1, k) == e0
    ensures LiveHit(p, now, e1, k) ==> Counted(e0, e1, k) == e1
  {
  }

  /** The set a packet falls into stays right. */
  lemma SetStep(p: Params, log: seq<Record>, e0: Entry, e1: Entry, x: Packet, victim: nat, t: nat)
    requires victim < 2 && SetOk(p, log, e0, e1, p.hash(x.key))
    ensures var now := t % U32;
      SetOk(p, log + [Record(x.key, x.length, t, FlowHit(p, now, e0, e1, x.key))],
            EntryAfter(p, now, e0, e1, x, victim, 0), EntryAfter(p, now, e0, e1, x, victim, 1), p.hash(x.key))
  {
    var now, i := t % U32, p.hash(x.key);
    var r := Record(x.key, x.length, t, FlowHit(p, now, e0, e1, x.key));
    HitsExcludeInSet(p, now, e0, e1, x.key);
    WayStep(p, log, e0, e1, x, victim, t, 0);
    WayStep(p, log, e0, e1, x, victim, t, 1);
    hide EntryOk, Live;
  }

  lemma HitStep(p: Params, log: seq<Record>, e0: Entry, e1: Entry, e: Entry, x: Packet, r: Record)
    requires SetOk(p, log, e0, e1, p.hash(x.key)) && (e == e0 || e == e1) && LiveHit(p, r.time % U32, e, x.key)
    requires r.key == x.key && r.length == x.length && r.hit
    ensures var n := Counted(e0, e1, x.key);
      var e' := e.(packets := (n.packets + 1) % U48, bytes := (n.bytes + x.length) % U64, lastSeen := r.time % U32);
      EntryOk(p, log + [r], e', p.hash(x.key))
  {
    hide Agrees, Session, Live, TotalLength, FlowHit, ExpiredHit;
    HitsExcludeInSet(p, r.time % U32, e0, e1, x.key);
    assert Counted(e0, e1, x.key) == e && Agrees(e, Session(log, x.key));
    AgreesAfterHit(e, Session(log, x.key), r, r.time % U32);
    SessionAfter(log, r, x.key);
  }

  lemma RestartStep(p: Params, log: seq<Record>, r: Record, e: Entry)
    requires !r.hit && e.key == r.key && e.packets == 1 && e.bytes == r.length && e.lastSeen == r.time % U32
    ensures EntryOk(p, log + [r], e, p.hash(r.key))
  {
    SessionAfter(log, r, r.key);
    AgreesAfterReset(r, r.time % U32, e);
    hide Agrees, Session;
  }

  lemma WayStep(p: Params, log: seq<Record>, e0: Entry, e1: Entry, x: Packet, victim: nat, t: nat, w: nat)
    requires victim < 2 && w < 2 && SetOk(p, log, e0, e1, p.hash(x.key))
    ensures var now := t % U32;
      EntryOk(p, log + [Record(x.key, x.length, t, FlowHit(p, now, e0, e1, x.key))],
              EntryAfter(p, now, e0, e1, x, victim, w), p.hash(x.key))
  {
    var now, i := t % U32, p.hash(x.key);
    var r := Record(x.key, x.length, t, FlowHit(p, now, e0, e1, x.key));
    var e := if w == 0 then e0 else e1;
    var e' := EntryAfter(p, now, e0, e1, x, victim, w);
    hide EntryOk, Live, Counted;
    if LiveHit(p, now, e, x.key) {
      HitStep(p, log, e0, e1, e, x, r);
    } else if !r.hit && e'.valid && e'.key == x.key {
      RestartStep(p, log, r, e');
    } else {
      assert e' == e;
      EntryKept(p, log, r, e, i);
    }
  }

  // ---------------------------------------------------------------------------
  // Runs
  // ---------------------------------------------------------------------------

  /** The table before edge t of a run from reset. */
  function At(p: Params, run: seq<Inputs>, t: nat): (s: Table)
    requires Good(p) && t <= |run|
    ensures Shaped(p, s)
  {
    if t == 0 then Reset(p) else TableNext(p, At(p, run, t - 1), run[t - 1])
  }

  function RecordOf(p: Params, s: Table, x: Packet, t: nat): Record
    requires Good(p) && Shaped(p, s)
  {
    Record(x.key, x.length, t, Hits(p, s, x))
  }

  /** The packets that ended before edge t. */
  function LogAt(p: Params, run: seq<Inputs>, t: nat): seq<Record>
    requires Good(p) && t <= |run|
  {
    if t == 0 then []
    else
      LogAt(p, run, t - 1)
      + if run[t - 1].packet.Some? then [RecordOf(p, At(p, run, t - 1), run[t - 1].packet.value, t - 1)] else []
  }

  lemma PacketStep(p: Params, s: Table, log: seq<Record>, t: nat, x: Packet, victim: nat)
    requires Good(p) && victim < 2 && Inv(p, s, log, t)
    ensures Inv(p, TableNext(p, s, Inputs(Some(x), victim)), log + [RecordOf(p, s, x, t)], t + 1)
  {
    var s', r := TableNext(p, s, Inputs(Some(x), victim)), RecordOf(p, s, x, t);
    var h := p.hash(x.key);
    hide Session, EntryOk;
    forall i | 0 <= i < p.sets ensures SetOk(p, log + [r], s'.ways[0][i], s'.ways[1][i], i) {
      if i == h {
        SetStep(p, log, s.ways[0][h], s.ways[1][h], x, victim, t);
      } else {
        OtherSet(p, log, r, s.ways[0][i], s.ways[1][i], i);
      }
    }
    forall k ensures InTime(p, Session(log + [r], k)) {
      GapStep(p, s, log, t, x, k);
    }
  }

  lemma OtherSet(p: Params, log: seq<Record>, r: Record, e0: Entry, e1: Entry, i: nat)
    requires SetOk(p, log, e0, e1, i) && p.hash(r.key) != i
    ensures SetOk(p, log + [r], e0, e1, i)
  {
    EntryKept(p, log, r, e0, i);
    EntryKept(p, log, r, e1, i);
  }

  lemma GapAfterHit(p: Params, ses: seq<Record>, r: Record, e: Entry)
    requires Agrees(e, ses) && Live(p, r.time % U32, e) && InTime(p, ses)
    ensures InTime(p, ses + [r])
  {
    AgeIsModular(r.time, ses[|ses| - 1].time);
    hide Gap;
  }

  lemma GapStep(p: Params, s: Table, log: seq<Record>, t: nat, x: Packet, k: Key)
    requires Good(p) && Inv(p, s, log, t)
    ensures InTime(p, Session(log + [RecordOf(p, s, x, t)], k))
  {
    var r := RecordOf(p, s, x, t);
    SessionAfter(log, r, k);
    hide Session, Gap, Agrees;
    assert InTime(p, Session(log, k));
    if r.key == k && r.hit {
      var h := p.hash(k);
      assert SetOk(p, log, s.ways[0][h], s.ways[1][h], h);
      var e := if LiveHit(p, s.now, s.ways[0][h], k) then s.ways[0][h] else s.ways[1][h];
      GapAfterHit(p, Session(log, k), r, e);
    }
  }

  lemma {:induction false} RunKeepsInv(p: Params, run: seq<Inputs>, t: nat)
    requires Good(p) && t <= |run| && forall x <- run :: x.victim < 2
    ensures Inv(p, At(p, run, t), LogAt(p, run, t), t)
  {
    hide TableNext, RecordOf;
    if t > 0 {
      RunKeepsInv(p, run, t - 1);
      var x := run[t - 1];
      assert x in run;
      if x.packet.Some? {
        PacketStep(p, At(p, run, t - 1), LogAt(p, run, t - 1), t - 1, x.packet.value, x.victim);
      } else {
        IdleStep(p, At(p, run, t - 1), LogAt(p, run, t - 1), t - 1, x.victim);
        assert LogAt(p, run, t - 1) + [] == LogAt(p, run, t - 1);
      }
    }
  }

  lemma IdleStep(p: Params, s: Table, log: seq<Record>, t: nat, victim: nat)
    requires Good(p) && Inv(p, s, log, t)
    ensures Inv(p, TableNext(p, s, Inputs(None, victim)), log, t + 1)
  {
    hide SetOk, InTime, Session;
  }

  // ---------------------------------------------------------------------------
  // Main results
  // ---------------------------------------------------------------------------

  /** In every reachable state a valid entry lies in the set of its key, counts the packets and bytes
      of its flow since the flow was inserted or last found expired, and remembers the latest of
      those packets; these followed each other in time. */
  lemma EntriesAgreeWithTheLog(p: Params, run: seq<Inputs>, t: nat, w: nat, i: nat)
    requires Good(p) && t <= |run| && (forall x <- run :: x.victim < 2) && w < 2 && i < p.sets
    requires At(p, run, t).ways[w][i].valid
    ensures var e, log := At(p, run, t).ways[w][i], LogAt(p, run, t);
      && p.hash(e.key) == i
      && Agrees(e, Session(log, e.key))
      && InTime(p, Session(log, e.key))
  {
    RunKeepsInv(p, run, t);
    var s := At(p, run, t);
    assert SetOk(p, LogAt(p, run, t), s.ways[0][i], s.ways[1][i], i);
    hide Agrees, At, LogAt, InTime;
  }

  /** A packet is a hit exactly when its flow is in the table and the flow's latest packet on the log is
      less than the timeout ago, and the counters on the output are then those of the log. */
  lemma HitsExactlyWhen(p: Params, run: seq<Inputs>, t: nat, x: Packet)
    requires Good(p) && t <= |run| && (forall x <- run :: x.victim < 2)
    ensures var s, log := At(p, run, t), LogAt(p, run, t);
      var e0, e1, ses := Looked(p, s, x.key, 0), Looked(p, s, x.key, 1), Session(log, x.key);
      && (Hits(p, s, x) <==>
          (WayHit(e0, x.key) || WayHit(e1, x.key)) && ses != [] && Gap(t, ses[|ses| - 1].time) < p.timeout)
      && (Hits(p, s, x) ==>
          && Counted(e0, e1, x.key).packets == |ses| % U48
          && Counted(e0, e1, x.key).bytes == TotalLength(ses) % U64)
  {
    RunKeepsInv(p, run, t);
    var s, log, h := At(p, run, t), LogAt(p, run, t), p.hash(x.key);
    assert SetOk(p, log, s.ways[0][h], s.ways[1][h], h);
    var ses := Session(log, x.key);
    hide At, LogAt, InTime, Session, TotalLength, Gap;
    if ses != [] {
      AgeIsModular(t, ses[|ses| - 1].time);
    }
  }

  /** In every reachable state a key is held at one place at most, whatever the victims were. */
  lemma KeysAreUnique(p: Params, run: seq<Inputs>, t: nat, w: nat, i: nat, w': nat, i': nat)
    requires Good(p) && t <= |run| && (forall x <- run :: x.victim < 2)
    requires w < 2 && i < p.sets && w' < 2 && i' < p.sets
    requires var s := At(p, run, t);
      WayHit(s.ways[w][i], s.ways[w'][i'].key) && s.ways[w'][i'].valid
    ensures w == w' && i == i'
  {
    RunKeepsInv(p, run, t);
    var s := At(p, run, t);
    assert SetOk(p, LogAt(p, run, t), s.ways[0][i], s.ways[1][i], i);
    assert SetOk(p, LogAt(p, run, t), s.ways[0][i'], s.ways[1][i'], i');
    hide Agrees, At, LogAt, InTime, Session;
  }

  /** In every reachable state a packet is not a hit and an expired hit at once, and the counter mux, which
      ignores way_valid, shows the counters of the way that hit. */
  lemma HitsExclude(p: Params, run: seq<Inputs>, t: nat, k: Key)
    requires Good(p) && t <= |run| && (forall x <- run :: x.victim < 2)
    ensures var s := At(p, run, t);
      var e0, e1 := Looked(p, s, k, 0), Looked(p, s, k, 1);
      && !(FlowHit(p, s.now, e0, e1, k) && ExpiredHit(p, s.now, e0, e1, k))
      && (LiveHit(p, s.now, e0, k) ==> Counted(e0, e1, k) == e0)
      && (LiveHit(p, s.now, e1, k) ==> Counted(e0, e1, k) == e1)
  {
    RunKeepsInv(p, run, t);
    var s, h := At(p, run, t), p.hash(k);
    assert SetOk(p, LogAt(p, run, t), s.ways[0][h], s.ways[1][h], h);
    hide At, LogAt, InTime, Session, Agrees, FlowHit, ExpiredHit, LiveHit, Counted;
    HitsExcludeInSet(p, s.now, s.ways[0][h], s.ways[1][h], k);
  }

  // ---------------------------------------------------------------------------
  // What the table remembers
  // ---------------------------------------------------------------------------

  /** Flow k is in the table, live or expired. */
  predicate Holds(p: Params, s: Table, k: Key)
    requires Good(p) && Shaped(p, s)
  {
    WayHit(Looked(p, s, k, 0), k) || WayHit(Looked(p, s, k, 1), k)
  }

  /** Packet x, whose flow is not in the table, replaces the entry of flow k. */
  predicate Replaces(p: Params, s: Table, x: Packet, victim: nat, k: Key)
    requires Good(p) && Shaped(p, s) && victim < 2
  {
    !Holds(p, s, x.key) && p.hash(x.key) == p.hash(k) && WayHit(Looked(p, s, k, victim), k)
  }

  /** One edge: a flow is held afterwards exactly if its packet ended at this edge, or it was held and no
      packet of another flow replaced it. */
  lemma HoldStep(p: Params, s: Table, x: Packet, victim: nat, k: Key)
    requires Good(p) && Shaped(p, s) && victim < 2 && Distinct(Looked(p, s, k, 0), Looked(p, s, k, 1))
    ensures Holds(p, TableNext(p, s, Inputs(Some(x), victim)), k) <==>
      x.key == k || (Holds(p, s, k) && !Replaces(p, s, x, victim, k))
  {
    hide Live;
    if p.hash(x.key) == p.hash(k) {
      HoldStepInSet(p, s.now, Looked(p, s, k, 0), Looked(p, s, k, 1), x, victim, k);
    }
    hide EntryAfter;
  }

  lemma HoldStepInSet(p: Params, now: nat, e0: Entry, e1: Entry, x: Packet, victim: nat, k: Key)
    requires victim < 2 && Distinct(e0, e1)
    ensures var held := WayHit(e0, k) || WayHit(e1, k);
      var replaced := !(WayHit(e0, x.key) || WayHit(e1, x.key)) && WayHit(if victim == 0 then e0 else e1, k);
      (WayHit(EntryAfter(p, now, e0, e1, x, victim, 0), k) || WayHit(EntryAfter(p, now, e0, e1, x, victim, 1), k))
      <==> x.key == k || (held && !replaced)
  {
    hide Live;
  }

  /** A packet of flow k ended at edge u. */
  predicate EndedAt(run: seq<Inputs>, u: nat, k: Key)
    requires u < |run|
  {
    run[u].packet.Some? && run[u].packet.value.key == k
  }

  /** At edge u flow k lost its entry to another flow. */
  predicate LostAt(p: Params, run: seq<Inputs>, u: nat, k: Key)
    requires Good(p) && u < |run| && forall x <- run :: x.victim < 2
  {
    run[u].packet.Some? && run[u].packet.value.key != k && run[u] in run
    && Replaces(p, At(p, run, u), run[u].packet.value, run[u].victim, k)
  }

  /** Flow k did not lose its entry after edge u and before edge t. */
  ghost predicate KeptSince(p: Params, run: seq<Inputs>, u: nat, t: nat, k: Key)
    requires Good(p) && t <= |run| && forall x <- run :: x.victim < 2
  {
    forall v: nat :: u < v < t ==> !LostAt(p, run, v, k)
  }

  /** In every run a flow is in the table exactly if a packet of it has ended and it has not since lost its
      entry to a packet of another flow in its set that was not in the table. */
  lemma {:induction false} HeldExactlyWhen(p: Params, run: seq<Inputs>, t: nat, k: Key)
    requires Good(p) && t <= |run| && forall x <- run :: x.victim < 2
    ensures Holds(p, At(p, run, t), k) <==>
      exists u: nat :: u < t && EndedAt(run, u, k) && KeptSince(p, run, u, t, k)
  {
    hide Holds, Replaces, TableNext;
    if t == 0 {
      NothingHeld(p, k);
    } else {
      HeldExactlyWhen(p, run, t - 1, k);
      HeldStep(p, run, t - 1, k);
      hide At, LostAt, EndedAt;
      assert KeptSince(p, run, t - 1, t, k);
      forall u: nat | u < t - 1
        ensures KeptSince(p, run, u, t, k) <==> KeptSince(p, run, u, t - 1, k) && !LostAt(p, run, t - 1, k)
      {
      }
    }
  }

  lemma NothingHeld(p: Params, k: Key)
    requires Good(p)
    ensures !Holds(p, Reset(p), k)
  {
  }

  lemma HeldStep(p: Params, run: seq<Inputs>, t: nat, k: Key)
    requires Good(p) && t < |run| && forall x <- run :: x.victim < 2
    ensures Holds(p, At(p, run, t + 1), k) <==>
      EndedAt(run, t, k) || (Holds(p, At(p, run, t), k) && !LostAt(p, run, t, k))
  {
    var s, x, h := At(p, run, t), run[t], p.hash(k);
    assert x in run;
    RunKeepsInv(p, run, t);
    assert SetOk(p, LogAt(p, run, t), s.ways[0][h], s.ways[1][h], h);
    hide LogAt, InTime, Session, Agrees;
    if x.packet.Some? {
      hide TableNext, Holds, Replaces;
      HoldStep(p, s, x.packet.value, x.victim, k);
    }
  }

  /** The 32-bit verdict on the idle time equals that of an unbounded clock exactly unless the true gap,
      long past the timeout, has wrapped around to a small one. */
  lemma ClockWrapHarmlessExactlyWhen(p: Params, t: nat, seen: nat)
    requires p.timeout <= U32 && seen <= t
    ensures (Gap(t % U32, seen % U32) < p.timeout <==> t - seen < p.timeout)
      <==> t - seen < U32 || (t - seen) % U32 >= p.timeout
  {
    AgeIsModular(t, seen);
  }

  /** One packet, and then nothing. */
  function Lonely(x: Packet, n: nat): (run: seq<Inputs>)
    ensures |run| == n + 1
  {
    [Inputs(Some(x), 0)] + seq(n, _ => Inputs(None, 0))
  }

  lemma {:induction false} LonelyLog(p: Params, x: Packet, n: nat, t: nat)
    requires Good(p) && t <= n
    ensures LogAt(p, Lonely(x, n), t + 1) == [RecordOf(p, Reset(p), x, 0)]
  {
    var run := Lonely(x, n);
    if t == 0 {
      assert LogAt(p, run, 0) == [] && At(p, run, 0) == Reset(p);
    } else {
      LonelyLog(p, x, n, t - 1);
    }
  }

  /** A flow that was silent for 2^32 cycles, however short the timeout, is taken to be live. */
  lemma WrappedFlowHits(p: Params, x: Packet)
    requires Good(p) && p.timeout > 0
    ensures Hits(p, At(p, Lonely(x, U32), U32), x)
  {
    var run := Lonely(x, U32);
    var log := LogAt(p, run, U32);
    LonelyLog(p, x, U32, U32 - 1);
    assert Session(log[..0], x.key) == [];
    assert Session(log, x.key) == log;
    HeldExactlyWhen(p, run, U32, x.key);
    hide At, LogAt, Session;
    assert EndedAt(run, 0, x.key) && KeptSince(p, run, 0, U32, x.key);
    HitsExactlyWhen(p, run, U32, x);
  }

  // ---------------------------------------------------------------------------
  // The registers
  // ---------------------------------------------------------------------------

  /** The table with the pipeline slot its data passes through. */
  class Flows {
    const p: Params
    const flowRam: array2<Entry>
    const pipe: Register
    var now: nat

    ghost predicate Sized() {
      Good(p) && flowRam.Length0 == 2 && flowRam.Length1 == p.sets
    }

    ghost predicate Valid()
      reads this
    {
      Sized() && now < U32
    }

    ghost function Way(w: nat): (es: seq<Entry>)
      requires Sized() && w < 2
      reads flowRam
      ensures |es| == p.sets
    {
      seq(p.sets, i requires 0 <= i < p.sets reads flowRam => flowRam[w, i])
    }

    ghost function State(): (s: Table)
      requires Valid()
      reads this, flowRam
      ensures Shaped(p, s)
    {
      Table([Way(0), Way(1)], now)
    }

    constructor (p: Params)
      requires Good(p)
      ensures Valid() && this.p == p && State() == Reset(p) && pipe.State().slot.None?
      ensures fresh(flowRam) && fresh(pipe)
    {
      this.p := p;
      flowRam := new Entry[2, p.sets]((w, i) => EMPTY);
      pipe := new Register();
      now := 0;
      new;
      assert Way(0) == Reset(p).ways[0] && Way(1) == Reset(p).ways[1];
    }

    /** The write port: one way of one set. */
    method Write(w: nat, i: nat, e: Entry)
      requires Valid() && w < 2 && i < p.sets
      modifies flowRam
      ensures Way(w) == old(Way(w))[i := e] && Way(1 - w) == old(Way(1 - w))
    {
      ghost var other := Way(1 - w);
      flowRam[w, i] := e;
      assert Way(1 - w) == other;
    }

    /** The update at the end of packet x; every right-hand side is read before the edge. */
    method Update(x: Packet, victim: nat)
      requires Valid() && victim < 2
      modifies flowRam
      ensures Way(0) == old(WayAfter(p, State(), x, victim, 0)) && Way(1) == old(WayAfter(p, State(), x, victim, 1))
    {
      var i := p.hash(x.key);
      var e0, e1 := flowRam[0, i], flowRam[1, i];
      var wayHit := [WayHit(e0, x.key), WayHit(e1, x.key)];
      var wayValid := [Live(p, now, e0), Live(p, now, e1)];
      var flowHit := (wayHit[0] && wayValid[0]) || (wayHit[1] && wayValid[1]);
      var expiredHit := (wayHit[0] && !wayValid[0]) || (wayHit[1] && !wayValid[1]);
      var hitPktCnt := if wayHit[0] then e0.packets else e1.packets;
      var hitByteCnt := if wayHit[0] then e0.bytes else e1.bytes;
      ghost var way0, way1 := Way(0), Way(1);
      ghost var after0, after1 := EntryAfter(p, now, e0, e1, x, victim, 0), EntryAfter(p, now, e0, e1, x, victim, 1);
      assert way0[i := e0] == way0 && way1[i := e1] == way1;
      assert WayAfter(p, State(), x, victim, 0) == way0[i := after0] && WayAfter(p, State(), x, victim, 1)
        == way1[i := after1];
      hide Live, WayAfter, Way;
      if flowHit {
        for w := 0 to 2
          invariant Way(0) == if w > 0 then way0[i := after0] else way0
          invariant Way(1) == if w > 1 then way1[i := after1] else way1
        {
          if wayHit[w] && wayValid[w] {
            var e := if w == 0 then e0 else e1;
            Write(w, i, e.(packets := (hitPktCnt + 1) % U48, bytes := (hitByteCnt + x.length) % U64, lastSeen := now));
          }
        }
      } else if expiredHit {
        for w := 0 to 2
          invariant Way(0) == if w > 0 then way0[i := after0] else way0
          invariant Way(1) == if w > 1 then way1[i := after1] else way1
        {
          if wayHit[w] {
            Write(w, i, (if w == 0 then e0 else e1).(valid := true, packets := 1, bytes := x.length, lastSeen := now));
          }
        }
      } else {
        Write(victim, i, Entry(true, x.key, 1, x.length, now));
      }
    }

    /** One rising edge with rst_n low: the loops clear every entry. */
    method ResetEdge()
      requires Valid()
      modifies this, flowRam, pipe
      ensures Valid() && State() == Reset(p) && pipe.State().slot.None?
    {
      for w := 0 to 2
        invariant Valid()
        invariant forall v, j :: 0 <= v < w && 0 <= j < p.sets ==> flowRam[v, j] == EMPTY
      {
        for i := 0 to p.sets
          invariant Valid()
          invariant forall v, j :: 0 <= v < w && 0 <= j < p.sets ==> flowRam[v, j] == EMPTY
          invariant forall j :: 0 <= j < i ==> flowRam[w, j] == EMPTY
        {
          flowRam[w, i] := EMPTY;
        }
      }
      now := 0;
      pipe.Clock(false, false, Beat([], [], false), true);
      assert Way(0) == Reset(p).ways[0] && Way(1) == Reset(p).ways[1];
    }

    /** One rising edge: the table is updated when the last beat of a packet is accepted. */
    method Clock(sValid: bool, beat: Beat, m: Metadata, mReady: bool, victim: nat)
      requires Valid() && victim < 2
      modifies this, flowRam, pipe
      ensures Valid()
      ensures var accepted := sValid && StageReady(old(pipe.State()), mReady) && beat.last;
        State() == TableNext(p, old(State()), Inputs(if accepted then Some(FlowPacket(m)) else None, victim))
      ensures pipe.State()
        == StageNext(PassStep<Beat>(), old(pipe.State()), if sValid then Some(beat) else None, mReady)
    {
      hide WayAfter, EntryAfter;
      var updateEn := sValid && pipe.SReady(mReady) && beat.last;
      if updateEn {
        Update(FlowPacket(m), victim);
      }
      now := (now + 1) % U32;
      pipe.Clock(true, sValid, beat, mReady);
    }
  }
}
