/**
  The AXI-Stream FIFO (rtl/interfaces/axis_fifo.sv): a ring buffer of 2^A_WIDTH cells whose
  pointers carry one extra wrap bit.  The class keeps the registers of the source; what it
  stores is described by the value-level queue of the first half of this module.
 */
module AxisFifo {
  import opened NpePkg

  function Pow2(n: nat): (r: nat)
    ensures r >= 1
    ensures n >= 1 ==> r >= 2
  {
    if n == 0 then 1 else 2 * Pow2(n - 1)
  }

  // ---------------------------------------------------------------------------
  // The abstract bounded queue and its runs
  // ---------------------------------------------------------------------------

  /** What the FIFO sees at one clock edge. */
  datatype Pins<T> = Pins(valid: bool, beat: T, ready: bool)

  predicate Accepts<T>(q: seq<T>, depth: nat, p: Pins<T>) {
    p.valid && |q| != depth
  }

  predicate Emits<T>(q: seq<T>, p: Pins<T>) {
    q != [] && p.ready
  }

  /** The beat that must be stored: the one on offer, if there is room. */
  function Taken<T>(q: seq<T>, depth: nat, p: Pins<T>): seq<T> {
    if p.valid && |q| < depth then [p.beat] else []
  }

  /** The beat that leaves: the oldest one, if it is taken. */
  function Given<T>(q: seq<T>, p: Pins<T>): seq<T> {
    if q != [] && p.ready then [q[0]] else []
  }

  function QueueNext<T>(q: seq<T>, depth: nat, p: Pins<T>): seq<T> {
    (if Emits(q, p) then q[1..] else q) + if Accepts(q, depth, p) then [p.beat] else []
  }

  /** A queue whose head leaves on the output handshake and that gets a beat on the input handshake. */
  function Moved<T>(q: seq<T>, pop: bool, push: bool, beat: T): seq<T> {
    (if pop && q != [] then q[1..] else q) + if push then [beat] else []
  }

  /** The queue after a run. */
  function QueueRun<T>(q: seq<T>, depth: nat, run: seq<Pins<T>>): seq<T>
    decreases |run|
  {
    if run == [] then q else QueueRun(QueueNext(q, depth, run[0]), depth, run[1..])
  }

  /** The beats written during a run, oldest first. */
  function Accepted<T>(q: seq<T>, depth: nat, run: seq<Pins<T>>): seq<T>
    decreases |run|
  {
    if run == [] then []
    else Taken(q, depth, run[0]) + Accepted(QueueNext(q, depth, run[0]), depth, run[1..])
  }

  /** The beats read during a run, oldest first. */
  function Emitted<T>(q: seq<T>, depth: nat, run: seq<Pins<T>>): seq<T>
    decreases |run|
  {
    if run == [] then []
    else Given(q, run[0]) + Emitted(QueueNext(q, depth, run[0]), depth, run[1..])
  }

  lemma StepBalance<T>(q: seq<T>, depth: nat, p: Pins<T>)
    requires |q| <= depth
    ensures q + Taken(q, depth, p) == Given(q, p) + QueueNext(q, depth, p)
  {
  }

  /** Data integrity: what was stored and written comes out in order, and the rest is still held. */
  lemma {:induction false} Conservation<T>(q: seq<T>, depth: nat, run: seq<Pins<T>>)
    requires |q| <= depth
    ensures q + Accepted(q, depth, run) == Emitted(q, depth, run) + QueueRun(q, depth, run)
    ensures |QueueRun(q, depth, run)| == |q| + |Accepted(q, depth, run)| - |Emitted(q, depth, run)| <= depth
    decreases |run|
  {
    if run == [] {
      assert q + [] == [] + q;
    } else {
      var next := QueueNext(q, depth, run[0]);
      Conservation(next, depth, run[1..]);
      StepBalance(q, depth, run[0]);
      hide QueueNext, Taken, Given;
      SpliceFront(q, Taken(q, depth, run[0]), Given(q, run[0]), next, Accepted(next, depth, run[1..]),
                  Emitted(next, depth, run[1..]), QueueRun(next, depth, run[1..]));
    }
  }

  lemma SpliceFront<T>(q: seq<T>, take: seq<T>, give: seq<T>, next: seq<T>, taken: seq<T>, given: seq<T>, last: seq<T>)
    requires q + take == give + next && next + taken == given + last
    ensures q + (take + taken) == (give + given) + last
  {
    assert q + (take + taken) == (q + take) + taken;
    assert (give + next) + taken == give + (next + taken);
    assert (give + given) + last == give + (given + last);
  }

  /** A beat that is offered but not taken is offered again, unchanged, at the next edge. */
  lemma StalledBeatIsStable<T>(q: seq<T>, depth: nat, p: Pins<T>)
    requires q != [] && !p.ready
    ensures QueueNext(q, depth, p) != [] && QueueNext(q, depth, p)[0] == q[0]
  {
  }

  // ---------------------------------------------------------------------------
  // Pointer arithmetic
  // ---------------------------------------------------------------------------

  lemma ModOnce(x: nat, d: nat)
    requires 0 < d && x < 2 * d
    ensures x % d == if x < d then x else x - d
  {
    var q := x / d;
    assert x == d * q + x % d;
    if q >= 2 {
      MulMonotone(d, 2, q);
    }
  }

  /** The cells a pointer of A_WIDTH + 1 bits can name all exist exactly when the depth is the
      power of two that A_WIDTH was computed from; any smaller depth is overrun. */
  lemma PointersStayInRange(aWidth: nat, depth: nat)
    requires 0 < depth <= Pow2(aWidth)
    ensures (forall ptr: nat :: ptr < 2 * Pow2(aWidth) ==> ptr % Pow2(aWidth) < depth) <==> depth == Pow2(aWidth)
  {
    if depth < Pow2(aWidth) {
      ModOnce(depth, Pow2(aWidth));
      assert depth % Pow2(aWidth) == depth;
      assert depth < 2 * Pow2(aWidth);
    }
  }

  /** The len cells that follow cell start, wrapping at the end of the memory. */
  function Window<T>(cells: seq<T>, start: nat, len: nat): (w: seq<T>)
    requires start < |cells| && len <= |cells|
    ensures |w| == len
  {
    seq(len, i requires 0 <= i < len => cells[if start + i < |cells| then start + i else start + i - |cells|])
  }

  /** Pointers wrap at 2 * depth; their difference on A_WIDTH + 1 bits is the occupancy. */
  ghost function Diff(wr: nat, rd: nat, depth: nat): int {
    if wr >= rd then wr - rd else wr + 2 * depth - rd
  }

  ghost predicate GoodPointers(wr: nat, rd: nat, depth: nat) {
    wr < 2 * depth && rd < 2 * depth && Diff(wr, rd, depth) <= depth
  }

  ghost function Stored<T>(cells: seq<T>, wr: nat, rd: nat): (q: seq<T>)
    requires GoodPointers(wr, rd, |cells|)
    ensures |q| == Diff(wr, rd, |cells|)
  {
    Window(cells, if rd < |cells| then rd else rd - |cells|, Diff(wr, rd, |cells|))
  }

  /** The cell a pointer names: its low A_WIDTH bits. */
  function Cell(ptr: nat, depth: nat): nat
    requires depth > 0
  {
    ptr % depth
  }

  /** A pointer after one step, on A_WIDTH + 1 bits. */
  function NextPointer(ptr: nat, depth: nat): nat
    requires depth > 0
  {
    (ptr + 1) % (2 * depth)
  }

  lemma AfterWrite<T>(cells: seq<T>, wr: nat, rd: nat, x: T)
    requires GoodPointers(wr, rd, |cells|) && Diff(wr, rd, |cells|) != |cells|
    ensures Cell(wr, |cells|) < |cells|
    ensures var wr' := NextPointer(wr, |cells|);
      && GoodPointers(wr', rd, |cells|) && wr' != rd
      && Stored(cells[Cell(wr, |cells|) := x], wr', rd) == Stored(cells, wr, rd) + [x]
  {
    ModOnce(wr, |cells|);
    ModOnce(wr + 1, 2 * |cells|);
  }

  lemma AfterRead<T>(cells: seq<T>, wr: nat, rd: nat)
    requires GoodPointers(wr, rd, |cells|) && Diff(wr, rd, |cells|) != 0
    ensures Cell(rd, |cells|) < |cells| && cells[Cell(rd, |cells|)] == Stored(cells, wr, rd)[0]
    ensures var rd' := NextPointer(rd, |cells|);
      && GoodPointers(wr, rd', |cells|) && (wr == rd' <==> Diff(wr, rd, |cells|) == 1)
      && Stored(cells, wr, rd') == Stored(cells, wr, rd)[1..]
  {
    ModOnce(rd, |cells|);
    ModOnce(rd + 1, 2 * |cells|);
  }

  // ---------------------------------------------------------------------------
  // The registers and the memory
  // ---------------------------------------------------------------------------

  class Fifo<T(0)> {
    const aWidth: nat
    const depth: nat
    const ram: array<T>
    var wrPtr: nat
    var rdPtr: nat
    var mTvalid: bool

    ghost predicate Valid()
      reads this
    {
      && 1 <= aWidth
      && depth == Pow2(aWidth) == ram.Length
      && GoodPointers(wrPtr, rdPtr, depth)
      && (mTvalid <==> wrPtr != rdPtr)
    }

    ghost function Contents(): (q: seq<T>)
      requires Valid()
      reads this, ram
      ensures |q| <= depth
      ensures q == [] <==> !mTvalid
    {
      Stored(ram[..], wrPtr, rdPtr)
    }

    constructor (aWidth: nat)
      requires 1 <= aWidth
      ensures Valid() && fresh(ram) && this.aWidth == aWidth
      ensures Contents() == []
    {
      this.aWidth := aWidth;
      depth := Pow2(aWidth);
      ram := new T[Pow2(aWidth)];
      wrPtr, rdPtr, mTvalid := 0, 0, false;
    }

    /** Occupancy as the hardware subtracts it. */
    function Used(): (n: nat)
      requires Valid()
      reads this, ram
      ensures n == |Contents()| <= depth
    {
      ModOnce(wrPtr + 2 * depth - rdPtr, 2 * depth);
      (wrPtr + 2 * depth - rdPtr) % (2 * depth)
    }

    predicate SReady()
      requires Valid()
      reads this, ram
      ensures SReady() <==> |Contents()| < depth
    {
      Used() != depth
    }

    predicate Empty()
      requires Valid()
      reads this, ram
      ensures Empty() <==> Contents() == []
      ensures Empty() <==> !mTvalid
    {
      Used() == 0
    }

    /** The combinational read port. */
    function Head(): (x: T)
      requires Valid()
      reads this, ram
      ensures Contents() != [] ==> x == Contents()[0]
    {
      ModOnce(rdPtr, depth);
      ram[Cell(rdPtr, depth)]
    }

    /** One rising edge of the clock.  Every right-hand side is read before any register changes. */
    method Clock(rstN: bool, p: Pins<T>)
      requires Valid()
      modifies this, ram
      ensures Valid()
      ensures Contents() == if rstN then QueueNext(old(Contents()), depth, p) else []
      ensures rstN ==>
        Contents() == Moved(old(Contents()), old(mTvalid) && p.ready, p.valid && old(SReady()), p.beat)
    {
      hide Window, Pow2, Cell, NextPointer, Stored;
      ghost var cells, wr, rd := ram[..], wrPtr, rdPtr;
      var ptrDiff := Used();
      var empty := Empty();
      var wren := p.valid && SReady();
      var rden := mTvalid && p.ready;
      if !rstN {
        wrPtr, rdPtr, mTvalid := 0, 0, false;
      } else {
        if wren {
          AfterWrite(cells, wr, rd, p.beat);
          ram[Cell(wrPtr, depth)] := p.beat;
          wrPtr := NextPointer(wrPtr, depth);
          assert ram[..] == cells[Cell(wr, depth) := p.beat];
        }
        if rden {
          AfterRead(ram[..], wrPtr, rd);
        }
        if rden && wren {
          rdPtr := NextPointer(rdPtr, depth);
        } else if rden {
          rdPtr := NextPointer(rdPtr, depth);
          if ptrDiff <= 1 {
            mTvalid := false;
          }
        } else if wren || (!mTvalid && !empty) {
          // both branches of the source; the second one never fires in a Valid() state
          mTvalid := true;
        }
      }
    }
  }
}
