/**
  The elastic pipeline stage every block of the pipeline is built on (rtl/interfaces/axis_register.sv
  and the identical handshake in the parsers): one register slot, ready when the slot is empty or
  is being emptied, and ready signals that run combinationally from the last stage to the first.

  A stage is a register slot plus a tracker.  Accepting a token x runs the stage's step function,
  which yields the new tracker and the token that goes into the slot.
 */
module ElasticChain {
  import opened NpePkg

  type StepFn<!K, !X> = (K, X) -> (K, X)

  datatype Stage<K, X> = Stage(tracker: K, slot: Option<X>)

  predicate StageReady<K, X>(s: Stage<K, X>, mReady: bool) {
    mReady || s.slot.None?
  }

  function StageNext<K, X>(f: StepFn<K, X>, s: Stage<K, X>, x: Option<X>, mReady: bool): Stage<K, X> {
    if StageReady(s, mReady) then
      if x.Some? then
        var (k, y) := f(s.tracker, x.value);
        Stage(k, Some(y))
      else Stage(s.tracker, None)
    else s
  }

  /** The step of a stage that hands tokens on unchanged. */
  function PassStep<X>(): StepFn<(), X> {
    (k: (), x: X) => (k, x)
  }

  /** What a stage makes of a whole stream when nothing ever stalls: the step function folded over it. */
  function Stream<K, X>(f: StepFn<K, X>, k: K, xs: seq<X>): (ys: seq<X>)
    ensures |ys| == |xs|
  {
    if xs == [] then []
    else
      var (k', y) := f(k, xs[0]);
      [y] + Stream(f, k', xs[1..])
  }

  /** The tracker of a stage after the first n tokens of a stream. */
  function TrackerAt<K, X>(f: StepFn<K, X>, k: K, xs: seq<X>, n: nat): K
    requires n <= |xs|
  {
    if n == 0 then k else f(TrackerAt(f, k, xs, n - 1), xs[n - 1]).0
  }

  lemma {:induction false} TrackerOfTail<K, X>(f: StepFn<K, X>, k: K, xs: seq<X>, n: nat)
    requires 0 < n <= |xs|
    ensures TrackerAt(f, k, xs, n) == TrackerAt(f, f(k, xs[0]).0, xs[1..], n - 1)
  {
    if n > 1 {
      TrackerOfTail(f, k, xs, n - 1);
    }
  }

  lemma {:induction false} StreamAt<K, X>(f: StepFn<K, X>, k: K, xs: seq<X>, n: nat)
    requires n < |xs|
    ensures Stream(f, k, xs)[n] == f(TrackerAt(f, k, xs, n), xs[n]).1
  {
    if n > 0 {
      TrackerOfTail(f, k, xs, n);
      StreamAt(f, f(k, xs[0]).0, xs[1..], n - 1);
    }
  }

  function ToSeq<X>(x: Option<X>): (xs: seq<X>) {
    if x.Some? then [x.value] else []
  }

  // ---------------------------------------------------------------------------
  // Chains of stages.  Stage 0 is next to the input.
  // ---------------------------------------------------------------------------

  /** s_tready of a chain, as the ready wires compute it from the far end. */
  predicate Ready<K, X>(c: seq<Stage<K, X>>, mReady: bool) {
    if c == [] then mReady else StageReady(c[0], Ready(c[1..], mReady))
  }

  function Next<K, X>(fs: seq<StepFn<K, X>>, c: seq<Stage<K, X>>, x: Option<X>, mReady: bool): (c': seq<Stage<K, X>>)
    requires |fs| == |c|
    ensures |c'| == |c|
  {
    if c == [] then []
    else [StageNext(fs[0], c[0], x, Ready(c[1..], mReady))] + Next(fs[1..], c[1..], c[0].slot, mReady)
  }

  /** The output port: the slot of the last stage, or the input itself when there is no stage. */
  function Output<K, X>(c: seq<Stage<K, X>>, x: Option<X>): Option<X> {
    if c == [] then x else c[|c| - 1].slot
  }

  /** The token that enters at an edge, if any. */
  function Enters<K, X>(c: seq<Stage<K, X>>, x: Option<X>, mReady: bool): seq<X> {
    if Ready(c, mReady) then ToSeq(x) else []
  }

  /** The token that leaves at an edge, if any. */
  function Leaves<K, X>(c: seq<Stage<K, X>>, x: Option<X>, mReady: bool): seq<X> {
    if mReady then ToSeq(Output(c, x)) else []
  }

  /** Everything that will ever come out of the chain once it is fed the tokens xs and drained. */
  function Future<K, X>(fs: seq<StepFn<K, X>>, c: seq<Stage<K, X>>, xs: seq<X>): seq<X>
    requires |fs| == |c|
    decreases |c|
  {
    if c == [] then xs
    else Future(fs[1..], c[1..], ToSeq(c[0].slot) + Stream(fs[0], c[0].tracker, xs))
  }

  /** Slots that hold a token. */
  function Occupied<K, X>(c: seq<Stage<K, X>>): (n: nat)
    ensures n <= |c|
  {
    if c == [] then 0 else Occupied(c[1..]) + if c[0].slot.Some? then 1 else 0
  }

  lemma {:induction false} FullExactlyWhen<K, X>(c: seq<Stage<K, X>>)
    ensures Occupied(c) == |c| <==> forall i :: 0 <= i < |c| ==> c[i].slot.Some?
  {
    if c != [] {
      FullExactlyWhen(c[1..]);
      assert forall i :: 0 <= i < |c| - 1 ==> c[1..][i] == c[i + 1];
    }
  }

  lemma {:induction false} FutureLength<K, X>(fs: seq<StepFn<K, X>>, c: seq<Stage<K, X>>, xs: seq<X>)
    requires |fs| == |c|
    ensures |Future(fs, c, xs)| == Occupied(c) + |xs|
    decreases |c|
  {
    if c != [] {
      FutureLength(fs[1..], c[1..], ToSeq(c[0].slot) + Stream(fs[0], c[0].tracker, xs));
    }
  }

  /** s_tready is high exactly when the output is taken or some slot is free. */
  lemma {:induction false} ReadyExactlyWhen<K, X>(c: seq<Stage<K, X>>, mReady: bool)
    ensures Ready(c, mReady) <==> mReady || exists i :: 0 <= i < |c| && c[i].slot.None?
  {
    if c != [] {
      ReadyExactlyWhen(c[1..], mReady);
      forall i | 0 <= i < |c| - 1 ensures c[1..][i] == c[i + 1] {}
      if i :| 0 < i < |c| && c[i].slot.None? {
        assert c[1..][i - 1].slot.None?;
      }
    }
  }

  /** One edge under any input gap and any stall: what leaves, followed by the future of the new
      state, is the future of the old state fed with what entered. */
  lemma {:induction false} StepKeepsFuture<K, X>(
      fs: seq<StepFn<K, X>>, c: seq<Stage<K, X>>, x: Option<X>, mReady: bool, xs: seq<X>)
    requires |fs| == |c|
    ensures Future(fs, c, Enters(c, x, mReady) + xs) == Leaves(c, x, mReady) + Future(fs, Next(fs, c, x, mReady), xs)
    decreases |c|
  {
    if c != [] {
      var rest, first := c[1..], c[0];
      var first' := Next(fs, c, x, mReady)[0];
      var ys, ys' := Stream(fs[0], first.tracker, Enters(c, x, mReady) + xs), Stream(fs[0], first'.tracker, xs);
      FirstStage(fs[0], first, x, Ready(rest, mReady), xs);
      StepKeepsFuture(fs[1..], rest, first.slot, mReady, ToSeq(first'.slot) + ys');
      assert Next(fs, c, x, mReady)[1..] == Next(fs[1..], rest, first.slot, mReady);
      assert Leaves(rest, first.slot, mReady) == Leaves(c, x, mReady);
    }
  }

  lemma FirstStage<K, X>(f: StepFn<K, X>, s: Stage<K, X>, x: Option<X>, mReady: bool, xs: seq<X>)
    ensures var s' := StageNext(f, s, x, mReady);
      var entered := if StageReady(s, mReady) then ToSeq(x) else [];
      ToSeq(s.slot) + Stream(f, s.tracker, entered + xs)
      == (if mReady then ToSeq(s.slot) else []) + (ToSeq(s'.slot) + Stream(f, s'.tracker, xs))
  {
    if StageReady(s, mReady) && x.Some? {
      assert ([x.value] + xs)[1..] == xs;
    } else {
      assert [] + xs == xs;
    }
  }

  // ---------------------------------------------------------------------------
  // Runs
  // ---------------------------------------------------------------------------

  /** What the environment does at one edge: offers a token or not, takes the output or not. */
  datatype Pins<X> = Pins(x: Option<X>, mReady: bool)

  function Run<K, X>(fs: seq<StepFn<K, X>>, c: seq<Stage<K, X>>, run: seq<Pins<X>>): (c': seq<Stage<K, X>>)
    requires |fs| == |c|
    ensures |c'| == |c|
    decreases |run|
  {
    if run == [] then c else Run(fs, Next(fs, c, run[0].x, run[0].mReady), run[1..])
  }

  function Accepted<K, X>(fs: seq<StepFn<K, X>>, c: seq<Stage<K, X>>, run: seq<Pins<X>>): seq<X>
    requires |fs| == |c|
    decreases |run|
  {
    if run == [] then []
    else Enters(c, run[0].x, run[0].mReady) + Accepted(fs, Next(fs, c, run[0].x, run[0].mReady), run[1..])
  }

  function Emitted<K, X>(fs: seq<StepFn<K, X>>, c: seq<Stage<K, X>>, run: seq<Pins<X>>): seq<X>
    requires |fs| == |c|
    decreases |run|
  {
    if run == [] then []
    else Leaves(c, run[0].x, run[0].mReady) + Emitted(fs, Next(fs, c, run[0].x, run[0].mReady), run[1..])
  }

  lemma {:induction false} RunKeepsFuture<K, X>(fs: seq<StepFn<K, X>>, c: seq<Stage<K, X>>, run: seq<Pins<X>>)
    requires |fs| == |c|
    ensures Future(fs, c, Accepted(fs, c, run)) == Emitted(fs, c, run) + Future(fs, Run(fs, c, run), [])
    decreases |run|
  {
    if run != [] {
      var x, mReady := run[0].x, run[0].mReady;
      var c' := Next(fs, c, x, mReady);
      RunKeepsFuture(fs, c', run[1..]);
      StepKeepsFuture(fs, c, x, mReady, Accepted(fs, c', run[1..]));
    }
  }

  ghost predicate AllEmpty<K, X>(c: seq<Stage<K, X>>) {
    forall i :: 0 <= i < |c| ==> c[i].slot.None?
  }

  /** The whole chain as a function from streams to streams, stage after stage. */
  function StreamThrough<K, X>(fs: seq<StepFn<K, X>>, c: seq<Stage<K, X>>, xs: seq<X>): (ys: seq<X>)
    requires |fs| == |c|
    ensures |ys| == |xs|
    decreases |c|
  {
    if c == [] then xs else StreamThrough(fs[1..], c[1..], Stream(fs[0], c[0].tracker, xs))
  }

  lemma {:induction false} FutureOfEmpty<K, X>(fs: seq<StepFn<K, X>>, c: seq<Stage<K, X>>, xs: seq<X>)
    requires |fs| == |c| && AllEmpty(c)
    ensures Future(fs, c, xs) == StreamThrough(fs, c, xs)
    ensures Occupied(c) == 0
    decreases |c|
  {
    if c != [] {
      assert forall i :: 0 <= i < |c| - 1 ==> c[1..][i] == c[i + 1];
      var ys := Stream(fs[0], c[0].tracker, xs);
      assert [] + ys == ys;
      FutureOfEmpty(fs[1..], c[1..], ys);
    }
  }

  /** Latency insensitivity: whatever the gaps and the stalls, what has left is a prefix of the
      stall-free stream of what has entered, and exactly the occupied slots are still to come. */
  lemma LatencyInsensitive<K, X>(fs: seq<StepFn<K, X>>, c: seq<Stage<K, X>>, run: seq<Pins<X>>)
    requires |fs| == |c| && AllEmpty(c)
    ensures Emitted(fs, c, run) <= StreamThrough(fs, c, Accepted(fs, c, run))
    ensures |Accepted(fs, c, run)| == |Emitted(fs, c, run)| + Occupied(Run(fs, c, run))
  {
    RunKeepsFuture(fs, c, run);
    FutureOfEmpty(fs, c, Accepted(fs, c, run));
    FutureLength(fs, Run(fs, c, run), []);
  }

  // ---------------------------------------------------------------------------
  // Latency
  // ---------------------------------------------------------------------------

  /** Stages that hand tokens on unchanged. */
  ghost predicate PassThrough<K(!new), X(!new)>(fs: seq<StepFn<K, X>>) {
    forall i, k, x :: 0 <= i < |fs| ==> fs[i](k, x).1 == x
  }

  /** The tokens held by a chain, the one next to the output first. */
  function InFlight<K, X>(c: seq<Stage<K, X>>): (xs: seq<X>)
    ensures |xs| == Occupied(c) <= |c|
  {
    if c == [] then [] else InFlight(c[1..]) + ToSeq(c[0].slot)
  }

  lemma {:induction false} PassStream<K(!new), X(!new)>(f: StepFn<K, X>, k: K, xs: seq<X>)
    requires forall k, x :: f(k, x).1 == x
    ensures Stream(f, k, xs) == xs
  {
    if xs != [] {
      PassStream(f, f(k, xs[0]).0, xs[1..]);
    }
  }

  lemma {:induction false} PassFuture<K(!new), X(!new)>(fs: seq<StepFn<K, X>>, c: seq<Stage<K, X>>, xs: seq<X>)
    requires |fs| == |c| && PassThrough(fs)
    ensures Future(fs, c, xs) == InFlight(c) + xs
    decreases |c|
  {
    if c == [] {
      assert [] + xs == xs;
    } else {
      PassStream(fs[0], c[0].tracker, xs);
      PassFuture(fs[1..], c[1..], ToSeq(c[0].slot) + xs);
      assert InFlight(c[1..]) + (ToSeq(c[0].slot) + xs) == InFlight(c) + xs;
    }
  }

  /** Conservation: in every run of pass-through stages, what was held and what entered is what
      left and what is held, in order; at most one token per stage is held. */
  lemma PassConservation<K(!new), X(!new)>(fs: seq<StepFn<K, X>>, c: seq<Stage<K, X>>, run: seq<Pins<X>>)
    requires |fs| == |c| && PassThrough(fs)
    ensures InFlight(c) + Accepted(fs, c, run) == Emitted(fs, c, run) + InFlight(Run(fs, c, run))
    ensures |InFlight(Run(fs, c, run))| <= |c|
  {
    RunKeepsFuture(fs, c, run);
    PassFuture(fs, c, Accepted(fs, c, run));
    PassFuture(fs, Run(fs, c, run), []);
  }

  /** What slot i - 1 (or the input) holds. */
  function Before<K, X>(c: seq<Stage<K, X>>, x: Option<X>, i: nat): Option<X>
    requires i <= |c|
  {
    if i == 0 then x else c[i - 1].slot
  }

  /** With the output always taken every token moves one slot per edge. */
  lemma {:induction false} ShiftsEveryEdge<K(!new), X(!new)>(fs: seq<StepFn<K, X>>, c: seq<Stage<K, X>>, x: Option<X>)
    requires |fs| == |c|
    ensures Ready(c, true)
    ensures forall i :: 0 <= i < |c| ==> (Next(fs, c, x, true)[i].slot.Some? <==> Before(c, x, i).Some?)
    ensures PassThrough(fs) ==> forall i :: 0 <= i < |c| ==> Next(fs, c, x, true)[i].slot == Before(c, x, i)
    decreases |c|
  {
    if c != [] {
      ShiftsEveryEdge(fs[1..], c[1..], c[0].slot);
      var c' := Next(fs, c, x, true);
      assert c'[1..] == Next(fs[1..], c[1..], c[0].slot, true);
      assert PassThrough(fs) ==> PassThrough(fs[1..]) && fs[0] == fs[0];
      forall i | 0 < i < |c|
        ensures c'[i] == c'[1..][i - 1] && Before(c, x, i) == Before(c[1..], c[0].slot, i - 1)
      {
      }
    }
  }

  /** With the output always taken, slot i holds after |run| edges what was offered i + 1 edges
      ago, or what slot i - |run| held at the start.  So a token accepted at edge t by a chain of
      n stages leaves at edge t + n. */
  lemma {:induction false} ExactLatency<K(!new), X(!new)>(
      fs: seq<StepFn<K, X>>, c: seq<Stage<K, X>>, run: seq<Pins<X>>, i: nat)
    requires |fs| == |c| && i < |c|
    requires forall p <- run :: p.mReady
    ensures var past := if i < |run| then run[|run| - 1 - i].x else c[i - |run|].slot;
      && (Run(fs, c, run)[i].slot.Some? <==> past.Some?)
      && (PassThrough(fs) ==> Run(fs, c, run)[i].slot == past)
    decreases |run|
  {
    if run != [] {
      assert run[0].mReady;
      assert forall p <- run[1..] :: p in run;
      ShiftsEveryEdge(fs, c, run[0].x);
      ExactLatency(fs, Next(fs, c, run[0].x, true), run[1..], i);
    }
  }
}
