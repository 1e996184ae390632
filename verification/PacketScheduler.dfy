/**
  The three-queue packet scheduler (rtl/schedulers/packet_scheduler.sv): one FIFO per priority
  behind a registered arbiter, in strict-priority or weighted round-robin mode.
 */
module PacketScheduler {
  import opened AxisFifo
  import opened NpePkg

  const HIGH := 0
  const MED := 1
  const LOW := 2
  const STRICT := 0
  const WRR := 1

  type Weights = w: seq<nat> | |w| == 3 && w[0] < 256 && w[1] < 256 && w[2] < 256 witness [0, 0, 0]

  /** Parameters SCHED_MODE and FIFO_DEPTH. */
  datatype Params = Params(mode: int, depth: nat)

  datatype Inputs<T> = Inputs(valid: bool, classId: nat, beat: T, ready: bool, weights: Weights)

  datatype Sched<T> = Sched(queues: seq<seq<T>>, arb: nat, wrr: seq<nat>)

  ghost predicate WellFormed<T>(s: Sched<T>, p: Params) {
    && |s.queues| == 3 && |s.wrr| == 3 && s.arb < 3
    && forall i :: 0 <= i < 3 ==> |s.queues[i]| <= p.depth && s.wrr[i] < 256
  }

  function Reset<T>(): (s: Sched<T>) {
    Sched([[], [], []], 0, [0, 0, 0])
  }

  function Dest(classId: nat): (q: nat)
    ensures q < 3
    ensures q == HIGH <==> classId == 3 || classId == 4
    ensures q == LOW <==> classId == 0
  {
    if classId == 0 then LOW
    else if classId == 1 || classId == 2 then MED
    else if classId == 3 || classId == 4 then HIGH
    else MED
  }

  predicate SReady<T>(s: Sched<T>, p: Params, x: Inputs<T>)
    requires |s.queues| == 3
  {
    |s.queues[Dest(x.classId)]| != p.depth
  }

  /** The output port: the head of the selected queue, if it holds a beat. */
  function Out<T>(s: Sched<T>): Option<T>
    requires |s.queues| == 3 && s.arb < 3
  {
    if s.queues[s.arb] == [] then None else Some(s.queues[s.arb][0])
  }

  function QueuePins<T>(s: Sched<T>, p: Params, x: Inputs<T>, i: nat): Pins<T>
    requires |s.queues| == 3
  {
    Pins(x.valid && SReady(s, p, x) && Dest(x.classId) == i, x.beat, s.arb == i && x.ready)
  }

  /** Round-robin search for the next non-empty queue of non-zero weight, starting after arb. */
  function RoundRobin(has: seq<bool>, arb: nat, w: Weights): (next: nat)
    requires |has| == 3 && arb < 3
    ensures next < 3
  {
    var a, b := (arb + 1) % 3, (arb + 2) % 3;
    if has[a] && w[a] != 0 then a
    else if has[b] && w[b] != 0 then b
    else arb
  }

  function ArbNext(mode: int, has: seq<bool>, arb: nat, wrr: seq<nat>, w: Weights): (next: nat)
    requires |has| == 3 && arb < 3 && |wrr| == 3
    ensures next < 3
  {
    if mode == STRICT then
      if has[0] then 0 else if has[1] then 1 else if has[2] then 2 else arb
    else if has[arb] && wrr[arb] < w[arb] then arb
    else RoundRobin(has, arb, w)
  }

  /** The credit counter of queue i after an edge: it moves only when queue i is served in WRR mode. */
  function Credit<T>(mode: int, has: seq<bool>, arb: nat, wrr: seq<nat>, x: Inputs<T>, i: nat): nat
    requires |has| == 3 && |wrr| == 3 && i < 3
  {
    if mode == WRR && arb == i && has[i] && x.ready then
      if wrr[i] + 1 >= x.weights[i] then 0 else wrr[i] + 1
    else wrr[i]
  }

  function HasData<T>(queues: seq<seq<T>>): (has: seq<bool>)
    requires |queues| == 3
    ensures |has| == 3
  {
    [queues[0] != [], queues[1] != [], queues[2] != []]
  }

  function QueueAfter<T>(s: Sched<T>, p: Params, x: Inputs<T>, i: nat): seq<T>
    requires |s.queues| == 3 && i < 3
  {
    QueueNext(s.queues[i], p.depth, QueuePins(s, p, x, i))
  }

  function Next<T>(s: Sched<T>, p: Params, x: Inputs<T>): (s': Sched<T>)
    requires WellFormed(s, p)
    ensures WellFormed(s', p)
  {
    var has := HasData(s.queues);
    Sched([QueueAfter(s, p, x, 0), QueueAfter(s, p, x, 1), QueueAfter(s, p, x, 2)],
          ArbNext(p.mode, has, s.arb, s.wrr, x.weights),
          [Credit(p.mode, has, s.arb, s.wrr, x, 0), Credit(p.mode, has, s.arb, s.wrr, x, 1),
           Credit(p.mode, has, s.arb, s.wrr, x, 2)])
  }

  // ---------------------------------------------------------------------------
  // Runs
  // ---------------------------------------------------------------------------

  /** The state just before edge t of a run. */
  function At<T>(s: Sched<T>, p: Params, run: seq<Inputs<T>>, t: nat): (s': Sched<T>)
    requires WellFormed(s, p) && t <= |run|
    ensures WellFormed(s', p)
  {
    if t == 0 then s else Next(At(s, p, run, t - 1), p, run[t - 1])
  }

  /** The beat that must be stored in queue i: the one on offer, if it is of that queue's classes and there is
      room. */
  function TakenFor<T>(s: Sched<T>, p: Params, x: Inputs<T>, i: nat): seq<T>
    requires |s.queues| == 3 && i < 3
  {
    if x.valid && Dest(x.classId) == i && |s.queues[i]| < p.depth then [x.beat] else []
  }

  function GivenFrom<T>(s: Sched<T>, x: Inputs<T>, i: nat): seq<T>
    requires |s.queues| == 3 && s.arb < 3
  {
    if Out(s).Some? && x.ready && s.arb == i then [Out(s).value] else []
  }

  /** Beats offered for queue i before edge t while it had room. */
  function Admitted<T>(s: Sched<T>, p: Params, run: seq<Inputs<T>>, i: nat, t: nat): seq<T>
    requires WellFormed(s, p) && t <= |run| && i < 3
  {
    if t == 0 then []
    else
      Admitted(s, p, run, i, t - 1) + TakenFor(At(s, p, run, t - 1), p, run[t - 1], i)
  }

  /** Beats taken from the output port while queue i was selected, before edge t. */
  function Released<T>(s: Sched<T>, p: Params, run: seq<Inputs<T>>, i: nat, t: nat): seq<T>
    requires WellFormed(s, p) && t <= |run|
  {
    if t == 0 then []
    else
      Released(s, p, run, i, t - 1) + GivenFrom(At(s, p, run, t - 1), run[t - 1], i)
  }

  /** One edge on one queue: its head leaves if the queue is selected and m_tready is high, and a beat of its
      classes that is offered while there is room is stored as the youngest. */
  lemma EdgeOnQueue<T>(s: Sched<T>, p: Params, x: Inputs<T>, i: nat)
    requires WellFormed(s, p) && i < 3
    ensures Next(s, p, x).queues[i] == Moved(s.queues[i], i == s.arb && x.ready,
                                             i == Dest(x.classId) && x.valid && |s.queues[i]| < p.depth, x.beat)
    ensures x.valid && i == Dest(x.classId) && |s.queues[i]| < p.depth ==>
      var q := Next(s, p, x).queues[i]; q != [] && q[|q| - 1] == x.beat
  {
    assert Next(s, p, x).queues[i] == QueueAfter(s, p, x, i);
  }

  lemma QueueStep<T>(s: Sched<T>, p: Params, x: Inputs<T>, i: nat)
    requires WellFormed(s, p) && i < 3
    ensures s.queues[i] + TakenFor(s, p, x, i) == GivenFrom(s, x, i) + Next(s, p, x).queues[i]
  {
    var q := s.queues[i];
    assert Next(s, p, x).queues[i] == QueueAfter(s, p, x, i);
    assert q == GivenFrom(s, x, i) + if Emits(q, QueuePins(s, p, x, i)) then q[1..] else q;
  }

  /** Nothing is lost, duplicated or reordered within a queue, whatever the mode and the weights. */
  lemma {:induction false} SchedulerConservation<T>(p: Params, run: seq<Inputs<T>>, i: nat, t: nat)
    requires i < 3 && t <= |run|
    ensures Admitted(Reset(), p, run, i, t) == Released(Reset(), p, run, i, t) + At(Reset(), p, run, t).queues[i]
  {
    hide Next, QueueAfter, TakenFor, GivenFrom;
    if t > 0 {
      SchedulerConservation(p, run, i, t - 1);
      var now, x := At(Reset(), p, run, t - 1), run[t - 1];
      QueueStep(now, p, x, i);
      Splice(Admitted(Reset(), p, run, i, t - 1), Released(Reset(), p, run, i, t - 1), now.queues[i],
                  TakenFor(now, p, x, i), GivenFrom(now, x, i), At(Reset(), p, run, t).queues[i]);
    }
  }

  // ---------------------------------------------------------------------------
  // The arbiter's choice
  // ---------------------------------------------------------------------------

  /** Queue i holds data and may be chosen by the round-robin search. */
  predicate Eligible<T>(s: Sched<T>, w: Weights, i: nat)
    requires |s.queues| == 3 && i < 3
  {
    s.queues[i] != [] && w[i] != 0
  }

  /** The queue k places after queue i in cyclic order. */
  function Turn(i: nat, k: nat): (j: nat)
    ensures j < 3
  {
    (i + k) % 3
  }

  /** In strict mode the choice falls on the most urgent queue that holds data, and stays if there is none. */
  lemma StrictChoice<T>(s: Sched<T>, p: Params, x: Inputs<T>, i: nat)
    requires WellFormed(s, p) && p.mode == STRICT && i < 3
    ensures var next := Next(s, p, x).arb;
      && (s.queues[i] != [] ==> next <= i && s.queues[next] != [])
      && (s.queues[0] == s.queues[1] == s.queues[2] == [] ==> next == s.arb)
  {
    hide QueueAfter, Credit;
  }

  /** In round-robin mode the choice stays while the selected queue holds data and has credit left, and
      otherwise falls on the first eligible queue in cyclic order behind it, or stays if there is none. */
  lemma RoundRobinChoice<T>(s: Sched<T>, p: Params, x: Inputs<T>)
    requires WellFormed(s, p) && p.mode != STRICT
    ensures var next, a, b := Next(s, p, x).arb, Turn(s.arb, 1), Turn(s.arb, 2);
      if s.queues[s.arb] != [] && s.wrr[s.arb] < x.weights[s.arb] then next == s.arb
      else if Eligible(s, x.weights, a) then next == a
      else if Eligible(s, x.weights, b) then next == b
      else next == s.arb
  {
    assert Next(s, p, x).arb == ArbNext(p.mode, HasData(s.queues), s.arb, s.wrr, x.weights);
    hide Next, WellFormed, ArbNext;
    ChoiceOrder(p.mode, HasData(s.queues), s.arb, s.wrr, x.weights);
    assert forall i :: 0 <= i < 3 ==> (HasData(s.queues)[i] <==> s.queues[i] != []);
    hide HasData;
  }

  lemma ChoiceOrder(mode: int, has: seq<bool>, arb: nat, wrr: seq<nat>, w: Weights)
    requires mode != STRICT && |has| == 3 && arb < 3 && |wrr| == 3
    ensures var next, a, b := ArbNext(mode, has, arb, wrr, w), Turn(arb, 1), Turn(arb, 2);
      next == if has[arb] && wrr[arb] < w[arb] then arb
        else if has[a] && w[a] != 0 then a
        else if has[b] && w[b] != 0 then b
        else arb
  {
    if arb == 0 {
    } else if arb == 1 {
    } else {
    }
  }

  /** The edge up to which the credit counter of queue i was last cleared: by the beat with which the beats
      released since the previous clearing reached the weight in force. */
  function Cleared<T>(p: Params, run: seq<Inputs<T>>, i: nat, t: nat): (c: nat)
    requires t <= |run| && i < 3
    ensures c <= t
  {
    if t == 0 then 0
    else
      var c := Cleared(p, run, i, t - 1);
      if |Released(Reset(), p, run, i, t)| > |Released(Reset(), p, run, i, t - 1)|
        && |Released(Reset(), p, run, i, t)| - |Released(Reset(), p, run, i, c)| >= run[t - 1].weights[i]
      then t
      else c
  }

  /** In round-robin mode, under any weights, a credit counter holds the beats that its queue has released since
      it was last cleared. */
  lemma {:induction false} CreditCountsBeats<T>(p: Params, run: seq<Inputs<T>>, i: nat, t: nat)
    requires p.mode == WRR && t <= |run| && i < 3
    ensures At(Reset(), p, run, t).wrr[i]
      == |Released(Reset(), p, run, i, t)| - |Released(Reset(), p, run, i, Cleared(p, run, i, t))|
  {
    hide Next, GivenFrom;
    if t > 0 {
      CreditCountsBeats(p, run, i, t - 1);
      ReleaseEdge(p, run, i, t - 1);
      hide Released, At;
    }
  }

  lemma ReleaseEdge<T>(p: Params, run: seq<Inputs<T>>, i: nat, t: nat)
    requires p.mode == WRR && t < |run| && i < 3
    ensures var before, after := |Released(Reset(), p, run, i, t)|, |Released(Reset(), p, run, i, t + 1)|;
      var n := At(Reset(), p, run, t).wrr[i];
      && before <= after <= before + 1
      && At(Reset(), p, run, t + 1).wrr[i]
        == if after == before then n else if n + 1 >= run[t].weights[i] then 0 else n + 1
  {
    CreditEdge(At(Reset(), p, run, t), p, run[t], i);
    hide Next;
  }

  lemma CreditEdge<T>(s: Sched<T>, p: Params, x: Inputs<T>, i: nat)
    requires WellFormed(s, p) && p.mode == WRR && i < 3
    ensures Next(s, p, x).wrr[i] ==
      if GivenFrom(s, x, i) == [] then s.wrr[i] else if s.wrr[i] + 1 >= x.weights[i] then 0 else s.wrr[i] + 1
  {
    hide QueueAfter, ArbNext;
  }

  // ---------------------------------------------------------------------------
  // Strict priority
  // ---------------------------------------------------------------------------

  /** One edge after queue hi held a beat, the selected queue is hi or a more urgent one. */
  lemma StrictStep<T>(s: Sched<T>, p: Params, x: Inputs<T>, hi: nat)
    requires WellFormed(s, p) && p.mode == STRICT && hi < 3 && s.queues[hi] != []
    ensures Next(s, p, x).arb <= hi
  {
  }

  ghost predicate LeavesAt<T>(p: Params, run: seq<Inputs<T>>, t: nat, q: nat)
    requires t < |run|
  {
    var now := At(Reset(), p, run, t);
    Out(now).Some? && run[t].ready && now.arb == q
  }

  /** A beat leaves queue q at edge t only if every more urgent queue was empty one cycle before. */
  lemma StrictPriorityLag<T>(p: Params, run: seq<Inputs<T>>, t: nat, q: nat, hi: nat)
    requires p.mode == STRICT && t < |run| && q < 3 && LeavesAt(p, run, t, q) && hi < q
    ensures t > 0 && At(Reset(), p, run, t - 1).queues[hi] == []
  {
    if t > 0 && At(Reset(), p, run, t - 1).queues[hi] != [] {
      StrictStep(At(Reset(), p, run, t - 1), p, run[t - 1], hi);
    }
  }

  /** Beats of queues less urgent than hi that leave at edges from, ..., from + n - 1. */
  ghost function LowerBeats<T>(p: Params, run: seq<Inputs<T>>, hi: nat, from: nat, n: nat): nat
    requires from + n <= |run|
  {
    if n == 0 then 0
    else
      var now := At(Reset(), p, run, from + n - 1);
      LowerBeats(p, run, hi, from, n - 1) + if Out(now).Some? && run[from + n - 1].ready && now.arb > hi then 1 else 0
  }

  /** While queue hi keeps holding data, at most one less urgent beat gets out: the one at the very first edge. */
  lemma {:induction false} AtMostOneInversion<T>(p: Params, run: seq<Inputs<T>>, hi: nat, from: nat, n: nat)
    requires p.mode == STRICT && hi < 3 && from + n <= |run|
    requires forall t :: from <= t < from + n ==> At(Reset(), p, run, t).queues[hi] != []
    ensures LowerBeats(p, run, hi, from, n) <= 1
    ensures n > 0 && LowerBeats(p, run, hi, from, n) == 1 ==> At(Reset(), p, run, from).arb > hi
  {
    hide Next;
    if n > 1 {
      AtMostOneInversion(p, run, hi, from, n - 1);
      StrictStep(At(Reset(), p, run, from + n - 2), p, run[from + n - 2], hi);
      assert At(Reset(), p, run, from + n - 1).arb <= hi;
    } else if n == 1 {
      assert LowerBeats(p, run, hi, from, 0) == 0;
    }
  }

  // ---------------------------------------------------------------------------
  // Draining
  // ---------------------------------------------------------------------------

  ghost function Held<T>(s: Sched<T>): nat
    requires |s.queues| == 3
  {
    |s.queues[0]| + |s.queues[1]| + |s.queues[2]|
  }

  function Waiting<T>(s: Sched<T>, i: nat): nat
    requires |s.queues| == 3 && i < 3
  {
    if i != s.arb && s.queues[i] != [] then 1 else 0
  }

  /** Beats held plus non-empty queues still waiting to be selected. */
  ghost function Measure<T>(s: Sched<T>): nat
    requires |s.queues| == 3
  {
    Held(s) + Waiting(s, 0) + Waiting(s, 1) + Waiting(s, 2)
  }

  predicate NonZero(w: Weights) {
    w[0] != 0 && w[1] != 0 && w[2] != 0
  }

  ghost predicate Quiet<T>(run: seq<Inputs<T>>) {
    forall x <- run :: !x.valid && x.ready
  }

  function Popped<T>(s: Sched<T>, i: nat): seq<T>
    requires |s.queues| == 3 && i < 3
  {
    if i == s.arb && s.queues[i] != [] then s.queues[i][1..] else s.queues[i]
  }

  /** An edge without input and with a ready output, at arbiter decision next. */
  function QuietNext<T>(s: Sched<T>, next: nat, wrr: seq<nat>): Sched<T>
    requires |s.queues| == 3
  {
    Sched([Popped(s, 0), Popped(s, 1), Popped(s, 2)], next, wrr)
  }

  lemma QuietStep<T>(s: Sched<T>, p: Params, x: Inputs<T>)
    requires WellFormed(s, p) && !x.valid && x.ready
    ensures var next := ArbNext(p.mode, HasData(s.queues), s.arb, s.wrr, x.weights);
      Next(s, p, x) == QuietNext(s, next, Next(s, p, x).wrr)
  {
    assert QueueAfter(s, p, x, 0) == Popped(s, 0);
    assert QueueAfter(s, p, x, 1) == Popped(s, 1);
    assert QueueAfter(s, p, x, 2) == Popped(s, 2);
  }

  /** Serving one beat and moving on to a waiting queue both lower the measure. */
  lemma MeasureFalls<T>(s: Sched<T>, next: nat, wrr: seq<nat>)
    requires |s.queues| == 3 && s.arb < 3 && next < 3
    requires next != s.arb ==> s.queues[next] != []
    requires s.queues[s.arb] == [] && Held(s) > 0 ==> next != s.arb
    ensures if Held(s) > 0 then Measure(QuietNext(s, next, wrr)) < Measure(s) else Held(QuietNext(s, next, wrr)) == 0
  {
  }

  lemma DrainStep<T>(s: Sched<T>, p: Params, x: Inputs<T>)
    requires WellFormed(s, p) && !x.valid && x.ready
    requires p.mode == STRICT || NonZero(x.weights)
    ensures if Held(s) > 0 then Measure(Next(s, p, x)) < Measure(s) else Held(Next(s, p, x)) == 0
  {
    hide Next;
    QuietStep(s, p, x);
    MeasureFalls(s, ArbNext(p.mode, HasData(s.queues), s.arb, s.wrr, x.weights), Next(s, p, x).wrr);
    hide Measure;
  }

  /** With no new input and the output always ready, every state empties within Held + 2 cycles. */
  lemma {:induction false} DrainBound<T>(s: Sched<T>, p: Params, run: seq<Inputs<T>>, t: nat)
    requires WellFormed(s, p) && t <= |run| && Quiet(run)
    requires p.mode == STRICT || forall x <- run :: NonZero(x.weights)
    ensures Held(At(s, p, run, t)) > 0 ==> Measure(At(s, p, run, t)) + t <= Measure(s)
    ensures t >= Held(s) + 2 ==> Held(At(s, p, run, t)) == 0
  {
    hide Next, Measure, Held;
    if t > 0 {
      DrainBound(s, p, run, t - 1);
      assert run[t - 1] in run;
      DrainStep(At(s, p, run, t - 1), p, run[t - 1]);
    }
    MeasureBound(s);
    MeasureBound(At(s, p, run, t));
  }

  lemma MeasureBound<T>(s: Sched<T>)
    requires |s.queues| == 3 && s.arb < 3
    ensures Held(s) <= Measure(s) <= Held(s) + 2
  {
  }

  predicate Served<T>(s: Sched<T>, w: Weights, i: nat)
    requires |s.queues| == 3 && i < 3
  {
    Waiting(s, i) == 0 || w[i] != 0
  }

  /** Weights of zero: which states a round-robin scheduler with constant weights w can empty. */
  predicate CanDrain<T>(s: Sched<T>, w: Weights)
    requires |s.queues| == 3 && s.arb < 3
  {
    && Served(s, w, 0) && Served(s, w, 1) && Served(s, w, 2)
    && (w[s.arb] != 0 || |s.queues[s.arb]| <= 1 || Waiting(s, 0) + Waiting(s, 1) + Waiting(s, 2) == 0)
  }

  lemma CanDrainKept<T>(s: Sched<T>, next: nat, wrr: seq<nat>, w: Weights)
    requires |s.queues| == 3 && s.arb < 3 && next < 3
    requires next != s.arb ==> s.queues[next] != [] && w[next] != 0
    requires next == s.arb ==>
      || (s.queues[s.arb] != [] && w[s.arb] != 0)
      || (forall i :: 0 <= i < 3 && i != s.arb ==> s.queues[i] == [] || w[i] == 0)
    ensures CanDrain(QuietNext(s, next, wrr), w) <==> CanDrain(s, w)
    ensures CanDrain(s, w) && s.queues[s.arb] == [] && Held(s) > 0 ==> next != s.arb
  {
  }

  lemma CanDrainStep<T>(s: Sched<T>, p: Params, x: Inputs<T>)
    requires WellFormed(s, p) && !x.valid && x.ready && p.mode != STRICT
    ensures CanDrain(Next(s, p, x), x.weights) <==> CanDrain(s, x.weights)
    ensures CanDrain(s, x.weights) ==>
      if Held(s) > 0 then Measure(Next(s, p, x)) < Measure(s) else Held(Next(s, p, x)) == 0
  {
    hide Next, CanDrain, Measure;
    QuietStep(s, p, x);
    var next := ArbNext(p.mode, HasData(s.queues), s.arb, s.wrr, x.weights);
    CanDrainKept(s, next, Next(s, p, x).wrr, x.weights);
    if CanDrain(s, x.weights) {
      MeasureFalls(s, next, Next(s, p, x).wrr);
    }
  }

  lemma {:induction false} CanDrainRun<T>(s: Sched<T>, p: Params, run: seq<Inputs<T>>, w: Weights, t: nat)
    requires WellFormed(s, p) && p.mode != STRICT && t <= |run|
    requires Quiet(run) && forall x <- run :: x.weights == w
    ensures CanDrain(At(s, p, run, t), w) <==> CanDrain(s, w)
    ensures CanDrain(s, w) && Held(At(s, p, run, t)) > 0 ==> Measure(At(s, p, run, t)) + t <= Measure(s)
  {
    hide Next, CanDrain;
    if t > 0 {
      CanDrainRun(s, p, run, w, t - 1);
      assert run[t - 1] in run;
      CanDrainStep(At(s, p, run, t - 1), p, run[t - 1]);
    }
  }

  /** With constant weights, zero ones included, CanDrain is exactly the condition for emptying. */
  lemma DrainsExactlyWhen<T>(s: Sched<T>, p: Params, run: seq<Inputs<T>>, w: Weights, t: nat)
    requires WellFormed(s, p) && p.mode != STRICT && Held(s) + 2 <= t <= |run|
    requires Quiet(run) && forall x <- run :: x.weights == w
    ensures Held(At(s, p, run, t)) == 0 <==> CanDrain(s, w)
  {
    CanDrainRun(s, p, run, w, t);
    MeasureBound(s);
    MeasureBound(At(s, p, run, t));
  }

  // ---------------------------------------------------------------------------
  // Queues of weight zero
  // ---------------------------------------------------------------------------

  /** A queue of weight zero is never chosen; it can only stay selected, for want of an eligible queue. */
  lemma ZeroWeightStep<T>(s: Sched<T>, p: Params, x: Inputs<T>, i: nat)
    requires WellFormed(s, p) && p.mode != STRICT && i < 3 && x.weights[i] == 0
    ensures Next(s, p, x).arb == i <==>
      s.arb == i && forall j :: 0 <= j < 3 ==> !Eligible(s, x.weights, j)
  {
    hide QueueAfter, Credit;
    assert !Eligible(s, x.weights, i);
    var a, b := (s.arb + 1) % 3, (s.arb + 2) % 3;
    assert Eligible(s, x.weights, a) || Eligible(s, x.weights, b) ==>
      Next(s, p, x).arb != s.arb || x.weights[s.arb] != 0;
  }

  /** In a round-robin run with constant weights a queue of weight zero is selected at edge t exactly if it
      is queue 0, where the arbiter starts, and no eligible queue has turned up since reset. */
  lemma {:induction false} ZeroWeightIsSelectedExactlyWhen<T>(
      p: Params, run: seq<Inputs<T>>, w: Weights, i: nat, t: nat)
    requires p.mode != STRICT && i < 3 && w[i] == 0 && t <= |run|
    requires forall x <- run :: x.weights == w
    ensures At(Reset(), p, run, t).arb == i <==>
      i == 0 && forall u: nat, j :: u < t && 0 <= j < 3 ==> !Eligible(At(Reset(), p, run, u), w, j)
  {
    hide Next, Eligible;
    if t > 0 {
      ZeroWeightIsSelectedExactlyWhen(p, run, w, i, t - 1);
      assert run[t - 1] in run;
      ZeroWeightStep(At(Reset(), p, run, t - 1), p, run[t - 1], i);
    }
  }

  /** So two of the three queues do get no service at weight zero. */
  lemma {:induction false} ZeroWeightIsNoServiceButForQueue0<T>(
      p: Params, run: seq<Inputs<T>>, w: Weights, i: nat, t: nat)
    requires p.mode != STRICT && 0 < i < 3 && w[i] == 0 && t <= |run|
    requires forall x <- run :: x.weights == w
    ensures Released(Reset(), p, run, i, t) == []
  {
    hide Next;
    if t > 0 {
      ZeroWeightIsNoServiceButForQueue0(p, run, w, i, t - 1);
      ZeroWeightIsSelectedExactlyWhen(p, run, w, i, t - 1);
    }
  }

  /** Queue 0 gets service at weight zero: one beat of class 3 passes straight through it. */
  lemma ZeroWeightIsServed(p: Params)
    requires p.mode != STRICT && p.depth > 0
    ensures var w: Weights := [0, 1, 1];
      Released(Reset(), p, [Inputs(true, 3, 7, true, w), Inputs(false, 0, 0, true, w)], HIGH, 2) == [7]
  {
    var w: Weights := [0, 1, 1];
    var run := [Inputs(true, 3, 7, true, w), Inputs(false, 0, 0, true, w)];
    hide Credit, RoundRobin;
    assert At(Reset(), p, run, 0) == Reset();
    assert At(Reset(), p, run, 1).queues[0] == QueueAfter(Reset(), p, run[0], 0) == [7];
    ZeroWeightIsSelectedExactlyWhen(p, run, w, HIGH, 1);
    hide Next;
    assert Released(Reset(), p, run, HIGH, 1) == [];
  }

  // ---------------------------------------------------------------------------
  // What the weights do
  // ---------------------------------------------------------------------------

  ghost predicate CreditLeft<T>(s: Sched<T>, w: Weights)
    requires |s.wrr| == 3
  {
    s.wrr[0] < w[0] && s.wrr[1] < w[1] && s.wrr[2] < w[2]
  }

  ghost predicate SameTraffic<T>(a: Inputs<T>, b: Inputs<T>) {
    a.valid == b.valid && a.classId == b.classId && a.beat == b.beat && a.ready == b.ready
  }

  lemma CreditStep<T>(s: Sched<T>, p: Params, x: Inputs<T>)
    requires WellFormed(s, p) && p.mode == WRR && NonZero(x.weights) && CreditLeft(s, x.weights)
    ensures CreditLeft(Next(s, p, x), x.weights)
  {
  }

  lemma {:induction false} CreditNeverRunsOut<T>(s: Sched<T>, p: Params, run: seq<Inputs<T>>, w: Weights, t: nat)
    requires WellFormed(s, p) && CreditLeft(s, w) && p.mode == WRR && NonZero(w) && t <= |run|
    requires forall x <- run :: x.weights == w
    ensures CreditLeft(At(s, p, run, t), w)
  {
    hide Next, WellFormed, CreditLeft;
    if t > 0 {
      CreditNeverRunsOut(s, p, run, w, t - 1);
      assert run[t - 1] in run;
      CreditStep(At(s, p, run, t - 1), p, run[t - 1]);
    }
  }

  lemma ServedStep<T>(s: Sched<T>, p: Params, x: Inputs<T>)
    requires WellFormed(s, p) && p.mode == WRR && CreditLeft(s, x.weights) && s.queues[s.arb] != []
    ensures Next(s, p, x).arb == s.arb
  {
    hide QueueAfter, Credit;
  }

  /** With constant non-zero weights a selected queue is served until it is empty. */
  lemma ServedUntilEmpty<T>(p: Params, run: seq<Inputs<T>>, w: Weights, t: nat)
    requires p.mode == WRR && NonZero(w) && t < |run|
    requires forall x <- run :: x.weights == w
    requires At(Reset(), p, run, t).queues[At(Reset(), p, run, t).arb] != []
    ensures At(Reset(), p, run, t + 1).arb == At(Reset(), p, run, t).arb
  {
    hide Next;
    CreditNeverRunsOut(Reset(), p, run, w, t);
    hide CreditLeft;
    assert run[t] in run;
    ServedStep(At(Reset(), p, run, t), p, run[t]);
  }

  lemma ArbIgnoresWeights(has: seq<bool>, arb: nat, c: seq<nat>, w: Weights, c': seq<nat>, w': Weights)
    requires |has| == 3 && arb < 3 && |c| == 3 && |c'| == 3 && NonZero(w) && NonZero(w')
    requires c[arb] < w[arb] && c'[arb] < w'[arb]
    ensures ArbNext(WRR, has, arb, c, w) == ArbNext(WRR, has, arb, c', w')
  {
  }

  ghost predicate SameView<T>(a: Sched<T>, b: Sched<T>) {
    a.queues == b.queues && a.arb == b.arb
  }

  lemma SameViewStep<T>(a: Sched<T>, x: Inputs<T>, b: Sched<T>, x': Inputs<T>, p: Params)
    requires WellFormed(a, p) && WellFormed(b, p) && p.mode == WRR
    requires NonZero(x.weights) && NonZero(x'.weights) && CreditLeft(a, x.weights) && CreditLeft(b, x'.weights)
    requires SameView(a, b) && SameTraffic(x, x')
    ensures SameView(Next(a, p, x), Next(b, p, x'))
  {
    ArbIgnoresWeights(HasData(a.queues), a.arb, a.wrr, x.weights, b.wrr, x'.weights);
    assert QueueAfter(a, p, x, 0) == QueueAfter(b, p, x', 0);
    assert QueueAfter(a, p, x, 1) == QueueAfter(b, p, x', 1);
    assert QueueAfter(a, p, x, 2) == QueueAfter(b, p, x', 2);
    hide QueueAfter, ArbNext, Credit;
  }

  lemma {:induction false} SameViewRun<T>(
      s: Sched<T>, run: seq<Inputs<T>>, w: Weights, s': Sched<T>, run': seq<Inputs<T>>, w': Weights, p: Params, t: nat)
    requires WellFormed(s, p) && WellFormed(s', p) && SameView(s, s') && CreditLeft(s, w) && CreditLeft(s', w')
    requires p.mode == WRR && NonZero(w) && NonZero(w') && |run| == |run'| && t <= |run|
    requires forall x <- run :: x.weights == w
    requires forall x <- run' :: x.weights == w'
    requires forall k :: 0 <= k < |run| ==> SameTraffic(run[k], run'[k])
    ensures SameView(At(s, p, run, t), At(s', p, run', t))
  {
    hide Next, NonZero, CreditLeft, WellFormed;
    if t > 0 {
      SameViewRun(s, run, w, s', run', w', p, t - 1);
      CreditNeverRunsOut(s, p, run, w, t - 1);
      CreditNeverRunsOut(s', p, run', w', t - 1);
      assert run[t - 1] in run && run'[t - 1] in run' && SameTraffic(run[t - 1], run'[t - 1]);
      SameViewStep(At(s, p, run, t - 1), run[t - 1], At(s', p, run', t - 1), run'[t - 1], p);
    }
  }

  /** So the weights have no effect at all: any two constant non-zero weight settings send the
      same traffic through the same queues and out of the port in the same order. */
  lemma WeightsMakeNoDifference<T>(
      p: Params, run: seq<Inputs<T>>, w: Weights, run': seq<Inputs<T>>, w': Weights, t: nat)
    requires p.mode == WRR && NonZero(w) && NonZero(w') && |run| == |run'| && t <= |run|
    requires forall x <- run :: x.weights == w
    requires forall x <- run' :: x.weights == w'
    requires forall k :: 0 <= k < |run| ==> SameTraffic(run[k], run'[k])
    ensures At(Reset(), p, run, t).queues == At(Reset(), p, run', t).queues
    ensures Out(At(Reset(), p, run, t)) == Out(At(Reset(), p, run', t))
  {
    hide At;
    SameViewRun(Reset(), run, w, Reset(), run', w', p, t);
  }

  // ---------------------------------------------------------------------------
  // The registers and the three FIFO instances
  // ---------------------------------------------------------------------------

  class Scheduler<T(0)> {
    const mode: int
    const high: Fifo<T>
    const med: Fifo<T>
    const low: Fifo<T>
    var arbState: nat
    const wrrCount: array<nat>

    ghost predicate Valid()
      reads this, high, med, low, wrrCount
    {
      && high != med && med != low && high != low
      && high.ram != med.ram && med.ram != low.ram && high.ram != low.ram
      && (wrrCount as object) !in {high.ram as object, med.ram as object, low.ram as object}
      && high.Valid() && med.Valid() && low.Valid()
      && high.depth == med.depth == low.depth
      && arbState < 3
      && wrrCount.Length == 3 && wrrCount[0] < 256 && wrrCount[1] < 256 && wrrCount[2] < 256
    }

    ghost function Parameters(): Params {
      Params(mode, high.depth)
    }

    ghost function State(): (s: Sched<T>)
      requires Valid()
      reads this, high, med, low, wrrCount, high.ram, med.ram, low.ram
      ensures WellFormed(s, Parameters())
    {
      Sched([high.Contents(), med.Contents(), low.Contents()], arbState, wrrCount[..])
    }

    constructor (mode: int, aWidth: nat)
      requires 1 <= aWidth
      ensures Valid() && this.mode == mode && high.aWidth == aWidth
      ensures fresh(high) && fresh(med) && fresh(low) && fresh(high.ram) && fresh(med.ram) && fresh(low.ram)
        && fresh(wrrCount)
      ensures State() == Reset()
    {
      this.mode := mode;
      high := new Fifo<T>(aWidth);
      med := new Fifo<T>(aWidth);
      low := new Fifo<T>(aWidth);
      arbState := 0;
      wrrCount := new nat[3][0, 0, 0];
    }

    /** s_tready for a beat of the given class. */
    predicate Ready(classId: nat)
      requires Valid()
      reads this, high, med, low, wrrCount, high.ram, med.ram, low.ram
      ensures Ready(classId) <==> |State().queues[Dest(classId)]| < high.depth
    {
      match Dest(classId)
      case 0 => high.SReady()
      case 1 => med.SReady()
      case _ => low.SReady()
    }

    /** The combinational output port. */
    function Output(): (o: Option<T>)
      requires Valid()
      reads this, high, med, low, wrrCount, high.ram, med.ram, low.ram
      ensures o == Out(State())
    {
      if arbState == 0 then (if high.mTvalid then Some(high.Head()) else None)
      else if arbState == 1 then (if med.mTvalid then Some(med.Head()) else None)
      else if low.mTvalid then Some(low.Head()) else None
    }

    /** The combinational next-arbiter block. */
    method ArbDecision(weights: Weights) returns (arbNext: nat)
      requires Valid()
      ensures arbNext == ArbNext(mode, HasData(State().queues), arbState, wrrCount[..], weights)
    {
      var ready := DataFlags();
      arbNext := arbState;
      if mode == STRICT {
        if ready[0] { arbNext := 0; }
        else if ready[1] { arbNext := 1; }
        else if ready[2] { arbNext := 2; }
      } else if ready[arbState] && wrrCount[arbState] < weights[arbState] {
        arbNext := arbState;
      } else if arbState == 0 {
        if ready[1] && weights[1] != 0 { arbNext := 1; }
        else if ready[2] && weights[2] != 0 { arbNext := 2; }
        else if ready[0] && weights[0] != 0 { arbNext := 0; }
      } else if arbState == 1 {
        if ready[2] && weights[2] != 0 { arbNext := 2; }
        else if ready[0] && weights[0] != 0 { arbNext := 0; }
        else if ready[1] && weights[1] != 0 { arbNext := 1; }
      } else {
        if ready[0] && weights[0] != 0 { arbNext := 0; }
        else if ready[1] && weights[1] != 0 { arbNext := 1; }
        else if ready[2] && weights[2] != 0 { arbNext := 2; }
      }
    }

    /** The arbiter's own registers; fifo_vout and arb_ready are those before the edge. */
    method ClockArbiter(rstN: bool, hasData: seq<bool>, x: Inputs<T>, arbNext: nat)
      requires Valid() && |hasData| == 3 && arbNext < 3
      modifies this, wrrCount
      ensures Valid()
      ensures arbState == if rstN then arbNext else 0
      ensures wrrCount[..] == if rstN then
        [Credit(mode, hasData, old(arbState), old(wrrCount[..]), x, 0),
         Credit(mode, hasData, old(arbState), old(wrrCount[..]), x, 1),
         Credit(mode, hasData, old(arbState), old(wrrCount[..]), x, 2)] else [0, 0, 0]
    {
      if !rstN {
        wrrCount[0], wrrCount[1], wrrCount[2] := 0, 0, 0;
        arbState := 0;
        assert wrrCount[..] == [0, 0, 0];
      } else {
        ghost var arb, count := arbState, wrrCount[..];
        if mode == WRR {
          for q := 0 to 3
            invariant arbState == arb
            invariant forall i :: 0 <= i < 3 ==>
              wrrCount[i] == if i < q then Credit(mode, hasData, arb, count, x, i) else count[i]
          {
            if arbState == q && hasData[q] && x.ready {
              if wrrCount[q] + 1 >= x.weights[q] || !hasData[q] {
                wrrCount[q] := 0;
              } else {
                wrrCount[q] := wrrCount[q] + 1;
              }
            }
          }
        }
        arbState := arbNext;
      }
    }

    /** The three FIFO instances, on the pins the routing logic computed before the edge. */
    method ClockFifos(rstN: bool, a: Pins<T>, b: Pins<T>, c: Pins<T>)
      requires Valid()
      modifies high, med, low, high.ram, med.ram, low.ram
      ensures Valid()
      ensures high.Contents() == if rstN then QueueNext(old(high.Contents()), high.depth, a) else []
      ensures med.Contents() == if rstN then QueueNext(old(med.Contents()), high.depth, b) else []
      ensures low.Contents() == if rstN then QueueNext(old(low.Contents()), high.depth, c) else []
    {
      hide QueueNext;
      high.Clock(rstN, a);
      med.Clock(rstN, b);
      low.Clock(rstN, c);
    }

    /** fifo_vin and fifo_rin: the routing of the input beat and of m_tready to FIFO i. */
    function Routed(x: Inputs<T>, i: nat): (pins: Pins<T>)
      requires Valid() && i < 3
      reads this, high, med, low, wrrCount, high.ram, med.ram, low.ram
      ensures pins == QueuePins(State(), Parameters(), x, i)
      ensures pins.valid <==> x.valid && i == Dest(x.classId) && |State().queues[i]| < high.depth
      ensures pins.ready <==> x.ready && i == State().arb
      ensures pins.beat == x.beat
    {
      Pins(x.valid && Ready(x.classId) && Dest(x.classId) == i, x.beat, arbState == i && x.ready)
    }

    function DataFlags(): (has: seq<bool>)
      requires Valid()
      reads this, high, med, low, wrrCount, high.ram, med.ram, low.ram
      ensures has == HasData(State().queues)
    {
      [!high.Empty(), !med.Empty(), !low.Empty()]
    }

    /** One rising edge: the arbiter and the credits look at the state before the edge, and so do the FIFOs. */
    method Clock(rstN: bool, x: Inputs<T>)
      requires Valid()
      modifies this, high, med, low, wrrCount, high.ram, med.ram, low.ram
      ensures Valid()
      ensures State() == if rstN then Next(old(State()), Parameters(), x) else Reset()
      ensures rstN && x.valid && old(Ready(x.classId)) ==>
        var q := State().queues[Dest(x.classId)]; q != [] && q[|q| - 1] == x.beat
      ensures rstN ==> forall i :: 0 <= i < 3 ==>
        State().queues[i] == Moved(old(State()).queues[i], i == old(arbState) && x.ready,
                                   i == Dest(x.classId) && x.valid && old(Ready(x.classId)), x.beat)
    {
      hide Credit, ArbNext, QueueNext, Pow2, Stored, HasData, QueuePins, Dest, Routed, DataFlags, WellFormed;
      ghost var was := State();
      var arbNext := ArbDecision(x.weights);
      var hasData := DataFlags();
      ClockFifos(rstN, Routed(x, 0), Routed(x, 1), Routed(x, 2));
      assert wrrCount[..] == was.wrr;
      ClockArbiter(rstN, hasData, x, arbNext);
      if rstN {
        EdgeOnQueue(was, Parameters(), x, 0);
        EdgeOnQueue(was, Parameters(), x, 1);
        EdgeOnQueue(was, Parameters(), x, 2);
        hide Next, Moved;
      }
    }
  }
}
