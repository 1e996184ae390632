/**
  The token-bucket rate limiter (rtl/filters/token_bucket.sv).
 */
module TokenBucket {
  import opened NpePkg

  /** C_WIDTH = 48. */
  const W := 0x1_0000_0000_0000

  datatype Config = Config(rate: nat, burst: nat, interval: nat)

  predicate Fits(c: Config) {
    c.rate < W && c.burst < W && c.interval < U32
  }

  datatype Bucket = Bucket(tokens: nat, timer: nat)

  /** A packet strobe with the packet's 16-bit length, or an idle cycle. */
  datatype Cycle = Idle | Arrival(length: nat)

  function Reset(c: Config): Bucket {
    Bucket(c.burst, 0)
  }

  /** After reset with an unchanged configuration the state stays within these bounds. */
  predicate Bounded(c: Config, s: Bucket) {
    s.tokens <= c.burst && s.timer <= c.interval
  }

  predicate RefillDue(c: Config, s: Bucket) {
    s.timer >= c.interval
  }

  /** pkt_allow. */
  predicate Allows(s: Bucket, x: Cycle) {
    x.Arrival? && s.tokens >= x.length
  }

  /** The value a refill leaves: the sum is compared on 48 bits, after it has wrapped. */
  function Refilled(c: Config, tokens: nat): nat {
    if (tokens + c.rate) % W < c.burst then (tokens + c.rate) % W else c.burst
  }

  /** One edge.  Consumption is assigned after the refill, so that it replaces it when both happen. */
  function Next(c: Config, s: Bucket, x: Cycle): Bucket {
    Bucket(
      if Allows(s, x) then s.tokens - x.length
      else if RefillDue(c, s) then Refilled(c, s.tokens)
      else s.tokens,
      if RefillDue(c, s) then 0 else (s.timer + 1) % U32)
  }

  lemma StaysBounded(c: Config, s: Bucket, x: Cycle)
    requires Fits(c) && Bounded(c, s)
    ensures Bounded(c, Next(c, s, x))
  {
  }

  // ---------------------------------------------------------------------------
  // Windows
  // ---------------------------------------------------------------------------

  /** The state after the first n cycles. */
  function After(c: Config, s: Bucket, xs: seq<Cycle>, n: nat): Bucket
    requires n <= |xs|
  {
    if n == 0 then s else Next(c, After(c, s, xs, n - 1), xs[n - 1])
  }

  /** Bytes allowed through in the first n cycles. */
  function Allowed(c: Config, s: Bucket, xs: seq<Cycle>, n: nat): nat
    requires n <= |xs|
  {
    if n == 0 then 0
    else Allowed(c, s, xs, n - 1) + if Allows(After(c, s, xs, n - 1), xs[n - 1]) then xs[n - 1].length else 0
  }

  /** Times the timer came round in the first n cycles. */
  function Refills(c: Config, s: Bucket, xs: seq<Cycle>, n: nat): nat
    requires n <= |xs|
  {
    if n == 0 then 0
    else Refills(c, s, xs, n - 1) + if RefillDue(c, After(c, s, xs, n - 1)) then 1 else 0
  }

  function Rounds(a: nat, p: nat): nat
    requires p > 0
  {
    a / p
  }

  function Phase(a: nat, p: nat): nat
    requires p > 0
  {
    a % p
  }

  lemma DivideNext(a: nat, p: nat)
    requires p > 0
    ensures Phase(a, p) < p
    ensures Rounds(a + 1, p) == if Phase(a, p) == p - 1 then Rounds(a, p) + 1 else Rounds(a, p)
    ensures Phase(a + 1, p) == if Phase(a, p) == p - 1 then 0 else Phase(a, p) + 1
  {
    var q, r := a / p, a % p;
    assert a == p * q + r;
    if r == p - 1 {
      assert a + 1 == p * (q + 1);
      Quotient(a + 1, p, q + 1, 0);
    } else {
      Quotient(a + 1, p, q, r + 1);
    }
  }

  lemma Quotient(a: nat, p: nat, q: nat, r: nat)
    requires p > 0 && r < p && a == p * q + r
    ensures a / p == q && a % p == r
  {
    var q', r' := a / p, a % p;
    assert p * q' + r' == p * q + r;
    if q' < q {
      MulMonotone(p, q' + 1, q);
    } else if q' > q {
      MulMonotone(p, q + 1, q');
    }
  }

  /** The timer comes round every interval + 1 cycles, whatever the traffic. */
  lemma {:induction false} RefillsAreRegular(c: Config, s: Bucket, xs: seq<Cycle>, n: nat)
    requires Fits(c) && s.timer <= c.interval && n <= |xs|
    ensures Refills(c, s, xs, n) == Rounds(s.timer + n, c.interval + 1)
    ensures After(c, s, xs, n).timer == Phase(s.timer + n, c.interval + 1)
  {
    var p := c.interval + 1;
    if n == 0 {
      Quotient(s.timer, p, 0, s.timer);
    } else {
      RefillsAreRegular(c, s, xs, n - 1);
      DivideNext(s.timer + n - 1, p);
      TimerStep(c, After(c, s, xs, n - 1), xs[n - 1]);
      hide Next, Rounds, Phase;
    }
  }

  lemma TimerStep(c: Config, s: Bucket, x: Cycle)
    requires Fits(c) && s.timer <= c.interval
    ensures Next(c, s, x).timer == if s.timer == c.interval then 0 else s.timer + 1
    ensures RefillDue(c, s) <==> s.timer == c.interval
  {
  }

  lemma PayStep(c: Config, s: Bucket, x: Cycle)
    requires Fits(c) && Bounded(c, s)
    ensures (if Allows(s, x) then x.length else 0) + Next(c, s, x).tokens
      <= s.tokens + if RefillDue(c, s) then c.rate else 0
  {
  }

  lemma Distribute(a: nat, r: nat)
    ensures a * (r + 1) == a * r + a
  {
  }

  lemma {:induction false} TokensPayForBytes(c: Config, s: Bucket, xs: seq<Cycle>, n: nat)
    requires Fits(c) && Bounded(c, s) && n <= |xs|
    ensures Bounded(c, After(c, s, xs, n))
    ensures Allowed(c, s, xs, n) + After(c, s, xs, n).tokens <= s.tokens + c.rate * Refills(c, s, xs, n)
  {
    hide Next, Allows, RefillDue, Fits, Bounded;
    if n > 0 {
      TokensPayForBytes(c, s, xs, n - 1);
      StaysBounded(c, After(c, s, xs, n - 1), xs[n - 1]);
      PayStep(c, After(c, s, xs, n - 1), xs[n - 1]);
      Distribute(c.rate, Refills(c, s, xs, n - 1));
    }
  }

  /** The rate bound, over every window of n cycles that starts in a reachable state. */
  lemma RateBound(c: Config, s: Bucket, xs: seq<Cycle>, n: nat)
    requires Fits(c) && Bounded(c, s) && n <= |xs|
    ensures Allowed(c, s, xs, n) <= s.tokens + c.rate * ((s.timer + n) / (c.interval + 1))
    ensures Allowed(c, s, xs, n) <= c.burst + c.rate * ((n + c.interval) / (c.interval + 1))
  {
    TokensPayForBytes(c, s, xs, n);
    RefillsAreRegular(c, s, xs, n);
    DivideMonotone(s.timer + n, n + c.interval, c.interval + 1);
    MulMonotone(c.rate, (s.timer + n) / (c.interval + 1), (n + c.interval) / (c.interval + 1));
  }

  lemma DivideMonotone(a: nat, b: nat, p: nat)
    requires a <= b && p > 0
    ensures a / p <= b / p
  {
    if b / p < a / p {
      MulMonotone(p, b / p + 1, a / p);
    }
  }

  // ---------------------------------------------------------------------------
  // What is let through
  // ---------------------------------------------------------------------------

  /** A packet gets its bytes through exactly when the tokens cover it, to the last one. */
  lemma PacketPassesExactlyWhen(c: Config, s: Bucket, n: nat)
    ensures Allowed(c, s, [Arrival(n)], 1) == n <==> n <= s.tokens
    ensures n <= s.tokens ==> Next(c, s, Arrival(n)).tokens == s.tokens - n
    ensures n > s.tokens ==> Next(c, s, Arrival(n)) == Next(c, s, Idle)
  {
    var xs := [Arrival(n)];
    assert Allowed(c, s, xs, 0) == 0 && After(c, s, xs, 0) == s;
  }

  /** All bytes that arrive in the first n cycles. */
  function Offered(xs: seq<Cycle>, n: nat): nat
    requires n <= |xs|
  {
    if n == 0 then 0 else Offered(xs, n - 1) + if xs[n - 1].Arrival? then xs[n - 1].length else 0
  }

  /** The packet at cycle t, if there is one, is covered by the tokens left at that cycle. */
  predicate Covered(c: Config, s: Bucket, xs: seq<Cycle>, t: nat)
    requires t < |xs|
  {
    xs[t].Arrival? ==> xs[t].length <= After(c, s, xs, t).tokens
  }

  /** Over any window everything is let through exactly when every packet is covered. */
  lemma {:induction false} AllPassExactlyWhen(c: Config, s: Bucket, xs: seq<Cycle>, n: nat)
    requires n <= |xs|
    ensures Allowed(c, s, xs, n) <= Offered(xs, n)
    ensures Allowed(c, s, xs, n) == Offered(xs, n) <==> forall t :: 0 <= t < n ==> Covered(c, s, xs, t)
  {
    hide Next;
    if n > 0 {
      AllPassExactlyWhen(c, s, xs, n - 1);
      var got := if Allows(After(c, s, xs, n - 1), xs[n - 1]) then xs[n - 1].length else 0;
      var offered := if xs[n - 1].Arrival? then xs[n - 1].length else 0;
      assert got <= offered && (got == offered <==> Covered(c, s, xs, n - 1));
      hide Covered, After;
    }
  }

  /** What so many refills bring. */
  function Earned(c: Config, refills: nat): nat {
    c.rate * refills
  }

  /** A silent line earns a packet its passage: after m idle cycles it passes exactly if the tokens at the
      start and the refills since, up to the burst, cover it. */
  lemma PassesAfterSilence(c: Config, s: Bucket, m: nat, n: nat)
    requires Fits(c) && Bounded(c, s) && c.burst + c.rate < W
    ensures Allowed(c, s, Silence(m) + [Arrival(n)], m + 1) == n <==>
      n <= Min(s.tokens + Earned(c, Rounds(s.timer + m, c.interval + 1)), c.burst)
  {
    hide Next, After, Refills, Allowed, Rounds, Fits, Min, Earned;
    AfterSilence(c, s, m, n);
    IdleFills(c, s, Silence(m), m);
    RefillsAreRegular(c, s, Silence(m), m);
    SameEarnings(c, Refills(c, s, Silence(m), m));
  }

  lemma SameEarnings(c: Config, refills: nat)
    ensures Earned(c, refills) == c.rate * refills
  {
  }

  lemma AfterSilence(c: Config, s: Bucket, m: nat, n: nat)
    ensures Allowed(c, s, Silence(m) + [Arrival(n)], m + 1) == n <==> n <= After(c, s, Silence(m), m).tokens
  {
    var xs := Silence(m) + [Arrival(n)];
    assert xs[..m] == Silence(m) && xs[m] == Arrival(n);
    SamePrefix(c, s, Silence(m), xs, m);
    NothingAllowed(c, s, Silence(m), m);
    hide Next, After, Silence;
  }

  /** Reset leaves a full bucket whose first refill is a whole period away. */
  lemma AfterReset(c: Config, xs: seq<Cycle>, n: nat)
    requires Fits(c) && n <= |xs|
    ensures forall k: nat :: Allowed(c, Reset(c), [Arrival(k)], 1) == k <==> k <= c.burst
    ensures Refills(c, Reset(c), xs, n) == n / (c.interval + 1)
  {
    forall k: nat ensures Allowed(c, Reset(c), [Arrival(k)], 1) == k <==> k <= c.burst {
      PacketPassesExactlyWhen(c, Reset(c), k);
    }
    RefillsAreRegular(c, Reset(c), xs, n);
  }

  function Silence(m: nat): (xs: seq<Cycle>)
    ensures |xs| == m && forall x <- xs :: x.Idle?
  {
    seq(m, _ => Idle)
  }

  lemma {:induction false} SamePrefix(c: Config, s: Bucket, xs: seq<Cycle>, ys: seq<Cycle>, n: nat)
    requires n <= |xs| && n <= |ys| && xs[..n] == ys[..n]
    ensures After(c, s, xs, n) == After(c, s, ys, n)
    ensures Allowed(c, s, xs, n) == Allowed(c, s, ys, n)
  {
    hide Next;
    if n > 0 {
      assert xs[..n - 1] == xs[..n][..n - 1] && ys[..n - 1] == ys[..n][..n - 1];
      assert xs[n - 1] == xs[..n][n - 1] == ys[..n][n - 1] == ys[n - 1];
      SamePrefix(c, s, xs, ys, n - 1);
    }
  }

  lemma {:induction false} NothingAllowed(c: Config, s: Bucket, xs: seq<Cycle>, n: nat)
    requires n <= |xs| && forall x <- xs :: x.Idle?
    ensures Allowed(c, s, xs, n) == 0
  {
    hide Next, After;
    if n > 0 {
      NothingAllowed(c, s, xs, n - 1);
      assert xs[n - 1] in xs;
    }
  }

  // ---------------------------------------------------------------------------
  // What a refill is worth
  // ---------------------------------------------------------------------------

  function Min(a: nat, b: nat): nat {
    if a < b then a else b
  }

  /** A refill adds the rate up to the burst size, except when the 48-bit sum wraps to less than the burst. */
  lemma RefillSaturatesExactlyWhen(c: Config, tokens: nat)
    requires Fits(c) && tokens <= c.burst
    ensures Refilled(c, tokens) == Min(tokens + c.rate, c.burst) <==>
      tokens + c.rate < W || (tokens + c.rate) % W >= c.burst
  {
  }

  /** An edge refills and then spends, except when it does both: then the refill is lost. */
  lemma RefillIsLostExactlyWhen(c: Config, s: Bucket, x: Cycle)
    requires Fits(c) && Bounded(c, s)
    ensures var refilled := if RefillDue(c, s) then Refilled(c, s.tokens) else s.tokens;
      var spent: int := if Allows(s, x) then x.length else 0;
      Next(c, s, x).tokens == refilled - spent <==>
        || !(Allows(s, x) && RefillDue(c, s))
        || c.rate == 0
        || (s.tokens == c.burst && c.burst + c.rate < W)
  {
  }

  /** With a refill due at every cycle, the second packet already finds that of the first cycle missing. */
  lemma RefillIsLost()
    ensures var c := Config(10, 100, 0);
      After(c, Reset(c), [Arrival(60), Arrival(5)], 2).tokens == 35
  {
    var c := Config(10, 100, 0);
    assert After(c, Reset(c), [Arrival(60), Arrival(5)], 1) == Bucket(40, 0);
  }

  /** With the largest burst a rate of 2 empties the full bucket of an idle line down to one token. */
  lemma RefillWraps()
    ensures var c := Config(2, W - 1, 0);
      Fits(c) && Reset(c).tokens == W - 1 && After(c, Reset(c), [Idle], 1).tokens == 1
  {
    var c := Config(2, W - 1, 0);
    assert After(c, Reset(c), [Idle], 0) == Reset(c);
  }

  /** Without traffic the bucket fills up at its rate: nothing is lost and nothing is left out. */
  lemma {:induction false} IdleFills(c: Config, s: Bucket, xs: seq<Cycle>, n: nat)
    requires Fits(c) && Bounded(c, s) && c.burst + c.rate < W && n <= |xs|
    requires forall x <- xs :: x.Idle?
    ensures After(c, s, xs, n).tokens == Min(s.tokens + c.rate * Refills(c, s, xs, n), c.burst)
    ensures Bounded(c, After(c, s, xs, n))
  {
    if n > 0 {
      IdleFills(c, s, xs, n - 1);
      var now, r := After(c, s, xs, n - 1), Refills(c, s, xs, n - 1);
      assert xs[n - 1] in xs;
      IdleStep(c, now, xs[n - 1]);
      StaysBounded(c, now, xs[n - 1]);
      Distribute(c.rate, r);
      hide Next, RefillDue, Bounded, Fits;
    }
  }

  lemma IdleStep(c: Config, s: Bucket, x: Cycle)
    requires Fits(c) && Bounded(c, s) && c.burst + c.rate < W && x.Idle?
    ensures Next(c, s, x).tokens == if RefillDue(c, s) then Min(s.tokens + c.rate, c.burst) else s.tokens
  {
  }

  // ---------------------------------------------------------------------------
  // The registers
  // ---------------------------------------------------------------------------

  class Limiter {
    var tokens: nat
    var timer: nat

    ghost function State(): Bucket
      reads this
    {
      Bucket(tokens, timer)
    }

    constructor (c: Config)
      ensures State() == Reset(c)
    {
      tokens, timer := c.burst, 0;
    }

    /** pkt_allow. */
    predicate PktAllow(x: Cycle)
      reads this
      ensures PktAllow(x) <==> Allows(State(), x)
      ensures PktAllow(x) <==> x.Arrival? && x.length <= tokens
    {
      x.Arrival? && tokens >= x.length
    }

    /** One rising edge.  The two assignments to tokens are both computed from the value before the
        edge; when both are made, the one for consumption comes last and stands. */
    method Clock(rstN: bool, c: Config, x: Cycle)
      modifies this
      ensures State() == if rstN then Next(c, old(State()), x) else Reset(c)
      ensures rstN && x.Arrival? && x.length <= old(tokens) ==> tokens == old(tokens) - x.length
    {
      if !rstN {
        tokens := c.burst;
        timer := 0;
      } else {
        var had := tokens;
        if timer >= c.interval {
          timer := 0;
          if (had + c.rate) % W < c.burst {
            tokens := (had + c.rate) % W;
          } else {
            tokens := c.burst;
          }
        } else {
          timer := (timer + 1) % U32;
        }
        if x.Arrival? {
          if had >= x.length {
            tokens := had - x.length;
          }
        }
      }
    }
  }
}
