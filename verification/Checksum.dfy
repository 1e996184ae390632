/**
  The Internet checksum (section 3.1 of RFC 791, section 1 of RFC 1071), three times over: the
  one's-complement sum it is defined by, the software form with its open-ended fold loop
  (sim/packet_generators/packet_gen.h), and the hardware form with exactly two folds
  (rtl/parsers/ipv4_parser.sv).
 */
module Checksum {
  import opened NpePkg

  // ---------------------------------------------------------------------------
  // The definition
  // ---------------------------------------------------------------------------

  /** 16-bit one's-complement addition: the carry out of the top is added back in. */
  function EndAroundAdd(a: nat, b: nat): nat {
    if a + b > 0xFFFF then a + b - 0xFFFF else a + b
  }

  /** The one's-complement sum of the first n big-endian words from byte off on. */
  function OnesSum(d: seq<byte>, off: nat, n: nat): (s: nat)
    ensures s <= 0xFFFF
  {
    if n == 0 then 0 else EndAroundAdd(OnesSum(d, off, n - 1), Word16(d, off + 2 * (n - 1)))
  }

  /** The plain sum of the same words. */
  function WordSum(d: seq<byte>, off: nat, n: nat): (s: nat)
    ensures s <= 0xFFFF * n
  {
    if n == 0 then 0 else WordSum(d, off, n - 1) + Word16(d, off + 2 * (n - 1))
  }

  /** Number of 16-bit words in a byte string, an odd last byte being padded with zero. */
  function WordCount(d: seq<byte>): nat {
    (|d| + 1) / 2
  }

  /** The residue of x modulo 0xFFFF, with zero kept for x == 0 only. */
  function Canon(x: nat): (r: nat)
    ensures r <= 0xFFFF
    ensures r == 0 <==> x == 0
  {
    if x == 0 then 0 else (x - 1) % 0xFFFF + 1
  }

  lemma CanonShift(x: nat, k: nat)
    requires x > 0
    ensures Canon(x + 0xFFFF * k) == Canon(x)
  {
    assert (x - 1 + 0xFFFF * k) % 0xFFFF == (x - 1) % 0xFFFF;
  }

  lemma CanonAdd(s: nat, w: nat)
    requires w <= 0xFFFF
    ensures EndAroundAdd(Canon(s), w) == Canon(s + w)
  {
    if s > 0 {
      var q, r := (s - 1) / 0xFFFF, (s - 1) % 0xFFFF;
      assert s + w == (r + 1 + w) + 0xFFFF * q;
      CanonShift(r + 1 + w, q);
    }
  }

  lemma {:induction false} OnesSumIsCanon(d: seq<byte>, off: nat, n: nat)
    ensures OnesSum(d, off, n) == Canon(WordSum(d, off, n))
  {
    hide Canon, EndAroundAdd;
    if n == 0 {
      assert Canon(0) == 0;
    } else {
      OnesSumIsCanon(d, off, n - 1);
      CanonAdd(WordSum(d, off, n - 1), Word16(d, off + 2 * (n - 1)));
    }
  }

  /** The sum depends on the bytes only, not on where they lie. */
  lemma {:induction false} OnesSumShift(d: seq<byte>, e: seq<byte>, a: nat, k: nat, n: nat)
    requires forall i :: a <= i < a + 2 * n ==> Lane(e, i + k) == Lane(d, i)
    ensures OnesSum(d, a, n) == OnesSum(e, a + k, n)
  {
    if n > 0 {
      OnesSumShift(d, e, a, k, n - 1);
    }
  }

  // ---------------------------------------------------------------------------
  // The software form
  // ---------------------------------------------------------------------------

  /** One fold: the low half plus the high half. */
  function Fold(x: nat): (r: nat) {
    x % 0x1_0000 + x / 0x1_0000
  }

  lemma FoldKeepsCanon(x: nat)
    ensures Canon(Fold(x)) == Canon(x)
    ensures x >= 0x1_0000 ==> Fold(x) < x
    ensures x < 0x1_0000 ==> Canon(x) == x
  {
    if x > 0 {
      assert x == Fold(x) + 0xFFFF * (x / 0x1_0000);
      CanonShift(Fold(x), x / 0x1_0000);
    }
  }

  lemma SmallSum(d: seq<byte>)
    requires |d| <= 131074
    ensures WordSum(d, 0, WordCount(d)) % U32 == WordSum(d, 0, WordCount(d))
  {
    assert WordSum(d, 0, WordCount(d)) <= 0xFFFF * WordCount(d) <= 0xFFFF * 65537;
  }

  /** What the 32-bit accumulator holds after the first n words. */
  function Accumulated(d: seq<byte>, n: nat): nat {
    WordSum(d, 0, n) % U32
  }

  lemma StartsAtZero(d: seq<byte>)
    ensures Accumulated(d, 0) == 0
  {
  }

  lemma AccumulatedAll(d: seq<byte>)
    ensures Accumulated(d, WordCount(d)) == WordSum(d, 0, WordCount(d)) % U32
  {
  }

  lemma NextWord(d: seq<byte>, i: nat, word: nat)
    requires i < |d| && i % 2 == 0
    requires word == d[i] as nat * 0x100 + if i + 1 < |d| then d[i + 1] else 0
    ensures Accumulated(d, (i + 2) / 2) == (Accumulated(d, i / 2) + word) % U32
  {
    assert 2 * (i / 2) == i && (i + 2) / 2 - 1 == i / 2;
    assert word == Word16(d, i);
    assert WordSum(d, 0, (i + 2) / 2) == WordSum(d, 0, i / 2) + word;
    hide WordSum, Word16;
    WrapAdd(WordSum(d, 0, i / 2), word);
  }

  lemma WrapAdd(a: nat, w: nat)
    ensures (a + w) % U32 == (a % U32 + w) % U32
  {
  }

  /** PacketGen::ip_checksum; the accumulator is 32 bits wide and wraps. */
  method IpChecksum(data: seq<byte>) returns (c: nat)
    ensures c == 0xFFFF - Canon(WordSum(data, 0, WordCount(data)) % U32)
    ensures |data| <= 131074 ==> c == 0xFFFF - OnesSum(data, 0, WordCount(data))
  {
    hide Canon, OnesSum, Accumulated;
    var sum: nat, i: nat := 0, 0;
    assert sum == Accumulated(data, i / 2) by { StartsAtZero(data); }
    while i < |data|
      invariant i % 2 == 0 && i <= 2 * WordCount(data)
      invariant sum == Accumulated(data, i / 2)
    {
      var high: nat, low: nat := data[i], if i + 1 < |data| then data[i + 1] else 0;
      var word := high * 0x100 + low;
      NextWord(data, i, word);
      sum := (sum + word) % U32;
      i := i + 2;
    }
    c := FoldAndInvert(sum);
    AccumulatedAll(data);
    OnesSumIsCanon(data, 0, WordCount(data));
    if |data| <= 131074 {
      SmallSum(data);
    }
  }

  /** The fold loop, which stops because every round makes the sum smaller. */
  method FoldAndInvert(total: nat) returns (c: nat)
    ensures c == 0xFFFF - Canon(total)
  {
    hide Canon;
    var sum := total;
    while sum / 0x1_0000 != 0
      invariant Canon(sum) == Canon(total)
      decreases sum
    {
      FoldKeepsCanon(sum);
      sum := sum % 0x1_0000 + sum / 0x1_0000;
    }
    FoldKeepsCanon(sum);
    c := 0xFFFF - sum;
  }

  /** The wrap of the 32-bit accumulator does no harm exactly when it happened a multiple of
      0xFFFF times and left something over, or there was nothing to sum. */
  lemma WrapIsHarmlessExactlyWhen(s: nat)
    ensures Canon(s % U32) == Canon(s) <==> s == 0 || ((s / U32) % 0xFFFF == 0 && s % U32 != 0)
  {
    var r, k := s % U32, s / U32;
    assert s == (r + k) + 0xFFFF * (0x1_0001 * k);
    if r > 0 {
      CanonShift(r + k, 0x1_0001 * k);
      var a, b := r - 1, k;
      assert Canon(s) == (a + b) % 0xFFFF + 1;
      assert Canon(r) == a % 0xFFFF + 1;
      assert (a + b) % 0xFFFF == a % 0xFFFF <==> b % 0xFFFF == 0;
    }
  }

  lemma {:induction false} SumOfOnes(d: seq<byte>, n: nat)
    requires 2 * n <= |d| && forall b <- d :: b == 0xFF
    ensures WordSum(d, 0, n) == 0xFFFF * n
  {
    if n > 0 {
      SumOfOnes(d, n - 1);
      assert d[2 * n - 2] in d && d[2 * n - 1] in d;
    }
  }

  /** Just above the length up to which the accumulator cannot wrap: 131076 bytes of ones, whose
      one's-complement sum is all ones, get the checksum of another sum. */
  lemma WrapIsHarmful()
    ensures var d: seq<byte> := seq(131076, _ => 0xFF);
      && OnesSum(d, 0, WordCount(d)) == 0xFFFF
      && Canon(WordSum(d, 0, WordCount(d)) % U32) == 0xFFFE
  {
    var d: seq<byte> := seq(131076, _ => 0xFF);
    SumOfOnes(d, 65538);
    OnesSumIsCanon(d, 0, 65538);
    hide WordSum, OnesSum;
  }

  // ---------------------------------------------------------------------------
  // The hardware form
  // ---------------------------------------------------------------------------

  /** The parser's verdict on the 20 header bytes at off. */
  predicate ChecksumOk(d: seq<byte>, off: nat) {
    OnesSum(d, off, 10) == 0xFFFF
  }

  lemma TwoFoldsSuffice(sum: nat)
    requires sum <= 10 * 0xFFFF
    ensures Fold(Fold(sum)) == Canon(sum) <= 0xFFFF
  {
    FoldKeepsCanon(sum);
    FoldKeepsCanon(Fold(sum));
    FoldKeepsCanon(Fold(Fold(sum)));
  }

  /** ip_checksum of the IPv4 parser over the 20 header bytes at off: ten words, two folds. */
  method HardwareChecksum(d: seq<byte>, off: nat) returns (c: nat)
    ensures c == 0xFFFF - OnesSum(d, off, 10)
    ensures c == 0 <==> ChecksumOk(d, off)
  {
    hide Canon, OnesSum;
    var sum := 0;
    for i := 0 to 10
      invariant sum == WordSum(d, off, i)
    {
      sum := sum + Word16(d, off + i * 2);
    }
    OnesSumIsCanon(d, off, 10);
    TwoFoldsSuffice(sum);
    sum := Fold(sum);
    sum := Fold(sum);
    c := 0xFFFF - sum % 0x1_0000;
  }

  lemma OkMeansDivisible(d: seq<byte>, off: nat)
    ensures ChecksumOk(d, off) <==> WordSum(d, off, 10) > 0 && WordSum(d, off, 10) % 0xFFFF == 0
  {
    OnesSumIsCanon(d, off, 10);
  }

  lemma TenWords(d: seq<byte>, off: nat)
    ensures WordSum(d, off, 10) == Word16(d, off) + Word16(d, off + 2) + Word16(d, off + 4) + Word16(d, off + 6)
      + Word16(d, off + 8) + Word16(d, off + 10) + Word16(d, off + 12) + Word16(d, off + 14)
      + Word16(d, off + 16) + Word16(d, off + 18)
  {
    assert WordSum(d, off, 2) == Word16(d, off) + Word16(d, off + 2);
    assert WordSum(d, off, 4) == WordSum(d, off, 2) + Word16(d, off + 4) + Word16(d, off + 6);
    assert WordSum(d, off, 6) == WordSum(d, off, 4) + Word16(d, off + 8) + Word16(d, off + 10);
    assert WordSum(d, off, 8) == WordSum(d, off, 6) + Word16(d, off + 12) + Word16(d, off + 14);
  }

  // ---------------------------------------------------------------------------
  // Software against hardware
  // ---------------------------------------------------------------------------

  /** A header with the two given bytes in its checksum field. */
  function WithField(h: seq<byte>, hi: byte, lo: byte): (r: seq<byte>)
    requires |h| >= 20
    ensures |r| == |h|
  {
    h[10 := hi][11 := lo]
  }

  /** The value the generator computes for a header: over the 20 bytes with a zeroed field. */
  function HeaderChecksum(h: seq<byte>): nat
    requires |h| == 20
  {
    0xFFFF - OnesSum(WithField(h, 0, 0), 0, 10)
  }

  lemma FieldAddsUp(h: seq<byte>, hi: byte, lo: byte)
    requires |h| == 20
    ensures WordSum(WithField(h, hi, lo), 0, 10) == WordSum(WithField(h, 0, 0), 0, 10) + hi * 0x100 + lo
  {
    var a, b := WithField(h, 0, 0), WithField(h, hi, lo);
    assert Word16(b, 10) == Word16(a, 10) + hi * 0x100 + lo;
    forall i | 0 <= i < 19 && i != 9 && i != 10 && i != 11 ensures Word16(b, i) == Word16(a, i) {
    }
    hide WordSum, Word16, WithField;
    TenWords(a, 0);
    TenWords(b, 0);
  }

  /** Which field contents the parser accepts: the computed checksum in network byte order, and,
      when that is zero, the other representation of zero. */
  lemma AcceptedFields(h: seq<byte>, hi: byte, lo: byte)
    requires |h| == 20
    ensures ChecksumOk(WithField(h, hi, lo), 0) <==>
      hi * 0x100 + lo == HeaderChecksum(h) || (HeaderChecksum(h) == 0 && hi == lo == 0xFF)
  {
    var s, v := WordSum(WithField(h, 0, 0), 0, 10), hi * 0x100 + lo;
    FieldAddsUp(h, hi, lo);
    OkMeansDivisible(WithField(h, hi, lo), 0);
    OnesSumIsCanon(WithField(h, 0, 0), 0, 10);
    DivisibleAfterAdding(s, v);
  }

  lemma DivisibleAfterAdding(s: nat, v: nat)
    requires v <= 0xFFFF
    ensures s + v > 0 && (s + v) % 0xFFFF == 0 <==> v == 0xFFFF - Canon(s) || (Canon(s) == 0xFFFF && v == 0xFFFF)
  {
    if s > 0 {
      var q, r := (s - 1) / 0xFFFF, (s - 1) % 0xFFFF;
      assert s + v == 0xFFFF * q + (r + 1 + v);
      assert (s + v) % 0xFFFF == (r + 1 + v) % 0xFFFF;
    }
  }

  /** Round trip: the software checksum, stored in network byte order, satisfies the hardware check. */
  lemma StoredChecksumIsAccepted(h: seq<byte>)
    requires |h| == 20
    ensures ChecksumOk(WithField(h, HeaderChecksum(h) / 0x100, HeaderChecksum(h) % 0x100), 0)
  {
    AcceptedFields(h, HeaderChecksum(h) / 0x100, HeaderChecksum(h) % 0x100);
  }

  /** The generator copies the field in host order (little-endian), so that the parser sees the two
      bytes swapped: it accepts the header exactly when the two bytes are equal. */
  lemma HostOrderIsAcceptedExactlyWhen(h: seq<byte>)
    requires |h| == 20
    ensures ChecksumOk(WithField(h, HeaderChecksum(h) % 0x100, HeaderChecksum(h) / 0x100), 0)
      <==> HeaderChecksum(h) % 0x100 == HeaderChecksum(h) / 0x100
  {
    AcceptedFields(h, HeaderChecksum(h) % 0x100, HeaderChecksum(h) / 0x100);
  }

  /** A header whose words add up to 0x20680 has a checksum that does not survive the swap. */
  lemma HostOrderIsRejected(h: seq<byte>)
    requires |h| == 20 && WordSum(WithField(h, 0, 0), 0, 10) == 0x2_0680
    ensures HeaderChecksum(h) == 0xF97D && !ChecksumOk(WithField(h, 0x7D, 0xF9), 0)
  {
    hide OnesSum, WordSum, ChecksumOk, WithField;
    OnesSumIsCanon(WithField(h, 0, 0), 0, 10);
    HostOrderIsAcceptedExactlyWhen(h);
  }
}
