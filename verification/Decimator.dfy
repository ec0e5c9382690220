/** What the decoder task keeps from body to body: the frame decimator and the read-error latch. */
module Decimator {
  import opened Transducer
  import opened VideoIO

  const U16: int := 0x1_0000

  /** Integer division as C++ does it: towards zero. */
  function TruncDiv(a: int, b: int): int
    requires b != 0
  {
    if (a >= 0) == (b > 0) then (if a >= 0 then a else -a) / (if b > 0 then b else -b)
    else -((if a >= 0 then a else -a) / (if b > 0 then b else -b))
  }

  /** (unsigned short) (decoderFR/encoderFR) */
  function SkipCount(decoderFR: int, encoderFR: int): (k: nat)
    requires encoderFR != 0
    ensures k < U16
  {
    TruncDiv(decoderFR, encoderFR) % U16
  }

  // ---------- the decimator and the read-error latch ----------

  datatype ReadResult = Got(p: Packet) | AtEof | NotYet | Broken(n: int)

  // What the decoder task keeps from body to body.
  datatype Gate = Gate(skipFrames: nat, skippedFrames: nat, readError: bool)

  predicate GateOk(g: Gate) {
    g.skipFrames < U16 && g.skippedFrames < Period(g)
  }

  function Period(g: Gate): nat {
    if g.skipFrames == 0 then 1 else g.skipFrames
  }

  /** The increment of the unsigned short counter and its reset. */
  function Bump(g: Gate): Gate {
    var s := (g.skippedFrames + 1) % U16;
    g.(skippedFrames := if s >= g.skipFrames then 0 else s)
  }

  /** One body of the decoder task; `throws` says whether push or decode would throw in it. */
  function Body(g: Gate, read: ReadResult, throws: bool): Gate {
    if g.readError then g
    else match read
      case Broken(_) => g.(readError := true)
      case AtEof => Bump(g.(readError := true))
      case NotYet => Bump(g.(readError := true))
      case Got(_) => if g.skippedFrames == 0 && throws then g.(readError := true) else Bump(g)
  }

  /** Whether the body sends its packet to the decoder. */
  predicate Keeps(g: Gate, read: ReadResult) {
    !g.readError && read.Got? && g.skippedFrames == 0
  }

  /** The counter never wraps: it stays below the period, and an increment is a step modulo the period. */
  lemma BumpCycles(g: Gate)
    requires GateOk(g)
    ensures GateOk(Bump(g))
    ensures g.skippedFrames + 1 < U16
    ensures Bump(g).skippedFrames == if g.skippedFrames + 1 == Period(g) then 0 else g.skippedFrames + 1
  {
  }

  // What one body meets: what read would say, and whether push or decode would throw.
  datatype Event = Event(read: ReadResult, throws: bool)

  /** The gate after a series of bodies. */
  function After(g: Gate, evs: seq<Event>): Gate {
    if evs == [] then g
    else
      var n := |evs| - 1;
      Body(After(g, evs[..n]), evs[n].read, evs[n].throws)
  }

  /** The packets sent to the decoder by a series of bodies. */
  function Kept(g: Gate, evs: seq<Event>): seq<Packet> {
    if evs == [] then []
    else
      var n := |evs| - 1;
      Kept(g, evs[..n]) + (if Keeps(After(g, evs[..n]), evs[n].read) then [evs[n].read.p] else [])
  }

  /** Every read succeeds and nothing throws. */
  predicate Smooth(evs: seq<Event>) {
    forall i :: 0 <= i < |evs| ==> evs[i].read.Got? && !evs[i].throws
  }

  function Ceil(n: nat, k: nat): nat
    requires k > 0
  {
    (n + k - 1) / k
  }

  /** The packets at the multiples of `k`. */
  ghost predicate EveryNth(r: seq<Packet>, evs: seq<Event>, k: nat)
    requires k > 0
  {
    && |r| == Ceil(|evs|, k)
    && forall j :: 0 <= j < |r| ==> 0 <= j * k < |evs| && evs[j * k].read.Got? && r[j] == evs[j * k].read.p
  }

  /** Decimation in closed form: from a zero counter exactly the packets at the multiples of the period
      are decoded, so n packets leave ceil(n / period); the counter stays below the period. */
  lemma {:induction false} Decimates(g: Gate, evs: seq<Event>)
    requires g.skipFrames < U16 && g.skippedFrames == 0 && !g.readError && Smooth(evs)
    ensures After(g, evs) == g.(skippedFrames := |evs| % Period(g)) && GateOk(After(g, evs))
    ensures EveryNth(Kept(g, evs), evs, Period(g))
  {
    var k := Period(g);
    if evs == [] {
      CeilZero(k);
    } else {
      var n := |evs| - 1;
      Decimates(g, evs[..n]);
      BumpCycles(After(g, evs[..n]));
      ModNext(n, k);
      CeilNext(n, k);
      KeepsNth(Kept(g, evs[..n]), evs, k);
    }
  }

  /** One more packet, kept if its position is a multiple of `k`. */
  lemma KeepsNth(r: seq<Packet>, evs: seq<Event>, k: nat)
    requires k > 0 && evs != [] && Smooth(evs) && EveryNth(r, evs[..|evs| - 1], k)
    requires Ceil(|evs|, k) == Ceil(|evs| - 1, k) + (if (|evs| - 1) % k == 0 then 1 else 0)
    ensures var n := |evs| - 1; EveryNth(r + (if n % k == 0 then [evs[n].read.p] else []), evs, k)
  {
    var n := |evs| - 1;
    if n % k == 0 {
      CeilOfMultiple(n, k);
    }
  }

  lemma CeilOfMultiple(n: nat, k: nat)
    requires k > 0 && n % k == 0
    ensures Ceil(n, k) * k == n
  {
    assert n == (n / k) * k;
    DivUnique(n + k - 1, k, n / k, k - 1);
  }

  lemma CeilZero(k: nat)
    requires k > 0
    ensures Ceil(0, k) == 0 && 0 % k == 0
  {
    assert (k - 1) / k == 0;
  }

  lemma Multiples(d: int, k: int)
    requires k > 0
    ensures d >= 1 ==> d * k >= k
    ensures d <= -1 ==> d * k <= -k
  {
  }

  lemma DivUnique(n: int, k: int, q: int, r: int)
    requires k > 0 && n == q * k + r && 0 <= r < k
    ensures n / k == q && n % k == r
  {
    var d := n / k - q;
    assert d * k == r - n % k by { assert n == (n / k) * k + n % k; }
    Multiples(d, k);
  }

  lemma ModNext(n: nat, k: nat)
    requires k > 0
    ensures (n + 1) % k == if n % k + 1 == k then 0 else n % k + 1
  {
    var q := n / k;
    assert n == q * k + n % k;
    if n % k + 1 == k {
      assert n + 1 == (q + 1) * k + 0;
      DivUnique(n + 1, k, q + 1, 0);
    } else {
      DivUnique(n + 1, k, q, n % k + 1);
    }
  }

  lemma CeilNext(n: nat, k: nat)
    requires k > 0
    ensures Ceil(n + 1, k) == Ceil(n, k) + (if n % k == 0 then 1 else 0)
  {
    var q, r := n / k, n % k;
    assert n == q * k + r;
    if r == 0 {
      DivUnique(n + k - 1, k, q, k - 1);
      assert n + 1 + k - 1 == (q + 1) * k + 0;
      DivUnique(n + 1 + k - 1, k, q + 1, 0);
    } else {
      assert n + k - 1 == (q + 1) * k + (r - 1);
      DivUnique(n + k - 1, k, q + 1, r - 1);
      assert n + 1 + k - 1 == (q + 1) * k + r;
      DivUnique(n + 1 + k - 1, k, q + 1, r);
    }
  }

  /** The decimator keeps up with the encoder's frame rate exactly when the camera is not slower. */
  lemma NeverStarves(g: Gate, decoderFR: int, encoderFR: int, evs: seq<Event>)
    requires decoderFR > 0 && encoderFR > 0 && Smooth(evs)
    requires g == Gate(SkipCount(decoderFR, encoderFR), 0, false)
    ensures evs != [] ==> (|Kept(g, evs)| * decoderFR >= |evs| * encoderFR <==> decoderFR >= encoderFR)
  {
    Decimates(g, evs);
    if decoderFR >= encoderFR {
      PeriodAtMost(decoderFR, encoderFR);
      KeepsUp(decoderFR, encoderFR, Period(g), |evs|);
    } else {
      QuotientZero(decoderFR, encoderFR);
      DivUnique(|evs|, 1, |evs|, 0);
      if evs != [] { MulStrict(|evs|, decoderFR, encoderFR); }
    }
  }

  /** A period that is at most the quotient of the rates. */
  lemma KeepsUp(d: int, e: int, k: nat, n: nat)
    requires d >= e > 0 && 0 < k <= d / e
    ensures Ceil(n, k) * d >= n * e
  {
    CeilBounds(n, k);
    MulMono(Ceil(n, k), k, d / e);
    NotStarved(d, e, d / e, Ceil(n, k), n);
  }

  lemma PeriodAtMost(d: int, e: int)
    requires d >= e > 0
    ensures Period(Gate(SkipCount(d, e), 0, false)) <= d / e
  {
    QuotientAtLeastOne(d, e);
  }

  /** And it stays below twice that rate as long as the quotient of the rates fits the unsigned short it
      is narrowed to ... */
  lemma StaysUnderTwice(g: Gate, decoderFR: int, encoderFR: int, evs: seq<Event>)
    requires decoderFR > 0 && encoderFR > 0 && decoderFR / encoderFR < U16 && Smooth(evs)
    requires g == Gate(SkipCount(decoderFR, encoderFR), 0, false)
    ensures (|Kept(g, evs)| - 1) * decoderFR < 2 * |evs| * encoderFR
  {
    var k, n := Period(g), |evs|;
    Decimates(g, evs);
    CeilBounds(n, k);
    if decoderFR >= encoderFR {
      QuotientAtLeastOne(decoderFR, encoderFR);
      UnderTwice(decoderFR, encoderFR, k, Ceil(n, k), n);
    } else {
      QuotientZero(decoderFR, encoderFR);
      DivUnique(n, 1, n, 0);
      AllKept(decoderFR, encoderFR, n);
    }
  }

  lemma AllKept(d: int, e: int, n: nat)
    requires 0 < d < e
    ensures (n - 1) * d < 2 * n * e
  {
    if n > 0 {
      MulMono(n, d, e);
      assert (n - 1) * d == n * d - d;
      assert 2 * n * e == n * e + n * e;
      MulMono(e, 0, n);
    }
  }

  /** ... and no longer: past that, two periods and one packet already reach it. */
  lemma PassesTwice(g: Gate, decoderFR: int, encoderFR: int, evs: seq<Event>)
    requires encoderFR > 0 && decoderFR / encoderFR >= U16 && Smooth(evs)
    requires g == Gate(SkipCount(decoderFR, encoderFR), 0, false) && |evs| == 2 * Period(g) + 1
    ensures (|Kept(g, evs)| - 1) * decoderFR >= 2 * |evs| * encoderFR
  {
    var k, n := Period(g), |evs|;
    Decimates(g, evs);
    DivUnique(n + k - 1, k, 3, 0);
    TwiceOrMore(decoderFR, encoderFR, k, n);
  }

  /** The bound holds of every series of packets exactly when the quotient fits 16 bits. */
  lemma UnderTwiceIff(g: Gate, decoderFR: int, encoderFR: int)
    requires decoderFR > 0 && encoderFR > 0 && g == Gate(SkipCount(decoderFR, encoderFR), 0, false)
    ensures (forall evs :: Smooth(evs) ==> (|Kept(g, evs)| - 1) * decoderFR < 2 * |evs| * encoderFR)
       <==> decoderFR / encoderFR < U16
  {
    if decoderFR / encoderFR < U16 {
      forall evs | Smooth(evs) ensures (|Kept(g, evs)| - 1) * decoderFR < 2 * |evs| * encoderFR {
        StaysUnderTwice(g, decoderFR, encoderFR, evs);
      }
    } else {
      var evs := seq(2 * Period(g) + 1, i => Event(Got(0), false));
      assert Smooth(evs);
      PassesTwice(g, decoderFR, encoderFR, evs);
      assert !((|Kept(g, evs)| - 1) * decoderFR < 2 * |evs| * encoderFR);
    }
  }

  lemma TwiceOrMore(d: int, e: int, k: int, n: int)
    requires e > 0 && d / e >= 2 * k + 1 && n == 2 * k + 1
    ensures (3 - 1) * d >= 2 * n * e
  {
    assert d == (d / e) * e + d % e;
    MulMono(e, n, d / e);
  }

  lemma QuotientAtLeastOne(d: int, e: int)
    requires d >= e > 0
    ensures d / e >= 1
  {
    assert d == (d / e) * e + d % e;
    Multiples(d / e, e);
  }

  lemma QuotientZero(d: int, e: int)
    requires 0 < d < e
    ensures d / e == 0
  {
    DivUnique(d, e, 0, d);
  }

  lemma MulStrict(n: int, x: int, y: int)
    requires n > 0 && x < y
    ensures n * x < n * y
  {
  }

  lemma CeilBounds(n: nat, k: nat)
    requires k > 0
    ensures Ceil(n, k) * k >= n
    ensures n > 0 ==> (Ceil(n, k) - 1) * k < n
    ensures n == 0 ==> Ceil(n, k) == 0
  {
    var m := n + k - 1;
    assert m == (m / k) * k + m % k;
    assert (Ceil(n, k) - 1) * k == Ceil(n, k) * k - k;
    CeilZero(k);
  }

  lemma NotStarved(d: int, e: int, k: int, c: nat, n: nat)
    requires d >= e > 0 && k == d / e && c * k >= n
    ensures c * d >= n * e
  {
    assert d == k * e + d % e;
    MulMono(c, k * e, d);
    assert c * (k * e) == (c * k) * e;
    MulMono(e, n, c * k);
  }

  lemma UnderTwice(d: int, e: int, k: int, c: nat, n: nat)
    requires d >= e > 0 && k == d / e && k >= 1
    requires if n == 0 then c == 0 else (c - 1) * k < n
    ensures (c - 1) * d < 2 * n * e
  {
    if c > 1 {
      assert d == k * e + d % e;
      MulMono(e, 1, k);
      MulMono(c - 1, d, 2 * (k * e));
      assert (c - 1) * (2 * (k * e)) == 2 * (((c - 1) * k) * e);
      MulMono(e, (c - 1) * k + 1, n);
      assert ((c - 1) * k + 1) * e == ((c - 1) * k) * e + e;
    } else if c == 1 {
      MulMono(e, 1, n);
    }
  }

  lemma MulMono(a: nat, x: int, y: int)
    requires x <= y
    ensures a * x <= a * y && x * a <= y * a
  {
  }

  // ---------- the read-error latch ----------

  /** Body number `i` calls read. */
  predicate Polls(g: Gate, evs: seq<Event>, i: nat)
    requires i < |evs|
  {
    !After(g, evs[..i]).readError
  }

  /** Its read fails, or push or decode throws in it. */
  predicate Fails(g: Gate, evs: seq<Event>, i: nat)
    requires i < |evs|
  {
    Polls(g, evs, i) && (!evs[i].read.Got? || (After(g, evs[..i]).skippedFrames == 0 && evs[i].throws))
  }

  /** Until the next run, a body that failed is the last one that reads, so at most one fails; nothing
      is decoded and the gate stays as it is from then on. */
  lemma {:induction false} ReadErrorLatch(g: Gate, evs: seq<Event>, i: nat, j: nat)
    requires i < j <= |evs| && Fails(g, evs, i)
    ensures j < |evs| ==> !Polls(g, evs, j) && !Fails(g, evs, j)
    ensures After(g, evs[..j]) == After(g, evs[..i + 1])
    ensures Kept(g, evs[..j]) == Kept(g, evs[..i + 1])
    decreases j
  {
    assert evs[..i + 1][..i] == evs[..i];
    if j > i + 1 {
      ReadErrorLatch(g, evs, i, j - 1);
      assert evs[..j][..j - 1] == evs[..j - 1];
    }
  }
}
