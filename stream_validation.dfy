/**
 * Whole-stream sanity checks on photon arrival timestamps: strict
 * monotonicity and the absence of improbably long gaps. Both checks count
 * the adjacent pairs they object to and fail when that count is non-zero.
 */
module StreamValidation {
  import opened Wrappers
  import opened PhotonErrors

  const U64_MODULUS: int := 0x1_0000_0000_0000_0000

  /** A timestamp as the readers deliver it: an unsigned 64-bit clock count. */
  type Timestamp = t: int | 0 <= t < U64_MODULUS

  /** The default sensitivity of the continuity check. */
  const DEFAULT_GAP_FACTOR: nat := 1000

  /** Unsigned 64-bit subtraction, which wraps around below zero. */
  function Sub64(a: Timestamp, b: Timestamp): (r: Timestamp)
    ensures (r - (a - b)) % U64_MODULUS == 0
    ensures b <= a ==> r == a - b
  {
    if b <= a then a - b else a - b + U64_MODULUS
  }

  /** Which adjacent pairs a check objects to. */
  datatype PairTest =
    | NonIncreasing
      /** A gap is large when gap * n > factor * span, n being the stream length. */
    | LargeGap(n: nat, factor: nat, span: nat)

  predicate Flags(test: PairTest, prev: Timestamp, next: Timestamp)
  {
    match test
    case NonIncreasing => next <= prev
    case LargeGap(n, factor, span) => Sub64(next, prev) * n > factor * span
  }

  /** The pair (s[i], s[i+1]) is flagged by `test`. */
  predicate FlaggedAt(test: PairTest, s: seq<Timestamp>, i: nat)
    requires i + 1 < |s|
  {
    Flags(test, s[i], s[i + 1])
  }

  /** No adjacent pair of `s` is flagged by `test`. */
  predicate NoneFlagged(test: PairTest, s: seq<Timestamp>)
  {
    forall i: nat :: i < |s| - 1 ==> !FlaggedAt(test, s, i)
  }

  /** The indices i whose pair (s[i], s[i+1]) is flagged: the reference meaning of a count. */
  function FlaggedIndices(test: PairTest, s: seq<Timestamp>): set<nat>
  {
    set i: nat | i < |s| - 1 && FlaggedAt(test, s, i)
  }

  /** The number of flagged adjacent pairs (numpy's count_nonzero over the pairwise test). */
  function CountFlagged(test: PairTest, s: seq<Timestamp>): (r: nat)
    ensures r <= if |s| == 0 then 0 else |s| - 1
    ensures r == 0 <==> NoneFlagged(test, s)
    decreases |s|
  {
    if |s| < 2 then 0
    else
      var prefix := s[..|s| - 1];
      assert forall i: nat :: i < |prefix| - 1 ==> FlaggedAt(test, prefix, i) == FlaggedAt(test, s, i);
      CountFlagged(test, prefix) + (if FlaggedAt(test, s, |s| - 2) then 1 else 0)
  }

  /** The count is exactly the number of flagged indices. */
  lemma {:induction false} CountIsCardinality(test: PairTest, s: seq<Timestamp>)
    ensures CountFlagged(test, s) == |FlaggedIndices(test, s)|
    decreases |s|
  {
    if |s| < 2 {
      assert FlaggedIndices(test, s) == {};
    } else {
      var prefix := s[..|s| - 1];
      var k := |s| - 2;
      CountIsCardinality(test, prefix);
      var last: set<nat> := if FlaggedAt(test, s, k) then {k} else {};
      forall i: nat
        ensures i in FlaggedIndices(test, s) <==> i in FlaggedIndices(test, prefix) + last
      {
        if i < k {
          assert FlaggedAt(test, prefix, i) == FlaggedAt(test, s, i);
        }
      }
      assert FlaggedIndices(test, s) == FlaggedIndices(test, prefix) + last;
      assert k !in FlaggedIndices(test, prefix);
    }
  }

  /** Counting over a concatenation: both halves plus the pair at the seam. */
  lemma {:induction false} CountConcat(test: PairTest, a: seq<Timestamp>, b: seq<Timestamp>)
    requires |a| > 0 && |b| > 0
    ensures CountFlagged(test, a + b) ==
      CountFlagged(test, a) + CountFlagged(test, b) + (if Flags(test, a[|a| - 1], b[0]) then 1 else 0)
    decreases |b|
  {
    if |b| > 1 {
      var b' := b[..|b| - 1];
      assert (a + b)[..|a + b| - 1] == a + b';
      CountConcat(test, a, b');
    } else {
      assert (a + b)[..|a + b| - 1] == a;
    }
  }

  predicate StrictlyIncreasing(s: seq<Timestamp>)
  {
    forall i, j :: 0 <= i < j < |s| ==> s[i] < s[j]
  }

  lemma {:induction false} IncreasingSteps(s: seq<Timestamp>, i: nat, j: nat)
    requires NoneFlagged(NonIncreasing, s)
    requires i < j < |s|
    ensures s[i] < s[j]
    decreases j - i
  {
    assert !FlaggedAt(NonIncreasing, s, j - 1);
    if i < j - 1 {
      IncreasingSteps(s, i, j - 1);
    }
  }

  /** No non-increasing neighbour pair means the whole stream is strictly increasing, and back. */
  lemma NoneNonIncreasingIff(s: seq<Timestamp>)
    ensures NoneFlagged(NonIncreasing, s) <==> StrictlyIncreasing(s)
  {
    if NoneFlagged(NonIncreasing, s) {
      forall i, j | 0 <= i < j < |s| ensures s[i] < s[j] {
        IncreasingSteps(s, i, j);
      }
    }
  }

  /**
   * verify_monotonic: fails, reporting the number of adjacent pairs with
   * times[i+1] <= times[i], exactly when the stream is not strictly increasing.
   */
  function VerifyMonotonic(times: seq<Timestamp>): (r: Outcome<Error>)
    ensures r.Pass? <==> StrictlyIncreasing(times)
    ensures r.Fail? ==> r.error.NonMonotonic? && r.error.count > 0
    ensures r.Fail? ==> r.error.count == |FlaggedIndices(NonIncreasing, times)|
  {
    NoneNonIncreasingIff(times);
    CountIsCardinality(NonIncreasing, times);
    var count := CountFlagged(NonIncreasing, times);
    if count > 0 then Fail(NonMonotonic(count)) else Pass
  }

  /** Streams of zero or one timestamps are always accepted as monotonic. */
  lemma ShortStreamsAreMonotonic(times: seq<Timestamp>)
    requires |times| <= 1
    ensures VerifyMonotonic(times) == Pass
  {
  }

  /**
   * Two strictly increasing runs joined where the second starts at or below
   * the end of the first: exactly one non-monotonic pair is reported.
   */
  lemma {:induction false} SingleInversionCountsOnce(a: seq<Timestamp>, b: seq<Timestamp>)
    requires |a| > 0 && |b| > 0
    requires StrictlyIncreasing(a) && StrictlyIncreasing(b)
    requires b[0] <= a[|a| - 1]
    ensures VerifyMonotonic(a + b) == Fail(NonMonotonic(1))
  {
    NoneNonIncreasingIff(a);
    NoneNonIncreasingIff(b);
    CountConcat(NonIncreasing, a, b);
  }

  /**
   * The large-gap test of verify_continuity for a non-empty stream: with
   * tau = span / n, a gap is large when gap > factor * tau, read exactly
   * as gap * n > factor * span. Span and gaps are unsigned 64-bit differences.
   */
  function GapTest(times: seq<Timestamp>, gapFactor: nat): (r: PairTest)
    requires |times| > 0
    ensures r.LargeGap? && r.n == |times| && r.factor == gapFactor
    ensures times[0] <= times[|times| - 1] ==> r.span == times[|times| - 1] - times[0]
    ensures times[|times| - 1] < times[0] ==> r.span == times[|times| - 1] - times[0] + U64_MODULUS
  {
    LargeGap(|times|, gapFactor, Sub64(times[|times| - 1], times[0]))
  }

  /**
   * The integer test is the source's test: with tau = span / n computed
   * exactly, gap > gapFactor * tau holds exactly when gap * n > gapFactor * span.
   */
  lemma GapTestIsTauTest(times: seq<Timestamp>, gapFactor: nat, prev: Timestamp, next: Timestamp)
    requires |times| > 0
    ensures Flags(GapTest(times, gapFactor), prev, next) <==>
      (Sub64(next, prev) as real) >
        (gapFactor as real) * ((Sub64(times[|times| - 1], times[0]) as real) / (|times| as real))
  {
    var n := |times| as real;
    var span := Sub64(times[|times| - 1], times[0]) as real;
    var gap := Sub64(next, prev) as real;
    var factor := gapFactor as real;
    assert factor * (span / n) * n == factor * span;
    assert gap > factor * (span / n) <==> gap * n > factor * (span / n) * n;
  }

  /**
   * verify_continuity: an empty stream fails on its missing last element;
   * otherwise it fails, reporting their number, exactly when some adjacent
   * gap exceeds gapFactor times the mean spacing span / n.
   */
  function VerifyContinuity(times: seq<Timestamp>, gapFactor: nat): (r: Outcome<Error>)
    ensures |times| == 0 <==> r == Fail(EmptyStream)
    ensures |times| > 0 ==> (r.Pass? <==> NoneFlagged(GapTest(times, gapFactor), times))
    ensures r.Fail? && |times| > 0 ==>
      r.error.LargeGaps? && r.error.count > 0 &&
      r.error.count == |FlaggedIndices(GapTest(times, gapFactor), times)|
  {
    if |times| == 0 then Fail(EmptyStream)
    else
      var test := GapTest(times, gapFactor);
      CountIsCardinality(test, times);
      var count := CountFlagged(test, times);
      if count > 0 then Fail(LargeGaps(count)) else Pass
  }

  /** One step of the gap-sum argument, as plain arithmetic. */
  lemma GapStep(before: nat, threshold: nat, done: nat, step: nat, n: nat, flagged: bool)
    requires before * threshold <= done * n
    requires before > 0 ==> before * threshold < done * n
    requires flagged ==> step * n > threshold
    ensures (before + (if flagged then 1 else 0)) * threshold <= (done + step) * n
    ensures before + (if flagged then 1 else 0) > 0 ==>
      (before + (if flagged then 1 else 0)) * threshold < (done + step) * n
  {
    assert (done + step) * n == done * n + step * n;
    assert (before + 1) * threshold == before * threshold + threshold;
  }

  /**
   * Over a strictly increasing stream the flagged gaps add up to at most its
   * span, so their number times the threshold stays below span * n.
   */
  lemma {:induction false} FlaggedGapsWithinSpan(s: seq<Timestamp>, n: nat, factor: nat, span: nat)
    requires |s| > 0 && StrictlyIncreasing(s)
    ensures CountFlagged(LargeGap(n, factor, span), s) * (factor * span) <= (s[|s| - 1] - s[0]) * n
    ensures CountFlagged(LargeGap(n, factor, span), s) > 0 ==>
      CountFlagged(LargeGap(n, factor, span), s) * (factor * span) < (s[|s| - 1] - s[0]) * n
    decreases |s|
  {
    if |s| >= 2 {
      var test := LargeGap(n, factor, span);
      var prefix := s[..|s| - 1];
      FlaggedGapsWithinSpan(prefix, n, factor, span);
      var first, prev, next := s[0], s[|s| - 2], s[|s| - 1];
      assert prefix[0] == first && prefix[|prefix| - 1] == prev;
      assert prev < next;
      assert FlaggedAt(test, s, |s| - 2) ==> (next - prev) * n > factor * span;
      GapStep(CountFlagged(test, prefix), factor * span, prev - first, next - prev, n, FlaggedAt(test, s, |s| - 2));
    }
  }

  /** Dividing out a positive factor from a strict product inequality. */
  lemma ProductBound(count: nat, factor: nat, span: nat, n: nat)
    requires span > 0
    requires count * (factor * span) < span * n
    ensures count * factor < n
  {
    assert count * (factor * span) == (count * factor) * span;
    assert count * factor >= n ==> (count * factor) * span >= n * span;
  }

  /**
   * On a strictly increasing stream of n events the continuity check can
   * flag fewer than n / gapFactor gaps.
   */
  lemma {:induction false} LargeGapsAreFew(times: seq<Timestamp>, gapFactor: nat)
    requires |times| > 0 && StrictlyIncreasing(times)
    ensures CountFlagged(GapTest(times, gapFactor), times) * gapFactor < |times|
  {
    var n := |times|;
    var count := CountFlagged(GapTest(times, gapFactor), times);
    if count > 0 {
      var span := times[n - 1] - times[0];
      assert times[0] < times[n - 1];
      assert GapTest(times, gapFactor) == LargeGap(n, gapFactor, span);
      FlaggedGapsWithinSpan(times, n, gapFactor, span);
      assert span * n == (times[n - 1] - times[0]) * n;
      ProductBound(count, gapFactor, span, n);
    }
  }

  /**
   * A valid (strictly increasing) stream with at most gapFactor events can
   * never be rejected for gaps: with the default factor, streams of up to
   * 1000 events always pass.
   */
  lemma {:induction false} ShortStreamsHaveNoLargeGaps(times: seq<Timestamp>, gapFactor: nat)
    requires 0 < |times| <= gapFactor && StrictlyIncreasing(times)
    ensures VerifyContinuity(times, gapFactor) == Pass
  {
    LargeGapsAreFew(times, gapFactor);
    NoMultipleBelow(CountFlagged(GapTest(times, gapFactor), times), gapFactor, |times|);
  }

  /** A multiple of gapFactor below some n <= gapFactor is the zero multiple. */
  lemma NoMultipleBelow(count: nat, gapFactor: nat, n: nat)
    requires count * gapFactor < n <= gapFactor
    ensures count == 0
  {
    assert count >= 1 ==> count * gapFactor >= 1 * gapFactor;
  }
}
