/**
 * Lesson scoring: four sub-scores (net speed, raw speed, accuracy, completeness) clamped to
 * [0, 1], combined with weights into a score out of 100, and the checks that decide whether
 * the typist may move on to the next lesson.
 */
module Scoring {

  import opened Wrappers
  import Metrics

  const WPM_CAP: real := 100.0
  const RAW_WPM_CAP: real := 120.0

  /** `Math.round` on the values it meets here: the nearest integer, halves rounding up. */
  function Round(x: real): (r: int)
    ensures r as real <= x + 0.5 < r as real + 1.0
  {
    (x + 0.5).Floor
  }

  /** `clamp01`: the nearest value in [0, 1]. */
  function Clamp01(v: real): (r: real)
    ensures 0.0 <= r <= 1.0
    ensures 0.0 <= v <= 1.0 ==> r == v
    ensures v < 0.0 ==> r == 0.0
    ensures v > 1.0 ==> r == 1.0
  {
    var m := if 1.0 <= v then 1.0 else v;
    if 0.0 >= m then 0.0 else m
  }

  /** `normalizeTo01`: the value as a fraction of its cap, clamped. */
  function NormalizeTo01(value: real, cap: real): (r: real)
    requires cap != 0.0
    ensures 0.0 <= r <= 1.0
    ensures r == Clamp01(value / cap)
  {
    Clamp01(value / cap)
  }

  /** The optional weights record; each weight may itself be missing. */
  datatype Weights = Weights(wpm: Option<real>, rawWpm: Option<real>, acc: Option<real>, completeness: Option<real>)
  datatype Caps = Caps(wpm: Option<real>, rawWpm: Option<real>)
  datatype ScoreOptions = ScoreOptions(weights: Option<Weights>, missingCap: Option<real>, caps: Option<Caps>)

  const DefaultWeights: Weights := Weights(Some(0.35), Some(0.2), Some(0.35), Some(0.1))

  /** The rounded sub-scores shown next to the score, and the missed count. */
  datatype ScoreParts = ScoreParts(wpmScore: int, rawScore: int, accScore: int, completenessScore: int, missing: nat)
  datatype LessonScore = LessonScore(score: int, parts: ScoreParts)

  /** The caps in force: a missing caps record gives 100 and 120, and so does a missing member. */
  function WpmCap(opts: Option<ScoreOptions>): real {
    if opts.Some? && opts.value.caps.Some? then opts.value.caps.value.wpm.GetOr(WPM_CAP) else WPM_CAP
  }
  function RawWpmCap(opts: Option<ScoreOptions>): real {
    if opts.Some? && opts.value.caps.Some? then opts.value.caps.value.rawWpm.GetOr(RAW_WPM_CAP) else RAW_WPM_CAP
  }
  function MissingCap(opts: Option<ScoreOptions>): real {
    if opts.Some? then opts.value.missingCap.GetOr(10.0) else 10.0
  }

  /** The weights in force: the defaults when no record is given; in a given record a missing weight is 0. */
  function EffectiveWeights(opts: Option<ScoreOptions>): (w: (real, real, real, real))
    ensures opts.None? || opts.value.weights.None? ==> w == (0.35, 0.2, 0.35, 0.1)
  {
    var ws := if opts.Some? && opts.value.weights.Some? then opts.value.weights.value else DefaultWeights;
    (ws.wpm.GetOr(0.0), ws.rawWpm.GetOr(0.0), ws.acc.GetOr(0.0), ws.completeness.GetOr(0.0))
  }

  /** The four normalised sub-scores, each in [0, 1]. */
  function SubScores(stats: Metrics.TypingMetrics, opts: Option<ScoreOptions>): (r: (real, real, real, real))
    requires WpmCap(opts) != 0.0 && RawWpmCap(opts) != 0.0 && MissingCap(opts) != 0.0
    ensures 0.0 <= r.0 <= 1.0 && 0.0 <= r.1 <= 1.0 && 0.0 <= r.2 <= 1.0 && 0.0 <= r.3 <= 1.0
  {
    (NormalizeTo01(stats.wpm, WpmCap(opts)),
     NormalizeTo01(stats.rawWpm, RawWpmCap(opts)),
     Clamp01(stats.accuracy / 100.0),
     Clamp01(1.0 - stats.missed as real / MissingCap(opts)))
  }

  /** The weighted sum of the sub-scores. */
  function Combined(stats: Metrics.TypingMetrics, opts: Option<ScoreOptions>): real
    requires WpmCap(opts) != 0.0 && RawWpmCap(opts) != 0.0 && MissingCap(opts) != 0.0
  {
    WeightedSum(SubScores(stats, opts), EffectiveWeights(opts))
  }

  function WeightedSum(s: (real, real, real, real), w: (real, real, real, real)): real {
    s.0 * w.0 + s.1 * w.1 + s.2 * w.2 + s.3 * w.3
  }

  /** `computeLessonScore`. */
  function ComputeLessonScore(stats: Metrics.TypingMetrics, opts: Option<ScoreOptions>): (r: LessonScore)
    requires WpmCap(opts) != 0.0 && RawWpmCap(opts) != 0.0 && MissingCap(opts) != 0.0
    ensures r.parts.missing == stats.missed
    ensures r.score == Round(Combined(stats, opts) * 100.0)
    ensures r.parts.wpmScore == Round(SubScores(stats, opts).0 * 100.0)
    ensures r.parts.rawScore == Round(SubScores(stats, opts).1 * 100.0)
    ensures r.parts.accScore == Round(SubScores(stats, opts).2 * 100.0)
    ensures r.parts.completenessScore == Round(SubScores(stats, opts).3 * 100.0)
    ensures 0 <= r.parts.wpmScore <= 100 && 0 <= r.parts.rawScore <= 100
    ensures 0 <= r.parts.accScore <= 100 && 0 <= r.parts.completenessScore <= 100
    ensures stats.missed == 0 ==> r.parts.completenessScore == 100
  {
    var s := SubScores(stats, opts);
    LessonScore(
      Round(Combined(stats, opts) * 100.0),
      ScoreParts(Round(s.0 * 100.0), Round(s.1 * 100.0), Round(s.2 * 100.0), Round(s.3 * 100.0), stats.missed))
  }

  datatype AdvanceOptions = AdvanceOptions(advanceThreshold: Option<real>, minAccuracy: Option<real>,
                                           maxMissing: Option<real>, minRawWpm: Option<real>)
  datatype AdvanceReasons = AdvanceReasons(passScore: bool, passAcc: bool, passMissing: bool, passRaw: bool, score: int)
  datatype AdvanceDecision = AdvanceDecision(allowed: bool, reasons: AdvanceReasons)

  /** `canAdvanceLesson`, with 75 / 85 / 3 / 6 as the defaults. */
  function CanAdvanceLesson(stats: Metrics.TypingMetrics, computed: LessonScore, opts: Option<AdvanceOptions>): (r: AdvanceDecision)
    ensures r.reasons.score == computed.score
    ensures r.allowed <==> r.reasons.passScore && r.reasons.passAcc && r.reasons.passMissing && r.reasons.passRaw
    ensures opts.None? ==>
      && (r.reasons.passScore <==> computed.score >= 75)
      && (r.reasons.passAcc <==> stats.accuracy >= 85.0)
      && (r.reasons.passMissing <==> computed.parts.missing <= 3)
      && (r.reasons.passRaw <==> stats.rawWpm >= 6.0)
  {
    var advanceThreshold := if opts.Some? then opts.value.advanceThreshold.GetOr(75.0) else 75.0;
    var minAccuracy := if opts.Some? then opts.value.minAccuracy.GetOr(85.0) else 85.0;
    var maxMissing := if opts.Some? then opts.value.maxMissing.GetOr(3.0) else 3.0;
    var minRawWpm := if opts.Some? then opts.value.minRawWpm.GetOr(6.0) else 6.0;
    var passScore := computed.score as real >= advanceThreshold;
    var passAcc := stats.accuracy >= minAccuracy;
    var passMissing := computed.parts.missing as real <= maxMissing;
    var passRaw := stats.rawWpm >= minRawWpm;
    AdvanceDecision(passScore && passAcc && passMissing && passRaw,
                    AdvanceReasons(passScore, passAcc, passMissing, passRaw, computed.score))
  }

  // ---------------------------------------------------------------------------
  // Properties

  /** Weights that are non-negative and sum to at most one. */
  predicate WeightsBounded(opts: Option<ScoreOptions>) {
    var w := EffectiveWeights(opts);
    w.0 >= 0.0 && w.1 >= 0.0 && w.2 >= 0.0 && w.3 >= 0.0 && w.0 + w.1 + w.2 + w.3 <= 1.0
  }

  /** The default weights add up to one. */
  lemma DefaultWeightsSumToOne()
    ensures var w := EffectiveWeights(None); w.0 + w.1 + w.2 + w.3 == 1.0
    ensures WeightsBounded(None)
  {
  }

  lemma WeightedTermBounded(s: real, w: real, p: real)
    requires 0.0 <= s <= 1.0 && w >= 0.0 && p == s * w
    ensures 0.0 <= p <= w
  {
  }

  /** Values in [0, 1] under bounded weights sum to a value in [0, 1]. */
  lemma WeightedSumBounded(s: (real, real, real, real), w: (real, real, real, real))
    requires 0.0 <= s.0 <= 1.0 && 0.0 <= s.1 <= 1.0 && 0.0 <= s.2 <= 1.0 && 0.0 <= s.3 <= 1.0
    requires w.0 >= 0.0 && w.1 >= 0.0 && w.2 >= 0.0 && w.3 >= 0.0 && w.0 + w.1 + w.2 + w.3 <= 1.0
    ensures 0.0 <= WeightedSum(s, w) <= 1.0
  {
    var p0, p1, p2, p3 := s.0 * w.0, s.1 * w.1, s.2 * w.2, s.3 * w.3;
    WeightedTermBounded(s.0, w.0, p0);
    WeightedTermBounded(s.1, w.1, p1);
    WeightedTermBounded(s.2, w.2, p2);
    WeightedTermBounded(s.3, w.3, p3);
    TermsBounded(p0, p1, p2, p3, w);
    assert WeightedSum(s, w) == p0 + p1 + p2 + p3;
  }

  lemma TermsBounded(t0: real, t1: real, t2: real, t3: real, w: (real, real, real, real))
    requires 0.0 <= t0 <= w.0 && 0.0 <= t1 <= w.1 && 0.0 <= t2 <= w.2 && 0.0 <= t3 <= w.3
    requires w.0 + w.1 + w.2 + w.3 <= 1.0
    ensures 0.0 <= t0 + t1 + t2 + t3 <= 1.0
  {
  }

  /** With bounded weights the combined value is in [0, 1] and the score in [0, 100]. */
  lemma ScoreBounded(stats: Metrics.TypingMetrics, opts: Option<ScoreOptions>)
    requires WpmCap(opts) != 0.0 && RawWpmCap(opts) != 0.0 && MissingCap(opts) != 0.0
    requires WeightsBounded(opts)
    ensures 0.0 <= Combined(stats, opts) <= 1.0
    ensures 0 <= ComputeLessonScore(stats, opts).score <= 100
  {
    WeightedSumBounded(SubScores(stats, opts), EffectiveWeights(opts));
  }

  /** Completeness is full with nothing missed and zero once the missed count reaches the cap. */
  lemma CompletenessExtremes(stats: Metrics.TypingMetrics, opts: Option<ScoreOptions>)
    requires WpmCap(opts) != 0.0 && RawWpmCap(opts) != 0.0 && MissingCap(opts) > 0.0
    ensures stats.missed == 0 ==> SubScores(stats, opts).3 == 1.0
    ensures stats.missed as real >= MissingCap(opts) ==>
      SubScores(stats, opts).3 == 0.0 && ComputeLessonScore(stats, opts).parts.completenessScore == 0
  {
    var c := MissingCap(opts);
    if stats.missed as real >= c {
      DivisionPreservesOrder(c, stats.missed as real, c);
      assert c / c == 1.0;
    }
  }

  /** Weighted sums are monotonic in each value under non-negative weights. */
  lemma WeightedSumMonotonic(a: (real, real, real, real), b: (real, real, real, real), w: (real, real, real, real))
    requires a.0 <= b.0 && a.1 <= b.1 && a.2 <= b.2 && a.3 <= b.3
    requires w.0 >= 0.0 && w.1 >= 0.0 && w.2 >= 0.0 && w.3 >= 0.0
    ensures WeightedSum(a, w) <= WeightedSum(b, w)
  {
    ScaleMonotonic(a.0, b.0, w.0);
    ScaleMonotonic(a.1, b.1, w.1);
    ScaleMonotonic(a.2, b.2, w.2);
    ScaleMonotonic(a.3, b.3, w.3);
  }

  /** `Clamp01` never decreases. */
  lemma Clamp01Monotonic(a: real, b: real)
    requires a <= b
    ensures Clamp01(a) <= Clamp01(b)
  {
  }

  lemma ScaleMonotonic(a: real, b: real, w: real)
    requires a <= b && w >= 0.0
    ensures a * w <= b * w
  {
  }

  /** `Round` never decreases. */
  lemma RoundMonotonic(a: real, b: real)
    requires a <= b
    ensures Round(a) <= Round(b)
  {
  }

  /**
   * With non-negative weights and positive caps, a record that is no worse in speed, raw speed,
   * accuracy and missed count scores no lower.
   */
  lemma ScoreMonotonic(s1: Metrics.TypingMetrics, s2: Metrics.TypingMetrics, opts: Option<ScoreOptions>)
    requires WpmCap(opts) > 0.0 && RawWpmCap(opts) > 0.0 && MissingCap(opts) > 0.0
    requires var w := EffectiveWeights(opts); w.0 >= 0.0 && w.1 >= 0.0 && w.2 >= 0.0 && w.3 >= 0.0
    requires s1.wpm <= s2.wpm && s1.rawWpm <= s2.rawWpm && s1.accuracy <= s2.accuracy && s1.missed >= s2.missed
    ensures Combined(s1, opts) <= Combined(s2, opts)
    ensures ComputeLessonScore(s1, opts).score <= ComputeLessonScore(s2, opts).score
  {
    var a := SubScores(s1, opts);
    var b := SubScores(s2, opts);
    var w := EffectiveWeights(opts);
    var c1, c2, c3 := WpmCap(opts), RawWpmCap(opts), MissingCap(opts);
    assert s1.wpm / c1 <= s2.wpm / c1 by { DivisionPreservesOrder(s1.wpm, s2.wpm, c1); }
    assert s1.rawWpm / c2 <= s2.rawWpm / c2 by { DivisionPreservesOrder(s1.rawWpm, s2.rawWpm, c2); }
    assert s1.accuracy / 100.0 <= s2.accuracy / 100.0;
    assert s2.missed as real / c3 <= s1.missed as real / c3 by { DivisionPreservesOrder(s2.missed as real, s1.missed as real, c3); }
    Clamp01Monotonic(s1.wpm / c1, s2.wpm / c1);
    Clamp01Monotonic(s1.rawWpm / c2, s2.rawWpm / c2);
    Clamp01Monotonic(s1.accuracy / 100.0, s2.accuracy / 100.0);
    Clamp01Monotonic(1.0 - s1.missed as real / c3, 1.0 - s2.missed as real / c3);
    WeightedSumMonotonic(a, b, w);
    RoundMonotonic(Combined(s1, opts) * 100.0, Combined(s2, opts) * 100.0);
  }

  lemma DivisionPreservesOrder(a: real, b: real, c: real)
    requires a <= b && c > 0.0
    ensures a / c <= b / c
  {
  }

  /** A perfect, fast, complete record scores 100 under the defaults and may advance. */
  lemma PerfectRecordAdvances(stats: Metrics.TypingMetrics)
    requires stats.wpm >= WPM_CAP && stats.rawWpm >= RAW_WPM_CAP && stats.accuracy >= 100.0 && stats.missed == 0
    ensures ComputeLessonScore(stats, None).score == 100
    ensures CanAdvanceLesson(stats, ComputeLessonScore(stats, None), None).allowed
  {
    assert SubScores(stats, None) == (1.0, 1.0, 1.0, 1.0);
  }

  /** A record with more than three missed units never advances under the defaults. */
  lemma TooManyMissedBlocks(stats: Metrics.TypingMetrics, opts: Option<ScoreOptions>)
    requires WpmCap(opts) != 0.0 && RawWpmCap(opts) != 0.0 && MissingCap(opts) != 0.0
    requires stats.missed > 3
    ensures !CanAdvanceLesson(stats, ComputeLessonScore(stats, opts), None).allowed
  {
  }
}
