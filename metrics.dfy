/**
 * Attempt statistics: correct, incorrect, extra and missed positions of the typed buffer against
 * the target text, and the speed and accuracy derived from them. Positions are code units of
 * the two strings, compared one by one.
 */
module Metrics {

  import Js

  datatype TypingMetrics = TypingMetrics(
    durationMs: real,
    wpm: real,
    rawWpm: real,
    accuracy: real,
    correct: nat,
    incorrect: nat,
    extra: nat,
    missed: nat,
    totalTyped: nat
  )

  /** The number of positions below `n` where the two strings agree. */
  function CorrectCount(target: string, typed: string, n: nat): (r: nat)
    requires n <= |target| && n <= |typed|
    ensures r <= n
  {
    if n == 0 then 0
    else CorrectCount(target, typed, n - 1) + (if typed[n - 1] == target[n - 1] then 1 else 0)
  }

  /** The duration actually used: at least one millisecond. */
  function SafeDuration(durationMs: real): (r: real)
    ensures r >= 1.0 && r >= durationMs
    ensures r == durationMs || r == 1.0
  {
    Js.MaxReal(durationMs, 1.0)
  }

  /** Words per minute for `units` typed units: five units make a word. */
  function PerMinute(units: nat, durationMs: real): real {
    units as real / 5.0 / (SafeDuration(durationMs) / 60000.0)
  }

  /** The statistics of typing `typed` against `target` in `durationMs` milliseconds. */
  function Metrics(target: string, typed: string, durationMs: real): TypingMetrics {
    var minLen := Js.MinInt(|target|, |typed|);
    var correct := CorrectCount(target, typed, minLen);
    TypingMetrics(
      SafeDuration(durationMs),
      PerMinute(correct, durationMs),
      PerMinute(|typed|, durationMs),
      if |typed| > 0 then (correct as real / |typed| as real) * 100.0 else 0.0,
      correct,
      minLen - correct,
      if |typed| > |target| then |typed| - |target| else 0,
      if |target| > |typed| then |target| - |typed| else 0,
      |typed|
    )
  }

  /** `calculateTypingMetrics`: one pass over the common prefix, then the derived values. */
  method CalculateTypingMetrics(targetText: string, typedText: string, durationMs: real)
    returns (m: TypingMetrics)
    ensures m == Metrics(targetText, typedText, durationMs)
    ensures m.correct + m.incorrect == Js.MinInt(|targetText|, |typedText|)
    ensures m.totalTyped == |typedText|
  {
    var safeDurationMs := Js.MaxReal(durationMs, 1.0);
    var minutes := safeDurationMs / 60000.0;
    var correct: nat := 0;
    var incorrect: nat := 0;
    var minLen := Js.MinInt(|targetText|, |typedText|);
    for i := 0 to minLen
      invariant correct == CorrectCount(targetText, typedText, i)
      invariant correct + incorrect == i
    {
      if typedText[i] == targetText[i] {
        correct := correct + 1;
      } else {
        incorrect := incorrect + 1;
      }
    }
    var extra := if |typedText| > |targetText| then |typedText| - |targetText| else 0;
    var missed := if |targetText| > |typedText| then |targetText| - |typedText| else 0;
    var totalTyped := |typedText|;
    var rawWpm := totalTyped as real / 5.0 / minutes;
    var wpm := correct as real / 5.0 / minutes;
    var accuracy := if totalTyped > 0 then (correct as real / totalTyped as real) * 100.0 else 0.0;
    m := TypingMetrics(safeDurationMs, wpm, rawWpm, accuracy, correct, incorrect, extra, missed, totalTyped);
  }

  // ---------------------------------------------------------------------------
  // Properties

  /** Every compared position is correct or incorrect; the rest of the longer string is extra or missed. */
  lemma MetricsAccounting(target: string, typed: string, d: real)
    ensures var m := Metrics(target, typed, d);
      && m.correct + m.incorrect == Js.MinInt(|target|, |typed|)
      && m.extra == Js.MaxInt(0, |typed| - |target|)
      && m.missed == Js.MaxInt(0, |target| - |typed|)
      && (m.extra == 0 || m.missed == 0)
      && m.totalTyped == |typed|
      && m.correct + m.incorrect + m.extra == m.totalTyped
      && m.correct + m.incorrect + m.missed == |target|
  {
  }

  /** The reported duration is the input raised to at least 1 ms, so the minutes are positive. */
  lemma MetricsDurationPositive(target: string, typed: string, d: real)
    ensures Metrics(target, typed, d).durationMs == Js.MaxReal(d, 1.0)
    ensures Metrics(target, typed, d).durationMs / 60000.0 > 0.0
  {
  }

  lemma DivideMonotonic(a: real, b: real, c: real)
    requires 0.0 <= a <= b && c > 0.0
    ensures 0.0 <= a / c <= b / c
  {
  }

  /** Accuracy is 0 for an empty buffer and otherwise the percentage of correct units, in [0, 100]. */
  lemma MetricsAccuracyBounds(target: string, typed: string, d: real)
    ensures |typed| == 0 ==> Metrics(target, typed, d).accuracy == 0.0
    ensures |typed| > 0 ==>
      Metrics(target, typed, d).accuracy * (|typed| as real) == 100.0 * (Metrics(target, typed, d).correct as real)
    ensures 0.0 <= Metrics(target, typed, d).accuracy <= 100.0
  {
    if |typed| > 0 {
      var c := CorrectCount(target, typed, Js.MinInt(|target|, |typed|));
      Percentage(c as real, |typed| as real);
    }
  }

  /** The percentage `c / t * 100` of a part `c` of a positive whole `t`. */
  lemma Percentage(c: real, t: real)
    requires 0.0 <= c <= t && t > 0.0
    ensures 0.0 <= (c / t) * 100.0 <= 100.0
    ensures (c / t) * 100.0 * t == 100.0 * c
  {
    DivideMonotonic(c, t, t);
    assert (c / t) * t == c;
  }

  /** Net speed never exceeds raw speed, and raw speed is the typed units per five per minute. */
  lemma MetricsWpmBounded(target: string, typed: string, d: real)
    ensures var m := Metrics(target, typed, d);
      && 0.0 <= m.wpm <= m.rawWpm
      && m.rawWpm == (m.totalTyped as real) / 5.0 / (m.durationMs / 60000.0)
  {
    var m := Metrics(target, typed, d);
    var minutes := SafeDuration(d) / 60000.0;
    DivideMonotonic(m.correct as real, |typed| as real, 5.0);
    DivideMonotonic(m.correct as real / 5.0, |typed| as real / 5.0, minutes);
  }

  /** Comparing a string with itself finds every position correct. */
  lemma {:induction false} CorrectCountSelf(s: string, n: nat)
    requires n <= |s|
    ensures CorrectCount(s, s, n) == n
  {
    if n > 0 { CorrectCountSelf(s, n - 1); }
  }

  /** Typing the target exactly gives a perfect record. */
  lemma MetricsExact(target: string, d: real)
    ensures var m := Metrics(target, target, d);
      && m.correct == |target| && m.incorrect == 0 && m.extra == 0 && m.missed == 0
      && (|target| > 0 ==> m.accuracy == 100.0)
      && m.wpm == m.rawWpm
  {
    CorrectCountSelf(target, |target|);
  }
}
