/**
 * Input reconciliation of one attempt: the state the typing hook keeps between events. A key
 * press is judged against the stroke the progress tracker expects; a wrong one leaves a pending
 * fill of placeholders that the following input event appends, so the buffer skips the rest of
 * that grapheme. A backspace removes a trailing run of placeholders together with the unit before
 * it. The buffer never grows past the total stroke count, and reaching the end finishes the
 * attempt once.
 */
module Reconciliation {

  import opened Wrappers
  import Js
  import Malayalam
  import Keystrokes
  import TypingModel
  import Metrics
  import Scoring
  import TypingService

  datatype Stage = Prestart | Running | Finished

  /** The stroke judged by the last key press: whether it was wrong, and how many placeholders it owes. */
  datatype StrokeInfo = StrokeInfo(wrong: bool, fill: nat)

  const NoStroke: StrokeInfo := StrokeInfo(false, 0)

  /** The fields of a keyboard event the handlers read. */
  datatype KeyEvent = KeyEvent(key: string, code: string, shift: bool, ctrl: bool, meta: bool, alt: bool)

  /** What the lesson result dialog shows. */
  datatype LessonResult = LessonResult(stats: Metrics.TypingMetrics, computed: Scoring.LessonScore, canAdvance: bool)

  // ---------------------------------------------------------------------------
  // Judging a key press

  /**
   * A stroke matches by physical key when its key has a `KEY_TO_CODE` entry (so the layout the
   * operating system applies does not matter), and by the produced key otherwise; shift must agree.
   */
  predicate Matches(expected: Keystrokes.KeyStroke, e: KeyEvent) {
    if expected.key in Keystrokes.KeyToCode then e.code == Keystrokes.KeyToCode[expected.key] && e.shift == expected.shift
    else e.key == expected.key && e.shift == expected.shift
  }

  /** The pending stroke a key press leaves when the buffer holds `n` units. */
  function StrokeOutcome(gs: seq<TypingModel.GraphemeInfo>, n: nat, e: KeyEvent): (r: StrokeInfo)
    ensures r.wrong ==>
      var p := TypingModel.Progress(gs, n);
      && p.charIndex < |gs| && p.strokeIndex < |gs[p.charIndex].keystrokes|
      && !Matches(gs[p.charIndex].keystrokes[p.strokeIndex], e)
      && p.strokeIndex + 1 + r.fill == |gs[p.charIndex].keystrokes|
    ensures !r.wrong ==> r == NoStroke
    ensures e.key == "Backspace" ==> r == NoStroke
    ensures e.key != "Backspace" ==>
      var p := TypingModel.Progress(gs, n);
      (&& p.charIndex < |gs| && p.strokeIndex < |gs[p.charIndex].keystrokes|
       && !Matches(gs[p.charIndex].keystrokes[p.strokeIndex], e))
      ==> r.wrong
  {
    if e.key == "Backspace" then NoStroke
    else
      var p := TypingModel.Progress(gs, n);
      if p.charIndex >= |gs| then NoStroke
      else
        var strokes := gs[p.charIndex].keystrokes;
        if p.strokeIndex >= |strokes| then NoStroke
        else if Matches(strokes[p.strokeIndex], e) then NoStroke
        else StrokeInfo(true, |strokes| - (p.strokeIndex + 1))
  }

  /**
   * The judging part of `handleHiddenKeyDown`: no stroke for a backspace or when nothing is
   * expected, otherwise a wrong stroke owes the rest of the grapheme's strokes.
   */
  method JudgeStroke(gs: seq<TypingModel.GraphemeInfo>, n: nat, e: KeyEvent) returns (info: StrokeInfo)
    ensures info == StrokeOutcome(gs, n, e)
  {
    if e.key == "Backspace" {
      return NoStroke;
    }
    var p := TypingModel.GetTypingProgress(gs, n);
    if p.charIndex >= |gs| {
      return NoStroke;
    }
    var strokes := gs[p.charIndex].keystrokes;
    if p.strokeIndex >= |strokes| {
      return NoStroke;
    }
    var expected := strokes[p.strokeIndex];
    if !Matches(expected, e) {
      info := StrokeInfo(true, |strokes| - (p.strokeIndex + 1));
    } else {
      info := NoStroke;
    }
  }

  /** A physical match reads back, through the code table's inverse, as the expected key. */
  lemma PhysicalMatchReadsBack(expected: Keystrokes.KeyStroke, e: KeyEvent)
    requires expected.key in Keystrokes.KeyToCode && Matches(expected, e)
    ensures Keystrokes.CodeToKey(e.code) == expected.key
  {
    Keystrokes.KeyToCodeInjective();
  }

  /** No key press matches two different table keys at once. */
  lemma PhysicalMatchUnique(x: Keystrokes.KeyStroke, y: Keystrokes.KeyStroke, e: KeyEvent)
    requires x.key in Keystrokes.KeyToCode && y.key in Keystrokes.KeyToCode
    requires Matches(x, e) && Matches(y, e)
    ensures x == y
  {
    Keystrokes.KeyToCodeInjective();
  }

  // ---------------------------------------------------------------------------
  // The buffer after an input event

  /** The value with every carriage return removed. */
  function StripCR(s: string): (r: string)
    ensures |r| <= |s|
    ensures forall i | 0 <= i < |r| :: r[i] != '\r'
    ensures (forall i | 0 <= i < |s| :: s[i] != '\r') ==> r == s
  {
    if |s| == 0 then []
    else if s[|s| - 1] == '\r' then StripCR(s[..|s| - 1])
    else StripCR(s[..|s| - 1]) + [s[|s| - 1]]
  }

  /** Removing the carriage returns keeps every other unit, in order: one more unit is kept unless it is a CR. */
  lemma StripCRKeepsOthers(s: string, c: char)
    ensures StripCR(s + [c]) == StripCR(s) + (if c == '\r' then [] else [c])
  {
    assert (s + [c])[..|s + [c]| - 1] == s;
  }

  /** Removing the carriage returns distributes over concatenation. */
  lemma {:induction false} StripCRAppend(a: string, b: string)
    ensures StripCR(a + b) == StripCR(a) + StripCR(b)
    decreases |b|
  {
    if |b| == 0 {
      assert a + b == a;
    } else {
      var b' := b[..|b| - 1];
      var c := b[|b| - 1];
      assert b == b' + [c];
      assert a + b == (a + b') + [c];
      StripCRAppend(a, b');
      StripCRKeepsOthers(a + b', c);
      StripCRKeepsOthers(b', c);
    }
  }

  /** The new value with the placeholders a wrong stroke owes, cut to the total stroke count. */
  function ApplyInput(value: string, pending: StrokeInfo, total: nat): (r: string)
    ensures |r| <= total
    ensures var filled := StripCR(value) + (if pending.wrong then Js.Repeat([TypingModel.PLACEHOLDER], pending.fill) else []);
      |r| == Js.MinInt(|filled|, total) && r == filled[..|r|]
  {
    var filled := StripCR(value) + (if pending.wrong then Js.Repeat([TypingModel.PLACEHOLDER], pending.fill) else []);
    if |filled| > total then filled[..total] else filled
  }

  /** The steps of the input handler that compute the new buffer. */
  method FillAndTruncate(value: string, pending: StrokeInfo, total: nat) returns (val: string)
    ensures val == ApplyInput(value, pending, total)
  {
    val := StripCR(value);
    if pending.wrong {
      var fill := pending.fill;
      if fill > 0 {
        val := val + Js.Repeat([TypingModel.PLACEHOLDER], fill);
      }
    }
    if |val| > total {
      val := val[..total];
    }
  }

  /** The length of the trailing run of placeholders. */
  function TrailingRun(s: string): (r: nat)
    ensures r <= |s|
    ensures forall i | |s| - r <= i < |s| :: s[i] == TypingModel.PLACEHOLDER
    ensures r < |s| ==> s[|s| - r - 1] != TypingModel.PLACEHOLDER
  {
    if |s| == 0 || s[|s| - 1] != TypingModel.PLACEHOLDER then 0 else TrailingRun(s[..|s| - 1]) + 1
  }

  /** The buffer after a backward delete: the trailing placeholders go together with the unit before them. */
  function DeleteBackward(s: string): (r: string)
    ensures |s| == 0 ==> r == s
    ensures |r| <= |s| && r == s[..|r|]
    ensures |s| > 0 ==> |r| < |s|
    ensures forall i | |r| < i < |s| :: s[i] == TypingModel.PLACEHOLDER
    ensures 0 < |r| ==> s[|r|] != TypingModel.PLACEHOLDER
  {
    if |s| == 0 then s
    else
      var placeholderCount := TrailingRun(s);
      var deleteCount := if placeholderCount > 0 then placeholderCount + 1 else 1;
      s[..Js.MaxInt(0, |s| - deleteCount)]
  }

  /** The `prev[i] === PLACEHOLDER` loop of the backspace handler. */
  method CountTrailingPlaceholders(prev: string) returns (placeholderCount: nat)
    ensures placeholderCount == TrailingRun(prev)
  {
    var i := |prev| - 1;
    placeholderCount := 0;
    while i >= 0 && prev[i] == TypingModel.PLACEHOLDER
      invariant -1 <= i < |prev|
      invariant placeholderCount == |prev| - 1 - i
      invariant forall j | i < j < |prev| :: prev[j] == TypingModel.PLACEHOLDER
    {
      placeholderCount := placeholderCount + 1;
      i := i - 1;
    }
  }

  lemma {:induction false} RepeatChar(c: char, n: nat)
    ensures forall i | 0 <= i < n :: Js.Repeat([c], n)[i] == c
  {
    if n > 0 {
      RepeatChar(c, n - 1);
      assert Js.Repeat([c], n) == [c] + Js.Repeat([c], n - 1);
    }
  }

  /**
   * A wrong stroke at stroke `s` of a k-stroke grapheme, followed by the input of one unit, grows
   * the buffer by exactly k - s, so the typist moves on to the start of the next grapheme (or the
   * end of the text).
   */
  lemma WrongStrokeSkipsGrapheme(gs: seq<TypingModel.GraphemeInfo>, b: string, u: char, e: KeyEvent)
    requires StrokeOutcome(gs, |b|, e).wrong
    requires u != '\r' && forall i | 0 <= i < |b| :: b[i] != '\r'
    ensures TypingModel.Progress(gs, |ApplyInput(b + [u], StrokeOutcome(gs, |b|, e), TypingModel.TotalStrokes(gs))|)
      == TypingModel.TypingProgress(TypingModel.Progress(gs, |b|).charIndex + 1, 0)
  {
    var pending := StrokeOutcome(gs, |b|, e);
    FillSkipsGrapheme(gs, b, u, pending);
  }

  /** The owed placeholders complete the current grapheme, whatever stroke was wrong. */
  lemma FillSkipsGrapheme(gs: seq<TypingModel.GraphemeInfo>, b: string, u: char, pending: StrokeInfo)
    requires pending.wrong && TypingModel.Progress(gs, |b|).charIndex < |gs|
    requires TypingModel.Progress(gs, |b|).strokeIndex + 1 + pending.fill
      == TypingModel.StrokeCount(gs[TypingModel.Progress(gs, |b|).charIndex])
    requires u != '\r' && forall i | 0 <= i < |b| :: b[i] != '\r'
    ensures TypingModel.Progress(gs, |ApplyInput(b + [u], pending, TypingModel.TotalStrokes(gs))|)
      == TypingModel.TypingProgress(TypingModel.Progress(gs, |b|).charIndex + 1, 0)
  {
    TypingModel.ProgressNextGrapheme(gs, |b|, pending.fill);
    InputLength(b, u, pending, TypingModel.TotalStrokes(gs));
  }

  /** A typed unit without carriage returns, with its owed placeholders, fits when the total allows it. */
  lemma InputLength(b: string, u: char, pending: StrokeInfo, total: nat)
    requires u != '\r' && forall i | 0 <= i < |b| :: b[i] != '\r'
    requires pending.wrong && |b| + 1 + pending.fill <= total
    ensures |ApplyInput(b + [u], pending, total)| == |b| + 1 + pending.fill
  {
    assert StripCR(b + [u]) == b + [u];
  }

  /**
   * One backspace after typing a unit that is not a placeholder restores the buffer from before
   * it, whatever placeholders the unit brought with it.
   */
  lemma BackspaceUndoesStroke(b: string, u: char, pending: StrokeInfo, total: nat)
    requires u != TypingModel.PLACEHOLDER && u != '\r'
    requires forall i | 0 <= i < |b| :: b[i] != '\r'
    requires |b| < total
    ensures DeleteBackward(ApplyInput(b + [u], pending, total)) == b
  {
    var fill := if pending.wrong then Js.Repeat([TypingModel.PLACEHOLDER], pending.fill) else [];
    RepeatChar(TypingModel.PLACEHOLDER, pending.fill);
    assert StripCR(b + [u]) == b + [u];
    var t := ApplyInput(b + [u], pending, total);
    var filled := b + [u] + fill;
    assert t == filled[..|t|];
    assert |t| > |b|;
    assert t[|b|] == u;
    forall i | |b| < i < |t|
      ensures t[i] == TypingModel.PLACEHOLDER
    {
      assert t[i] == filled[i] == fill[i - |b| - 1];
    }
    assert TrailingRun(t) == |t| - |b| - 1;
    assert DeleteBackward(t) == t[..|b|];
    assert t[..|b|] == b;
  }

  // ---------------------------------------------------------------------------
  // The attempt

  /** A Latin letter pressed before the start means the keyboard is not in the InScript layout. */
  predicate IsLatinLetter(key: string) {
    |key| == 1 && ('A' <= key[0] <= 'Z' || 'a' <= key[0] <= 'z')
  }

  /**
   * The lesson whose record `finishTest` updates: in course mode the configured lesson, or the
   * first lesson when none is configured (`??` keeps an empty id); no lesson in other modes.
   */
  function FinishLessonId(mode: string, configLessonId: Option<string>, lessons: seq<TypingService.CourseLesson>): (r: Option<string>)
    requires mode == "course" ==> |lessons| > 0
    ensures mode != "course" ==> r.None?
    ensures mode == "course" && configLessonId.Some? ==> r == configLessonId
    ensures mode == "course" && configLessonId.None? ==> r == Some(lessons[0].id)
  {
    if mode != "course" then None
    else if configLessonId.Some? then configLessonId
    else Some(lessons[0].id)
  }

  /**
   * The progress step of `finishTest`: the recorded statistics folded in by
   * `applyResultToProgress`, for the lesson `FinishLessonId` names.
   */
  method RecordFinish(prev: TypingService.AppProgress, mode: string, stats: Metrics.TypingMetrics,
                      configLessonId: Option<string>, lessons: seq<TypingService.CourseLesson>)
    returns (next: TypingService.AppProgress)
    requires mode == "course" ==> |lessons| > 0
    requires (&& mode == "course" && configLessonId.Some? && configLessonId.value != "" && mode in prev.modes
              && configLessonId.value in prev.lessons) ==> prev.modes[mode] != prev.lessons[configLessonId.value]
    requires (&& mode == "course" && configLessonId.None? && lessons[0].id != "" && mode in prev.modes
              && lessons[0].id in prev.lessons) ==> prev.modes[mode] != prev.lessons[lessons[0].id]
    modifies TypingService.Touched(prev, mode, FinishLessonId(mode, configLessonId, lessons))
    ensures next.modes.Keys == prev.modes.Keys + {mode}
    ensures forall m | m in prev.modes && m != mode :: next.modes[m] == prev.modes[m]
    ensures mode in prev.modes ==> next.modes[mode] == prev.modes[mode]
    ensures mode !in prev.modes ==> fresh(next.modes[mode])
    ensures next.modes[mode].runs == (if mode in prev.modes then old(prev.modes[mode].runs) else 0) + 1
    ensures next.modes[mode].bestWpm == Js.MaxReal(if mode in prev.modes then old(prev.modes[mode].bestWpm) else 0.0, stats.wpm)
    ensures next.modes[mode].bestAcc == Js.MaxReal(if mode in prev.modes then old(prev.modes[mode].bestAcc) else 0.0, stats.accuracy)
    ensures !TypingService.TouchesLesson(mode, FinishLessonId(mode, configLessonId, lessons)) ==> next.lessons == prev.lessons
    ensures TypingService.TouchesLesson(mode, FinishLessonId(mode, configLessonId, lessons)) ==>
      var id := FinishLessonId(mode, configLessonId, lessons).value;
      && next.lessons.Keys == prev.lessons.Keys + {id}
      && (forall l | l in prev.lessons && l != id :: next.lessons[l] == prev.lessons[l])
      && (id in prev.lessons ==> next.lessons[id] == prev.lessons[id])
      && (id !in prev.lessons ==> fresh(next.lessons[id]))
      && next.lessons[id].runs == (if id in prev.lessons then old(prev.lessons[id].runs) else 0) + 1
      && next.lessons[id].bestWpm == Js.MaxReal(if id in prev.lessons then old(prev.lessons[id].bestWpm) else 0.0, stats.wpm)
      && next.lessons[id].bestAcc == Js.MaxReal(if id in prev.lessons then old(prev.lessons[id].bestAcc) else 0.0, stats.accuracy)
  {
    var courseLessonId := FinishLessonId(mode, configLessonId, lessons);
    next := TypingService.ApplyResultToProgress(prev, mode, stats, courseLessonId);
  }

  /**
   * The per-attempt state of the typing hook for one prepared text. The grapheme model is fixed
   * when the text is prepared.
   */
  class Attempt {
    const text: string
    const graphemes: seq<TypingModel.GraphemeInfo>
    const allowBackspace: bool
    var typedText: string
    var stage: Stage
    var pending: StrokeInfo
    var recorded: bool
    var startTime: Option<int>
    var resultStats: Option<Metrics.TypingMetrics>
    var lessonResult: Option<LessonResult>

    ghost predicate Valid()
      reads this
    {
      && |typedText| <= TypingModel.TotalStrokes(graphemes)
      && (recorded <==> stage == Finished)
      && (resultStats.Some? <==> stage == Finished)
      && (stage == Finished ==> TypingModel.Progress(graphemes, |typedText|).charIndex == |graphemes|)
      && (startTime.None? <==> stage == Prestart)
      && (!pending.wrong ==> pending == NoStroke)
    }

    /**
     * `prepareTest` after a text was generated: an empty buffer in the prestart stage. The
     * pending stroke and the lesson result of an earlier attempt are not cleared.
     */
    constructor Prepare(nfc: string -> string, segment: string -> seq<string>, m: Keystrokes.KeystrokeMap,
                        text: string, allowBackspace: bool, pending: StrokeInfo, lessonResult: Option<LessonResult>)
      requires !pending.wrong ==> pending == NoStroke
      ensures Valid()
      ensures this.text == text && graphemes == TypingModel.BuildGraphemeInfos(nfc, segment, m, text)
      ensures this.allowBackspace == allowBackspace && this.pending == pending
      ensures typedText == [] && stage == Prestart && !recorded && startTime.None?
      ensures resultStats.None? && this.lessonResult == lessonResult
    {
      this.text := text;
      graphemes := TypingModel.BuildGraphemeInfos(nfc, segment, m, text);
      this.allowBackspace := allowBackspace;
      typedText := [];
      stage := Prestart;
      this.pending := pending;
      recorded := false;
      startTime := None;
      resultStats := None;
      this.lessonResult := lessonResult;
    }

    /** `startRunning`: only from prestart, stamping the start time. */
    method StartRunning(now: int)
      requires Valid()
      modifies this
      ensures Valid()
      ensures old(stage) == Prestart ==> stage == Running && startTime == Some(now)
      ensures old(stage) != Prestart ==> stage == old(stage) && startTime == old(startTime)
      ensures typedText == old(typedText) && pending == old(pending) && recorded == old(recorded)
      ensures resultStats == old(resultStats) && lessonResult == old(lessonResult)
    {
      if stage != Prestart {
        return;
      }
      stage := Running;
      startTime := Some(now);
    }

    /** `resetTest`: back to an empty buffer in prestart, unless there is no text. */
    method Reset()
      requires Valid()
      modifies this
      ensures Valid()
      ensures text == [] ==>
        typedText == old(typedText) && stage == old(stage) && recorded == old(recorded) &&
        startTime == old(startTime) && resultStats == old(resultStats)
      ensures text != [] ==>
        typedText == [] && stage == Prestart && !recorded && startTime.None? && resultStats.None?
      ensures pending == old(pending) && lessonResult == old(lessonResult)
    {
      if text == [] {
        return;
      }
      typedText := [];
      stage := Prestart;
      resultStats := None;
      startTime := None;
      recorded := false;
    }

    /** `handleHiddenKeyDown`: judges the key press and records the pending stroke; nothing else changes. */
    method KeyDown(e: KeyEvent)
      requires Valid()
      modifies this
      ensures Valid()
      ensures typedText == old(typedText) && stage == old(stage) && recorded == old(recorded)
      ensures startTime == old(startTime) && resultStats == old(resultStats) && lessonResult == old(lessonResult)
      ensures old(stage) == Finished || e.key == "Escape" || e.ctrl || e.meta || e.alt ==> pending == old(pending)
      ensures !(old(stage) == Finished || e.key == "Escape" || e.ctrl || e.meta || e.alt) ==>
        pending == StrokeOutcome(graphemes, |typedText|, e)
    {
      if stage != Prestart && stage != Running {
        return;
      }
      if e.key == "Escape" {
        return;
      }
      if e.ctrl || e.meta || e.alt {
        return;
      }
      pending := JudgeStroke(graphemes, |typedText|, e);
    }

    /**
     * `finishTest`, called once the buffer has reached the end: records the statistics of the
     * buffer against the text and opens the lesson result, at most once and only while running.
     */
    method FinishTest(inputText: string, now: int) returns (recordedStats: Option<Metrics.TypingMetrics>)
      requires Valid()
      requires TypingModel.Progress(graphemes, |typedText|).charIndex == |graphemes|
      modifies this
      ensures Valid()
      ensures recordedStats.Some? <==> old(stage) == Running
      ensures old(stage) == Running ==>
        && stage == Finished
        && recordedStats == resultStats
        && recordedStats == Some(Metrics.Metrics(text, inputText,
             Js.MaxReal(1.0, (now - old(startTime).value) as real)))
        && lessonResult.Some? && lessonResult.value.stats == recordedStats.value
        && lessonResult.value.computed == Scoring.ComputeLessonScore(recordedStats.value, None)
        && lessonResult.value.canAdvance ==
             Scoring.CanAdvanceLesson(recordedStats.value, lessonResult.value.computed, None).allowed
      ensures old(stage) != Running ==>
        stage == old(stage) && recorded == old(recorded) && resultStats == old(resultStats) &&
        lessonResult == old(lessonResult)
      ensures typedText == old(typedText) && pending == old(pending) && startTime == old(startTime)
    {
      if stage != Running {
        return None;
      }
      if recorded {
        return None;
      }
      recorded := true;
      var start := startTime.GetOr(now);
      var durationMs := Js.MaxReal(1.0, (now - start) as real);
      var stats := Metrics.CalculateTypingMetrics(text, inputText, durationMs);
      var computed := Scoring.ComputeLessonScore(stats, None);
      var canAdvance := Scoring.CanAdvanceLesson(stats, computed, None);
      resultStats := Some(stats);
      lessonResult := Some(LessonResult(stats, computed, canAdvance.allowed));
      stage := Finished;
      recordedStats := Some(stats);
    }

    /**
     * `handleHiddenInputChange`: a backward delete, or the new value with any owed placeholders,
     * cut to the total stroke count; reaching the end while running finishes the attempt.
     */
    method InputChange(inputType: string, value: string, now: int) returns (recordedStats: Option<Metrics.TypingMetrics>)
      requires Valid()
      modifies this
      ensures Valid()
      ensures recordedStats.Some? ==> old(stage) == Running && stage == Finished
      ensures old(stage) == Finished ==>
        typedText == old(typedText) && pending == old(pending) && recordedStats.None? && stage == Finished
      ensures old(stage) != Finished && inputType == "deleteContentBackward" ==>
        typedText == DeleteBackward(old(typedText)) && pending == old(pending) && stage == old(stage) &&
        recordedStats.None?
      ensures old(stage) != Finished && inputType != "deleteContentBackward" ==>
        && typedText == ApplyInput(value, old(pending), TypingModel.TotalStrokes(graphemes))
        && pending == NoStroke
        && (recordedStats.Some? <==>
              old(stage) == Running && TypingModel.Progress(graphemes, |typedText|).charIndex == |graphemes|)
        && (recordedStats.Some? ==> recordedStats == Some(Metrics.Metrics(text, typedText,
              Js.MaxReal(1.0, (now - old(startTime).value) as real))))
        && (recordedStats.None? ==> stage == old(stage))
      ensures startTime == old(startTime)
    {
      if stage != Prestart && stage != Running {
        return None;
      }
      if inputType == "deleteContentBackward" {
        DeleteInput();
        return None;
      }
      recordedStats := AcceptValue(value, now);
    }

    /** The backward-delete branch of the input handler: only the buffer changes. */
    method DeleteInput()
      requires Valid() && stage != Finished
      modifies this
      ensures Valid()
      ensures typedText == DeleteBackward(old(typedText))
      ensures pending == old(pending) && stage == old(stage) && startTime == old(startTime)
    {
      var prev := typedText;
      if |prev| > 0 {
        var placeholderCount := CountTrailingPlaceholders(prev);
        var deleteCount := if placeholderCount > 0 then placeholderCount + 1 else 1;
        typedText := prev[..Js.MaxInt(0, |prev| - deleteCount)];
      }
    }

    /**
     * The insert branch of the input handler: the value with its owed placeholders, cut to the
     * total stroke count; reaching the end while running finishes the attempt.
     */
    method AcceptValue(value: string, now: int) returns (recordedStats: Option<Metrics.TypingMetrics>)
      requires Valid() && stage != Finished
      modifies this
      ensures Valid()
      ensures typedText == ApplyInput(value, old(pending), TypingModel.TotalStrokes(graphemes))
      ensures pending == NoStroke && startTime == old(startTime)
      ensures recordedStats.Some? <==>
        old(stage) == Running && TypingModel.Progress(graphemes, |typedText|).charIndex == |graphemes|
      ensures recordedStats.Some? ==> stage == Finished && recordedStats == Some(Metrics.Metrics(text, typedText,
        Js.MaxReal(1.0, (now - old(startTime).value) as real)))
      ensures recordedStats.None? ==> stage == old(stage)
    {
      var val := FillAndTruncate(value, pending, TypingModel.TotalStrokes(graphemes));
      pending := NoStroke;
      typedText := val;
      var p := TypingModel.GetTypingProgress(graphemes, |val|);
      recordedStats := None;
      if p.charIndex >= |graphemes| {
        recordedStats := FinishTest(val, now);
      }
    }

    /**
     * The window key handler: Enter on an open lesson result closes it and resets, Escape resets,
     * Backspace is swallowed while running when it is disabled, and in prestart a Latin letter
     * warns about the layout while any other key starts the attempt. Returns whether the key's
     * default action (its input) is prevented.
     */
    method GlobalKeyDown(e: KeyEvent, now: int) returns (prevented: bool)
      requires Valid()
      modifies this
      ensures Valid()
      ensures pending == old(pending)
      ensures old(lessonResult).Some? && e.key == "Enter" ==> prevented && lessonResult.None?
      ensures e.key == "Escape" || (old(lessonResult).Some? && e.key == "Enter") ==>
        prevented && (text != [] ==> typedText == [] && stage == Prestart && startTime.None?)
      ensures !(e.key == "Escape" || (old(lessonResult).Some? && e.key == "Enter")) ==>
        lessonResult == old(lessonResult) && typedText == old(typedText)
      ensures old(stage) == Running && !allowBackspace && e.key == "Backspace" ==> prevented && stage == Running
      ensures !(e.key == "Escape" || (old(lessonResult).Some? && e.key == "Enter")) &&
              !(old(stage) == Running && !allowBackspace && e.key == "Backspace") ==>
        && (prevented <==> text != [] && !(e.ctrl || e.meta || e.alt) && old(stage) == Prestart && IsLatinLetter(e.key))
        && (old(stage) == Prestart && stage == Running <==>
              old(stage) == Prestart && text != [] && !(e.ctrl || e.meta || e.alt) && !IsLatinLetter(e.key))
        && (stage == Running && old(stage) == Prestart ==> startTime == Some(now))
        && (old(stage) != Prestart ==> stage == old(stage))
    {
      if lessonResult.Some? && e.key == "Enter" {
        lessonResult := None;
        Reset();
        return true;
      }
      if e.key == "Escape" {
        Reset();
        return true;
      }
      if stage == Running && !allowBackspace && e.key == "Backspace" {
        return true;
      }
      if text == [] {
        return false;
      }
      if e.ctrl || e.meta || e.alt {
        return false;
      }
      if stage == Prestart {
        var isLatinLetter := IsLatinLetter(e.key);
        var isMalayalam := Malayalam.IsMalayalamChar(e.key);
        if isLatinLetter && !isMalayalam {
          return true;
        }
        StartRunning(now);
      }
      return false;
    }
  }
}
