/**
 * The typing service: choosing or building the text of an attempt from the configuration,
 * deciding whether a course lesson is unlocked, and folding a finished attempt into the
 * best-so-far progress records.
 */
module TypingService {

  import opened Wrappers
  import Js
  import Metrics
  import Generators

  /** Unlock requirements that a course lesson may carry. */
  datatype Thresholds = Thresholds(advanceScore: Option<real>, minAccuracy: Option<real>)

  /** A course lesson; `keys` absent reads as none. */
  datatype CourseLesson = CourseLesson(id: string, title: string, texts: seq<string>, keys: seq<string>,
                                       thresholds: Option<Thresholds>)

  datatype LengthConfig = LengthConfig(lenOption: string, customLength: Js.JsNumber)

  /** The part of the configuration that text generation reads. */
  datatype AppConfig = AppConfig(mode: string, letters: LengthConfig, paragraphText: string,
                                 common: LengthConfig, courseLessonId: Option<string>)

  /**
   * A progress record: runs and the best speed and accuracy so far. Records are objects that
   * the update changes in place; the maps holding them are values copied by the update.
   */
  class StatRecord {
    var runs: int
    var bestWpm: real
    var bestAcc: real

    constructor (runs: int, bestWpm: real, bestAcc: real)
      ensures this.runs == runs && this.bestWpm == bestWpm && this.bestAcc == bestAcc
    {
      this.runs := runs;
      this.bestWpm := bestWpm;
      this.bestAcc := bestAcc;
    }

    /** One more run; the bests become the larger of the old and the new. */
    method Record(stats: Metrics.TypingMetrics)
      modifies this
      ensures runs == old(runs) + 1
      ensures bestWpm == Js.MaxReal(old(bestWpm), stats.wpm) && bestWpm >= old(bestWpm)
      ensures bestAcc == Js.MaxReal(old(bestAcc), stats.accuracy) && bestAcc >= old(bestAcc)
    {
      runs := runs + 1;
      if stats.wpm > bestWpm {
        bestWpm := stats.wpm;
      }
      if stats.accuracy > bestAcc {
        bestAcc := stats.accuracy;
      }
    }
  }

  datatype AppProgress = AppProgress(modes: map<string, StatRecord>, lessons: map<string, StatRecord>)

  datatype GenerateTextResult = Ok(text: string) | Fail(reason: string, needsFamiliarize: bool)

  const WPM_UNLOCK: real := 25.0
  const ACC_UNLOCK: real := 90.0

  /** The letters-mode length: a custom length is clamped to [10, 1000], otherwise the option (50 if empty). */
  function LettersLength(c: LengthConfig, toNumber: string -> Js.JsNumber): (r: Js.JsNumber)
    ensures c.lenOption == "custom" ==> r.Finite? && 10.0 <= r.value <= 1000.0
    ensures c.lenOption == "custom" ==> r == Js.Finite(Js.ClampNumber(Js.OrDefault(c.customLength, 50.0), 10.0, 1000.0))
    ensures c.lenOption == "" ==> r == Js.Finite(50.0)
    ensures c.lenOption != "custom" && c.lenOption != "" ==> r == toNumber(c.lenOption)
  {
    if c.lenOption == "custom" then Js.Finite(Js.ClampNumber(Js.OrDefault(c.customLength, 50.0), 10.0, 1000.0))
    else if c.lenOption == "" then Js.Finite(50.0)
    else toNumber(c.lenOption)
  }

  /** The common-words length: a custom length is clamped to [10, 500], otherwise the option (30 if empty). */
  function CommonLength(c: LengthConfig, toNumber: string -> Js.JsNumber): (r: Js.JsNumber)
    ensures c.lenOption == "custom" ==> r.Finite? && 10.0 <= r.value <= 500.0
    ensures c.lenOption == "custom" ==> r == Js.Finite(Js.ClampNumber(Js.OrDefault(c.customLength, 50.0), 10.0, 500.0))
    ensures c.lenOption == "" ==> r == Js.Finite(30.0)
    ensures c.lenOption != "custom" && c.lenOption != "" ==> r == toNumber(c.lenOption)
  {
    if c.lenOption == "custom" then Js.Finite(Js.ClampNumber(Js.OrDefault(c.customLength, 50.0), 10.0, 500.0))
    else if c.lenOption == "" then Js.Finite(30.0)
    else toNumber(c.lenOption)
  }

  /** `findIndex` by id: the first lesson with that id, or -1. */
  function FindLesson(lessons: seq<CourseLesson>, id: string): (r: int)
    ensures -1 <= r < |lessons|
    ensures r >= 0 ==> lessons[r].id == id && forall j | 0 <= j < r :: lessons[j].id != id
    ensures r == -1 ==> forall j | 0 <= j < |lessons| :: lessons[j].id != id
  {
    if |lessons| == 0 then -1
    else if lessons[0].id == id then 0
    else var k := FindLesson(lessons[1..], id); if k == -1 then -1 else k + 1
  }

  /** The lesson course mode opens: the configured one if it exists, else the first. */
  function ChosenLesson(lessons: seq<CourseLesson>, lessonId: Option<string>): (r: nat)
    requires |lessons| > 0
    ensures r < |lessons|
    ensures lessonId.Some? && lessonId.value != "" && FindLesson(lessons, lessonId.value) >= 0 ==>
      r == FindLesson(lessons, lessonId.value)
    ensures !(lessonId.Some? && lessonId.value != "" && FindLesson(lessons, lessonId.value) >= 0) ==> r == 0
    ensures r == FindLesson(lessons, lessons[r].id)
  {
    if lessonId.Some? && lessonId.value != "" && FindLesson(lessons, lessonId.value) >= 0
    then FindLesson(lessons, lessonId.value)
    else 0
  }

  /** Whether a progress record meets an unlock requirement. */
  predicate Meets(rec: Option<StatRecord>, reqWpm: real, reqAcc: real)
    reads if rec.Some? then {rec.value} else {}
  {
    rec.Some? && rec.value.bestWpm >= reqWpm && rec.value.bestAcc >= reqAcc
  }

  function LessonRecord(progress: AppProgress, id: string): Option<StatRecord> {
    if id in progress.lessons then Some(progress.lessons[id]) else None
  }

  /** `generateTestText`. Draws of `Math.random()` are `rand`, `Number(s)` is `toNumber`. */
  function GenerateTestText(config: AppConfig, progress: AppProgress, selectedLetters: seq<string>,
                            preLessonDoneMap: map<string, bool>, lessons: seq<CourseLesson>,
                            commonWords: seq<string>, toNumber: string -> Js.JsNumber,
                            rand: nat -> real): (r: GenerateTextResult)
    requires Generators.ValidRandom(rand)
    requires config.mode == "letters" ==> LettersLength(config.letters, toNumber) != Js.PosInf
    requires config.mode == "common" ==> CommonLength(config.common, toNumber) != Js.PosInf
    requires config.mode == "course" ==> |lessons| > 0
    reads progress.lessons.Values
    ensures config.mode == "paragraph" ==>
      r == if Js.Trim(config.paragraphText) == "" then Fail("Enter a Malayalam paragraph first.", false)
           else Ok(Js.Trim(config.paragraphText))
    ensures config.mode == "letters" ==>
      var t := Generators.LetterString(selectedLetters, LettersLength(config.letters, toNumber), rand);
      r == if t == "" then Fail("Select at least one letter to generate text.", false) else Ok(t)
    ensures config.mode == "common" ==>
      var t := Generators.CommonParagraph(commonWords, CommonLength(config.common, toNumber), rand);
      r == if t == "" then Fail("Common words list is empty.", false) else Ok(t)
    ensures config.mode == "course" ==>
      r == CourseText(progress, preLessonDoneMap, lessons, config.courseLessonId, rand)
    ensures config.mode !in {"letters", "paragraph", "common", "course"} ==> r == Fail("Unsupported mode", false)
  {
    if config.mode == "letters" then
      var text := Generators.LetterString(selectedLetters, LettersLength(config.letters, toNumber), rand);
      if text == "" then Fail("Select at least one letter to generate text.", false) else Ok(text)
    else if config.mode == "paragraph" then
      var t := Js.Trim(config.paragraphText);
      if t == "" then Fail("Enter a Malayalam paragraph first.", false) else Ok(t)
    else if config.mode == "common" then
      var text := Generators.CommonParagraph(commonWords, CommonLength(config.common, toNumber), rand);
      if text == "" then Fail("Common words list is empty.", false) else Ok(text)
    else if config.mode == "course" then
      CourseText(progress, preLessonDoneMap, lessons, config.courseLessonId, rand)
    else Fail("Unsupported mode", false)
  }

  /** The message that refuses a locked lesson, naming the lesson to complete first. */
  function LockedMessage(prevTitle: string): string {
    "Lesson locked. Complete “" + prevTitle + "” with at least 25 WPM and 90% accuracy to unlock this."
  }

  /** A lesson after the first is locked until the previous lesson's record reaches 25 WPM and 90 % accuracy. */
  predicate Locked(progress: AppProgress, lessons: seq<CourseLesson>, idx: nat)
    requires idx < |lessons|
    reads progress.lessons.Values
  {
    idx > 0 && !Meets(LessonRecord(progress, lessons[idx - 1].id), WPM_UNLOCK, ACC_UNLOCK)
  }

  /** The text of an open lesson: one of its texts, drawn by the first draw, or empty when it has none. */
  function LessonPick(lesson: CourseLesson, rand: nat -> real): (r: GenerateTextResult)
    requires Generators.ValidRandom(rand)
    ensures r.Ok?
    ensures |lesson.texts| == 0 ==> r.text == ""
    ensures |lesson.texts| > 0 ==> r.text in lesson.texts
  {
    if |lesson.texts| == 0 then Ok("")
    else Ok(lesson.texts[Generators.RandIndex(rand(0), |lesson.texts|)])
  }

  /** The course branch of `generateTestText`. */
  function CourseText(progress: AppProgress, preLessonDoneMap: map<string, bool>, lessons: seq<CourseLesson>,
                      lessonId: Option<string>, rand: nat -> real): (r: GenerateTextResult)
    requires Generators.ValidRandom(rand) && |lessons| > 0
    reads progress.lessons.Values
    ensures var idx := ChosenLesson(lessons, lessonId);
      && (Locked(progress, lessons, idx) ==> r.Fail? && !r.needsFamiliarize)
      && (!Locked(progress, lessons, idx) ==>
            (r.Fail? <==> |lessons[idx].keys| > 0 && !(lessons[idx].id in preLessonDoneMap && preLessonDoneMap[lessons[idx].id])))
      && (r.Fail? && r.needsFamiliarize ==> |lessons[idx].keys| > 0)
      && (r.Ok? ==> (|lessons[idx].texts| == 0 && r.text == "") || r.text in lessons[idx].texts)
  {
    var idx := ChosenLesson(lessons, lessonId);
    var lesson := lessons[idx];
    if Locked(progress, lessons, idx) then
      Fail(LockedMessage(lessons[idx - 1].title), false)
    else if |lesson.keys| > 0 && !(lesson.id in preLessonDoneMap && preLessonDoneMap[lesson.id]) then
      Fail("Complete pre-lesson drill or skip to start the lesson.", true)
    else LessonPick(lesson, rand)
  }

  datatype UnlockDefaults = UnlockDefaults(wpm: Option<real>, acc: Option<real>)

  datatype LockInfo = LockInfo(unlocked: bool, prevLesson: Option<CourseLesson>, reqWpm: real, reqAcc: real,
                               prevProg: Option<StatRecord>)

  /** `computeLessonLockInfo`; a positive index must name a lesson. */
  function ComputeLessonLockInfo(lessons: seq<CourseLesson>, progress: AppProgress, idx: int,
                                 defaults: Option<UnlockDefaults>): (r: LockInfo)
    requires idx > 0 ==> idx < |lessons|
    reads progress.lessons.Values
    ensures idx <= 0 ==>
      && r.unlocked && r.prevLesson.None? && r.prevProg.None?
      && r.reqWpm == (if defaults.Some? then defaults.value.wpm.GetOr(WPM_UNLOCK) else WPM_UNLOCK)
      && r.reqAcc == (if defaults.Some? then defaults.value.acc.GetOr(ACC_UNLOCK) else ACC_UNLOCK)
    ensures idx > 0 ==>
      && r.prevLesson == Some(lessons[idx - 1])
      && r.prevProg == LessonRecord(progress, lessons[idx - 1].id)
      && (lessons[idx].thresholds.None? || lessons[idx].thresholds.value.advanceScore.None? ==>
            r.reqWpm == (if defaults.Some? then defaults.value.wpm.GetOr(WPM_UNLOCK) else WPM_UNLOCK))
      && (lessons[idx].thresholds.None? || lessons[idx].thresholds.value.minAccuracy.None? ==>
            r.reqAcc == (if defaults.Some? then defaults.value.acc.GetOr(ACC_UNLOCK) else ACC_UNLOCK))
      && (lessons[idx].thresholds.Some? && lessons[idx].thresholds.value.advanceScore.Some? ==>
            r.reqWpm == lessons[idx].thresholds.value.advanceScore.value)
      && (lessons[idx].thresholds.Some? && lessons[idx].thresholds.value.minAccuracy.Some? ==>
            r.reqAcc == lessons[idx].thresholds.value.minAccuracy.value)
      && (r.unlocked <==> Meets(r.prevProg, r.reqWpm, r.reqAcc))
  {
    var wpmUnlock := if defaults.Some? then defaults.value.wpm.GetOr(WPM_UNLOCK) else WPM_UNLOCK;
    var accUnlock := if defaults.Some? then defaults.value.acc.GetOr(ACC_UNLOCK) else ACC_UNLOCK;
    if idx <= 0 then LockInfo(true, None, wpmUnlock, accUnlock, None)
    else
      var prev := lessons[idx - 1];
      var prevProg := LessonRecord(progress, prev.id);
      var th := lessons[idx].thresholds;
      var reqWpm := if th.Some? then th.value.advanceScore.GetOr(wpmUnlock) else wpmUnlock;
      var reqAcc := if th.Some? then th.value.minAccuracy.GetOr(accUnlock) else accUnlock;
      LockInfo(Meets(prevProg, reqWpm, reqAcc), Some(prev), reqWpm, reqAcc, prevProg)
  }

  /**
   * With no lesson thresholds and no defaults, the lock reported for a lesson is the lock that
   * text generation enforces for it.
   */
  lemma LockInfoAgreesWithGeneration(progress: AppProgress, preLessonDoneMap: map<string, bool>,
                                     lessons: seq<CourseLesson>, lessonId: Option<string>, rand: nat -> real)
    requires Generators.ValidRandom(rand) && |lessons| > 0
    requires lessons[ChosenLesson(lessons, lessonId)].thresholds.None?
    ensures var r := CourseText(progress, preLessonDoneMap, lessons, lessonId, rand);
      !ComputeLessonLockInfo(lessons, progress, ChosenLesson(lessons, lessonId), None).unlocked <==>
        r.Fail? && !r.needsFamiliarize
  {
  }

  /** The records an update changes: the mode's record, and the lesson's in course mode. */
  function TouchesLesson(mode: string, courseLessonId: Option<string>): bool {
    mode == "course" && courseLessonId.Some? && courseLessonId.value != ""
  }

  function Touched(prev: AppProgress, mode: string, courseLessonId: Option<string>): set<StatRecord> {
    (if mode in prev.modes then {prev.modes[mode]} else {}) +
    (if TouchesLesson(mode, courseLessonId) && courseLessonId.value in prev.lessons
     then {prev.lessons[courseLessonId.value]} else {})
  }

  /**
   * `applyResultToProgress`. The maps are copied, but the records in them are shared with the
   * old progress, so an existing record is updated in place; a missing one is created.
   */
  method ApplyResultToProgress(prev: AppProgress, mode: string, stats: Metrics.TypingMetrics,
                               courseLessonId: Option<string>) returns (next: AppProgress)
    requires TouchesLesson(mode, courseLessonId) && mode in prev.modes && courseLessonId.value in prev.lessons ==>
      prev.modes[mode] != prev.lessons[courseLessonId.value]
    modifies Touched(prev, mode, courseLessonId)
    ensures next.modes.Keys == prev.modes.Keys + {mode}
    ensures forall m | m in prev.modes && m != mode :: next.modes[m] == prev.modes[m]
    ensures mode in prev.modes ==> next.modes[mode] == prev.modes[mode]
    ensures mode !in prev.modes ==> fresh(next.modes[mode])
    ensures next.modes[mode].runs == (if mode in prev.modes then old(prev.modes[mode].runs) else 0) + 1
    ensures next.modes[mode].bestWpm == Js.MaxReal(if mode in prev.modes then old(prev.modes[mode].bestWpm) else 0.0, stats.wpm)
    ensures next.modes[mode].bestAcc == Js.MaxReal(if mode in prev.modes then old(prev.modes[mode].bestAcc) else 0.0, stats.accuracy)
    ensures !TouchesLesson(mode, courseLessonId) ==> next.lessons == prev.lessons
    ensures TouchesLesson(mode, courseLessonId) ==>
      var id := courseLessonId.value;
      && next.lessons.Keys == prev.lessons.Keys + {id}
      && (forall l | l in prev.lessons && l != id :: next.lessons[l] == prev.lessons[l])
      && (id in prev.lessons ==> next.lessons[id] == prev.lessons[id])
      && (id !in prev.lessons ==> fresh(next.lessons[id]))
      && next.lessons[id].runs == (if id in prev.lessons then old(prev.lessons[id].runs) else 0) + 1
      && next.lessons[id].bestWpm == Js.MaxReal(if id in prev.lessons then old(prev.lessons[id].bestWpm) else 0.0, stats.wpm)
      && next.lessons[id].bestAcc == Js.MaxReal(if id in prev.lessons then old(prev.lessons[id].bestAcc) else 0.0, stats.accuracy)
  {
    var modes := prev.modes;
    var lessonsProg := prev.lessons;
    var mm: StatRecord;
    if mode in modes {
      mm := modes[mode];
    } else {
      mm := new StatRecord(0, 0.0, 0.0);
    }
    mm.Record(stats);
    modes := modes[mode := mm];
    if TouchesLesson(mode, courseLessonId) {
      var id := courseLessonId.value;
      var lp: StatRecord;
      if id in lessonsProg {
        lp := lessonsProg[id];
      } else {
        lp := new StatRecord(0, 0.0, 0.0);
      }
      lp.Record(stats);
      lessonsProg := lessonsProg[id := lp];
    }
    next := AppProgress(modes, lessonsProg);
  }
}
