/**
 * The rules of the single-file application component that differ from the typing service it
 * predates: its length helpers never yield a falsy length, its text preparation has no
 * familiarise step, and its progress update always writes the current lesson in course mode.
 * Its key and input handlers are the ones of the attempt in the Reconciliation module.
 */
module App {

  import opened Wrappers
  import Js
  import Metrics
  import Generators
  import TypingService

  /** `getLetterLength`: a custom length clamped to [10, 1000], otherwise `Number(lenOption) || 50`. */
  function LetterLength(c: TypingService.LengthConfig, toNumber: string -> Js.JsNumber): (r: Js.JsNumber)
    ensures Js.Truthy(r)
    ensures c.lenOption == "custom" ==> r.Finite? && 10.0 <= r.value <= 1000.0
    ensures c.lenOption == "custom" ==> r == TypingService.LettersLength(c, toNumber)
    ensures c.lenOption != "custom" && Js.Truthy(toNumber(c.lenOption)) ==> r == toNumber(c.lenOption)
    ensures c.lenOption != "custom" && !Js.Truthy(toNumber(c.lenOption)) ==> r == Js.Finite(50.0)
  {
    if c.lenOption == "custom" then Js.Finite(Js.ClampNumber(Js.OrDefault(c.customLength, 50.0), 10.0, 1000.0))
    else Js.OrDefault(toNumber(c.lenOption), 50.0)
  }

  /** `getCommonWordsLength`: a custom length clamped to [10, 500], otherwise `Number(lenOption) || 50`. */
  function CommonWordsLength(c: TypingService.LengthConfig, toNumber: string -> Js.JsNumber): (r: Js.JsNumber)
    ensures Js.Truthy(r)
    ensures c.lenOption == "custom" ==> r.Finite? && 10.0 <= r.value <= 500.0
    ensures c.lenOption == "custom" ==> r == TypingService.CommonLength(c, toNumber)
    ensures c.lenOption != "custom" && Js.Truthy(toNumber(c.lenOption)) ==> r == toNumber(c.lenOption)
    ensures c.lenOption != "custom" && !Js.Truthy(toNumber(c.lenOption)) ==> r == Js.Finite(50.0)
  {
    if c.lenOption == "custom" then Js.Finite(Js.ClampNumber(Js.OrDefault(c.customLength, 50.0), 10.0, 500.0))
    else Js.OrDefault(toNumber(c.lenOption), 50.0)
  }

  /** Where an option parses to a truthy number the component and the service ask for the same length. */
  lemma LengthsAgreeOnTruthyOption(c: TypingService.LengthConfig, toNumber: string -> Js.JsNumber)
    requires c.lenOption != "" && Js.Truthy(toNumber(c.lenOption))
    ensures LetterLength(c, toNumber) == TypingService.LettersLength(c, toNumber)
    ensures CommonWordsLength(c, toNumber) == TypingService.CommonLength(c, toNumber)
  {
  }

  /**
   * `prepareTest` of the component: the same text rules as the service except that a course
   * lesson needs no familiarise drill and an unknown mode prepares the empty text.
   */
  function PrepareText(config: TypingService.AppConfig, progress: TypingService.AppProgress, selectedLetters: seq<string>,
                       lessons: seq<TypingService.CourseLesson>, commonWords: seq<string>,
                       toNumber: string -> Js.JsNumber, rand: nat -> real): (r: TypingService.GenerateTextResult)
    requires Generators.ValidRandom(rand)
    requires config.mode == "letters" ==> LetterLength(config.letters, toNumber) != Js.PosInf
    requires config.mode == "common" ==> CommonWordsLength(config.common, toNumber) != Js.PosInf
    requires config.mode == "course" ==> |lessons| > 0
    reads progress.lessons.Values
    ensures config.mode == "letters" ==>
      var t := Generators.LetterString(selectedLetters, LetterLength(config.letters, toNumber), rand);
      r == if t == "" then TypingService.Fail("Select at least one letter to generate text.", false) else TypingService.Ok(t)
    ensures config.mode == "common" ==>
      var t := Generators.CommonParagraph(commonWords, CommonWordsLength(config.common, toNumber), rand);
      r == if t == "" then TypingService.Fail("Common words list is empty.", false) else TypingService.Ok(t)
    ensures config.mode !in {"letters", "paragraph", "common", "course"} ==> r == TypingService.Ok("")
    ensures config.mode == "course" ==> r == CourseText(progress, lessons, config.courseLessonId, rand)
    ensures r.Fail? ==> !r.needsFamiliarize
  {
    if config.mode == "letters" then
      var text := Generators.LetterString(selectedLetters, LetterLength(config.letters, toNumber), rand);
      if text == "" then TypingService.Fail("Select at least one letter to generate text.", false) else TypingService.Ok(text)
    else if config.mode == "paragraph" then
      var t := Js.Trim(config.paragraphText);
      if t == "" then TypingService.Fail("Enter a Malayalam paragraph first.", false) else TypingService.Ok(t)
    else if config.mode == "common" then
      var text := Generators.CommonParagraph(commonWords, CommonWordsLength(config.common, toNumber), rand);
      if text == "" then TypingService.Fail("Common words list is empty.", false) else TypingService.Ok(text)
    else if config.mode == "course" then CourseText(progress, lessons, config.courseLessonId, rand)
    else TypingService.Ok("")
  }

  /** The course branch of the component's `prepareTest`: the lock check, then a random lesson text. */
  function CourseText(progress: TypingService.AppProgress, lessons: seq<TypingService.CourseLesson>,
                      lessonId: Option<string>, rand: nat -> real): (r: TypingService.GenerateTextResult)
    requires Generators.ValidRandom(rand) && |lessons| > 0
    reads progress.lessons.Values
    ensures r.Fail? ==> !r.needsFamiliarize
    ensures r.Ok? ==> var idx := TypingService.ChosenLesson(lessons, lessonId);
      (|lessons[idx].texts| == 0 && r.text == "") || r.text in lessons[idx].texts
  {
    var idx := TypingService.ChosenLesson(lessons, lessonId);
    if TypingService.Locked(progress, lessons, idx) then
      TypingService.Fail(TypingService.LockedMessage(lessons[idx - 1].title), false)
    else TypingService.LessonPick(lessons[idx], rand)
  }

  /**
   * For a course lesson the component and the service refuse a locked lesson alike and pick the
   * same text, except that the service may ask for the familiarise drill instead.
   */
  lemma CourseAgreesWithService(progress: TypingService.AppProgress, preLessonDoneMap: map<string, bool>,
                                lessons: seq<TypingService.CourseLesson>, lessonId: Option<string>, rand: nat -> real)
    requires Generators.ValidRandom(rand) && |lessons| > 0
    ensures var a := CourseText(progress, lessons, lessonId, rand);
      var s := TypingService.CourseText(progress, preLessonDoneMap, lessons, lessonId, rand);
      && (a.Fail? <==> s.Fail? && !s.needsFamiliarize)
      && (a.Fail? ==> a == s)
      && (s.Ok? ==> a == s)
  {
    if TypingService.Locked(progress, lessons, TypingService.ChosenLesson(lessons, lessonId)) {
      CourseLockedAlike(progress, preLessonDoneMap, lessons, lessonId, rand);
    } else {
      CourseOpenAlike(progress, preLessonDoneMap, lessons, lessonId, rand);
    }
  }

  /** A locked lesson: both refuse it with the same message and no drill. */
  lemma CourseLockedAlike(progress: TypingService.AppProgress, preLessonDoneMap: map<string, bool>,
                          lessons: seq<TypingService.CourseLesson>, lessonId: Option<string>, rand: nat -> real)
    requires Generators.ValidRandom(rand) && |lessons| > 0
    requires TypingService.Locked(progress, lessons, TypingService.ChosenLesson(lessons, lessonId))
    ensures CourseText(progress, lessons, lessonId, rand).Fail?
    ensures CourseText(progress, lessons, lessonId, rand) ==
      TypingService.CourseText(progress, preLessonDoneMap, lessons, lessonId, rand)
  {
  }

  /** An open lesson: the component picks a text, and so does the service unless it asks for the drill. */
  lemma CourseOpenAlike(progress: TypingService.AppProgress, preLessonDoneMap: map<string, bool>,
                        lessons: seq<TypingService.CourseLesson>, lessonId: Option<string>, rand: nat -> real)
    requires Generators.ValidRandom(rand) && |lessons| > 0
    requires !TypingService.Locked(progress, lessons, TypingService.ChosenLesson(lessons, lessonId))
    ensures CourseText(progress, lessons, lessonId, rand).Ok?
    ensures TypingService.CourseText(progress, preLessonDoneMap, lessons, lessonId, rand).Fail? ==>
      TypingService.CourseText(progress, preLessonDoneMap, lessons, lessonId, rand).needsFamiliarize
    ensures TypingService.CourseText(progress, preLessonDoneMap, lessons, lessonId, rand).Ok? ==>
      CourseText(progress, lessons, lessonId, rand) ==
        TypingService.CourseText(progress, preLessonDoneMap, lessons, lessonId, rand)
  {
  }

  /**
   * In paragraph and course mode the component and the service prepare the same text, except
   * that the service may instead ask for the familiarise drill; the two refuse a locked lesson alike.
   */
  lemma PrepareAgreesWithService(config: TypingService.AppConfig, progress: TypingService.AppProgress,
                                 selectedLetters: seq<string>, preLessonDoneMap: map<string, bool>,
                                 lessons: seq<TypingService.CourseLesson>, commonWords: seq<string>,
                                 toNumber: string -> Js.JsNumber, rand: nat -> real)
    requires Generators.ValidRandom(rand)
    requires config.mode == "paragraph" || (config.mode == "course" && |lessons| > 0)
    ensures var a := PrepareText(config, progress, selectedLetters, lessons, commonWords, toNumber, rand);
      var s := TypingService.GenerateTestText(config, progress, selectedLetters, preLessonDoneMap, lessons,
                                             commonWords, toNumber, rand);
      && (a.Fail? <==> s.Fail? && !s.needsFamiliarize)
      && (s.Ok? ==> a == s)
  {
    if config.mode == "course" {
      CourseAgreesWithService(progress, preLessonDoneMap, lessons, config.courseLessonId, rand);
    }
  }

  /** The component passes the raw duration; the metrics raise it to 1 ms themselves, so nothing differs. */
  lemma RawDurationSameMetrics(target: string, typed: string, d: real)
    ensures Metrics.Metrics(target, typed, d) == Metrics.Metrics(target, typed, Js.MaxReal(1.0, d))
  {
  }

  /**
   * The progress update inside the component's `finishTest`: like the service's, except that in
   * course mode the current lesson's record is always written, whatever its id.
   */
  method RecordResult(prev: TypingService.AppProgress, mode: string, stats: Metrics.TypingMetrics, lessonId: string)
    returns (next: TypingService.AppProgress)
    requires mode == "course" && mode in prev.modes && lessonId in prev.lessons ==>
      prev.modes[mode] != prev.lessons[lessonId]
    modifies (if mode in prev.modes then {prev.modes[mode]} else {}) +
             (if mode == "course" && lessonId in prev.lessons then {prev.lessons[lessonId]} else {})
    ensures next.modes.Keys == prev.modes.Keys + {mode}
    ensures forall m | m in prev.modes && m != mode :: next.modes[m] == prev.modes[m]
    ensures mode in prev.modes ==> next.modes[mode] == prev.modes[mode]
    ensures mode !in prev.modes ==> fresh(next.modes[mode])
    ensures next.modes[mode].runs == (if mode in prev.modes then old(prev.modes[mode].runs) else 0) + 1
    ensures next.modes[mode].bestWpm == Js.MaxReal(if mode in prev.modes then old(prev.modes[mode].bestWpm) else 0.0, stats.wpm)
    ensures next.modes[mode].bestAcc == Js.MaxReal(if mode in prev.modes then old(prev.modes[mode].bestAcc) else 0.0, stats.accuracy)
    ensures mode != "course" ==> next.lessons == prev.lessons
    ensures mode == "course" ==>
      && next.lessons.Keys == prev.lessons.Keys + {lessonId}
      && (forall l | l in prev.lessons && l != lessonId :: next.lessons[l] == prev.lessons[l])
      && (lessonId in prev.lessons ==> next.lessons[lessonId] == prev.lessons[lessonId])
      && (lessonId !in prev.lessons ==> fresh(next.lessons[lessonId]))
      && next.lessons[lessonId].runs == (if lessonId in prev.lessons then old(prev.lessons[lessonId].runs) else 0) + 1
      && next.lessons[lessonId].bestWpm == Js.MaxReal(if lessonId in prev.lessons then old(prev.lessons[lessonId].bestWpm) else 0.0, stats.wpm)
      && next.lessons[lessonId].bestAcc == Js.MaxReal(if lessonId in prev.lessons then old(prev.lessons[lessonId].bestAcc) else 0.0, stats.accuracy)
  {
    var modes := prev.modes;
    var lessonsProg := prev.lessons;
    var mm: TypingService.StatRecord;
    if mode in modes {
      mm := modes[mode];
    } else {
      mm := new TypingService.StatRecord(0, 0.0, 0.0);
    }
    mm.Record(stats);
    modes := modes[mode := mm];
    if mode == "course" {
      var lp: TypingService.StatRecord;
      if lessonId in lessonsProg {
        lp := lessonsProg[lessonId];
      } else {
        lp := new TypingService.StatRecord(0, 0.0, 0.0);
      }
      lp.Record(stats);
      lessonsProg := lessonsProg[lessonId := lp];
    }
    next := TypingService.AppProgress(modes, lessonsProg);
  }
}
