# Malayalam InScript typing engine in Dafny

This project models the engine of a Malayalam InScript typing tutor.

The tutor shows a practice text. Every Malayalam grapheme of that text needs a fixed list of key strokes: a base key with shift, then any follow-up strokes. The tutor tracks how far the typist has got from the length of the typed buffer alone. A wrong stroke is recorded as pending. The next input event then appends placeholders for the strokes the grapheme still owed, so the buffer moves on to the next grapheme. A backspace removes a trailing run of placeholders together with the unit before it. When the buffer reaches the end of the text, the attempt finishes once. Its statistics are the speed, the accuracy and the correct, incorrect, extra and missed counts. A lesson score is derived from them, along with an advance decision. The progress records keep the best result so far.

Modules, one per source file:

- `Wrappers` holds `Option`.
- `Js` models the JavaScript value rules the code relies on: `Number()` results including `NaN` and the infinities, `||` on numbers, `trim`, `repeat` and ASCII case mapping.
- `Malayalam` holds the chillu rewrite stage of `normalizeMalayalam`, `getGraphemes` and `isMalayalamChar`.
- `Keystrokes` holds the stroke lists of characters and graphemes, and the `KEY_TO_CODE` table with its inverse.
- `TypingModel` holds `buildGraphemeInfos` and the progress tracker `getTypingProgress`, including a reference function `Progress` and its accounting theorems.
- `Metrics` holds `calculateTypingMetrics`.
- `Scoring` holds `clamp01`, `normalizeTo01`, `computeLessonScore` and `canAdvanceLesson`.
- `Generators` holds the letter drill and common-words paragraph builders. Random draws are an input stream.
- `TypingService` holds text generation, the lesson lock, and the progress update. Progress records are objects updated in place.
- `KeyMapping` holds the finger and key-label lookup.
- `Reconciliation` holds a class `Attempt`: the attempt state of the typing hook and its event handlers.
- `App` holds the rules of the older single-file component that differ from the service. Its backspace, input and key handlers (src/App.tsx:516-618) do what the hook's do, so `Reconciliation.DeleteBackward`, `Reconciliation.ApplyInput` and `Reconciliation.Attempt.KeyDown` model them too.
- `MisencodedPlaceholder` holds the placeholder constant exactly as the source file spells it; see Findings.

Abstractions:

- Strings are sequences of `char`, and a `char` is read as one code point. This is exact for text in the Basic Multilingual Plane, which includes Malayalam.
- NFC normalisation is a parameter `nfc`, and `Intl.Segmenter` is a parameter `segment`.
- `Math.random()` is a stream `rand: nat -> real` whose values lie in [0, 1).
- `Number(s)` on strings is a parameter `toNumber`.
- `Date.now()` is a parameter `now`.
- The JSON tables are parameters: the InScript stroke map, the finger map and the InScript key map. The course lessons and the common-word list are parameters too.
- Speeds, accuracies and scores are `real`.
- `Math.round` is `floor(x + 1/2)`.

Where the design notes and the code differ, the model follows the code:

- The statistics compare the target and the buffer code unit by code unit, so placeholders count as incorrect units. They do not compare grapheme by grapheme.
- A lesson's `advanceScore` threshold is used as the speed requirement in `computeLessonLockInfo`.

## Model

| member | source | states |
|---|---|---|
| Malayalam.NormalizeMalayalam | src/utils/malayalam.ts:1-2 | The empty string normalises to the empty string. |
| Malayalam.ChilluRulesWellFormed | src/utils/malayalam.ts:6-12 | The six rewrites produce code points in U+0D7A..U+0D7F. No output is the virama, ZWJ or one of the six consonants, and no consonant is the virama. |
| Malayalam.ReplaceTriple | src/utils/malayalam.ts:7 | One global rewrite shortens the string by exactly 2 for each consonant + virama + ZWJ triple it replaces. |
| Malayalam.ReplaceLeavesNoTriple | src/utils/malayalam.ts:7-12 | After a rewrite its own triple is gone, and no triple of another rule is created. |
| Malayalam.ReplaceIdentity | src/utils/malayalam.ts:7 | A rewrite with no matching triple leaves the string unchanged. |
| Malayalam.ApplyRulesLeavesNoTriple | src/utils/malayalam.ts:6-12 | After the chain of rewrites, no triple of any rule remains. |
| Malayalam.ApplyRulesIdentity | src/utils/malayalam.ts:6-12 | The chain is the identity on a string without triples. |
| Malayalam.ApplyRulesShortens | src/utils/malayalam.ts:6-12 | The chain never lengthens a string. |
| Malayalam.RewriteLeavesNoTriple | src/utils/malayalam.ts:6-12 | After the six chillu rewrites, none of the six triples occurs. |
| Malayalam.RewriteIdempotent | src/utils/malayalam.ts:6-12 | The rewrite stage is idempotent. |
| Malayalam.RewriteShortens | src/utils/malayalam.ts:6-12 | The rewrite stage never lengthens the text. |
| Malayalam.NormalizeIdempotent | src/utils/malayalam.ts:1-14 | Normalising twice equals normalising once, for an idempotent NFC. |
| Malayalam.IsMalayalamChar | src/utils/malayalam.ts:23-30 | The result is false for the empty string. Otherwise it is true exactly when the first code point is in U+0D00..U+0D7F. |
| Keystrokes.KeyStrokesForChar | src/utils/keystrokes.ts:14-25 | An unmapped character gives no strokes. A mapped one gives its base stroke followed by its `post` strokes, so 1 + the number of `post` strokes in total. |
| Keystrokes.KeyStrokesForGrapheme | src/utils/keystrokes.ts:27-36 | A direct table hit is returned as it is. Otherwise the loop concatenates the strokes of each code point, in order. |
| Keystrokes.CodePointStrokesAppend | src/utils/keystrokes.ts:30-35 | The per-code-point strokes of a concatenation are the concatenation of the strokes. |
| Keystrokes.CodePointStrokesEmpty | src/utils/keystrokes.ts:30-35 | The concatenated strokes are empty exactly when no code point is mapped. |
| Keystrokes.GraphemeStrokesEmpty | src/utils/keystrokes.ts:27-36 | A grapheme has no strokes exactly when neither it nor any of its code points is mapped. |
| Keystrokes.LetterCodesShape | src/utils/keystrokes.ts:39-64 | `a`..`z` map to `"Key"` followed by the upper-case letter. |
| Keystrokes.DigitCodesShape | src/utils/keystrokes.ts:65-74 | Each digit maps to `"Digit"` followed by the digit. |
| Keystrokes.LetterKeyCode | src/utils/keystrokes.ts:38-64 | Every letter `a`..`z` is a key of the whole table, and its code is `"Key"` followed by the upper-case letter. |
| Keystrokes.LetterNotElsewhere | src/utils/keystrokes.ts:38-89 | A letter key is neither a digit key nor one of the remaining keys. |
| Keystrokes.KeyToCodeInverts | src/utils/keystrokes.ts:38-89 | Reading back the code of any key of the table gives that key. |
| Keystrokes.KeyToCodeInjective | src/utils/keystrokes.ts:38-89 | Reading a code back gives its key, so no two keys share a code. |
| TypingModel.BuildGraphemeInfos | src/utils/typingModel.ts:11-17 | There is one record per segment of the normalised text, in order. Each record holds its segment and that segment's strokes. |
| TypingModel.StrokeCount | src/utils/typingModel.ts:27 | A grapheme with no strokes counts as one unit. Otherwise it counts as its number of strokes. |
| TypingModel.Progress | src/utils/typingModel.ts:19-44 | The position is at most the end. The end has stroke index 0. Inside a grapheme, the stroke index is below that grapheme's count. |
| TypingModel.GetTypingProgress | src/utils/typingModel.ts:19-44 | The loop computes `Progress`. Inside the text, the units of the earlier graphemes plus the stroke index equal the typed units. The end is reached exactly when the typed units cover the total. |
| TypingModel.TotalStrokesAppend | src/utils/typingModel.ts:26-38 | The total count of a concatenation is the sum of the totals. |
| TypingModel.PrefixStrictlyMonotonic | src/utils/typingModel.ts:26-38 | Each grapheme adds at least its own count to the running prefix. |
| TypingModel.ProgressAccounting | src/utils/typingModel.ts:23-43 | The prefix plus the stroke index equals the typed units, and the end is reached exactly when they cover the total. |
| TypingModel.ProgressTerminal | src/utils/typingModel.ts:40-43 | When the typed units cover the total, the result is (number of graphemes, 0). |
| TypingModel.ProgressOfPosition | src/utils/typingModel.ts:29-37 | The unit count of a position reads back as that position. |
| TypingModel.ProgressMonotonic | src/utils/typingModel.ts:19-44 | More typed units never move the position back, in lexicographic order. |
| TypingModel.ProgressInjectiveInside | src/utils/typingModel.ts:19-44 | Two unit counts with the same position inside the text are equal. |
| TypingModel.PrefixWhole | src/utils/typingModel.ts:26-38 | The running prefix over all graphemes is the total count. |
| TypingModel.ProgressNextGrapheme | src/utils/typingModel.ts:19-44 | Adding the strokes still owed in the current grapheme, plus one, moves the position to the start of the next grapheme, or to the end, and stays within the total. |
| Metrics.CalculateTypingMetrics | src/utils/metrics.ts:13-57 | The loop computes `Metrics`. Correct plus incorrect equals the shorter length, and the total is the typed length. |
| Metrics.MetricsAccounting | src/utils/metrics.ts:24-40 | extra is max(0, typed − target), and missed is max(0, target − typed). At most one of them is non-zero. Adding extra or missed closes the account with the typed length or the target length. |
| Metrics.MetricsDurationPositive | src/utils/metrics.ts:18-19 | The reported duration is max(d, 1), so the minutes are positive. |
| Metrics.MetricsAccuracyBounds | src/utils/metrics.ts:44 | Accuracy is 0 for an empty buffer. Otherwise it is 100 × correct / typed, which lies in [0, 100]. |
| Metrics.Percentage | src/utils/metrics.ts:44 | A part of a positive whole, as a percentage, lies in [0, 100] and scales back to 100 × the part. |
| Metrics.MetricsWpmBounded | src/utils/metrics.ts:42-43 | 0 ≤ wpm ≤ rawWpm, and rawWpm is the typed units / 5 per minute. |
| Metrics.CorrectCountSelf | src/utils/metrics.ts:24-28 | Comparing a string with itself finds every position correct. |
| Metrics.MetricsExact | src/utils/metrics.ts:24-44 | Typing the target exactly gives all positions correct, none incorrect, extra or missed, accuracy 100 and wpm = rawWpm. |
| Scoring.Round | src/utils/scoring.ts:63 | The result is the integer nearest to x, with halves rounded up. |
| Scoring.Clamp01 | src/utils/scoring.ts:18-20 | The result is in [0, 1]. It is the identity inside that range, 0 below it and 1 above it. |
| Scoring.NormalizeTo01 | src/utils/scoring.ts:22-24 | The result equals clamp01(value / cap) and lies in [0, 1]. |
| Scoring.EffectiveWeights | src/utils/scoring.ts:39-44 | With no weights supplied, the weights are 0.35, 0.2, 0.35 and 0.1. |
| Scoring.SubScores | src/utils/scoring.ts:48-55 | Every normalised part lies in [0, 1]. |
| Scoring.ComputeLessonScore | src/utils/scoring.ts:26-75 | parts.missing is the missed count. The score is round(100 × combined), and each part is round(100 × its normalised sub-score). Every part is in [0, 100], and the completeness part is 100 when nothing is missed. |
| Scoring.DefaultWeightsSumToOne | src/utils/scoring.ts:39-44 | The default weights sum to 1. |
| Scoring.WeightedSumBounded | src/utils/scoring.ts:57-61 | Parts in [0, 1] under non-negative weights summing to at most 1 combine to a value in [0, 1]. |
| Scoring.ScoreBounded | src/utils/scoring.ts:57-63 | The combined value lies in [0, 1] and the score in [0, 100]. |
| Scoring.CompletenessExtremes | src/utils/scoring.ts:52-55 | Completeness is 1 when nothing is missed, and 0 when the missed count reaches the cap. |
| Scoring.ScoreMonotonic | src/utils/scoring.ts:48-63 | The score never decreases with wpm, rawWpm or accuracy, and never increases with the missed count. |
| Scoring.CanAdvanceLesson | src/utils/scoring.ts:84-114 | The reported score is the computed score. `allowed` holds exactly when all four checks pass. The defaults are score ≥ 75, accuracy ≥ 85, missing ≤ 3 and rawWpm ≥ 6. |
| Scoring.PerfectRecordAdvances | src/utils/scoring.ts:84-114 | A record at the caps with full accuracy and nothing missed may advance. |
| Scoring.TooManyMissedBlocks | src/utils/scoring.ts:96-105 | More than three missed units block advancing under the defaults. |
| Generators.RandIndex | src/features/typing/generators.ts:12 | floor(r × n) is an index below n. |
| Generators.Pick | src/features/typing/generators.ts:12-13 | Every pick is one of the selected letters. |
| Generators.LetterString | src/features/typing/generators.ts:9 | An empty selection yields the empty string. |
| Generators.BuildLetterString | src/features/typing/generators.ts:8-17 | The loop builds `LetterString`: one pick per counter below the length, with a space after every fourth pick except the last. |
| Generators.SpaceCountBelowLast | src/features/typing/generators.ts:14 | Below the last pick of a whole length, every fourth pick carries a space. |
| Generators.LetterStringShape | src/features/typing/generators.ts:11-15 | A whole length n gives exactly n picks from the selection and (n − 1) div 4 spaces, with no trailing space. |
| Generators.LetterStringSpaces | src/features/typing/generators.ts:11-15 | For letters that hold no space, a whole length n gives a string with exactly (n − 1) div 4 spaces. |
| Generators.PiecesSpaces | src/features/typing/generators.ts:11-15 | For such letters, the spaces in the first k pieces are the spaces the loop adds after them. |
| Generators.PieceSpaces | src/features/typing/generators.ts:12-14 | For such letters, a piece holds one space exactly when one follows its pick, and none otherwise. |
| Generators.CountOfAppend | src/features/typing/generators.ts:13-14 | The count of a character in a concatenation is the sum of the counts. |
| Generators.LetterStringNoPicks | src/features/typing/generators.ts:11 | A `NaN`, negative-infinity or non-positive length gives the empty string. |
| Generators.LetterStringFractionalTrailingSpace | src/features/typing/generators.ts:11-15 | A fractional length whose ceiling is a multiple of 4 ends in a space. |
| Generators.Words | src/features/typing/generators.ts:25-28 | Exactly the requested number of words is drawn. |
| Generators.WordsStep | src/features/typing/generators.ts:25-28 | One more draw appends exactly one more word, the one that draw picks. |
| Generators.DrawWords | src/features/typing/generators.ts:25-28 | The word loop draws `Words` with as many draws as the length allows, and reports that count. |
| Generators.SentenceLength | src/features/typing/generators.ts:33-34 | A sentence takes at most the remaining words and at most 14. It takes at least one word while words remain. Only the last sentence may have fewer than 6. |
| Generators.CommonParagraph | src/features/typing/generators.ts:23 | An empty word list yields the empty string. |
| Generators.BuildCommonParagraph | src/features/typing/generators.ts:22-40 | The two loops build `CommonParagraph`. |
| Generators.CutSentences | src/features/typing/generators.ts:30-38 | The `while` loop builds one sentence per chunk. It terminates because every step takes at least one word. |
| Generators.CutStep | src/features/typing/generators.ts:31-37 | One turn takes at least one word, stays within the words, and keeps the account: the sentences so far plus the sentences of the remaining words are the whole. |
| Generators.ChunksFlatten | src/features/typing/generators.ts:31-37 | The sentences hold all the drawn words, in order, each exactly once. |
| Generators.ChunkSizes | src/features/typing/generators.ts:33-34 | Every sentence has 1 to 14 words, and all but the last have at least 6. |
| Generators.SentencesEndWithStop | src/features/typing/generators.ts:35-36 | There is one sentence per chunk: its words joined by spaces, ending in `" ."`. |
| Generators.CommonParagraphWords | src/features/typing/generators.ts:25-37 | n words are drawn, each from the word list, and they reappear in order across the sentences. |
| TypingService.StatRecord.Record | src/features/typing/typingService.ts:210-212 | runs grows by 1, and each best becomes the larger of the old and the new value. |
| TypingService.LettersLength | src/features/typing/typingService.ts:47-52 | A custom length is clamp(Number(custom) \|\| 50, 10, 1000). An empty option gives 50, and any other option gives its number. |
| TypingService.CommonLength | src/features/typing/typingService.ts:72-77 | A custom length is clamp(Number(custom) \|\| 50, 10, 500). An empty option gives 30, and any other option gives its number. |
| TypingService.FindLesson | src/features/typing/typingService.ts:93 | The result is the first lesson with the id, or −1 when there is none. |
| TypingService.ChosenLesson | src/features/typing/typingService.ts:87-93 | The result is the configured lesson when its id is non-empty and exists, and the first lesson otherwise. It is also the index `findIndex` reports. |
| TypingService.LessonPick | src/features/typing/typingService.ts:118-120 | An open lesson yields a text: one of its texts, or the empty text when it has none. |
| TypingService.GenerateTestText | src/features/typing/typingService.ts:32-124 | Paragraph mode fails on blank text and otherwise gives the trimmed text. Letters and common mode build with the clamped length, and fail when the result is empty. Course mode is `CourseText`. Any other mode is unsupported. |
| TypingService.CourseText | src/features/typing/typingService.ts:86-121 | A lesson after the first fails, without asking for the drill, unless the previous lesson's record reaches 25 WPM and 90 % accuracy. An unlocked lesson that has keys and is not marked done asks for the drill. Otherwise the text is one of the lesson's texts, or empty when it has none. |
| TypingService.ComputeLessonLockInfo | src/features/typing/typingService.ts:130-169 | Index ≤ 0 is unlocked, with the default requirements (the given defaults, else 25 and 90). Otherwise the previous lesson and its record are reported. A lesson's own advanceScore and minAccuracy are the requirements when present, else the defaults, else 25 and 90. The lesson is unlocked exactly when the record meets them. |
| TypingService.LockInfoAgreesWithGeneration | src/features/typing/typingService.ts:93-108 | Without lesson thresholds and defaults, the reported lock holds exactly when text generation refuses the lesson as locked. |
| TypingService.ApplyResultToProgress | src/features/typing/typingService.ts:199-230 | The mode's record is updated in place, or created: runs + 1 and the bests become the max of old and new. Other modes keep their records. A lesson record is touched only in course mode with a non-empty lesson id; otherwise the lesson map is unchanged. |
| KeyMapping.FingerOr | src/utils/keyMapping.ts:35 | A missing or empty finger name gives the fallback. |
| KeyMapping.DisplayLabel | src/utils/keyMapping.ts:37-45 | Every key except the eight punctuation bases is shown in upper case. |
| KeyMapping.GetFingerInfoForChar | src/utils/keyMapping.ts:11-53 | A missing or empty character gives all nulls with shift off. A space gives "Space" with base " ", and its finger is the table entry for " " or else "Thumbs (space bar)". Otherwise the base is the lower-cased InScript key, or the character itself when unmapped; the finger is looked up by that base, and the label is `DisplayLabel` of the key and its base. |
| KeyMapping.UnmappedCharIsOwnKey | src/utils/keyMapping.ts:31-34 | An unmapped character is its own key, unshifted. |
| KeyMapping.PunctuationLabels | src/utils/keyMapping.ts:38-45 | The eight punctuation keys show their unshifted and shifted symbols. |
| KeyMapping.LetterKeyLabels | src/utils/keyMapping.ts:34-37 | A letter key is looked up in lower case and shown in upper case. |
| Reconciliation.StrokeOutcome | src/features/typing/useTypingModel.ts:321-362 | A Backspace press clears the pending stroke. For any other key, the stroke is wrong exactly when a stroke exists at the current position and does not match. A wrong stroke's fill plus its stroke index plus one equals the grapheme's stroke count. Anything else clears the pending stroke. |
| Reconciliation.JudgeStroke | src/features/typing/useTypingModel.ts:321-362 | The judging steps of the key handler compute `StrokeOutcome`. |
| Reconciliation.PhysicalMatchReadsBack | src/features/typing/useTypingModel.ts:346-350 | A physical match reads back through the code table as the expected key. |
| Reconciliation.PhysicalMatchUnique | src/features/typing/useTypingModel.ts:346-350 | No key press matches two different table keys. |
| Reconciliation.StripCR | src/features/typing/useTypingModel.ts:395 | No carriage return is left, and a value without one is unchanged. |
| Reconciliation.StripCRKeepsOthers | src/features/typing/useTypingModel.ts:395 | One more unit is kept, at the end, exactly when it is not a carriage return. |
| Reconciliation.StripCRAppend | src/features/typing/useTypingModel.ts:395 | Removing carriage returns distributes over concatenation, so every other unit survives in order. |
| Reconciliation.ApplyInput | src/features/typing/useTypingModel.ts:395-418 | The value with any owed placeholders is cut to at most the total stroke count. |
| Reconciliation.TrailingRun | src/features/typing/useTypingModel.ts:375-380 | The result is the length of the maximal trailing run of placeholders. |
| Reconciliation.CountTrailingPlaceholders | src/features/typing/useTypingModel.ts:375-380 | The loop counts exactly the trailing run. |
| Reconciliation.DeleteBackward | src/features/typing/useTypingModel.ts:371-392 | An empty buffer stays empty. Otherwise a strict prefix remains, every removed unit after the first is a placeholder, and the first removed unit is not one unless the buffer is left empty. |
| Reconciliation.WrongStrokeSkipsGrapheme | src/features/typing/useTypingModel.ts:354-406 | A wrong stroke followed by one typed unit lands at the start of the next grapheme, or at the end. |
| Reconciliation.FillSkipsGrapheme | src/features/typing/useTypingModel.ts:395-418 | A typed unit plus the fill a wrong stroke owes reaches the start of the next grapheme, or the end. |
| Reconciliation.InputLength | src/features/typing/useTypingModel.ts:395-418 | Where nothing is cut, the typed buffer plus one unit and the owed fill has exactly that many units. |
| Reconciliation.BackspaceUndoesStroke | src/features/typing/useTypingModel.ts:371-406 | One backspace after typing a non-placeholder unit restores the earlier buffer, whatever fill came with it. |
| Reconciliation.Attempt.Prepare | src/features/typing/useTypingModel.ts:210-247 | Preparing gives an empty buffer in prestart over the text's grapheme model, with no start time and no statistics. The pending stroke and the lesson result are kept. |
| Reconciliation.Attempt.StartRunning | src/features/typing/useTypingModel.ts:250-260 | Only prestart moves to running, stamping the start time. |
| Reconciliation.Attempt.Reset | src/features/typing/useTypingModel.ts:262-273 | With no text nothing changes. Otherwise the buffer is emptied, the start time and result are cleared, and the stage is prestart; the pending stroke stays. |
| Reconciliation.Attempt.KeyDown | src/features/typing/useTypingModel.ts:316-363 | Outside prestart and running, on Escape, or with Ctrl/Meta/Alt, nothing changes. Otherwise the pending stroke becomes `StrokeOutcome`, and only the pending stroke changes. |
| Reconciliation.Attempt.FinishTest | src/features/typing/useTypingModel.ts:275-313 | Statistics are recorded only when running, and then the stage is finished. They are the metrics of the buffer against the text over max(1, now − start). The lesson result holds them, their computed score and the `canAdvanceLesson` decision. |
| Reconciliation.FinishLessonId | src/features/typing/useTypingModel.ts:296-306 | In course mode the lesson is the configured one, or the first lesson when none is configured. Other modes name no lesson. |
| Reconciliation.RecordFinish | src/features/typing/useTypingModel.ts:296-306 | The statistics are folded in as `ApplyResultToProgress` does, for the lesson `FinishLessonId` names. The mode's record gets runs + 1 and the larger bests, and so does that lesson's record when its id is non-empty. Everything else is kept. |
| Reconciliation.Attempt.InputChange | src/features/typing/useTypingModel.ts:365-427 | A delete applies `DeleteBackward`. Any other input sets the buffer to `ApplyInput` and clears the pending stroke; it finishes exactly when it is running and reaches the end. Nothing happens once finished. |
| Reconciliation.Attempt.DeleteInput | src/features/typing/useTypingModel.ts:371-392 | A delete sets the buffer to `DeleteBackward` of the old buffer and changes neither the stage, the start time nor the pending stroke. |
| Reconciliation.Attempt.AcceptValue | src/features/typing/useTypingModel.ts:395-426 | The buffer becomes `ApplyInput` of the value with the pending stroke, which is then cleared. Statistics are recorded exactly when the attempt was running and the buffer reaches the end, and then the stage is finished. |
| Reconciliation.Attempt.GlobalKeyDown | src/features/typing/useTypingModel.ts:438-489 | Enter on an open result closes it and resets, and Escape resets. Backspace is blocked while running when disabled. In prestart a Latin letter is refused and any other key starts the attempt. |
| App.LetterLength | src/App.tsx:367-374 | A custom length is clamped to [10, 1000]. Otherwise the option's number is used, or 50 when that number is falsy, so the length is never falsy. |
| App.CommonWordsLength | src/App.tsx:376-383 | A custom length is clamped to [10, 500]. Otherwise the option's number is used, or 50 when that number is falsy. |
| App.LengthsAgreeOnTruthyOption | src/App.tsx:367-383 | When a non-empty option parses to a truthy number, the component and the service use the same length. |
| App.PrepareText | src/App.tsx:385-436 | The letter and common rules are the service's, with the component's lengths. An unknown mode prepares the empty text, and the familiarise drill is never asked for. |
| App.CourseText | src/App.tsx:413-436 | The course branch never asks for the drill. An open lesson yields one of its texts, or the empty text when it has none. |
| App.CourseAgreesWithService | src/App.tsx:413-436 | For a course lesson the component fails exactly when the service fails without asking for the drill. Both refuse a locked lesson with the same message, and where the service yields a text the component yields the same text. |
| App.CourseLockedAlike | src/App.tsx:416-432 | A locked lesson is refused, with the same result as the service gives. |
| App.CourseOpenAlike | src/App.tsx:434-435 | An open lesson yields a text. The service either yields the same text or asks for the drill. |
| App.PrepareAgreesWithService | src/App.tsx:385-436 | In paragraph and course mode the component fails exactly when the service fails without asking for the drill. Where the service produces a text, the component produces the same one. |
| App.RawDurationSameMetrics | src/App.tsx:475-479 | Passing the raw duration gives the same statistics as passing max(1, d). |
| App.RecordResult | src/App.tsx:483-509 | Like `ApplyResultToProgress`, except that in course mode the current lesson's record is always written. |
| MisencodedPlaceholder.LongPlaceholderNeverMatches | src/utils/typingModel.ts:5 | With a placeholder of more than one character, the backspace loop counts nothing. |
| MisencodedPlaceholder.AsWrittenBackspaceRemovesOne | src/features/typing/useTypingModel.ts:375-384 | With the constant as written, a backspace always removes exactly one unit. |
| MisencodedPlaceholder.SingleCharacterHandlers | src/features/typing/useTypingModel.ts:371-418 | With a one-character placeholder, the handlers are `DeleteBackward` and `ApplyInput`. |
| MisencodedPlaceholder.AsWrittenWrongStrokeOvershoots | src/features/typing/useTypingModel.ts:397-406 | As written, a wrong first stroke over two 2-stroke graphemes, followed by one typed unit, fills all 4 units of the buffer, which is the end, position (2, 0). |
| MisencodedPlaceholder.WrongKeyMisses | src/features/typing/useTypingModel.ts:346-353 | The physical key `j` does not type the stroke `k`. |
| MisencodedPlaceholder.CorrectedWrongStrokeSkipsOne | src/features/typing/useTypingModel.ts:397-406 | With the intended placeholder, the same strokes give a buffer of 2 units, the start of the second grapheme, position (1, 0). |
| MisencodedPlaceholder.AsWrittenBackspaceLeavesFragment | src/features/typing/useTypingModel.ts:371-392 | As written, one backspace leaves two stray filler characters. With the intended placeholder, the buffer is emptied. |

## Left out

- NFC normalisation and grapheme segmentation are uninterpreted parameters, so the model states nothing about which graphemes a text has.
- Characters outside the Basic Multilingual Plane are left out. A `char` is one code point, while JavaScript strings count such characters as two units.
- IEEE floating point is left out. Speeds, accuracies and scores are exact reals.
- `toFixed` display formatting is left out.
- Case mapping outside ASCII is left out.
- Date.now, localStorage persistence, DOM focus, timers, theme, audio and status messages are left out. Time is the parameter `now`, and nothing is persisted.
- The ISO `lastTime` stamp of a lesson record is left out, because it is a clock reading.
- Record fields that are missing in stored progress are left out. A record always holds runs, bestWpm and bestAcc.
- Loops over a +Infinity length never terminate in the source. `GenerateTestText`, `PrepareText`, `LetterString` and `CommonParagraph` require the length not to be +Infinity.
- `NormalizeTo01` and `ComputeLessonScore` require non-zero caps. A zero cap gives a division by zero in IEEE terms, which exact reals do not model.
- `GenerateTestText` and `PrepareText` require at least one lesson in course mode, because the source reads a field of `lessons[0]`. `ComputeLessonLockInfo` requires a positive index to name a lesson for the same reason.
- Generators.Words: its contract states only the word count. That the words come from the word list is stated by `CommonParagraphWords`, because putting it in the function contract makes every caller's proof too expensive.
- Reconciliation.Attempt.FinishTest: it requires the buffer to have reached the end. The source calls it only in that case.
- Reconciliation.Attempt.FinishTest: the attempt object does not hold the progress records. The fold of the statistics into progress is the separate method `Reconciliation.RecordFinish`, applied to the statistics `FinishTest` returns, so the model does not make the two one state change.
- A lesson with no texts yields the text `undefined` in the source. The model yields the empty text.
- The review path of the result dialog (`showResult`, `handleReviewFromLesson`) is left out, and so is Enter on the result overlay, which prepares a new text.
- `handleAdvanceFromLesson` and `markPreLessonDone` are left out. They are UI glue around `applyResultToProgress`-style updates and a map insertion.
- `allowBackspace` is fixed per attempt in the model. The source reads the current setting.
- The component's own `finishTest` differs from the hook's only in showing the result overlay and in using no lesson dialog. Its duration difference is covered by `App.RawDurationSameMetrics`, and its progress update by `App.RecordResult`.
- The course panel's own unlock thresholds (20 WPM and 90 %) are left out, because that component is UI.
- The duplicate lock check in the configuration dialog is left out for the same reason.
- `computeResults` is left out because it only composes the metrics with the clock. The attempt's `FinishTest` inlines that composition.

## Findings

| source | as written | input that shows it | evidently intended | confidence | as-written member | corrected member |
|---|---|---|---|---|---|---|
| src/utils/typingModel.ts:5 | `PLACEHOLDER` is the three-character string U+00E2 U+20AC U+00A2, the UTF-8 bytes of "•" read as Windows-1252. The backspace loop compares one character with it and never matches, and each owed stroke appends three units. | Two graphemes of two strokes each. A wrong first stroke and one typed unit give a buffer of 4 units, at position (2, 0), and the attempt finishes. One backspace then removes a single filler unit. | A single placeholder character U+2022. The same input then reaches (1, 0), and one backspace restores the empty buffer. | high (derived from the text, not executed) | MisencodedPlaceholder.AsWrittenWrongStrokeOvershoots | MisencodedPlaceholder.CorrectedWrongStrokeSkipsOne |
