/**
 * The placeholder constant as the source file spells it: the UTF-8 bytes of U+2022 read back as
 * Windows-1252, which gives the three characters U+00E2 U+20AC U+00A2. With that constant the
 * backspace loop compares one character with a three-character string, so it never matches, and
 * filling `k` owed strokes appends 3k units. The rest of the model uses the single character
 * `TypingModel.PLACEHOLDER`, for which the properties in the Reconciliation module hold.
 */
module MisencodedPlaceholder {

  import Js
  import Keystrokes
  import TypingModel
  import Reconciliation

  /** The constant as written. */
  const AS_WRITTEN: string := "\U{00E2}\U{20AC}\U{00A2}"

  /**
   * The backspace loop for a placeholder string `ph`: the trailing units `c` with
   * `c === ph`, which compares the one-character string `c` with `ph`.
   */
  function TrailingRunOf(s: string, ph: string): (r: nat)
    ensures r <= |s|
  {
    if |s| == 0 || [s[|s| - 1]] != ph then 0 else TrailingRunOf(s[..|s| - 1], ph) + 1
  }

  /** A placeholder of more than one character never matches, so the loop counts nothing. */
  lemma {:induction false} LongPlaceholderNeverMatches(s: string, ph: string)
    requires |ph| != 1
    ensures TrailingRunOf(s, ph) == 0
  {
    if |s| > 0 {
      assert |[s[|s| - 1]]| == 1;
    }
  }

  /** The loop for the single-character placeholder is the corrected `Reconciliation.TrailingRun`. */
  lemma {:induction false} SingleCharacterLoop(s: string)
    ensures TrailingRunOf(s, [TypingModel.PLACEHOLDER]) == Reconciliation.TrailingRun(s)
  {
    if |s| > 0 {
      SingleCharacterLoop(s[..|s| - 1]);
    }
  }

  /** The backspace handler for a placeholder string `ph`. */
  function DeleteBackwardOf(s: string, ph: string): (r: string)
    ensures |r| <= |s| && r == s[..|r|]
  {
    if |s| == 0 then s
    else
      var placeholderCount := TrailingRunOf(s, ph);
      var deleteCount := if placeholderCount > 0 then placeholderCount + 1 else 1;
      s[..Js.MaxInt(0, |s| - deleteCount)]
  }

  /** With the constant as written a backspace always removes exactly one unit. */
  lemma AsWrittenBackspaceRemovesOne(s: string)
    requires |s| > 0
    ensures DeleteBackwardOf(s, AS_WRITTEN) == s[..|s| - 1]
  {
    LongPlaceholderNeverMatches(s, AS_WRITTEN);
  }

  /** The input step for a placeholder string `ph`: each owed stroke brings `|ph|` units. */
  function ApplyInputOf(value: string, pending: Reconciliation.StrokeInfo, total: nat, ph: string): (r: string)
    ensures var filled := Reconciliation.StripCR(value) + (if pending.wrong then Js.Repeat(ph, pending.fill) else []);
      |r| == Js.MinInt(|filled|, total) && r == filled[..|r|]
  {
    var filled := Reconciliation.StripCR(value) + (if pending.wrong then Js.Repeat(ph, pending.fill) else []);
    if |filled| > total then filled[..total] else filled
  }

  /** With the single-character placeholder both handlers are the corrected ones. */
  lemma SingleCharacterHandlers(s: string, value: string, pending: Reconciliation.StrokeInfo, total: nat)
    ensures DeleteBackwardOf(s, [TypingModel.PLACEHOLDER]) == Reconciliation.DeleteBackward(s)
    ensures ApplyInputOf(value, pending, total, [TypingModel.PLACEHOLDER]) == Reconciliation.ApplyInput(value, pending, total)
  {
    SingleCharacterLoop(s);
  }

  /** Two graphemes of two strokes each; the strokes use table keys, so they match by physical key. */
  const TwoByTwo: seq<TypingModel.GraphemeInfo> :=
    [ TypingModel.GraphemeInfo("\U{0D15}\U{0D4D}", [Keystrokes.KeyStroke("k", false), Keystrokes.KeyStroke("d", false)]),
      TypingModel.GraphemeInfo("\U{0D15}\U{0D4D}", [Keystrokes.KeyStroke("k", false), Keystrokes.KeyStroke("d", false)]) ]

  /** Pressing the physical key `j` where `k` is expected. */
  const WrongKey: Reconciliation.KeyEvent := Reconciliation.KeyEvent("\U{0D30}", "KeyJ", false, false, false, false)

  lemma TwoByTwoFacts()
    ensures TypingModel.TotalStrokes(TwoByTwo) == 4
    ensures TypingModel.Progress(TwoByTwo, 0) == TypingModel.TypingProgress(0, 0)
    ensures TypingModel.PrefixStrokes(TwoByTwo, 1) == 2
  {
    assert TwoByTwo[..0] == [];
    assert TwoByTwo[..1] == [TwoByTwo[0]];
    assert TwoByTwo[1..][1..] == [];
    TypingModel.ProgressOfPosition(TwoByTwo, 0, 0);
  }

  /** The wrong first stroke owes one placeholder. */
  lemma WrongFirstStrokeOwesOne()
    ensures Reconciliation.StrokeOutcome(TwoByTwo, 0, WrongKey) == Reconciliation.StrokeInfo(true, 1)
  {
    TwoByTwoFacts();
    WrongKeyMisses();
  }

  /** The physical key `j` does not type the stroke `k`. */
  lemma WrongKeyMisses()
    ensures !Reconciliation.Matches(Keystrokes.KeyStroke("k", false), WrongKey)
  {
    Keystrokes.LetterKeyCode('k');
    assert Js.UpperChar('k') == 'K';
    assert Keystrokes.KeyToCode["k"][3] == 'K';
  }

  /**
   * As written, a wrong first stroke on the first of two 2-stroke graphemes, followed by the
   * typed unit, fills the whole buffer: the tracker jumps to the end instead of to the second
   * grapheme, and the attempt would finish.
   */
  lemma AsWrittenWrongStrokeOvershoots()
    ensures |ApplyInputOf("\U{0D30}", Reconciliation.StrokeOutcome(TwoByTwo, 0, WrongKey), 4, AS_WRITTEN)| == 4
    ensures TypingModel.Progress(TwoByTwo, 4) == TypingModel.TypingProgress(2, 0)
  {
    WrongFirstStrokeOwesOne();
    AsWrittenFillIsFour();
    TwoByTwoFacts();
    TypingModel.ProgressTerminal(TwoByTwo, 4);
  }

  lemma AsWrittenFillIsFour()
    ensures |ApplyInputOf("\U{0D30}", Reconciliation.StrokeInfo(true, 1), 4, AS_WRITTEN)| == 4
  {
    assert Reconciliation.StripCR("\U{0D30}") == "\U{0D30}";
    assert |Js.Repeat(AS_WRITTEN, 1)| == 3;
  }

  /** With the single-character placeholder the same strokes land on the second grapheme. */
  lemma CorrectedWrongStrokeSkipsOne()
    ensures |Reconciliation.ApplyInput("\U{0D30}", Reconciliation.StrokeOutcome(TwoByTwo, 0, WrongKey), 4)| == 2
    ensures TypingModel.Progress(TwoByTwo, 2) == TypingModel.TypingProgress(1, 0)
  {
    WrongFirstStrokeOwesOne();
    CorrectedFillIsTwo();
    TwoByTwoFacts();
    TypingModel.ProgressOfPosition(TwoByTwo, 1, 0);
  }

  lemma CorrectedFillIsTwo()
    ensures |Reconciliation.ApplyInput("\U{0D30}", Reconciliation.StrokeInfo(true, 1), 4)| == 2
  {
    assert Reconciliation.StripCR("\U{0D30}") == "\U{0D30}";
    assert |Js.Repeat([TypingModel.PLACEHOLDER], 1)| == 1;
  }

  /**
   * As written, one backspace after that stroke removes one unit of the filler and leaves the
   * typed unit and two stray filler characters; the single-character placeholder empties the buffer.
   */
  lemma AsWrittenBackspaceLeavesFragment()
    ensures DeleteBackwardOf("\U{0D30}" + AS_WRITTEN, AS_WRITTEN) == "\U{0D30}\U{00E2}\U{20AC}"
    ensures Reconciliation.DeleteBackward("\U{0D30}" + [TypingModel.PLACEHOLDER]) == ""
  {
    AsWrittenBackspaceRemovesOne("\U{0D30}" + AS_WRITTEN);
    Reconciliation.BackspaceUndoesStroke("", '\U{0D30}', Reconciliation.StrokeInfo(true, 1), 4);
    assert Reconciliation.StripCR("\U{0D30}") == "\U{0D30}";
    assert Js.Repeat([TypingModel.PLACEHOLDER], 1) == [TypingModel.PLACEHOLDER];
    assert "" + ['\U{0D30}'] == "\U{0D30}";
    assert Reconciliation.ApplyInput("\U{0D30}", Reconciliation.StrokeInfo(true, 1), 4)
      == "\U{0D30}" + [TypingModel.PLACEHOLDER];
  }
}
