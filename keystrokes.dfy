/**
 * Keystroke resolution: which physical keys, with or without shift, produce a grapheme on the
 * InScript layout. The keystroke table (`malInscriptMap.json`) is data and is a parameter.
 */
module Keystrokes {

  import Js

  /** One physical key press. */
  datatype KeyStroke = KeyStroke(key: string, shift: bool)

  /** A table entry: a base stroke and the strokes typed after it (`post`, absent meaning none). */
  datatype CharMapping = CharMapping(key: string, shift: bool, post: seq<KeyStroke>)

  type KeystrokeMap = map<string, CharMapping>

  /** `getKeyStrokesForChar`: an unmapped text needs no strokes, a mapped one its base then post. */
  function KeyStrokesForChar(m: KeystrokeMap, ch: string): (r: seq<KeyStroke>)
    ensures |r| > 0 <==> ch in m
    ensures ch in m ==> |r| == 1 + |m[ch].post|
    ensures ch in m ==> r[0] == KeyStroke(m[ch].key, m[ch].shift) && r[1..] == m[ch].post
  {
    if ch !in m then []
    else [KeyStroke(m[ch].key, m[ch].shift)] + m[ch].post
  }

  /** The fallback path: the strokes of each code point, concatenated in order. */
  function CodePointStrokes(m: KeystrokeMap, cps: string): seq<KeyStroke>
  {
    if cps == [] then [] else KeyStrokesForChar(m, [cps[0]]) + CodePointStrokes(m, cps[1..])
  }

  /** What `getKeyStrokesForGrapheme` returns: a direct hit if any, else the per-code-point strokes. */
  function GraphemeStrokes(m: KeystrokeMap, grapheme: string): seq<KeyStroke>
  {
    if grapheme in m then KeyStrokesForChar(m, grapheme) else CodePointStrokes(m, grapheme)
  }

  /** The strokes of a concatenation are the concatenation of the strokes. */
  lemma {:induction false} CodePointStrokesAppend(m: KeystrokeMap, a: string, b: string)
    ensures CodePointStrokes(m, a + b) == CodePointStrokes(m, a) + CodePointStrokes(m, b)
    decreases |a|
  {
    if a != [] {
      assert (a + b)[0] == a[0];
      assert (a + b)[1..] == a[1..] + b;
      CodePointStrokesAppend(m, a[1..], b);
    } else {
      assert a + b == b;
    }
  }

  /** The fallback yields nothing exactly when no code point is mapped. */
  lemma {:induction false} CodePointStrokesEmpty(m: KeystrokeMap, cps: string)
    ensures CodePointStrokes(m, cps) == [] <==> forall i | 0 <= i < |cps| :: [cps[i]] !in m
    decreases |cps|
  {
    if cps != [] {
      CodePointStrokesEmpty(m, cps[1..]);
      assert forall i | 1 <= i < |cps| :: cps[i] == cps[1..][i - 1];
    }
  }

  /** A grapheme resolves to no strokes iff neither it nor any of its code points is mapped. */
  lemma GraphemeStrokesEmpty(m: KeystrokeMap, grapheme: string)
    ensures GraphemeStrokes(m, grapheme) == [] <==>
      grapheme !in m && forall i | 0 <= i < |grapheme| :: [grapheme[i]] !in m
  {
    CodePointStrokesEmpty(m, grapheme);
  }

  /** `getKeyStrokesForGrapheme`: the direct lookup, else a loop over the code points. */
  method KeyStrokesForGrapheme(m: KeystrokeMap, grapheme: string) returns (result: seq<KeyStroke>)
    ensures result == GraphemeStrokes(m, grapheme)
    ensures grapheme in m ==> result == KeyStrokesForChar(m, grapheme)
    ensures grapheme !in m ==> result == CodePointStrokes(m, grapheme)
  {
    var direct := KeyStrokesForChar(m, grapheme);
    if |direct| > 0 {
      return direct;
    }
    result := [];
    for i := 0 to |grapheme|
      invariant result == CodePointStrokes(m, grapheme[..i])
    {
      var strokes := KeyStrokesForChar(m, [grapheme[i]]);
      CodePointStrokesAppend(m, grapheme[..i], [grapheme[i]]);
      assert grapheme[..i + 1] == grapheme[..i] + [grapheme[i]];
      result := result + strokes;
    }
    assert grapheme[..|grapheme|] == grapheme;
  }

  /** The letter keys of `KEY_TO_CODE`: `a`..`z`, each mapped to `"Key"` and its upper case. */
  const LetterKeys: set<string> := set c: char | 'a' <= c <= 'z' :: [c]
  const LetterCodes: map<string, string> := map k | k in LetterKeys :: "Key" + [Js.UpperChar(k[0])]

  /** The digit keys of `KEY_TO_CODE`: `0`..`9`, each mapped to `"Digit"` and itself. */
  const DigitKeys: set<string> := set c: char | '0' <= c <= '9' :: [c]
  const DigitCodes: map<string, string> := map k | k in DigitKeys :: "Digit" + k

  /** The punctuation, space and control keys of `KEY_TO_CODE`. */
  const OtherCodes: map<string, string> :=
    map[
      "-" := "Minus", "=" := "Equal", "`" := "Backquote", "[" := "BracketLeft",
      "]" := "BracketRight", "\\" := "Backslash", ";" := "Semicolon",
      "'" := "Quote", "," := "Comma", "." := "Period", "/" := "Slash", " " := "Space",
      "Enter" := "Enter", "Tab" := "Tab"
    ]

  /** `KEY_TO_CODE`: the `KeyboardEvent.code` of each base key the table uses. */
  const KeyToCode: map<string, string> := LetterCodes + DigitCodes + OtherCodes

  /** Reads a code back to its key; the inverse of `KeyToCode`. */
  function CodeToKey(code: string): string {
    if |code| == 4 && code[0] == 'K' && code[1] == 'e' && code[2] == 'y' then [Js.LowerChar(code[3])]
    else if |code| == 6 && code[0] == 'D' && code[1] == 'i' && code[2] == 'g' && code[3] == 'i' && code[4] == 't' then [code[5]]
    else match code
      case "Minus" => "-"
      case "Equal" => "="
      case "Backquote" => "`"
      case "BracketLeft" => "["
      case "BracketRight" => "]"
      case "Backslash" => "\\"
      case "Semicolon" => ";"
      case "Quote" => "'"
      case "Comma" => ","
      case "Period" => "."
      case "Slash" => "/"
      case "Space" => " "
      case _ => code
  }

  /** The letter keys are `a`..`z`, each mapped to `"Key"` and its upper case. */
  lemma LetterCodesShape()
    ensures forall k | k in LetterCodes :: |k| == 1 && 'a' <= k[0] <= 'z' && LetterCodes[k] == "Key" + [Js.UpperChar(k[0])]
  {
    forall k | k in LetterCodes
      ensures |k| == 1 && 'a' <= k[0] <= 'z' && LetterCodes[k] == "Key" + [Js.UpperChar(k[0])]
    {
      var c: char :| 'a' <= c <= 'z' && k == [c];
    }
  }

  /** The digit keys are `0`..`9`, each mapped to `"Digit"` and itself. */
  lemma DigitCodesShape()
    ensures forall k | k in DigitCodes :: |k| == 1 && '0' <= k[0] <= '9' && DigitCodes[k] == "Digit" + k
  {
    forall k | k in DigitCodes
      ensures |k| == 1 && '0' <= k[0] <= '9' && DigitCodes[k] == "Digit" + k
    {
      var c: char :| '0' <= c <= '9' && k == [c];
    }
  }

  /** Every letter key is in the whole table, with its `"Key"` code. */
  lemma LetterKeyCode(c: char)
    requires 'a' <= c <= 'z'
    ensures [c] in KeyToCode && KeyToCode[[c]] == "Key" + [Js.UpperChar(c)]
  {
    LetterNotElsewhere(c);
    assert [c] in LetterKeys;
  }

  /** A letter key is neither a digit key nor one of the remaining keys. */
  lemma LetterNotElsewhere(c: char)
    requires 'a' <= c <= 'z'
    ensures [c] !in DigitCodes && [c] !in OtherCodes
  {
    DigitKeysNotLetters();
    OtherKeysNotLetters();
  }

  lemma DigitKeysNotLetters()
    ensures forall k | k in DigitCodes :: |k| != 1 || !('a' <= k[0] <= 'z')
  {
    DigitCodesShape();
  }

  lemma OtherKeysNotLetters()
    ensures forall k | k in OtherCodes :: |k| != 1 || !('a' <= k[0] <= 'z')
  {
  }

  /** Each letter key's code reads back to the key. */
  lemma LetterCodesInvert()
    ensures forall k | k in LetterCodes :: CodeToKey(LetterCodes[k]) == k
  {
    forall k | k in LetterCodes
      ensures CodeToKey(LetterCodes[k]) == k
    {
      var c: char :| 'a' <= c <= 'z' && k == [c];
      var code := LetterCodes[k];
      assert |code| == 4 && code[0] == 'K' && code[1] == 'e' && code[2] == 'y' && code[3] == Js.UpperChar(c);
      assert Js.LowerChar(Js.UpperChar(c)) == c;
    }
  }

  /** Each digit key's code reads back to the key. */
  lemma DigitCodesInvert()
    ensures forall k | k in DigitCodes :: CodeToKey(DigitCodes[k]) == k
  {
    forall k | k in DigitCodes
      ensures CodeToKey(DigitCodes[k]) == k
    {
      var c: char :| '0' <= c <= '9' && k == [c];
      var code := DigitCodes[k];
      assert |code| == 6 && code[..5] == "Digit" && code[5] == c;
      assert |code| != 4;
    }
  }

  /** Each remaining key's code reads back to the key. */
  lemma OtherCodesInvert()
    ensures forall k | k in OtherCodes :: CodeToKey(OtherCodes[k]) == k
  {
  }

  /** Every code of the table reads back to its own key. */
  lemma KeyToCodeInverts()
    ensures forall k | k in KeyToCode :: CodeToKey(KeyToCode[k]) == k
  {
    LetterCodesInvert();
    DigitCodesInvert();
    OtherCodesInvert();
    forall k | k in KeyToCode
      ensures CodeToKey(KeyToCode[k]) == k
    {
      if k in OtherCodes {
        assert KeyToCode[k] == OtherCodes[k];
      } else if k in DigitCodes {
        assert KeyToCode[k] == DigitCodes[k];
      } else {
        assert KeyToCode[k] == LetterCodes[k];
      }
    }
  }

  /** No two keys share a code. */
  lemma KeyToCodeInjective()
    ensures forall k | k in KeyToCode :: CodeToKey(KeyToCode[k]) == k
    ensures forall k1, k2 | k1 in KeyToCode && k2 in KeyToCode && KeyToCode[k1] == KeyToCode[k2] :: k1 == k2
  {
    KeyToCodeInverts();
    forall k1, k2 | k1 in KeyToCode && k2 in KeyToCode && KeyToCode[k1] == KeyToCode[k2]
      ensures k1 == k2
    {
      assert CodeToKey(KeyToCode[k1]) == k1 && CodeToKey(KeyToCode[k2]) == k2;
    }
  }
}
