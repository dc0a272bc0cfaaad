/**
 * Which finger and which keyboard label go with a character: the character's InScript key
 * (itself when unmapped), lower-cased for the finger table, upper-cased for display, with fixed
 * two-symbol labels for eight punctuation keys. Both tables are data and are parameters.
 */
module KeyMapping {

  import opened Wrappers
  import Js

  datatype FingerInfo = FingerInfo(finger: Option<string>, displayKey: Option<string>, baseKey: Option<string>, shift: bool)

  /** The InScript table as this lookup sees it: the base key and shift of a character. */
  datatype InscriptEntry = InscriptEntry(key: string, shift: bool)

  /** `fm[k] || fallback`: a missing or empty finger name gives the fallback. */
  function FingerOr(fm: map<string, string>, k: string, fallback: Option<string>): (r: Option<string>)
    ensures k in fm && fm[k] != "" ==> r == Some(fm[k])
    ensures k !in fm || fm[k] == "" ==> r == fallback
  {
    if k in fm && fm[k] != "" then Some(fm[k]) else fallback
  }

  /** The fixed labels of the eight punctuation keys, or the upper-cased key. */
  function DisplayLabel(key: string, base: string): (r: string)
    ensures base !in {"`", "[", "]", ";", "'", ",", ".", "="} ==> r == Js.ToUpper(key)
  {
    if base == "`" then "` ~"
    else if base == "[" then "[ {"
    else if base == "]" then "] }"
    else if base == ";" then "; :"
    else if base == "'" then "' \""
    else if base == "," then ", <"
    else if base == "." then ". >"
    else if base == "=" then "= +"
    else Js.ToUpper(key)
  }

  /** `getFingerInfoForChar`; a missing character is `None`. */
  function GetFingerInfoForChar(fm: map<string, string>, ins: map<string, InscriptEntry>, ch: Option<string>): (r: FingerInfo)
    ensures ch.None? || ch == Some("") ==> r == FingerInfo(None, None, None, false)
    ensures ch == Some(" ") ==>
      && r.displayKey == Some("Space") && r.baseKey == Some(" ") && !r.shift
      && r.finger == FingerOr(fm, " ", Some("Thumbs (space bar)"))
    ensures ch.Some? && ch.value != "" && ch.value != " " ==>
      var key := if ch.value in ins then ins[ch.value].key else ch.value;
      && r.baseKey == Some(Js.ToLower(key))
      && r.shift == (ch.value in ins && ins[ch.value].shift)
      && r.finger == FingerOr(fm, Js.ToLower(key), None)
      && r.displayKey == Some(DisplayLabel(key, Js.ToLower(key)))
  {
    match ch
    case None => FingerInfo(None, None, None, false)
    case Some(c) =>
      if c == "" then FingerInfo(None, None, None, false)
      else if c == " " then FingerInfo(FingerOr(fm, " ", Some("Thumbs (space bar)")), Some("Space"), Some(" "), false)
      else
        var key := if c in ins then ins[c].key else c;
        var shift := if c in ins then ins[c].shift else false;
        var base := Js.ToLower(key);
        FingerInfo(FingerOr(fm, base, None), Some(DisplayLabel(key, base)), Some(base), shift)
  }

  /** An unmapped character is its own key, unshifted. */
  lemma UnmappedCharIsOwnKey(fm: map<string, string>, ins: map<string, InscriptEntry>, c: string)
    requires c != "" && c != " " && c !in ins
    ensures GetFingerInfoForChar(fm, ins, Some(c)).baseKey == Some(Js.ToLower(c))
    ensures !GetFingerInfoForChar(fm, ins, Some(c)).shift
  {
  }

  /** The label of each punctuation key shows its unshifted and shifted symbols. */
  lemma PunctuationLabels(key: string)
    ensures DisplayLabel(key, "`") == "` ~" && DisplayLabel(key, "[") == "[ {"
    ensures DisplayLabel(key, "]") == "] }" && DisplayLabel(key, ";") == "; :"
    ensures DisplayLabel(key, "'") == "' \"" && DisplayLabel(key, ",") == ", <"
    ensures DisplayLabel(key, ".") == ". >" && DisplayLabel(key, "=") == "= +"
  {
  }

  /** A letter key is shown in upper case and looked up in lower case. */
  lemma LetterKeyLabels(fm: map<string, string>, ins: map<string, InscriptEntry>, c: string)
    requires c in ins && |ins[c].key| == 1 && 'a' <= ins[c].key[0] <= 'z' && c != " " && c != ""
    ensures GetFingerInfoForChar(fm, ins, Some(c)).displayKey == Some([Js.UpperChar(ins[c].key[0])])
    ensures GetFingerInfoForChar(fm, ins, Some(c)).baseKey == Some(ins[c].key)
  {
    var key := ins[c].key;
    assert Js.ToLower(key) == key;
    assert Js.ToUpper(key) == [Js.UpperChar(key[0])];
  }
}
