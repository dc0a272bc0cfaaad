/**
 * The normaliser and segmentation front end: Unicode NFC followed by six global rewrites.
 * Each rewrite collapses a consonant + virama + zero-width joiner into one chillu code point.
 * NFC and the grapheme segmenter (`Intl.Segmenter`) are external and are taken as parameters.
 */
module Malayalam {

  const VIRAMA: char := '\U{0D4D}'
  const ZWJ: char := '\U{200D}'

  /** A substitution `base + VIRAMA + ZWJ ~> chillu`. */
  datatype Rule = Rule(base: char, chillu: char)

  /** The six rewrites, in the order the source applies them. */
  const ChilluRules: seq<Rule> := [
    Rule('\U{0D23}', '\U{0D7A}'),
    Rule('\U{0D28}', '\U{0D7B}'),
    Rule('\U{0D30}', '\U{0D7C}'),
    Rule('\U{0D32}', '\U{0D7D}'),
    Rule('\U{0D33}', '\U{0D7E}'),
    Rule('\U{0D15}', '\U{0D7F}')
  ]

  /** True when `s` begins with `base + VIRAMA + ZWJ`. */
  predicate StartsTriple(s: string, base: char) {
    |s| >= 3 && s[0] == base && s[1] == VIRAMA && s[2] == ZWJ
  }

  /** No occurrence of `base + VIRAMA + ZWJ` anywhere in `s`. */
  predicate NoTriple(s: string, base: char)
    decreases |s|
  {
    |s| == 0 || (!StartsTriple(s, base) && NoTriple(s[1..], base))
  }

  /** The number of occurrences a left-to-right global replace finds. */
  function TripleCount(s: string, base: char): nat
    decreases |s|
  {
    if |s| == 0 then 0
    else if StartsTriple(s, base) then 1 + TripleCount(s[3..], base)
    else TripleCount(s[1..], base)
  }

  /** `s.replace(/base്‍/g, chillu)`: a left-to-right scan replacing every occurrence. */
  function ReplaceTriple(s: string, base: char, chillu: char): (r: string)
    ensures |r| == |s| - 2 * TripleCount(s, base)
    decreases |s|
  {
    if |s| == 0 then []
    else if StartsTriple(s, base) then [chillu] + ReplaceTriple(s[3..], base, chillu)
    else [s[0]] + ReplaceTriple(s[1..], base, chillu)
  }

  /** The chain of `replace` calls, in order. */
  function ApplyRules(s: string, rules: seq<Rule>): string
    decreases |rules|
  {
    if rules == [] then s else ApplyRules(ReplaceTriple(s, rules[0].base, rules[0].chillu), rules[1..])
  }

  /** The rewrite stage of `normalizeMalayalam`, applied to the NFC form. */
  function RewriteChillu(s: string): string {
    ApplyRules(s, ChilluRules)
  }

  /** `normalizeMalayalam(str)`: empty stays empty, otherwise NFC then the six rewrites. */
  function NormalizeMalayalam(nfc: string -> string, str: string): (r: string)
    ensures str == [] ==> r == []
  {
    if str == [] then [] else RewriteChillu(nfc(str))
  }

  /** `getGraphemes(str)`: the segmenter applied to the normalised text. */
  function GetGraphemes(nfc: string -> string, segment: string -> seq<string>, str: string): seq<string> {
    segment(NormalizeMalayalam(nfc, str))
  }

  /** `isMalayalamChar(ch)`: the first code point is in the Malayalam block U+0D00..U+0D7F. */
  function IsMalayalamChar(ch: string): (r: bool)
    ensures r <==> |ch| > 0 && 0x0D00 <= ch[0] as int <= 0x0D7F
  {
    if |ch| == 0 then false
    else
      var code := ch[0] as int;
      if code == 0 then false else 0x0D00 <= code && code <= 0x0D7F
  }

  // ---------------------------------------------------------------------------
  // Properties of the rewrite stage

  /** What makes the six rewrites independent of one another. */
  predicate RulesWellFormed(rules: seq<Rule>) {
    forall i, j | 0 <= i < |rules| && 0 <= j < |rules| ::
      && rules[i].base != VIRAMA
      && rules[i].chillu != VIRAMA && rules[i].chillu != ZWJ
      && rules[i].chillu != rules[j].base
  }

  /** The chillu code points are none of the six consonants, the virama or ZWJ. */
  lemma ChilluRulesWellFormed()
    ensures RulesWellFormed(ChilluRules)
    ensures forall r | r in ChilluRules :: 0x0D7A <= r.chillu as int <= 0x0D7F
  {
  }

  lemma {:induction false} NoTripleAfterThree(s: string, base: char)
    requires |s| >= 3 && NoTriple(s, base)
    ensures NoTriple(s[3..], base)
  {
    assert NoTriple(s[1..], base);
    assert s[1..][1..] == s[2..];
    assert NoTriple(s[2..], base);
    assert s[2..][1..] == s[3..];
  }

  /** The first character a replacement produces. */
  lemma {:induction false} ReplaceHead(s: string, base: char, chillu: char)
    requires |s| > 0
    ensures |ReplaceTriple(s, base, chillu)| > 0
    ensures ReplaceTriple(s, base, chillu)[0] == if StartsTriple(s, base) then chillu else s[0]
  {
  }

  /**
   * Replacing one rule's triple never creates a triple for any base, and it removes every
   * triple of the rule's own base.
   */
  lemma {:induction false} ReplaceLeavesNoTriple(s: string, b: char, chillu: char, base: char)
    requires b != VIRAMA && chillu != base && chillu != VIRAMA && chillu != ZWJ
    requires base == b || NoTriple(s, base)
    ensures NoTriple(ReplaceTriple(s, b, chillu), base)
    decreases |s|
  {
    var r := ReplaceTriple(s, b, chillu);
    if |s| == 0 {
    } else if StartsTriple(s, b) {
      if base != b { NoTripleAfterThree(s, base); }
      ReplaceLeavesNoTriple(s[3..], b, chillu, base);
      assert r == [chillu] + ReplaceTriple(s[3..], b, chillu);
      assert r[1..] == ReplaceTriple(s[3..], b, chillu);
    } else {
      ReplaceLeavesNoTriple(s[1..], b, chillu, base);
      var t := ReplaceTriple(s[1..], b, chillu);
      assert r == [s[0]] + t;
      assert r[1..] == t;
      if s[0] == base && |t| >= 2 {
        ReplaceHead(s[1..], b, chillu);
        if t[0] == VIRAMA {
          // s[1] is the virama, which no rule consonant equals, so it was copied.
          assert !StartsTriple(s[1..], b) && s[1] == VIRAMA;
          assert t == [s[1]] + ReplaceTriple(s[2..], b, chillu);
          ReplaceHead(s[2..], b, chillu);
          assert t[1] == ReplaceTriple(s[2..], b, chillu)[0];
          assert t[1] != ZWJ;
        }
      }
    }
  }

  /** A string with no triple of `base` is left unchanged by that replacement. */
  lemma {:induction false} ReplaceIdentity(s: string, base: char, chillu: char)
    requires NoTriple(s, base)
    ensures ReplaceTriple(s, base, chillu) == s
    decreases |s|
  {
    if |s| > 0 { ReplaceIdentity(s[1..], base, chillu); }
  }

  /** Rewriting leaves no triple of any rule's base, and creates none for other bases. */
  lemma {:induction false} ApplyRulesLeavesNoTriple(s: string, rules: seq<Rule>, all: seq<Rule>, base: char)
    requires RulesWellFormed(all)
    requires forall r | r in rules :: r in all
    requires exists r | r in all :: r.base == base
    requires (exists r | r in rules :: r.base == base) || NoTriple(s, base)
    ensures NoTriple(ApplyRules(s, rules), base)
    decreases |rules|
  {
    if rules != [] {
      var r0 := rules[0];
      assert r0 in all;
      var t := ReplaceTriple(s, r0.base, r0.chillu);
      var i :| 0 <= i < |all| && all[i] == r0;
      var j :| 0 <= j < |all| && all[j].base == base;
      assert r0.chillu != all[j].base;
      if r0.base == base {
        ReplaceLeavesNoTriple(s, r0.base, r0.chillu, base);
      } else if NoTriple(s, base) {
        ReplaceLeavesNoTriple(s, r0.base, r0.chillu, base);
      } else {
        var r :| r in rules && r.base == base;
        assert r in rules[1..];
      }
      if !NoTriple(t, base) {
        var r :| r in rules && r.base == base;
        assert r != r0;
        assert r in rules[1..];
      }
      forall r | r in rules[1..] ensures r in all { assert r in rules; }
      ApplyRulesLeavesNoTriple(t, rules[1..], all, base);
    }
  }

  /** A string free of every rule's triple is a fixed point of the rewrite chain. */
  lemma {:induction false} ApplyRulesIdentity(s: string, rules: seq<Rule>)
    requires forall r | r in rules :: NoTriple(s, r.base)
    ensures ApplyRules(s, rules) == s
    decreases |rules|
  {
    if rules != [] {
      ReplaceIdentity(s, rules[0].base, rules[0].chillu);
      assert forall r | r in rules[1..] :: r in rules;
      ApplyRulesIdentity(s, rules[1..]);
    }
  }

  /** The chain never lengthens the text. */
  lemma {:induction false} ApplyRulesShortens(s: string, rules: seq<Rule>)
    ensures |ApplyRules(s, rules)| <= |s|
    decreases |rules|
  {
    if rules != [] { ApplyRulesShortens(ReplaceTriple(s, rules[0].base, rules[0].chillu), rules[1..]); }
  }

  /** After the rewrite stage, no consonant + virama + ZWJ of the six remains. */
  lemma RewriteLeavesNoTriple(s: string)
    ensures forall r | r in ChilluRules :: NoTriple(RewriteChillu(s), r.base)
  {
    ChilluRulesWellFormed();
    forall r | r in ChilluRules ensures NoTriple(RewriteChillu(s), r.base) {
      ApplyRulesLeavesNoTriple(s, ChilluRules, ChilluRules, r.base);
    }
  }

  /** The rewrite stage is idempotent. */
  lemma RewriteIdempotent(s: string)
    ensures RewriteChillu(RewriteChillu(s)) == RewriteChillu(s)
  {
    RewriteLeavesNoTriple(s);
    ApplyRulesIdentity(RewriteChillu(s), ChilluRules);
  }

  /** The rewrite stage never lengthens the text (each replace shrinks it by two per match). */
  lemma RewriteShortens(s: string)
    ensures |RewriteChillu(s)| <= |s|
  {
    ApplyRulesShortens(s, ChilluRules);
  }

  /**
   * Normalisation is idempotent provided NFC leaves the normalised text alone.
   * NFC is external here, so that is an assumption, and it holds of NFC itself.
   */
  lemma NormalizeIdempotent(nfc: string -> string, s: string)
    requires nfc(NormalizeMalayalam(nfc, s)) == NormalizeMalayalam(nfc, s)
    ensures NormalizeMalayalam(nfc, NormalizeMalayalam(nfc, s)) == NormalizeMalayalam(nfc, s)
  {
    if s != [] && NormalizeMalayalam(nfc, s) != [] {
      RewriteIdempotent(nfc(s));
    }
  }
}
