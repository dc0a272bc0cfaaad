/**
 * The progress tracker: a text is a sequence of graphemes, each needing a fixed list of key
 * strokes, and a count of typed units is read back as the grapheme being typed and how many
 * of its strokes are already done.
 */
module TypingModel {

  import Malayalam
  import Keystrokes

  /** The filler that stands in for the strokes skipped by a wrong key. */
  const PLACEHOLDER: char := '\U{2022}'

  /** A grapheme of the target text and the strokes that type it. */
  datatype GraphemeInfo = GraphemeInfo(grapheme: string, keystrokes: seq<Keystrokes.KeyStroke>)

  /** Where the typist is: the grapheme index and the stroke index inside it. */
  datatype TypingProgress = TypingProgress(charIndex: nat, strokeIndex: nat)

  /** `buildGraphemeInfos`: one record per segment of the normalised text, in order. */
  function BuildGraphemeInfos(nfc: string -> string, segment: string -> seq<string>,
                              m: Keystrokes.KeystrokeMap, text: string): (r: seq<GraphemeInfo>)
    ensures |r| == |Malayalam.GetGraphemes(nfc, segment, text)|
    ensures forall i | 0 <= i < |r| ::
      && r[i].grapheme == Malayalam.GetGraphemes(nfc, segment, text)[i]
      && r[i].keystrokes == Keystrokes.GraphemeStrokes(m, r[i].grapheme)
  {
    var gs := Malayalam.GetGraphemes(nfc, segment, text);
    seq(|gs|, i requires 0 <= i < |gs| => GraphemeInfo(gs[i], Keystrokes.GraphemeStrokes(m, gs[i])))
  }

  /** The units a grapheme takes in the buffer: its stroke count, or 1 when it has no strokes. */
  function StrokeCount(g: GraphemeInfo): (r: nat)
    ensures r >= 1
    ensures |g.keystrokes| > 0 ==> r == |g.keystrokes|
    ensures |g.keystrokes| == 0 ==> r == 1
  {
    if |g.keystrokes| == 0 then 1 else |g.keystrokes|
  }

  /** The stroke total of a text: the sum of its graphemes' stroke counts. */
  function TotalStrokes(gs: seq<GraphemeInfo>): (r: nat)
    ensures r >= |gs|
  {
    if gs == [] then 0 else StrokeCount(gs[0]) + TotalStrokes(gs[1..])
  }

  /** The units taken by the first `c` graphemes. */
  function PrefixStrokes(gs: seq<GraphemeInfo>, c: nat): nat
    requires c <= |gs|
  {
    TotalStrokes(gs[..c])
  }

  /** Progress shifted right by `c` graphemes. */
  function Offset(p: TypingProgress, c: nat): TypingProgress {
    TypingProgress(p.charIndex + c, p.strokeIndex)
  }

  /**
   * The reference reading of `n` typed units: skip whole graphemes while the units cover
   * them, stop inside the first one that is not covered, or at the end.
   */
  function Progress(gs: seq<GraphemeInfo>, n: nat): (r: TypingProgress)
    ensures r.charIndex <= |gs|
    ensures r.charIndex == |gs| ==> r.strokeIndex == 0
    ensures r.charIndex < |gs| ==> r.strokeIndex < StrokeCount(gs[r.charIndex])
  {
    if gs == [] then TypingProgress(0, 0)
    else if n < StrokeCount(gs[0]) then TypingProgress(0, n)
    else Offset(Progress(gs[1..], n - StrokeCount(gs[0])), 1)
  }

  /** `getTypingProgress`: the greedy walk over the graphemes. */
  method GetTypingProgress(gs: seq<GraphemeInfo>, totalTypedUnits: nat) returns (p: TypingProgress)
    ensures p == Progress(gs, totalTypedUnits)
    ensures p.charIndex < |gs| ==> PrefixStrokes(gs, p.charIndex) + p.strokeIndex == totalTypedUnits
    ensures p.charIndex == |gs| <==> totalTypedUnits >= TotalStrokes(gs)
  {
    var remaining: nat := totalTypedUnits;
    var charIndex := 0;
    assert gs[0..] == gs;
    while charIndex < |gs|
      invariant 0 <= charIndex <= |gs|
      invariant remaining + PrefixStrokes(gs, charIndex) == totalTypedUnits
      invariant Progress(gs, totalTypedUnits) == Offset(Progress(gs[charIndex..], remaining), charIndex)
      decreases |gs| - charIndex
    {
      var strokeCount := if |gs[charIndex].keystrokes| == 0 then 1 else |gs[charIndex].keystrokes|;
      if remaining < strokeCount {
        p := TypingProgress(charIndex, remaining);
        ProgressAccounting(gs, totalTypedUnits);
        return;
      }
      PrefixStep(gs, charIndex);
      assert gs[charIndex..][1..] == gs[charIndex + 1..];
      remaining := remaining - strokeCount;
      charIndex := charIndex + 1;
    }
    p := TypingProgress(|gs|, 0);
    ProgressAccounting(gs, totalTypedUnits);
  }

  // ---------------------------------------------------------------------------
  // Prefix sums

  lemma {:induction false} TotalStrokesAppend(a: seq<GraphemeInfo>, b: seq<GraphemeInfo>)
    ensures TotalStrokes(a + b) == TotalStrokes(a) + TotalStrokes(b)
    decreases |a|
  {
    if a == [] {
      assert a + b == b;
    } else {
      assert (a + b)[1..] == a[1..] + b;
      TotalStrokesAppend(a[1..], b);
    }
  }

  /** The prefix of all graphemes is the total. */
  lemma PrefixWhole(gs: seq<GraphemeInfo>)
    ensures PrefixStrokes(gs, |gs|) == TotalStrokes(gs)
  {
    assert gs[..|gs|] == gs;
  }

  /** One more grapheme adds its stroke count to the prefix sum. */
  lemma PrefixStep(gs: seq<GraphemeInfo>, c: nat)
    requires c < |gs|
    ensures PrefixStrokes(gs, c + 1) == PrefixStrokes(gs, c) + StrokeCount(gs[c])
  {
    assert gs[..c + 1] == gs[..c] + [gs[c]];
    TotalStrokesAppend(gs[..c], [gs[c]]);
  }

  /** The prefix of `c + 1` graphemes is the first one's count plus the rest's prefix of `c`. */
  lemma PrefixTail(gs: seq<GraphemeInfo>, c: nat)
    requires 0 < |gs| && c < |gs|
    ensures PrefixStrokes(gs, c + 1) == StrokeCount(gs[0]) + PrefixStrokes(gs[1..], c)
  {
    assert gs[..c + 1][1..] == gs[1..][..c];
  }

  /** Prefix sums grow strictly with the number of graphemes. */
  lemma {:induction false} PrefixStrictlyMonotonic(gs: seq<GraphemeInfo>, c1: nat, c2: nat)
    requires c1 < c2 <= |gs|
    ensures PrefixStrokes(gs, c1) + StrokeCount(gs[c1]) <= PrefixStrokes(gs, c2)
    decreases c2 - c1
  {
    PrefixStep(gs, c1);
    if c1 + 1 < c2 {
      PrefixStrictlyMonotonic(gs, c1 + 1, c2);
    }
  }

  // ---------------------------------------------------------------------------
  // What the reading of typed units means

  /**
   * The accounting invariant: inside the text, the whole graphemes before the position plus the
   * strokes inside it are exactly the typed units; at the end, the units cover the whole text.
   */
  lemma {:induction false} ProgressAccounting(gs: seq<GraphemeInfo>, n: nat)
    ensures Progress(gs, n).charIndex < |gs| ==>
      PrefixStrokes(gs, Progress(gs, n).charIndex) + Progress(gs, n).strokeIndex == n
    ensures Progress(gs, n).charIndex == |gs| <==> n >= TotalStrokes(gs)
    decreases |gs|
  {
    if gs != [] {
      var k := StrokeCount(gs[0]);
      if n < k {
        assert gs[..0] == [];
      } else {
        ProgressAccounting(gs[1..], n - k);
        var q := Progress(gs[1..], n - k);
        if q.charIndex < |gs[1..]| {
          PrefixTail(gs, q.charIndex);
        }
      }
    }
  }

  /** Units at or beyond the total put the typist at the end; an empty text is always at (0, 0). */
  lemma {:induction false} ProgressTerminal(gs: seq<GraphemeInfo>, n: nat)
    requires n >= TotalStrokes(gs)
    ensures Progress(gs, n) == TypingProgress(|gs|, 0)
    decreases |gs|
  {
    if gs != [] {
      ProgressTerminal(gs[1..], n - StrokeCount(gs[0]));
    }
  }

  /**
   * The inverse of the reading: the units up to stroke `s` of grapheme `c` read back as
   * `(c, s)`. With `s == 0`, the prefix sum of the first `c` graphemes reads as `(c, 0)`.
   */
  lemma {:induction false} ProgressOfPosition(gs: seq<GraphemeInfo>, c: nat, s: nat)
    requires c < |gs| && s < StrokeCount(gs[c])
    ensures Progress(gs, PrefixStrokes(gs, c) + s) == TypingProgress(c, s)
    decreases c
  {
    if c == 0 {
      assert gs[..0] == [];
    } else {
      PrefixTail(gs, c - 1);
      assert gs[1..][c - 1] == gs[c];
      ProgressOfPosition(gs[1..], c - 1, s);
    }
  }

  /**
   * Completing the strokes left in the current grapheme moves the typist to the start of the
   * next grapheme, or to the end, and never past the total.
   */
  lemma ProgressNextGrapheme(gs: seq<GraphemeInfo>, n: nat, rest: nat)
    requires Progress(gs, n).charIndex < |gs|
    requires Progress(gs, n).strokeIndex + 1 + rest == StrokeCount(gs[Progress(gs, n).charIndex])
    ensures n + 1 + rest <= TotalStrokes(gs)
    ensures Progress(gs, n + 1 + rest) == TypingProgress(Progress(gs, n).charIndex + 1, 0)
  {
    var c := Progress(gs, n).charIndex;
    ProgressAccounting(gs, n);
    PrefixStep(gs, c);
    var m := n + 1 + rest;
    assert m == PrefixStrokes(gs, c + 1);
    PrefixWhole(gs);
    if c + 1 < |gs| {
      PrefixStrictlyMonotonic(gs, c + 1, |gs|);
      ProgressOfPosition(gs, c + 1, 0);
      assert PrefixStrokes(gs, c + 1) + 0 == m;
    } else {
      assert c + 1 == |gs|;
      ProgressTerminal(gs, m);
    }
  }

  /** Lexicographic order on positions. */
  predicate AtOrBefore(p: TypingProgress, q: TypingProgress) {
    p.charIndex < q.charIndex || (p.charIndex == q.charIndex && p.strokeIndex <= q.strokeIndex)
  }

  /** More typed units never move the position back. */
  lemma {:induction false} ProgressMonotonic(gs: seq<GraphemeInfo>, n1: nat, n2: nat)
    requires n1 <= n2
    ensures AtOrBefore(Progress(gs, n1), Progress(gs, n2))
    decreases |gs|
  {
    if gs != [] {
      var k := StrokeCount(gs[0]);
      if n1 >= k {
        ProgressMonotonic(gs[1..], n1 - k, n2 - k);
      }
    }
  }

  /** The position is a function of the units: two counts with the same position agree inside the text. */
  lemma ProgressInjectiveInside(gs: seq<GraphemeInfo>, n1: nat, n2: nat)
    requires Progress(gs, n1) == Progress(gs, n2) && Progress(gs, n1).charIndex < |gs|
    ensures n1 == n2
  {
    ProgressAccounting(gs, n1);
    ProgressAccounting(gs, n2);
  }
}
