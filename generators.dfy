/**
 * Practice-text generators. `Math.random()` is an input stream `rand`: draw `i` is `rand(i)`,
 * a value in [0, 1). The letters generator draws once per pick; the common-words generator
 * draws once per word and then once per sentence, numbered after the word draws.
 */
module Generators {

  import Js

  /** Every draw lies in [0, 1), as `Math.random()` promises. */
  ghost predicate ValidRandom(rand: nat -> real) {
    forall i: nat :: 0.0 <= rand(i) < 1.0
  }

  /** `Math.floor(r * n)`: an index into a sequence of length `n`. */
  function RandIndex(r: real, n: nat): (k: nat)
    requires 0.0 <= r < 1.0 && n > 0
    ensures k < n
  {
    assert r * (n as real) < n as real;
    (r * (n as real)).Floor
  }

  // ---------------------------------------------------------------------------
  // Letters

  /** Whether a space follows pick `i` of a string of `length` picks. */
  predicate SpaceAfter(length: Js.JsNumber, i: nat) {
    (i + 1) % 4 == 0 && !(length.Finite? && i as real == length.value - 1.0)
  }

  /** The letter picked by draw `i`. */
  function Pick(letters: seq<string>, rand: nat -> real, i: nat): (r: string)
    requires ValidRandom(rand) && |letters| > 0
    ensures r in letters
  {
    letters[RandIndex(rand(i), |letters|)]
  }

  /** Pick `i` and the space that may follow it. */
  function Piece(letters: seq<string>, length: Js.JsNumber, rand: nat -> real, i: nat): string
    requires ValidRandom(rand) && |letters| > 0
  {
    Pick(letters, rand, i) + (if SpaceAfter(length, i) then " " else "")
  }

  /** The first `k` pieces, concatenated. */
  function LetterPieces(letters: seq<string>, length: Js.JsNumber, rand: nat -> real, k: nat): string
    requires ValidRandom(rand) && |letters| > 0
  {
    if k == 0 then "" else LetterPieces(letters, length, rand, k - 1) + Piece(letters, length, rand, k - 1)
  }

  /** What `buildLetterString` returns: nothing for an empty selection, else one piece per loop turn. */
  function LetterString(letters: seq<string>, length: Js.JsNumber, rand: nat -> real): (r: string)
    requires ValidRandom(rand) && length != Js.PosInf
    ensures |letters| == 0 ==> r == ""
  {
    if |letters| == 0 then "" else LetterPieces(letters, length, rand, Js.LoopCount(length))
  }

  /** `buildLetterString`. */
  method BuildLetterString(selectedLetters: seq<string>, length: Js.JsNumber, rand: nat -> real)
    returns (result: string)
    requires ValidRandom(rand) && length != Js.PosInf
    ensures result == LetterString(selectedLetters, length, rand)
  {
    if |selectedLetters| == 0 {
      return "";
    }
    result := "";
    var i: nat := 0;
    while Js.LessThan(i, length)
      invariant i <= Js.LoopCount(length)
      invariant result == LetterPieces(selectedLetters, length, rand, i)
      decreases Js.LoopCount(length) - i
    {
      var idx := RandIndex(rand(i), |selectedLetters|);
      result := result + selectedLetters[idx];
      if (i + 1) % 4 == 0 && !(length.Finite? && i as real == length.value - 1.0) {
        result := result + " ";
      }
      i := i + 1;
    }
  }

  /** The number of pieces below `k` that carry a space. */
  function SpaceCount(length: Js.JsNumber, k: nat): nat {
    if k == 0 then 0 else SpaceCount(length, k - 1) + (if SpaceAfter(length, k - 1) then 1 else 0)
  }

  /** Below the last pick of a whole-number length, every fourth pick carries a space. */
  lemma {:induction false} SpaceCountBelowLast(n: nat, k: nat)
    requires k < n
    ensures SpaceCount(Js.Finite(n as real), k) == k / 4
  {
    if k > 0 {
      SpaceCountBelowLast(n, k - 1);
    }
  }

  /**
   * A whole-number length `n` gives `n` picks, each from the selection, a space after every
   * fourth pick but the last (so `(n - 1) / 4` of them), and no space after the last pick.
   */
  lemma LetterStringShape(letters: seq<string>, n: nat, rand: nat -> real)
    requires ValidRandom(rand) && |letters| > 0 && n > 0
    ensures Js.LoopCount(Js.Finite(n as real)) == n
    ensures forall i | 0 <= i < n :: Pick(letters, rand, i) in letters
    ensures SpaceCount(Js.Finite(n as real), n) == (n - 1) / 4
    ensures !SpaceAfter(Js.Finite(n as real), n - 1)
    ensures LetterString(letters, Js.Finite(n as real), rand) ==
      LetterPieces(letters, Js.Finite(n as real), rand, n - 1) + Pick(letters, rand, n - 1)
  {
    SpaceCountBelowLast(n, n - 1);
  }

  /** The number of occurrences of `c` in `s`. */
  function CountOf(s: string, c: char): nat {
    if |s| == 0 then 0 else CountOf(s[..|s| - 1], c) + (if s[|s| - 1] == c then 1 else 0)
  }

  lemma {:induction false} CountOfAppend(a: string, b: string, c: char)
    ensures CountOf(a + b, c) == CountOf(a, c) + CountOf(b, c)
    decreases |b|
  {
    if |b| > 0 {
      assert (a + b)[..|a + b| - 1] == a + b[..|b| - 1];
      CountOfAppend(a, b[..|b| - 1], c);
    } else {
      assert a + b == a;
    }
  }

  lemma {:induction false} CountOfAbsent(s: string, c: char)
    requires c !in s
    ensures CountOf(s, c) == 0
  {
    if |s| > 0 {
      assert s[|s| - 1] in s;
      assert forall x | x in s[..|s| - 1] :: x in s;
      CountOfAbsent(s[..|s| - 1], c);
    }
  }

  /** With letters that hold no space, the spaces of the first `k` pieces are the spacing spaces. */
  lemma {:induction false} PiecesSpaces(letters: seq<string>, length: Js.JsNumber, rand: nat -> real, k: nat)
    requires ValidRandom(rand) && |letters| > 0
    requires forall l | l in letters :: ' ' !in l
    ensures CountOf(LetterPieces(letters, length, rand, k), ' ') == SpaceCount(length, k)
  {
    if k > 0 {
      PiecesSpaces(letters, length, rand, k - 1);
      PieceSpaces(letters, length, rand, k - 1);
      CountOfAppend(LetterPieces(letters, length, rand, k - 1), Piece(letters, length, rand, k - 1), ' ');
    }
  }

  /** With letters that hold no space, a piece holds a space exactly when one follows its pick. */
  lemma PieceSpaces(letters: seq<string>, length: Js.JsNumber, rand: nat -> real, i: nat)
    requires ValidRandom(rand) && |letters| > 0
    requires forall l | l in letters :: ' ' !in l
    ensures CountOf(Piece(letters, length, rand, i), ' ') == if SpaceAfter(length, i) then 1 else 0
  {
    var p := Pick(letters, rand, i);
    CountOfAbsent(p, ' ');
    CountOfAppend(p, if SpaceAfter(length, i) then " " else "", ' ');
    assert CountOf(" ", ' ') == 1 by { assert " "[..0] == ""; }
  }

  /**
   * For letters that hold no space, a whole-number length `n` gives a string with exactly
   * `(n - 1) / 4` spaces.
   */
  lemma LetterStringSpaces(letters: seq<string>, n: nat, rand: nat -> real)
    requires ValidRandom(rand) && |letters| > 0 && n > 0
    requires forall l | l in letters :: ' ' !in l
    ensures CountOf(LetterString(letters, Js.Finite(n as real), rand), ' ') == (n - 1) / 4
  {
    LetterStringShape(letters, n, rand);
    PiecesSpaces(letters, Js.Finite(n as real), rand, n);
  }

  /** A length that is `NaN`, negative infinity or at most zero gives no picks. */
  lemma LetterStringNoPicks(letters: seq<string>, length: Js.JsNumber, rand: nat -> real)
    requires ValidRandom(rand)
    requires length == Js.NaN || length == Js.NegInf || (length.Finite? && length.value <= 0.0)
    ensures LetterString(letters, length, rand) == ""
  {
  }

  /**
   * A fractional length runs one turn more than its whole part, and when that count is a
   * multiple of four the last pick is followed by a space.
   */
  lemma LetterStringFractionalTrailingSpace(x: real)
    requires x > 0.0 && x != x.Floor as real && Js.Ceil(x) % 4 == 0
    ensures Js.LoopCount(Js.Finite(x)) == Js.Ceil(x)
    ensures SpaceAfter(Js.Finite(x), Js.Ceil(x) - 1)
  {
  }

  // ---------------------------------------------------------------------------
  // Common words

  /** The `n` words drawn by the first `n` draws. */
  function Words(common: seq<string>, rand: nat -> real, n: nat): (r: seq<string>)
    requires ValidRandom(rand) && |common| > 0
    ensures |r| == n
  {
    seq(n, i requires 0 <= i < n => common[RandIndex(rand(i), |common|)])
  }

  /** One more draw appends one more word. */
  lemma WordsStep(common: seq<string>, rand: nat -> real, n: nat)
    requires ValidRandom(rand) && |common| > 0
    ensures Words(common, rand, n + 1) == Words(common, rand, n) + [common[RandIndex(rand(n), |common|)]]
  {
    assert Words(common, rand, n + 1)[..n] == Words(common, rand, n);
  }

  /** The length of a sentence drawn by draw `next` with `remaining` words left. */
  function SentenceLength(rand: nat -> real, next: nat, remaining: nat): (r: nat)
    requires ValidRandom(rand)
    ensures r <= remaining && r <= 14
    ensures remaining > 0 ==> r >= 1
    ensures remaining >= 6 ==> r >= 6
    ensures r < remaining ==> r >= 6
  {
    Js.MinInt(remaining, 6 + RandIndex(rand(next), 9))
  }

  /** The words split into sentences; sentence `j` uses draw `next + j`. */
  function Chunks(words: seq<string>, rand: nat -> real, next: nat): seq<seq<string>>
    requires ValidRandom(rand)
    decreases |words|
  {
    if words == [] then []
    else
      var len := SentenceLength(rand, next, |words|);
      [words[..len]] + Chunks(words[len..], rand, next + 1)
  }

  /** `a.join(sep)`. */
  function Join(parts: seq<string>, sep: string): string {
    if parts == [] then "" else if |parts| == 1 then parts[0] else parts[0] + sep + Join(parts[1..], sep)
  }

  /** A sentence: its words joined by spaces, then `" ."`. */
  function Sentence(chunk: seq<string>): string {
    Join(chunk, " ") + " ."
  }

  /** Each chunk as a sentence. */
  function Sentences(chunks: seq<seq<string>>): seq<string>
  {
    if chunks == [] then [] else [Sentence(chunks[0])] + Sentences(chunks[1..])
  }

  /** What `buildCommonParagraph` returns. */
  function CommonParagraph(common: seq<string>, totalWords: Js.JsNumber, rand: nat -> real): (r: string)
    requires ValidRandom(rand) && totalWords != Js.PosInf
    ensures |common| == 0 ==> r == ""
  {
    if |common| == 0 then ""
    else
      var n := Js.LoopCount(totalWords);
      Js.Trim(Join(Sentences(Chunks(Words(common, rand, n), rand, n)), " "))
  }

  /** `buildCommonParagraph`: draw the words, then cut them into sentences. */
  method BuildCommonParagraph(commonWords: seq<string>, totalWords: Js.JsNumber, rand: nat -> real)
    returns (result: string)
    requires ValidRandom(rand) && totalWords != Js.PosInf
    ensures result == CommonParagraph(commonWords, totalWords, rand)
  {
    if |commonWords| == 0 {
      return "";
    }
    var words, i := DrawWords(commonWords, totalWords, rand);
    var sentences := CutSentences(words, rand, i);
    result := Js.Trim(Join(sentences, " "));
  }

  /** The word loop of `buildCommonParagraph`: draw `i` picks word `i`; it returns the words and the draw count. */
  method DrawWords(commonWords: seq<string>, totalWords: Js.JsNumber, rand: nat -> real)
    returns (words: seq<string>, i: nat)
    requires ValidRandom(rand) && totalWords != Js.PosInf && |commonWords| > 0
    ensures i == Js.LoopCount(totalWords)
    ensures words == Words(commonWords, rand, i)
  {
    words := [];
    i := 0;
    while Js.LessThan(i, totalWords)
      invariant i <= Js.LoopCount(totalWords)
      invariant words == Words(commonWords, rand, i)
      decreases Js.LoopCount(totalWords) - i
    {
      var idx := RandIndex(rand(i), |commonWords|);
      WordsStep(commonWords, rand, i);
      words := words + [commonWords[idx]];
      i := i + 1;
    }
  }

  /** The sentence loop of `buildCommonParagraph`; sentence `j` uses draw `next + j`. */
  method CutSentences(words: seq<string>, rand: nat -> real, next: nat) returns (sentences: seq<string>)
    requires ValidRandom(rand)
    ensures sentences == Sentences(Chunks(words, rand, next))
  {
    sentences := [];
    var i: nat := 0;
    var d: nat := next;
    ghost var whole := Sentences(Chunks(words, rand, next));
    assert words[0..] == words;
    while i < |words|
      invariant i <= |words|
      invariant sentences + Sentences(Chunks(words[i..], rand, d)) == whole
      decreases |words| - i
    {
      var sentenceLen := SentenceLength(rand, d, |words| - i);
      CutStep(words, i, rand, d, sentenceLen, sentences, whole);
      sentences := sentences + [Sentence(words[i..i + sentenceLen])];
      i := i + sentenceLen;
      d := d + 1;
    }
    assert words[|words|..] == [];
  }

  /** One turn of the sentence loop keeps the loop's account of the sentences still to come. */
  lemma CutStep(words: seq<string>, i: nat, rand: nat -> real, d: nat, len: nat, sentences: seq<string>, whole: seq<string>)
    requires ValidRandom(rand) && i < |words|
    requires len == SentenceLength(rand, d, |words| - i)
    requires sentences + Sentences(Chunks(words[i..], rand, d)) == whole
    ensures 0 < len && i + len <= |words|
    ensures (sentences + [Sentence(words[i..i + len])]) + Sentences(Chunks(words[i + len..], rand, d + 1)) == whole
  {
    ChunksStep(words, i, rand, d, len);
    AppendAssoc(sentences, [Sentence(words[i..i + len])], Sentences(Chunks(words[i + len..], rand, d + 1)));
  }

  lemma AppendAssoc<T>(a: seq<T>, b: seq<T>, c: seq<T>)
    ensures (a + b) + c == a + (b + c)
  {
  }

  /** One turn of the sentence loop: the first sentence of the words from `i` on, and the rest. */
  lemma ChunksStep(words: seq<string>, i: nat, rand: nat -> real, next: nat, len: nat)
    requires ValidRandom(rand) && i < |words|
    requires len == SentenceLength(rand, next, |words| - i)
    ensures i + len <= |words|
    ensures Sentences(Chunks(words[i..], rand, next)) ==
      [Sentence(words[i..i + len])] + Sentences(Chunks(words[i + len..], rand, next + 1))
  {
    var cs := Chunks(words[i..], rand, next);
    assert words[i..][..len] == words[i..i + len];
    assert words[i..][len..] == words[i + len..];
    assert cs == [words[i..i + len]] + Chunks(words[i + len..], rand, next + 1);
    assert cs[1..] == Chunks(words[i + len..], rand, next + 1);
  }

  // ---------------------------------------------------------------------------
  // Properties of the common-words generator

  function Flatten(chunks: seq<seq<string>>): seq<string> {
    if chunks == [] then [] else chunks[0] + Flatten(chunks[1..])
  }

  /** The sentences hold all the words, in order, each exactly once. */
  lemma {:induction false} ChunksFlatten(words: seq<string>, rand: nat -> real, next: nat)
    requires ValidRandom(rand)
    ensures Flatten(Chunks(words, rand, next)) == words
    decreases |words|
  {
    if words != [] {
      var len := SentenceLength(rand, next, |words|);
      ChunksFlatten(words[len..], rand, next + 1);
      assert words[..len] + words[len..] == words;
    }
  }

  /** Every sentence has 1 to 14 words, and every sentence but the last has at least 6. */
  lemma {:induction false} ChunkSizes(words: seq<string>, rand: nat -> real, next: nat)
    requires ValidRandom(rand)
    ensures forall j | 0 <= j < |Chunks(words, rand, next)| :: 1 <= |Chunks(words, rand, next)[j]| <= 14
    ensures forall j | 0 <= j < |Chunks(words, rand, next)| - 1 :: |Chunks(words, rand, next)[j]| >= 6
    decreases |words|
  {
    if words != [] {
      var len := SentenceLength(rand, next, |words|);
      ChunkSizes(words[len..], rand, next + 1);
      var cs := Chunks(words, rand, next);
      var rest := Chunks(words[len..], rand, next + 1);
      assert cs == [words[..len]] + rest;
      assert |cs[0]| == len;
      assert forall j | 0 <= j < |rest| :: 1 <= |rest[j]| <= 14;
      forall j | 0 <= j < |cs| ensures 1 <= |cs[j]| <= 14 {
        if j > 0 { assert cs[j] == rest[j - 1]; }
      }
      forall j | 0 <= j < |cs| - 1 ensures |cs[j]| >= 6 {
        if j > 0 {
          assert cs[j] == rest[j - 1];
        } else {
          assert words[len..] != [];
        }
      }
    }
  }

  /** Sentence `j` is chunk `j` joined and stopped; every sentence ends with `" ."`. */
  lemma {:induction false} SentencesEndWithStop(chunks: seq<seq<string>>)
    ensures |Sentences(chunks)| == |chunks|
    ensures forall j | 0 <= j < |chunks| :: Sentences(chunks)[j] == Sentence(chunks[j])
    ensures forall j | 0 <= j < |chunks| ::
      |Sentences(chunks)[j]| >= 2 && Sentences(chunks)[j][|Sentences(chunks)[j]| - 2..] == " ."
  {
    if chunks != [] {
      SentencesEndWithStop(chunks[1..]);
    }
  }

  /**
   * A whole number `n >= 0` of words gives exactly `n` draws from the word list, and the
   * sentences, read in order, are exactly those words.
   */
  lemma CommonParagraphWords(common: seq<string>, n: nat, rand: nat -> real)
    requires ValidRandom(rand) && |common| > 0
    ensures Js.LoopCount(Js.Finite(n as real)) == n
    ensures var ws := Words(common, rand, n);
      |ws| == n && (forall i | 0 <= i < n :: ws[i] in common) && Flatten(Chunks(ws, rand, n)) == ws
  {
    ChunksFlatten(Words(common, rand, n), rand, n);
  }
}
