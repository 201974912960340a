/** Sentence segmentation (backend/src/nlp/sentenceExtractor.js): the text is split at every
    whitespace run that directly follows '.', '?' or '!', each piece is trimmed, and only
    pieces longer than 20 characters are kept. */
module SentenceExtractor {
  import opened Text
  import opened Sequences

  /** Pieces of at most this many characters are dropped as junk. */
  const MinLength: nat := 20

  predicate IsTerminator(c: char) { c == '.' || c == '?' || c == '!' }

  /** Position `i` of `s` starts a whitespace run right after a sentence terminator: where
      `/(?<=[.?!])\s+/` can match. */
  predicate BoundaryAt(s: string, i: nat) {
    0 < i < |s| && IsTerminator(s[i - 1]) && IsSpace(s[i])
  }

  /** The first split point at or after `from`, or `|s|` when there is none (see
      `NextBoundarySpec`). */
  function NextBoundary(s: string, from: nat): (i: nat)
    ensures i <= |s| && (i < |s| ==> from <= i)
    decreases |s| - from
  {
    if from >= |s| then |s|
    else if BoundaryAt(s, from) then from
    else NextBoundary(s, from + 1)
  }

  /** `NextBoundary` finds a split point, and there is none between `from` and it. */
  lemma {:induction false} NextBoundarySpec(s: string, from: nat)
    ensures NextBoundary(s, from) < |s| ==> BoundaryAt(s, NextBoundary(s, from))
    ensures forall k :: from <= k < NextBoundary(s, from) ==> !BoundaryAt(s, k)
    decreases |s| - from
  {
    if from < |s| && !BoundaryAt(s, from) {
      NextBoundarySpec(s, from + 1);
    }
  }

  /** The end of the whitespace run starting at `i` (see `RunEndSpec`). */
  function RunEnd(s: string, i: nat): (j: nat)
    requires i <= |s|
    ensures i <= j <= |s|
    decreases |s| - i
  {
    if i < |s| && IsSpace(s[i]) then RunEnd(s, i + 1) else i
  }

  /** `s[i..RunEnd(s, i)]` is whitespace, and the character after it is not. */
  lemma {:induction false} RunEndSpec(s: string, i: nat)
    requires i <= |s|
    ensures AllSpace(s[i..RunEnd(s, i)])
    ensures RunEnd(s, i) < |s| ==> !IsSpace(s[RunEnd(s, i)])
    decreases |s| - i
  {
    if i < |s| && IsSpace(s[i]) {
      RunEndSpec(s, i + 1);
      assert s[i..RunEnd(s, i)] == [s[i]] + s[i + 1..RunEnd(s, i)];
    }
  }

  /** `s.split(/(?<=[.?!])\s+/)`: the regular expression is greedy, so each match takes the
      whole whitespace run, and the search resumes after it. */
  function Split(s: string): (pieces: seq<string>)
    ensures |pieces| >= 1
    decreases |s|
  {
    var i := NextBoundary(s, 1);
    if i == |s| then [s] else [s[..i]] + Split(s[RunEnd(s, i)..])
  }

  /** The whitespace runs `Split` cuts out, in order. */
  function Separators(s: string): seq<string>
    decreases |s|
  {
    var i := NextBoundary(s, 1);
    if i == |s| then [] else [s[i..RunEnd(s, i)]] + Separators(s[RunEnd(s, i)..])
  }

  /** The pieces with the separators put back between them. */
  function Interleave(pieces: seq<string>, seps: seq<string>): string
    requires |pieces| == |seps| + 1
  {
    if seps == [] then pieces[0]
    else pieces[0] + seps[0] + Interleave(pieces[1..], seps[1..])
  }

  /** One step of `Split` and `Separators`: the piece before the first split point, the
      whitespace run after it, and the split of the rest. */
  lemma SplitStep(s: string, i: nat, j: nat)
    requires i == NextBoundary(s, 1) && i < |s| && j == RunEnd(s, i)
    ensures Split(s) == [s[..i]] + Split(s[j..])
    ensures Separators(s) == [s[i..j]] + Separators(s[j..])
  {
  }

  /** Splitting loses nothing: putting the separators back gives the text. */
  lemma {:induction false} SplitRebuild(s: string)
    ensures |Split(s)| == |Separators(s)| + 1
    ensures Interleave(Split(s), Separators(s)) == s
    decreases |s|
  {
    var i := NextBoundary(s, 1);
    if i < |s| {
      var j := RunEnd(s, i);
      var rest := s[j..];
      SplitStep(s, i, j);
      SplitRebuild(rest);
      var p, w := Split(s), Separators(s);
      assert p[1..] == Split(rest) && w[1..] == Separators(rest);
      assert Interleave(p, w) == s[..i] + s[i..j] + Interleave(Split(rest), Separators(rest));
      assert s == s[..i] + s[i..j] + rest;
    }
  }

  /** The cuts are exactly the split points: no piece holds a split point, every piece but
      the last ends with a terminator, every separator is a non-empty whitespace run, and no
      piece but the first starts with whitespace (each run is taken whole). */
  lemma SplitCuts(s: string)
    ensures |Split(s)| == |Separators(s)| + 1
    ensures forall k, j :: 0 <= k < |Split(s)| && 0 <= j ==> !BoundaryAt(Split(s)[k], j)
    ensures forall k :: 0 <= k < |Separators(s)| ==>
      Split(s)[k] != [] && IsTerminator(Split(s)[k][|Split(s)[k]| - 1]) &&
      Separators(s)[k] != [] && AllSpace(Separators(s)[k])
    ensures forall k :: 1 <= k < |Split(s)| && Split(s)[k] != [] ==> !IsSpace(Split(s)[k][0])
  {
    SplitRebuild(s);
    PiecesHaveNoBoundary(s);
    CutsAtTerminators(s);
    PiecesStartAfterRuns(s);
  }

  /** The first piece holds no split point. */
  lemma FirstPieceHasNoBoundary(s: string)
    ensures forall j :: 0 <= j ==> !BoundaryAt(Split(s)[0], j)
  {
    var i := NextBoundary(s, 1);
    NextBoundarySpec(s, 1);
    var p0 := Split(s)[0];
    if i == |s| {
      forall m: nat
        ensures !BoundaryAt(p0, m)
      {
        if 0 < m < |s| {
          assert 1 <= m < i;
        }
      }
    } else {
      SplitStep(s, i, RunEnd(s, i));
      assert p0 == s[..i];
      forall m: nat
        ensures !BoundaryAt(p0, m)
      {
        if 0 < m < i {
          assert !BoundaryAt(s, m);
          assert p0[m - 1] == s[m - 1] && p0[m] == s[m];
        }
      }
    }
  }

  /** No piece holds a split point. */
  lemma {:induction false} PiecesHaveNoBoundary(s: string)
    ensures forall k, j :: 0 <= k < |Split(s)| && 0 <= j ==> !BoundaryAt(Split(s)[k], j)
    decreases |s|
  {
    FirstPieceHasNoBoundary(s);
    var i := NextBoundary(s, 1);
    if i < |s| {
      var j := RunEnd(s, i);
      SplitStep(s, i, j);
      PiecesHaveNoBoundary(s[j..]);
      var p, p' := Split(s), Split(s[j..]);
      forall k | 1 <= k < |p|
        ensures p[k] == p'[k - 1]
      {
      }
    }
  }

  /** Every piece but the last ends with a terminator, and the separator after it is a
      non-empty whitespace run. */
  lemma {:induction false} CutsAtTerminators(s: string)
    ensures |Split(s)| == |Separators(s)| + 1
    ensures forall k :: 0 <= k < |Separators(s)| ==>
      Split(s)[k] != [] && IsTerminator(Split(s)[k][|Split(s)[k]| - 1]) &&
      Separators(s)[k] != [] && AllSpace(Separators(s)[k])
    decreases |s|
  {
    SplitRebuild(s);
    var i := NextBoundary(s, 1);
    if i < |s| {
      NextBoundarySpec(s, 1);
      var j := RunEnd(s, i);
      RunEndSpec(s, i);
      SplitStep(s, i, j);
      CutsAtTerminators(s[j..]);
      var p, w, p', w' := Split(s), Separators(s), Split(s[j..]), Separators(s[j..]);
      assert p[0][i - 1] == s[i - 1];
      assert w[0] != [] by { assert s[i..j][0] == s[i]; }
      forall k | 1 <= k < |w|
        ensures p[k] == p'[k - 1] && w[k] == w'[k - 1]
      {
      }
    }
  }

  /** No piece but the first starts with whitespace. */
  lemma {:induction false} PiecesStartAfterRuns(s: string)
    ensures forall k :: 1 <= k < |Split(s)| && Split(s)[k] != [] ==> !IsSpace(Split(s)[k][0])
    decreases |s|
  {
    var i := NextBoundary(s, 1);
    if i < |s| {
      var j := RunEnd(s, i);
      RunEndSpec(s, i);
      SplitStep(s, i, j);
      var rest := s[j..];
      PiecesStartAfterRuns(rest);
      var p, p' := Split(s), Split(rest);
      if p'[0] != [] {
        SplitPrefix(rest);
        assert p'[0][0] == rest[0] == s[j];
      }
      forall k | 1 <= k < |p|
        ensures p[k] == p'[k - 1]
      {
      }
    }
  }

  /** The first piece is a prefix of the text. */
  lemma SplitPrefix(s: string)
    ensures |Split(s)[0]| <= |s| && Split(s)[0] == s[..|Split(s)[0]|]
  {
  }

  /** `x` is `s[a..a + |x|]` for some `a`. */
  ghost predicate IsSlice(s: string, x: string) {
    exists a :: OccursAt(s, x, a)
  }

  /** A slice of a suffix of the text is a slice of the text. */
  lemma SliceOfSuffix(s: string, j: nat, x: string)
    requires j <= |s| && IsSlice(s[j..], x)
    ensures IsSlice(s, x)
  {
    var a :| OccursAt(s[j..], x, a);
    assert s[j + a..j + a + |x|] == s[j..][a..a + |x|];
    assert OccursAt(s, x, j + a);
  }

  /** Every piece is a slice of the text. */
  lemma {:induction false} PiecesOccur(s: string)
    ensures forall k :: 0 <= k < |Split(s)| ==> IsSlice(s, Split(s)[k])
    decreases |s|
  {
    var i := NextBoundary(s, 1);
    var p := Split(s);
    if i == |s| {
      assert OccursAt(s, p[0], 0);
    } else {
      var j := RunEnd(s, i);
      var rest := s[j..];
      SplitStep(s, i, j);
      PiecesOccur(rest);
      forall k | 0 <= k < |p|
        ensures IsSlice(s, p[k])
      {
        if k == 0 {
          assert OccursAt(s, p[0], 0);
        } else {
          assert p[k] == Split(rest)[k - 1];
          SliceOfSuffix(s, j, p[k]);
        }
      }
    }
  }

  /** Each piece trimmed. */
  function TrimAll(pieces: seq<string>): (r: seq<string>)
    ensures |r| == |pieces|
  {
    seq(|pieces|, k requires 0 <= k < |pieces| => Trim(pieces[k]))
  }

  /** The `length > 20` test. */
  function IsSentence(s: string): bool { |s| > MinLength }

  /** `extractSentences`. */
  function ExtractSentences(text: string): seq<string> {
    if text == [] then [] else Filter(TrimAll(Split(text)), IsSentence)
  }

  /** Trimming a slice of the text leaves a slice of the text. */
  lemma TrimOfSlice(text: string, p: string)
    requires IsSlice(text, p)
    ensures IsSlice(text, Trim(p))
  {
    var x := Trim(p);
    var lead := |p| - |TrimStart(p)|;
    TrimSlice(p, lead);
    var a :| OccursAt(text, p, a);
    assert p == text[a..a + |p|];
    forall m | 0 <= m < |x|
      ensures x[m] == text[a + lead + m]
    {
      assert x[m] == p[lead + m];
    }
    assert text[a + lead..a + lead + |x|] == x;
    assert OccursAt(text, x, a + lead);
  }

  /** A trimmed piece is a slice of the text with no whitespace at either end. */
  lemma TrimmedPiece(text: string, k: nat)
    requires k < |Split(text)|
    ensures Trim(Trim(Split(text)[k])) == Trim(Split(text)[k])
    ensures IsSlice(text, Trim(Split(text)[k]))
  {
    var p := Split(text)[k];
    TrimIdempotent(p);
    PiecesOccur(text);
    TrimOfSlice(text, p);
  }

  /** Every sentence is longer than 20 characters, has no whitespace at either end, and is a
      slice of the text; every trimmed piece longer than 20 characters is a sentence. */
  lemma SentencesSpec(text: string)
    ensures forall x :: x in ExtractSentences(text) ==>
      |x| > MinLength && Trim(x) == x && IsSlice(text, x)
    ensures text != [] ==> forall k :: 0 <= k < |Split(text)| && |Trim(Split(text)[k])| > MinLength ==>
      Trim(Split(text)[k]) in ExtractSentences(text)
  {
    if text != [] {
      var trimmed := TrimAll(Split(text));
      FilterSpec(trimmed, IsSentence);
      forall x | x in ExtractSentences(text)
        ensures |x| > MinLength && Trim(x) == x && IsSlice(text, x)
      {
        var i :| 0 <= i < |Filter(trimmed, IsSentence)| && Filter(trimmed, IsSentence)[i] == x;
        var k :| 0 <= k < |trimmed| && trimmed[k] == x;
        TrimmedPiece(text, k);
      }
      forall k | 0 <= k < |Split(text)| && |Trim(Split(text)[k])| > MinLength
        ensures Trim(Split(text)[k]) in ExtractSentences(text)
      {
        assert trimmed[k] == Trim(Split(text)[k]);
      }
    }
  }

  /** No text, no sentences. */
  lemma EmptyText()
    ensures ExtractSentences([]) == []
  {
  }
}
