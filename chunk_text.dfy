/** The JavaScript chunker (backend/src/rag/chunkText.js): windows of `chunkSize` characters
    every `chunkSize - overlap` characters, each trimmed and labelled with the section of the
    untrimmed window. Unlike the Python analyser it keeps windows that trim to nothing. */
module ChunkText {
  import opened Text
  import opened KeywordRules
  import SectionDetector

  type Rules = seq<(string, seq<string>)>

  /** The section of a window under a rule table: the first-match label of its lower-cased
      text, "general" when no rule fires. */
  function Label(rules: Rules, w: string): string {
    FirstMatch(rules, Lower(w), SectionDetector.General)
  }

  /** Under the detector's own table this is `detectSection`. */
  lemma LabelIsDetectSection(w: string)
    ensures Label(SectionDetector.SectionRules, w) == SectionDetector.DetectSection(w)
  {
  }

  datatype TextChunk = TextChunk(content: string, section: string)

  /** `text.slice(start, start + size)`: empty once `start` is past the end. */
  function Slice(text: string, start: nat, size: nat): (w: string)
    ensures |w| <= size
  {
    text[Min(start, |text|)..Min(start + size, |text|)]
  }

  /** The chunk made of the window starting at `start`. */
  function ChunkFrom(rules: Rules, text: string, size: nat, start: nat): TextChunk {
    var w := Slice(text, start, size);
    TextChunk(Trim(w), Label(rules, w))
  }

  /** `make(start)`, `make(start + stride)`, ... for the positions below `len`: the values a
      loop collects while its cursor advances by `stride` up to `len`. */
  function Spread<X>(make: nat -> X, len: nat, stride: nat, start: nat): seq<X>
    requires 0 < stride
    decreases len - start
  {
    if start >= len then [] else [make(start)] + Spread(make, len, stride, start + stride)
  }

  /** The chunks of the windows starting at `start`, `start + stride`, ... below `|text|`. */
  function ChunksFrom(rules: Rules, text: string, size: nat, stride: nat, start: nat): seq<TextChunk>
    requires 0 < stride
  {
    Spread((s: nat) => ChunkFrom(rules, text, size, s), |text|, stride, start)
  }

  /** `ceil(n / d)` on naturals. */
  function CeilDiv(n: nat, d: nat): nat
    requires 0 < d
  {
    (n + d - 1) / d
  }

  /** `chunkText`: the chunks of the windows starting at `0, s, 2s, ...` below the text's
      length, where `s = chunkSize - overlap` (`ChunksCount` and `ChunkIndex` say how many
      and which). With `chunkSize <= overlap` the cursor never moves and the loop does not
      end, so that case is excluded. */
  method ChunkText(rules: Rules, text: string, chunkSize: nat, overlap: nat) returns (chunks: seq<TextChunk>)
    requires overlap < chunkSize
    ensures chunks == ChunksFrom(rules, text, chunkSize, chunkSize - overlap, 0)
  {
    chunks := [];
    var start: nat := 0;
    ghost var all := ChunksFrom(rules, text, chunkSize, chunkSize - overlap, 0);
    while start < |text|
      invariant chunks + ChunksFrom(rules, text, chunkSize, chunkSize - overlap, start) == all
      decreases |text| - start
    {
      chunks, start := StepChunk(rules, text, chunkSize, chunkSize - overlap, start, chunks);
    }
    ChunksDone(rules, text, chunkSize, chunkSize - overlap, start, chunks);
  }

  /** The defaults of `chunkText`'s parameters, the ones every ingestion route relies on. */
  const DefaultChunkSize: nat := 800
  const DefaultOverlap: nat := 150

  /** `chunkText(text)` with the default window size and overlap: windows of 800 characters
      every 650, as many as `ceil(len / 650)`, each labelled by `detectSection`. */
  method ChunkTextDefaults(text: string) returns (chunks: seq<TextChunk>)
    ensures chunks == ChunksFrom(SectionDetector.SectionRules, text, DefaultChunkSize, DefaultChunkSize - DefaultOverlap, 0)
    ensures |chunks| == CeilDiv(|text|, 650)
    ensures forall k :: 0 <= k < |chunks| ==>
      k * 650 < |text| &&
      chunks[k] == TextChunk(Trim(Slice(text, k * 650, 800)), SectionDetector.DetectSection(Slice(text, k * 650, 800)))
  {
    chunks := ChunkText(SectionDetector.SectionRules, text, DefaultChunkSize, DefaultOverlap);
    ChunksCount(SectionDetector.SectionRules, text, 800, 650);
    forall k | 0 <= k < |chunks|
      ensures k * 650 < |text|
      ensures chunks[k] == TextChunk(Trim(Slice(text, k * 650, 800)), SectionDetector.DetectSection(Slice(text, k * 650, 800)))
    {
      ChunkIndex(SectionDetector.SectionRules, text, 800, 650, k);
      LabelIsDetectSection(Slice(text, k * 650, 800));
    }
  }

  /** One pass of the loop: the chunk at `start` is appended and the cursor moves one stride
      on, so the chunks collected plus those still to come stay the same. */
  method StepChunk(rules: Rules, text: string, chunkSize: nat, stride: nat, start: nat, chunks: seq<TextChunk>)
    returns (next: seq<TextChunk>, nextStart: nat)
    requires 0 < stride && start < |text|
    ensures nextStart == start + stride
    ensures next + ChunksFrom(rules, text, chunkSize, stride, nextStart) == chunks + ChunksFrom(rules, text, chunkSize, stride, start)
  {
    var c := MakeChunk(rules, text, chunkSize, start);
    ChunksStep(rules, text, chunkSize, stride, start, chunks, c);
    next := chunks + [c];
    nextStart := start + stride;
  }

  /** Appending the chunk at `start` moves the cursor one stride on. */
  lemma ChunksStep(rules: Rules, text: string, size: nat, stride: nat, start: nat, done: seq<TextChunk>, c: TextChunk)
    requires 0 < stride && start < |text| && c == ChunkFrom(rules, text, size, start)
    ensures done + ChunksFrom(rules, text, size, stride, start) == (done + [c]) + ChunksFrom(rules, text, size, stride, start + stride)
  {
    SpreadStep((s: nat) => ChunkFrom(rules, text, size, s), |text|, stride, start, done, c);
  }

  /** Past the end of the text no chunks are left to collect. */
  lemma ChunksDone(rules: Rules, text: string, size: nat, stride: nat, start: nat, done: seq<TextChunk>)
    requires 0 < stride && |text| <= start
    ensures done + ChunksFrom(rules, text, size, stride, start) == done
  {
    assert ChunksFrom(rules, text, size, stride, start) == [];
  }

  /** One pass of the loop body: the window at `start`, trimmed and labelled. */
  method MakeChunk(rules: Rules, text: string, chunkSize: nat, start: nat) returns (c: TextChunk)
    ensures c == ChunkFrom(rules, text, chunkSize, start)
    ensures |c.content| <= chunkSize
  {
    var chunkContent := Slice(text, start, chunkSize);
    c := TextChunk(Trim(chunkContent), Label(rules, chunkContent));
  }

  /** Collecting the value at `start` moves the cursor one stride on. */
  lemma SpreadStep<X>(make: nat -> X, len: nat, stride: nat, start: nat, done: seq<X>, x: X)
    requires 0 < stride && start < len && x == make(start)
    ensures done + Spread(make, len, stride, start) == (done + [x]) + Spread(make, len, stride, start + stride)
  {
    var rest := Spread(make, len, stride, start + stride);
    assert done + ([x] + rest) == (done + [x]) + rest;
  }

  /** The number of positions `start`, `start + stride`, ... below `len`. */
  function Starts(len: nat, stride: nat, start: nat): nat
    requires 0 < stride
    decreases len - start
  {
    if start >= len then 0 else 1 + Starts(len, stride, start + stride)
  }

  /** One value per position. */
  lemma {:induction false} SpreadLength<X>(make: nat -> X, len: nat, stride: nat, start: nat)
    requires 0 < stride
    ensures |Spread(make, len, stride, start)| == Starts(len, stride, start)
    decreases len - start
  {
    if start < len {
      SpreadLength(make, len, stride, start + stride);
    }
  }

  /** Value `k` is made at position `start + k * stride`, which lies below `len`. */
  lemma {:induction false} SpreadIndex<X>(make: nat -> X, len: nat, stride: nat, start: nat, k: nat)
    requires 0 < stride && k < |Spread(make, len, stride, start)|
    ensures start + k * stride < len
    ensures Spread(make, len, stride, start)[k] == make(start + k * stride)
    decreases len - start
  {
    if k > 0 {
      SpreadIndex(make, len, stride, start + stride, k - 1);
      MulSucc(k - 1, stride);
    }
  }

  /** There are `ceil(|text| / stride)` chunks. */
  lemma ChunksCount(rules: Rules, text: string, size: nat, stride: nat)
    requires 0 < stride
    ensures |ChunksFrom(rules, text, size, stride, 0)| == CeilDiv(|text|, stride)
  {
    SpreadLength((s: nat) => ChunkFrom(rules, text, size, s), |text|, stride, 0);
    StartsCover(|text|, stride, 0);
    CeilDivExact(|text|, stride, Starts(|text|, stride, 0));
  }

  /** Chunk `k` is made of the window starting at `k * stride`, which lies inside the text. */
  lemma ChunkIndex(rules: Rules, text: string, size: nat, stride: nat, k: nat)
    requires 0 < stride && k < |ChunksFrom(rules, text, size, stride, 0)|
    ensures k * stride < |text|
    ensures ChunksFrom(rules, text, size, stride, 0)[k] == ChunkFrom(rules, text, size, k * stride)
  {
    SpreadIndex((s: nat) => ChunkFrom(rules, text, size, s), |text|, stride, 0, k);
  }

  /** The positions from `start` on are the fewest that cover the rest of the range. */
  lemma {:induction false} StartsCover(len: nat, stride: nat, start: nat)
    requires 0 < stride && start <= len
    ensures Covers(len - start, stride, Starts(len, stride, start))
    decreases len - start
  {
    if start < len {
      var m := Starts(len, stride, start + stride);
      if start + stride < len {
        StartsCover(len, stride, start + stride);
        CoverStep(len - start, stride, m);
      } else {
        CoverStep(len - start, stride, 0);
      }
    }
  }

  /** One more window covers `stride` more characters. */
  lemma CoverStep(rem: int, stride: nat, m: nat)
    requires 0 < stride && 0 < rem
    requires rem <= stride ==> m == 0
    requires stride < rem ==> Covers(rem - stride, stride, m)
    ensures Covers(rem, stride, m + 1)
  {
    MulSucc(m, stride);
    if m > 0 {
      MulSucc(m - 1, stride);
    }
  }

  /** `n` windows `stride` apart cover `rem` characters, and `n - 1` would not: `n` is the
      least such count. */
  predicate Covers(rem: int, stride: nat, n: nat) {
    rem <= n * stride && (n > 0 ==> (n - 1) * stride < rem)
  }

  /** `n` is the number of multiples of `d` below `len`. */
  lemma CeilDivExact(len: nat, d: nat, n: nat)
    requires 0 < d && Covers(len, d, n)
    ensures n == CeilDiv(len, d)
  {
    var q, r := (len + d - 1) / d, (len + d - 1) % d;
    assert len + d - 1 == q * d + r && 0 <= r < d;
    if n > 0 {
      MulLess(q, n + 1, d);
      MulLess(n - 1, q, d);
    } else {
      assert len == 0;
    }
  }

  lemma MulSucc(n: nat, d: nat)
    ensures (n + 1) * d == n * d + d
  {
  }

  lemma MulLess(a: int, b: int, d: int)
    requires 0 < d && a * d < b * d
    ensures a < b
  {
  }

  /** A chunk is never longer than the window size, and it is empty exactly when its window
      holds only whitespace (such chunks are kept). */
  lemma ChunkContent(rules: Rules, text: string, size: nat, start: nat)
    ensures |ChunkFrom(rules, text, size, start).content| <= size
    ensures ChunkFrom(rules, text, size, start).content == [] <==> AllSpace(Slice(text, start, size))
  {
    TrimBlank(Slice(text, start, size));
  }
}
