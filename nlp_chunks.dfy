/** Sliding-window chunk analysis of the enterprise document analyser (`chunk_analysis`):
    windows of `chunkSize` characters start every `chunkSize - overlap` characters; a
    window that is blank after trimming is skipped, every other one is described by its
    section, PII report, keywords and position. */
module NlpChunks {
  import opened Text
  import opened NlpSections
  import opened NlpPii
  import opened NlpKeywords
  import opened Sequences

  /** The tables a processor is constructed with: its section rules and its stop words (the
      PII patterns are the fixed `PiiPatterns`). */
  datatype Processor = Processor(sectionRules: Rules, stopWords: set<string>)

  /** The processor built by the constructor. */
  const Enterprise: Processor := Processor(SectionRules, StopWords)

  /** How many keywords a chunk reports at most. */
  const ChunkKeywords: nat := 10

  datatype ChunkInfo = ChunkInfo(
    index: nat,
    content: string,
    length: nat,
    section: string,
    keywords: seq<string>,
    pii: PiiReport,
    startPosition: nat,
    endPosition: nat,
    piiMasked: bool,
    sectionConfidence: real)

  /** The end of the window starting at `start`, cut at the end of the text. */
  function WindowEnd(text: string, size: nat, start: nat): (e: nat)
    requires start < |text| && 0 < size
    ensures start < e <= |text|
  {
    Min(start + size, |text|)
  }

  /** The trimmed content of the window starting at `start`. */
  function Window(text: string, size: nat, start: nat): string
    requires start < |text| && 0 < size
  {
    Trim(text[start..WindowEnd(text, size, start)])
  }

  /** `p` is one of `start`, `start + stride`, `start + 2 * stride`, ... */
  predicate OnGrid(p: nat, start: nat, stride: nat)
    requires 0 < stride
    decreases p - start
  {
    p == start || (p >= start + stride && OnGrid(p, start + stride, stride))
  }

  /** The window starting at `start` holds only whitespace, so trimming leaves nothing. */
  predicate Blank(text: string, size: nat, start: nat)
    requires start < |text| && 0 < size
  {
    AllSpace(text[start..WindowEnd(text, size, start)])
  }

  /** The window starts `start`, `start + stride`, ... below `|text|` whose window is not
      blank after trimming, in order. */
  function EmittedFrom(text: string, size: nat, stride: nat, start: nat): seq<nat>
    requires 0 < size && 0 < stride
    decreases |text| - start
  {
    if start >= |text| then []
    else (if !Blank(text, size, start) then [start] else []) + EmittedFrom(text, size, stride, start + stride)
  }

  /** The starts of the windows `chunk_analysis` reports on. */
  function EmittedStarts(text: string, size: nat, stride: nat): seq<nat>
    requires 0 < size && 0 < stride
  {
    EmittedFrom(text, size, stride, 0)
  }

  /** Exactly the grid positions below `|text|` with a non-blank window are listed. */
  lemma {:induction false} EmittedExactly(text: string, size: nat, stride: nat, start: nat, p: nat)
    requires 0 < size && 0 < stride
    ensures p in EmittedFrom(text, size, stride, start)
        <==> start <= p < |text| && OnGrid(p, start, stride) && !Blank(text, size, p)
    decreases |text| - start
  {
    if start < |text| {
      EmittedExactly(text, size, stride, start + stride, p);
      var head: seq<nat> := if !Blank(text, size, start) then [start] else [];
      var rest := EmittedFrom(text, size, stride, start + stride);
      assert EmittedFrom(text, size, stride, start) == head + rest;
      assert p in head + rest <==> p in head || p in rest;
      assert p in head <==> p == start && !Blank(text, size, start);
      if p != start {
        assert OnGrid(p, start, stride) <==> p >= start + stride && OnGrid(p, start + stride, stride);
      }
    }
  }

  /** The listed starts rise strictly. */
  lemma {:induction false} EmittedIncreasing(text: string, size: nat, stride: nat, start: nat)
    requires 0 < size && 0 < stride
    ensures forall i :: 0 <= i < |EmittedFrom(text, size, stride, start)| ==> start <= EmittedFrom(text, size, stride, start)[i]
    ensures forall i, j :: 0 <= i < j < |EmittedFrom(text, size, stride, start)| ==>
      EmittedFrom(text, size, stride, start)[i] < EmittedFrom(text, size, stride, start)[j]
    decreases |text| - start
  {
    if start < |text| {
      EmittedIncreasing(text, size, stride, start + stride);
    }
  }

  /** What a chunk reports about the window starting at its `startPosition`. */
  predicate Describes(p: Processor, findAll: (PiiPattern, string) -> seq<string>, text: string, size: nat, c: ChunkInfo)
    requires 0 < size
  {
    c.startPosition < |text| &&
    c.endPosition == WindowEnd(text, size, c.startPosition) &&
    c.content == Window(text, size, c.startPosition) && c.content != [] &&
    c.length == |c.content| && c.length <= size &&
    SectionChoice(p.sectionRules, c.content, c.section) &&
    PiiReportOf(findAll, c.content, c.pii) &&
    c.piiMasked == c.pii.requiresMasking &&
    c.keywords == Take(Take(Ranking(p.stopWords, c.content), MaxKeywords), ChunkKeywords) &&
    c.sectionConfidence == SectionConfidence(p.sectionRules, c.content, c.section)
  }

  /** The start positions of `chunks`, in order. */
  function StartsOf(chunks: seq<ChunkInfo>): (starts: seq<nat>)
    ensures |starts| == |chunks|
  {
    if chunks == [] then [] else StartsOf(chunks[..|chunks| - 1]) + [chunks[|chunks| - 1].startPosition]
  }

  lemma {:induction false} StartsOfIndex(chunks: seq<ChunkInfo>)
    ensures forall k :: 0 <= k < |chunks| ==> StartsOf(chunks)[k] == chunks[k].startPosition
  {
    if chunks != [] {
      var init := chunks[..|chunks| - 1];
      StartsOfIndex(init);
      assert forall k :: 0 <= k < |init| ==> chunks[k] == init[k];
    }
  }

  /** The description of one non-blank window (the body of the `if chunk_content:` branch). */
  method AnalyzeWindow(p: Processor, findAll: (PiiPattern, string) -> seq<string>, text: string, size: nat, start: nat, index: nat)
    returns (c: ChunkInfo)
    requires LabelsNotGeneral(p.sectionRules)
    requires 0 < size && start < |text| && Window(text, size, start) != []
    ensures c.index == index && c.startPosition == start && Describes(p, findAll, text, size, c)
  {
    var end := start + size;
    var content := Window(text, size, start);
    var section := DetectSection(p.sectionRules, content);
    var piiInfo := DetectPii(findAll, content);
    var keywords := ExtractKeywords(p.stopWords, content);
    c := ChunkInfo(index, content, |content|, section, Take(keywords, ChunkKeywords), piiInfo,
                   start, Min(end, |text|), piiInfo.requiresMasking, SectionConfidence(p.sectionRules, content, section));
  }

  /** One step of the window loop: the start either joins the emitted prefix or is skipped. */
  lemma EmittedStep(text: string, size: nat, stride: nat, start: nat, prefix: seq<nat>)
    requires 0 < size && 0 < stride && start < |text|
    ensures !Blank(text, size, start) ==>
      prefix + EmittedFrom(text, size, stride, start) == (prefix + [start]) + EmittedFrom(text, size, stride, start + stride)
    ensures Blank(text, size, start) ==>
      prefix + EmittedFrom(text, size, stride, start) == prefix + EmittedFrom(text, size, stride, start + stride)
  {
    var rest := EmittedFrom(text, size, stride, start + stride);
    if !Blank(text, size, start) {
      assert prefix + ([start] + rest) == (prefix + [start]) + rest;
    } else {
      assert EmittedFrom(text, size, stride, start) == rest;
    }
  }

  lemma StartsOfAppend(chunks: seq<ChunkInfo>, c: ChunkInfo)
    ensures StartsOf(chunks + [c]) == StartsOf(chunks) + [c.startPosition]
  {
    assert (chunks + [c])[..|chunks|] == chunks;
  }

  /** Chunk `i` is numbered `i` and describes its window. */
  function DescribedAt(p: Processor, findAll: (PiiPattern, string) -> seq<string>, text: string, size: nat): (nat, ChunkInfo) -> bool {
    (i: nat, c: ChunkInfo) => 0 < size && c.index == i && Describes(p, findAll, text, size, c)
  }

  /** Chunk `k` of `chunks` is numbered `k` and describes its window (stated chunk by chunk
      from the last one; `DescribedEach` gives the quantified form). */
  predicate AllDescribed(p: Processor, findAll: (PiiPattern, string) -> seq<string>, text: string, size: nat, chunks: seq<ChunkInfo>) {
    NumberedAll(DescribedAt(p, findAll, text, size), chunks)
  }

  lemma DescribedAppend(p: Processor, findAll: (PiiPattern, string) -> seq<string>, text: string, size: nat, chunks: seq<ChunkInfo>, c: ChunkInfo)
    requires 0 < size && AllDescribed(p, findAll, text, size, chunks)
    requires c.index == |chunks| && Describes(p, findAll, text, size, c)
    ensures AllDescribed(p, findAll, text, size, chunks + [c])
  {
    NumberedAppend(DescribedAt(p, findAll, text, size), chunks, c);
  }

  lemma DescribedEach(p: Processor, findAll: (PiiPattern, string) -> seq<string>, text: string, size: nat, chunks: seq<ChunkInfo>)
    requires 0 < size && AllDescribed(p, findAll, text, size, chunks)
    ensures forall k :: 0 <= k < |chunks| ==> chunks[k].index == k && Describes(p, findAll, text, size, chunks[k])
  {
    var P := DescribedAt(p, findAll, text, size);
    NumberedEach(P, chunks);
    forall k | 0 <= k < |chunks| ensures chunks[k].index == k && Describes(p, findAll, text, size, chunks[k]) {
      assert P(k, chunks[k]);
    }
  }

  /** The chunks so far start where the emitted starts before `start` do: followed by the
      starts still to come from `start` on, they give `all`. */
  predicate Tracks(text: string, size: nat, stride: nat, chunks: seq<ChunkInfo>, start: nat, all: seq<nat>)
    requires 0 < size && 0 < stride
  {
    StartsOf(chunks) + EmittedFrom(text, size, stride, start) == all
  }

  /** One pass of the window loop: the window at `start` is described and appended unless
      it is blank after trimming. The emitted starts still to come shift by one window. */
  method StepWindow(p: Processor, findAll: (PiiPattern, string) -> seq<string>, text: string, size: nat, stride: nat,
                    start: nat, chunks: seq<ChunkInfo>, ghost all: seq<nat>)
    returns (next: seq<ChunkInfo>, nextStart: nat)
    requires LabelsNotGeneral(p.sectionRules)
    requires 0 < size && 0 < stride && start < |text|
    requires AllDescribed(p, findAll, text, size, chunks)
    requires Tracks(text, size, stride, chunks, start, all)
    ensures nextStart == start + stride
    ensures Tracks(text, size, stride, next, nextStart, all)
    ensures AllDescribed(p, findAll, text, size, next)
  {
    WindowBlank(text, size, start);
    if Window(text, size, start) != [] {
      next := AppendWindow(p, findAll, text, size, start, chunks);
    } else {
      next := chunks;
      assert StartsOf(next) == StartsOf(chunks) + [];
    }
    nextStart := start + stride;
    TracksStep(text, size, stride, start, nextStart, chunks, next, all);
  }

  /** A window is empty after trimming exactly when it is blank. */
  lemma WindowBlank(text: string, size: nat, start: nat)
    requires start < |text| && 0 < size
    ensures Window(text, size, start) == [] <==> Blank(text, size, start)
  {
    TrimBlank(text[start..WindowEnd(text, size, start)]);
  }

  /** The chunks with the non-blank window at `start` described and appended. */
  method AppendWindow(p: Processor, findAll: (PiiPattern, string) -> seq<string>, text: string, size: nat,
                      start: nat, chunks: seq<ChunkInfo>)
    returns (next: seq<ChunkInfo>)
    requires LabelsNotGeneral(p.sectionRules)
    requires 0 < size && start < |text| && Window(text, size, start) != []
    requires AllDescribed(p, findAll, text, size, chunks)
    ensures StartsOf(next) == StartsOf(chunks) + [start]
    ensures AllDescribed(p, findAll, text, size, next)
  {
    var c := AnalyzeWindow(p, findAll, text, size, start, |chunks|);
    StartsOfAppend(chunks, c);
    DescribedAppend(p, findAll, text, size, chunks, c);
    next := chunks + [c];
  }

  /** Passing the window at `start` keeps `Tracks` when the chunks gain that start exactly
      when the window is not blank. */
  lemma TracksStep(text: string, size: nat, stride: nat, start: nat, nextStart: nat, chunks: seq<ChunkInfo>, next: seq<ChunkInfo>, all: seq<nat>)
    requires 0 < size && 0 < stride && start < |text| && nextStart == start + stride
    requires Tracks(text, size, stride, chunks, start, all)
    requires StartsOf(next) == StartsOf(chunks) + (if Blank(text, size, start) then [] else [start])
    ensures Tracks(text, size, stride, next, nextStart, all)
  {
    EmittedStep(text, size, stride, start, StartsOf(chunks));
  }

  /** `chunk_analysis`: one chunk per emitted window start, in order, numbered from 0, each
      describing its window. The loop advances by `chunkSize - overlap` and terminates only
      because that step is positive. */
  method ChunkAnalysis(p: Processor, findAll: (PiiPattern, string) -> seq<string>, text: string, chunkSize: nat, overlap: nat)
    returns (chunks: seq<ChunkInfo>)
    requires LabelsNotGeneral(p.sectionRules)
    requires overlap < chunkSize
    ensures StartsOf(chunks) == EmittedStarts(text, chunkSize, chunkSize - overlap)
    ensures forall k :: 0 <= k < |chunks| ==> chunks[k].index == k && Describes(p, findAll, text, chunkSize, chunks[k])
  {
    chunks := [];
    var start: nat := 0;
    ghost var all := EmittedStarts(text, chunkSize, chunkSize - overlap);
    while start < |text|
      invariant Tracks(text, chunkSize, chunkSize - overlap, chunks, start, all)
      invariant AllDescribed(p, findAll, text, chunkSize, chunks)
      decreases |text| - start
    {
      chunks, start := StepWindow(p, findAll, text, chunkSize, chunkSize - overlap, start, chunks, all);
    }
    LoopExit(p, findAll, text, chunkSize, chunkSize - overlap, chunks, start);
  }

  /** Once the cursor is past the text, the chunks collected are the whole answer. */
  lemma {:induction false} LoopExit(p: Processor, findAll: (PiiPattern, string) -> seq<string>, text: string, size: nat, stride: nat,
                 chunks: seq<ChunkInfo>, start: nat)
    requires 0 < size && 0 < stride && |text| <= start
    requires Tracks(text, size, stride, chunks, start, EmittedStarts(text, size, stride))
    requires AllDescribed(p, findAll, text, size, chunks)
    ensures StartsOf(chunks) == EmittedStarts(text, size, stride)
    ensures forall k :: 0 <= k < |chunks| ==> chunks[k].index == k && Describes(p, findAll, text, size, chunks[k])
  {
    assert EmittedFrom(text, size, stride, start) == [];
    assert StartsOf(chunks) + [] == StartsOf(chunks);
    DescribedEach(p, findAll, text, size, chunks);
  }
}
