/** Embedding routing (backend/src/rag/embeddingRouter.js): sensitive chunks (PII masked,
    or a policy, safety or compliance section) are embedded by the local model, the others
    by the cloud service; the two answers are merged back into chunk order. The embedders
    themselves are outside the model and are passed in as functions. */
module EmbeddingRouter {
  import opened Wrappers

  datatype Provider = Local | Cloud

  /** A chunk as the router sees it: its text, its section (possibly absent), and whether its
      `metadata.pii_masked` is truthy. */
  datatype RagChunk = RagChunk(content: string, section: Option<string>, piiMasked: bool)

  type Embedding = seq<real>

  /** One output entry: the embedding (absent when the provider returned too few) and the
      provider that made it. */
  datatype Embedded = Embedded(embedding: Option<Embedding>, provider: Provider)

  const SensitiveSections: seq<string> := ["policy", "safety", "compliance"]

  predicate Sensitive(c: RagChunk) {
    c.piiMasked || (c.section.Some? && c.section.value in SensitiveSections)
  }

  function Route(c: RagChunk): Provider {
    if Sensitive(c) then Local else Cloud
  }

  /** The texts of the chunks routed to `p`, in chunk order. */
  function TextsFor(chunks: seq<RagChunk>, p: Provider): seq<string> {
    if chunks == [] then []
    else
      var last := chunks[|chunks| - 1];
      TextsFor(chunks[..|chunks| - 1], p) + (if Route(last) == p then [last.content] else [])
  }

  /** The number of chunks before chunk `i` that go to the same provider as it does. */
  function Rank(chunks: seq<RagChunk>, i: nat): nat
    requires i < |chunks|
  {
    |TextsFor(chunks[..i], Route(chunks[i]))|
  }

  /** `embeddings[k]`, absent (`undefined`) past the end. */
  function At(embeddings: seq<Embedding>, k: nat): Option<Embedding> {
    if k < |embeddings| then Some(embeddings[k]) else None
  }

  /** What a provider is asked to embed: nothing when it has no text. */
  function Request(texts: seq<string>): Option<seq<string>> {
    if texts == [] then None else Some(texts)
  }

  /** A provider's answer: `[]` without calling it when it has no text. */
  function Answer(embed: seq<string> -> seq<Embedding>, texts: seq<string>): seq<Embedding> {
    if texts == [] then [] else embed(texts)
  }

  /** `embedChunks`: returns the merged entries and what each embedder was asked (`None` when
      it was not called). Entry `i` comes from chunk `i`'s provider, at that chunk's rank
      among the chunks routed there. */
  method EmbedChunks(chunks: seq<RagChunk>, embedLocal: seq<string> -> seq<Embedding>,
                     embedExternal: seq<string> -> seq<Embedding>)
    returns (entries: seq<Embedded>, localRequest: Option<seq<string>>, externalRequest: Option<seq<string>>)
    ensures localRequest == Request(TextsFor(chunks, Local))
    ensures externalRequest == Request(TextsFor(chunks, Cloud))
    ensures |entries| == |chunks|
    ensures forall i :: 0 <= i < |chunks| ==>
      entries[i].provider == Route(chunks[i]) &&
      entries[i].embedding == At(Answer(if Route(chunks[i]) == Local then embedLocal else embedExternal,
                                        TextsFor(chunks, Route(chunks[i]))), Rank(chunks, i))
  {
    var localTexts, externalTexts, routing := RouteChunks(chunks);
    localRequest := Request(localTexts);
    externalRequest := Request(externalTexts);
    var localEmbeddings := if |localTexts| > 0 then embedLocal(localTexts) else [];
    var externalEmbeddings := if |externalTexts| > 0 then embedExternal(externalTexts) else [];
    entries := Merge(chunks, routing, localEmbeddings, externalEmbeddings);
  }

  /** The `forEach` pass: each chunk's route, and the texts for each provider in order. */
  method RouteChunks(chunks: seq<RagChunk>)
    returns (localTexts: seq<string>, externalTexts: seq<string>, routing: seq<Provider>)
    ensures localTexts == TextsFor(chunks, Local) && externalTexts == TextsFor(chunks, Cloud)
    ensures |routing| == |chunks| && forall k :: 0 <= k < |chunks| ==> routing[k] == Route(chunks[k])
  {
    localTexts, externalTexts, routing := [], [], [];
    var i := 0;
    while i < |chunks|
      invariant i <= |chunks|
      invariant localTexts == TextsFor(chunks[..i], Local)
      invariant externalTexts == TextsFor(chunks[..i], Cloud)
      invariant |routing| == i && forall k :: 0 <= k < i ==> routing[k] == Route(chunks[k])
    {
      assert chunks[..i + 1][..i] == chunks[..i];
      if Sensitive(chunks[i]) {
        routing := routing + [Local];
        localTexts := localTexts + [chunks[i].content];
      } else {
        routing := routing + [Cloud];
        externalTexts := externalTexts + [chunks[i].content];
      }
      i := i + 1;
    }
    assert chunks[..i] == chunks;
  }

  /** The entry the `routing.map` pass builds for chunk `k`: its provider, and that
      provider's answer at the chunk's place among the texts sent to it. */
  function EntryFor(chunks: seq<RagChunk>, localEmbeddings: seq<Embedding>, externalEmbeddings: seq<Embedding>, k: nat): Embedded
    requires k < |chunks|
  {
    Embedded(At(if Route(chunks[k]) == Local then localEmbeddings else externalEmbeddings, Rank(chunks, k)), Route(chunks[k]))
  }

  /** The `routing.map` pass: the `li`/`ei` counters walk each provider's answer in order. */
  method Merge(chunks: seq<RagChunk>, routing: seq<Provider>, localEmbeddings: seq<Embedding>,
               externalEmbeddings: seq<Embedding>) returns (entries: seq<Embedded>)
    requires |routing| == |chunks| && forall k :: 0 <= k < |chunks| ==> routing[k] == Route(chunks[k])
    ensures |entries| == |chunks|
    ensures forall k :: 0 <= k < |chunks| ==>
      entries[k].provider == Route(chunks[k]) &&
      entries[k].embedding == At(if Route(chunks[k]) == Local then localEmbeddings else externalEmbeddings, Rank(chunks, k))
  {
    var li, ei := 0, 0;
    entries := [];
    var j := 0;
    while j < |routing|
      invariant j <= |routing|
      invariant li == |TextsFor(chunks[..j], Local)| && ei == |TextsFor(chunks[..j], Cloud)|
      invariant |entries| == j
      invariant forall k :: 0 <= k < j ==> entries[k] == EntryFor(chunks, localEmbeddings, externalEmbeddings, k)
    {
      assert chunks[..j + 1][..j] == chunks[..j];
      ghost var expected := EntryFor(chunks, localEmbeddings, externalEmbeddings, j);
      var e;
      if routing[j] == Local {
        e := Embedded(At(localEmbeddings, li), Local);
        li := li + 1;
      } else {
        e := Embedded(At(externalEmbeddings, ei), Cloud);
        ei := ei + 1;
      }
      assert e == expected;
      entries := entries + [e];
      j := j + 1;
    }
  }

  /** Every chunk goes to exactly one provider. */
  lemma {:induction false} TextsPartition(chunks: seq<RagChunk>)
    ensures |TextsFor(chunks, Local)| + |TextsFor(chunks, Cloud)| == |chunks|
  {
    if chunks != [] {
      TextsPartition(chunks[..|chunks| - 1]);
    }
  }

  /** The texts of a prefix are a prefix of the texts. */
  lemma {:induction false} TextsPrefix(chunks: seq<RagChunk>, n: nat, p: Provider)
    requires n <= |chunks|
    ensures |TextsFor(chunks[..n], p)| <= |TextsFor(chunks, p)|
    ensures TextsFor(chunks[..n], p) == TextsFor(chunks, p)[..|TextsFor(chunks[..n], p)|]
    decreases |chunks| - n
  {
    if n < |chunks| {
      TextsPrefix(chunks, n + 1, p);
      assert chunks[..n + 1][..n] == chunks[..n];
    } else {
      assert chunks[..n] == chunks;
    }
  }

  /** Chunk `i`'s text is its provider's request at the chunk's rank, so entry `i` receives
      the embedding made from its own text. */
  lemma RankFindsText(chunks: seq<RagChunk>, i: nat)
    requires i < |chunks|
    ensures Rank(chunks, i) < |TextsFor(chunks, Route(chunks[i]))|
    ensures TextsFor(chunks, Route(chunks[i]))[Rank(chunks, i)] == chunks[i].content
  {
    var p := Route(chunks[i]);
    TextsPrefix(chunks, i + 1, p);
    assert chunks[..i + 1][..i] == chunks[..i];
    assert TextsFor(chunks[..i + 1], p) == TextsFor(chunks[..i], p) + [chunks[i].content];
  }

  /** Order within a provider is kept: of two chunks routed to the same provider, the earlier
      one has the smaller rank. */
  lemma RankIncreasing(chunks: seq<RagChunk>, i: nat, j: nat)
    requires i < j < |chunks| && Route(chunks[i]) == Route(chunks[j])
    ensures Rank(chunks, i) < Rank(chunks, j)
  {
    var p := Route(chunks[i]);
    var prefix := chunks[..j];
    TextsPrefix(prefix, i + 1, p);
    assert prefix[..i + 1] == chunks[..i + 1];
    assert chunks[..i + 1][..i] == chunks[..i];
    assert TextsFor(chunks[..i + 1], p) == TextsFor(chunks[..i], p) + [chunks[i].content];
  }

  /** When the provider a chunk is routed to answers one embedding per text it was sent, that
      chunk's entry has an embedding. */
  lemma EveryChunkEmbedded(chunks: seq<RagChunk>, embed: seq<string> -> seq<Embedding>, i: nat)
    requires i < |chunks|
    requires |Answer(embed, TextsFor(chunks, Route(chunks[i])))| == |TextsFor(chunks, Route(chunks[i]))|
    ensures At(Answer(embed, TextsFor(chunks, Route(chunks[i]))), Rank(chunks, i)).Some?
  {
    RankFindsText(chunks, i);
  }
}
