/** Noise filtering (backend/src/nlp/noiseFilter.js): sentences that look like page headers,
    legal boilerplate or a table of contents are dropped; the others are kept in order. */
module NoiseFilter {
  import opened Text
  import opened Sequences

  /** The phrases that mark boilerplate, anywhere in a sentence and in any case. */
  const NoisePhrases: seq<string> := ["confidential", "copyright", "all rights reserved", "table of contents"]

  /** `/^page \d+/i` on the lower-cased sentence: "page ", then a digit. */
  predicate PageHeader(lowered: string) {
    |lowered| > 5 && lowered[..5] == "page " && IsDigit(lowered[5])
  }

  /** Some pattern of `NOISE_PATTERNS` matches the sentence. The patterns are ASCII and
      case-insensitive, so matching the lower-cased sentence is the same. */
  predicate IsNoise(sentence: string) {
    var lowered := Lower(sentence);
    PageHeader(lowered) || ContainsAny(lowered, NoisePhrases)
  }

  /** The filter's condition: no pattern matches. */
  function Keep(sentence: string): bool { !IsNoise(sentence) }

  /** `filterNoise`. */
  function FilterNoise(sentences: seq<string>): seq<string> {
    Filter(sentences, Keep)
  }

  /** The output is the input with sentences left out, in input order; a sentence is in
      the output exactly when it is in the input and no pattern matches it. */
  lemma FilterNoiseSpec(sentences: seq<string>)
    ensures IsSubsequence(FilterNoise(sentences), sentences)
    ensures forall x :: x in FilterNoise(sentences) <==> x in sentences && !IsNoise(x)
  {
    FilterSubsequence(sentences, Keep);
    FilterSpec(sentences, Keep);
    forall x | x in sentences && !IsNoise(x)
      ensures x in FilterNoise(sentences)
    {
      var i :| 0 <= i < |sentences| && sentences[i] == x;
    }
  }

  /** Filtering twice drops nothing more. */
  lemma FilterNoiseIdempotent(sentences: seq<string>)
    ensures FilterNoise(FilterNoise(sentences)) == FilterNoise(sentences)
  {
    FilterIdempotent(sentences, Keep);
  }

  /** Noise is recognised in any letter case. */
  lemma NoiseIgnoresCase(sentence: string)
    ensures IsNoise(Lower(sentence)) <==> IsNoise(sentence)
  {
    LowerIdempotent(sentence);
  }

  /** A page header such as "Page 12 of 40" is noise. */
  lemma PageHeaderIsNoise()
    ensures IsNoise("Page 12 of 40")
  {
    assert Lower("Page 12 of 40")[..5] == "page ";
  }
}
