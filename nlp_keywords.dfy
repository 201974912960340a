/** Keyword extraction of the enterprise document analyser (`extract_enterprise_keywords`):
    letter-only words of at least three letters, stop words removed, ranked by frequency
    with ties in first-occurrence order, top twenty kept. */
module NlpKeywords {
  import opened Text
  import opened Sequences

  /** The stop words the processor is constructed with; the operations below take the set
      as a parameter, as the processor keeps it as instance state. */
  const StopWords: set<string> := {
    "the", "a", "an", "and", "or", "but", "in", "on", "at", "to", "for",
    "of", "with", "by", "is", "are", "was", "were", "be", "been", "being",
    "have", "has", "had", "do", "does", "did", "will", "would", "could",
    "should", "may", "might", "must", "shall", "can", "this", "that",
    "these", "those", "i", "you", "he", "she", "it", "we", "they", "me",
    "him", "her", "us", "them", "my", "your", "his", "her", "its", "our",
    "their", "mine", "yours", "hers", "ours", "theirs"
  }

  /** How many keywords the extraction returns at most. */
  const MaxKeywords: nat := 20

  /** The length of the run of word characters at the start of `s`. */
  function WordRun(s: string): (n: nat)
    ensures n <= |s|
    ensures forall i :: 0 <= i < n ==> IsWordChar(s[i])
    ensures n < |s| ==> !IsWordChar(s[n])
  {
    if s != [] && IsWordChar(s[0]) then 1 + WordRun(s[1..]) else 0
  }

  predicate AllLetters(w: string) {
    forall i :: 0 <= i < |w| ==> IsLetter(w[i])
  }

  /** The matches of `\b[A-Za-z]{3,}\b`: the maximal runs of word characters that are made of
      letters only and are at least three long, in order. */
  function Tokens(s: string): (words: seq<string>)
    decreases |s|
  {
    if s == [] then []
    else if !IsWordChar(s[0]) then Tokens(s[1..])
    else
      var n := WordRun(s);
      (if n >= 3 && AllLetters(s[..n]) then [s[..n]] else []) + Tokens(s[n..])
  }

  /** Every token has at least three letters and contains no character absent from `s`. */
  lemma {:induction false} TokensShape(s: string)
    ensures forall k :: 0 <= k < |Tokens(s)| ==>
      |Tokens(s)[k]| >= 3 && AllLetters(Tokens(s)[k]) &&
      forall i :: 0 <= i < |Tokens(s)[k]| ==> Tokens(s)[k][i] in s
    decreases |s|
  {
    if s != [] {
      if !IsWordChar(s[0]) {
        TokensShape(s[1..]);
      } else {
        var n := WordRun(s);
        TokensShape(s[n..]);
        var head := if n >= 3 && AllLetters(s[..n]) then [s[..n]] else [];
        assert Tokens(s) == head + Tokens(s[n..]);
      }
    }
  }

  predicate IsCandidate(stopWords: set<string>, w: string) {
    w !in stopWords && |w| > 2
  }

  /** The filter condition of the keyword comprehension. */
  function CandidateTest(stopWords: set<string>): string -> bool {
    w => IsCandidate(stopWords, w)
  }

  /** The tokens of the lower-cased text that survive the stop-word and length filter. */
  function Candidates(stopWords: set<string>, text: string): seq<string> {
    Filter(Tokens(Lower(text)), CandidateTest(stopWords))
  }

  /** Each candidate is a lower-case word of at least three letters that is not a stop word. */
  lemma CandidateShape(stopWords: set<string>, text: string, k: nat)
    requires k < |Candidates(stopWords, text)|
    ensures var w := Candidates(stopWords, text)[k];
      |w| >= 3 && w !in stopWords && forall i :: 0 <= i < |w| ==> IsLower(w[i])
  {
    var tokens := Tokens(Lower(text));
    var w := Candidates(stopWords, text)[k];
    TokensShape(Lower(text));
    FilterSpec(tokens, CandidateTest(stopWords));
    assert w in tokens;
    forall i | 0 <= i < |w| ensures IsLower(w[i]) {
      assert w[i] in Lower(text);
    }
  }

  /** The frequency of a candidate word. */
  function Frequency(stopWords: set<string>, text: string): string -> int {
    w => Count(Candidates(stopWords, text), w)
  }

  /** The distinct candidates ranked by non-increasing frequency, ties in first-occurrence order. */
  function Ranking(stopWords: set<string>, text: string): seq<string> {
    SortDesc(Dedup(Candidates(stopWords, text)), Frequency(stopWords, text))
  }

  function Take<T>(s: seq<T>, n: nat): (r: seq<T>)
    ensures |r| <= n && |r| <= |s|
    ensures |r| == n || r == s
    ensures r == s[..|r|]
  {
    if |s| <= n then s else s[..n]
  }

  /** The counting loop: `order` holds the distinct words in first-occurrence order and
      `freq` maps each of them, and nothing else, to its number of occurrences. */
  method CountFrequencies(words: seq<string>) returns (order: seq<string>, freq: map<string, nat>)
    ensures order == Dedup(words)
    ensures forall w :: w in freq <==> w in words
    ensures forall w :: w in freq ==> freq[w] == Count(words, w)
  {
    order, freq := [], map[];
    for i := 0 to |words|
      invariant order == Dedup(words[..i])
      invariant forall w :: w in freq <==> w in words[..i]
      invariant forall w :: w in freq ==> freq[w] == Count(words[..i], w)
    {
      var w := words[i];
      assert words[..i + 1] == words[..i] + [w];
      DedupSpec(words[..i]);
      if w in freq {
        freq := freq[w := freq[w] + 1];
      } else {
        order := order + [w];
        freq := freq[w := 1];
      }
    }
    assert words[..|words|] == words;
  }

  /** `extract_enterprise_keywords`: the first twenty words of the ranking. */
  method ExtractKeywords(stopWords: set<string>, text: string) returns (keywords: seq<string>)
    ensures keywords == Take(Ranking(stopWords, text), MaxKeywords)
  {
    var candidates := Candidates(stopWords, text);
    var order, freq := CountFrequencies(candidates);
    var key := (w: string) => if w in freq then freq[w] as int else 0;
    SortDescKeysAgree(order, key, Frequency(stopWords, text));
    keywords := Take(SortDesc(order, key), MaxKeywords);
  }

  // ---------------------------------------------------------------------------
  // What the ranking promises

  /** At most twenty keywords, no word twice, each a lower-case word of three or more
      letters that is not a stop word and occurs in the text's candidates. */
  lemma KeywordsShape(stopWords: set<string>, text: string)
    ensures var r := Take(Ranking(stopWords, text), MaxKeywords);
      |r| <= MaxKeywords && Distinct(r) &&
      forall k :: 0 <= k < |r| ==>
        r[k] in Candidates(stopWords, text) && |r[k]| >= 3 && r[k] !in stopWords &&
        forall i :: 0 <= i < |r[k]| ==> IsLower(r[k][i])
  {
    var d := Dedup(Candidates(stopWords, text));
    var ranking := Ranking(stopWords, text);
    var r := Take(ranking, MaxKeywords);
    DedupSpec(Candidates(stopWords, text));
    SortDescSpec(d, Frequency(stopWords, text));
    DistinctByMultiset(d, ranking);
    forall k | 0 <= k < |r|
      ensures r[k] in Candidates(stopWords, text) && |r[k]| >= 3 && r[k] !in stopWords &&
        forall i :: 0 <= i < |r[k]| ==> IsLower(r[k][i])
    {
      assert r[k] == ranking[k];
      assert ranking[k] in multiset(d);
      var j := FirstIndex(Candidates(stopWords, text), r[k]);
      CandidateShape(stopWords, text, j);
    }
  }

  /** A permutation of a sequence without repetitions has none either. */
  lemma DistinctByMultiset<T>(a: seq<T>, b: seq<T>)
    requires Distinct(a) && multiset(a) == multiset(b)
    ensures Distinct(b)
  {
    forall i, j | 0 <= i < j < |b| ensures b[i] != b[j] {
      AtMostOnce(a, b[i]);
      Occurrences(b, i, j);
    }
  }

  lemma {:induction false} AtMostOnce<T>(a: seq<T>, x: T)
    requires Distinct(a)
    ensures multiset(a)[x] <= 1
  {
    if a != [] {
      assert a == [a[0]] + a[1..];
      AtMostOnce(a[1..], x);
      if a[0] == x {
        assert x !in a[1..];
      }
    }
  }

  lemma Occurrences<T>(b: seq<T>, i: nat, j: nat)
    requires i < j < |b|
    ensures multiset(b)[b[i]] >= 1 + (if b[i] == b[j] then 1 else 0)
  {
    assert b == b[..i] + [b[i]] + b[i + 1..j] + [b[j]] + b[j + 1..];
  }

  /** Keywords come by non-increasing frequency. */
  lemma KeywordsByFrequency(stopWords: set<string>, text: string, i: nat, j: nat)
    requires i < j < |Take(Ranking(stopWords, text), MaxKeywords)|
    ensures var r := Take(Ranking(stopWords, text), MaxKeywords);
      Count(Candidates(stopWords, text), r[i]) >= Count(Candidates(stopWords, text), r[j])
  {
    var r := Take(Ranking(stopWords, text), MaxKeywords);
    SortDescSpec(Dedup(Candidates(stopWords, text)), Frequency(stopWords, text));
    assert r[i] == Ranking(stopWords, text)[i] && r[j] == Ranking(stopWords, text)[j];
  }

  /** Among words of equal frequency the ranking keeps first-occurrence order: the words of
      any given frequency appear in it exactly as in the distinct candidates in text order. */
  lemma RankingStable(stopWords: set<string>, text: string, f: int)
    ensures WithKey(Ranking(stopWords, text), Frequency(stopWords, text), f) == WithKey(Dedup(Candidates(stopWords, text)), Frequency(stopWords, text), f)
    ensures InFirstOccurrenceOrder(Dedup(Candidates(stopWords, text)), Candidates(stopWords, text))
  {
    SortDescSpec(Dedup(Candidates(stopWords, text)), Frequency(stopWords, text));
    DedupFirstOccurrenceOrder(Candidates(stopWords, text));
  }

  /** A candidate left out of the keywords is no more frequent than any keyword, and is only
      left out when twenty keywords were already chosen. */
  lemma DroppedNoMoreFrequent(stopWords: set<string>, text: string, w: string)
    requires w in Candidates(stopWords, text) && w !in Take(Ranking(stopWords, text), MaxKeywords)
    ensures var r := Take(Ranking(stopWords, text), MaxKeywords);
      |r| == MaxKeywords &&
      forall k :: 0 <= k < |r| ==> Count(Candidates(stopWords, text), r[k]) >= Count(Candidates(stopWords, text), w)
  {
    var ranking := Ranking(stopWords, text);
    var d := Dedup(Candidates(stopWords, text));
    DedupSpec(Candidates(stopWords, text));
    SortDescSpec(d, Frequency(stopWords, text));
    assert w in d;
    assert w in multiset(ranking);
    var p := FirstIndex(ranking, w);
    var r := Take(ranking, MaxKeywords);
    assert forall q :: 0 <= q < |r| ==> r[q] == ranking[q];
    assert p >= |r|;
    forall k | 0 <= k < |r| ensures Count(Candidates(stopWords, text), r[k]) >= Count(Candidates(stopWords, text), w) {
      assert r[k] == ranking[k];
    }
  }
}
