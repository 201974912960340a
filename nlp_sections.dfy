/** Section scoring of the enterprise document analyser (`EnterpriseNLPProcessor` in
    backend/tests/system/scripts/nlp_runner.py): every section of an ordered rule table is
    scored by the keywords found in the lower-cased text, and the best section wins. */
module NlpSections {
  import opened Text
  import opened Wrappers

  /** A rule table: section labels with their keywords, in declaration order (Python dicts
      iterate in insertion order). The processor keeps its table as instance state, so the
      operations below take it as a parameter. */
  type Rules = seq<(string, seq<string>)>

  /** The table the processor is constructed with. */
  const SectionRules: Rules := [
    ("safety", ["safety", "ppe", "hazard", "emergency", "risk", "incident",
                "accident", "protective equipment", "lockout", "tagout", "msds",
                "safety data sheet", "personal protective", "fire safety"]),
    ("policy", ["policy", "rules", "guidelines", "compliance", "code of conduct",
                "regulation", "governance", "standard", "requirement", "mandate"]),
    ("procedure", ["procedure", "steps", "process", "workflow", "how to", "instructions",
                   "sop", "standard operating", "checklist", "protocol", "method"]),
    ("technical", ["architecture", "system", "technical", "implementation", "configuration",
                   "api", "database", "specification", "design", "engineering", "maintenance"]),
    ("training", ["training", "course", "learning", "certification", "workshop",
                  "curriculum", "education", "skill", "competency", "qualification"]),
    ("equipment", ["equipment", "machinery", "device", "instrument", "tool", "asset",
                   "pump", "motor", "valve", "sensor", "controller", "plc", "scada"]),
    ("maintenance", ["maintenance", "repair", "service", "inspection", "calibration",
                     "preventive", "corrective", "overhaul", "replacement", "troubleshooting"]),
    ("quality", ["quality", "inspection", "testing", "validation", "verification",
                 "audit", "review", "assessment", "standard", "iso", "certification"])
  ]

  const General: string := "general"

  /** No rule is labelled "general", the answer kept for text no rule scores. */
  predicate LabelsNotGeneral(rules: Rules) {
    forall i :: 0 <= i < |rules| ==> rules[i].0 != General
  }

  /** A keyword weighs as many points as it has words. */
  function KeywordWeight(keyword: string): nat {
    |SplitWords(keyword)|
  }

  /** The points `keywords` earn against already lower-cased text, summed left to right. */
  function KeywordScore(normalized: string, keywords: seq<string>): nat {
    if keywords == [] then 0
    else
      var last := keywords[|keywords| - 1];
      KeywordScore(normalized, keywords[..|keywords| - 1])
        + (if Contains(normalized, last) then KeywordWeight(last) else 0)
  }

  /** The score of rule `i` for `text`. */
  function SectionScore(rules: Rules, text: string, i: nat): nat
    requires i < |rules|
  {
    KeywordScore(Lower(text), rules[i].1)
  }

  /** A section scores zero exactly when none of its keywords occurs (every keyword has a word). */
  lemma {:induction false} KeywordScoreZero(normalized: string, keywords: seq<string>)
    requires forall k :: 0 <= k < |keywords| ==> KeywordWeight(keywords[k]) > 0
    ensures KeywordScore(normalized, keywords) == 0
        <==> forall k :: 0 <= k < |keywords| ==> !Contains(normalized, keywords[k])
  {
    if keywords != [] {
      var init, last := keywords[..|keywords| - 1], keywords[|keywords| - 1];
      assert keywords == init + [last];
      KeywordScoreZero(normalized, init);
      assert KeywordWeight(last) > 0;
    }
  }

  /** Rule `i` has the best score for `text`, and is the first rule to have it. */
  predicate FirstBest(rules: Rules, text: string, i: nat)
    requires i < |rules|
  {
    SectionScore(rules, text, i) > 0
    && (forall j :: 0 <= j < |rules| ==> SectionScore(rules, text, j) <= SectionScore(rules, text, i))
    && (forall j :: 0 <= j < i ==> SectionScore(rules, text, j) < SectionScore(rules, text, i))
  }

  /** The section `detect_section` may answer for `text`: "general" exactly when no rule
      scores, otherwise the label of the first rule with the best score. */
  predicate SectionChoice(rules: Rules, text: string, section: string) {
    (section == General <==> forall i :: 0 <= i < |rules| ==> SectionScore(rules, text, i) == 0) &&
    (section != General ==>
      exists i :: 0 <= i < |rules| && section == rules[i].0 && FirstBest(rules, text, i))
  }

  /** Only one section satisfies `SectionChoice`: detection is deterministic. */
  lemma SectionChoiceUnique(rules: Rules, text: string, a: string, b: string)
    requires SectionChoice(rules, text, a) && SectionChoice(rules, text, b)
    ensures a == b
  {
    if a != General {
      var i :| 0 <= i < |rules| && a == rules[i].0 && FirstBest(rules, text, i);
      var j :| 0 <= j < |rules| && b == rules[j].0 && FirstBest(rules, text, j);
      assert !(i < j) && !(j < i);
    }
  }

  /** `detect_section`: "general" when every section scores zero, otherwise the first section
      (in declaration order) whose score is maximal. */
  method DetectSection(rules: Rules, text: string) returns (section: string)
    requires LabelsNotGeneral(rules)
    ensures SectionChoice(rules, text, section)
  {
    var normalized := Lower(text);
    var scores: seq<nat> := [];
    for i := 0 to |rules|
      invariant |scores| == i
      invariant forall k :: 0 <= k < i ==> scores[k] == SectionScore(rules, text, k)
    {
      var keywords := rules[i].1;
      var score := 0;
      for j := 0 to |keywords|
        invariant score == KeywordScore(normalized, keywords[..j])
      {
        assert keywords[..j + 1][..j] == keywords[..j];
        if Contains(normalized, keywords[j]) {
          score := score + KeywordWeight(keywords[j]);
        }
      }
      assert keywords[..|keywords|] == keywords;
      scores := scores + [score];
    }
    if scores == [] {
      return General;
    }
    // `max(section_scores, key=section_scores.get)` keeps the first maximal key.
    var best := 0;
    for i := 1 to |scores|
      invariant 0 <= best < i
      invariant forall j :: 0 <= j < i ==> scores[j] <= scores[best]
      invariant forall j :: 0 <= j < best ==> scores[j] < scores[best]
    {
      if scores[i] > scores[best] {
        best := i;
      }
    }
    if scores[best] > 0 {
      section := rules[best].0;
      assert FirstBest(rules, text, best);
      assert section != General;
    } else {
      section := General;
    }
  }

  /** `section_rules.get(section, [])`: the keywords of the first rule with that label, and
      none for any other name (see `RuleKeywordsFound`). */
  function RuleKeywords(rules: Rules, section: string): seq<string> {
    RuleKeywordsFrom(rules, section, 0)
  }

  function RuleKeywordsFrom(rules: Rules, section: string, from: nat): seq<string>
    requires from <= |rules|
    decreases |rules| - from
  {
    if from == |rules| then []
    else if rules[from].0 == section then rules[from].1
    else RuleKeywordsFrom(rules, section, from + 1)
  }

  /** Keywords are found only for a label of the table, and they are that rule's keywords. */
  lemma {:induction false} RuleKeywordsFound(rules: Rules, section: string, from: nat)
    requires from <= |rules|
    ensures RuleKeywordsFrom(rules, section, from) != [] ==>
      exists i :: from <= i < |rules| && rules[i] == (section, RuleKeywordsFrom(rules, section, from))
    decreases |rules| - from
  {
    if from < |rules| && rules[from].0 != section {
      RuleKeywordsFound(rules, section, from + 1);
    }
  }

  /** The number of `keywords` occurring in `normalized`. */
  function MatchCount(normalized: string, keywords: seq<string>): (n: nat)
    ensures n <= |keywords|
  {
    if keywords == [] then 0
    else (if Contains(normalized, keywords[0]) then 1 else 0) + MatchCount(normalized, keywords[1..])
  }

  /** At most every keyword matches; all of them exactly when each occurs, none exactly
      when none occurs. */
  lemma {:induction false} MatchCountBounds(normalized: string, keywords: seq<string>)
    ensures MatchCount(normalized, keywords) == |keywords|
      <==> forall k :: 0 <= k < |keywords| ==> Contains(normalized, keywords[k])
    ensures MatchCount(normalized, keywords) == 0
      <==> forall k :: 0 <= k < |keywords| ==> !Contains(normalized, keywords[k])
  {
    if keywords != [] {
      MatchCountBounds(normalized, keywords[1..]);
      assert forall k :: 1 <= k < |keywords| ==> keywords[k] == keywords[1..][k - 1];
    }
  }

  /** `min(m / n, 1.0)` for `m <= n`, which never needs the cap. */
  function Share(m: nat, n: nat): (r: real)
    requires 0 < n && m <= n
    ensures 0.0 <= r <= 1.0
    ensures r == 1.0 <==> m == n
    ensures r == 0.0 <==> m == 0
  {
    var ratio := m as real / n as real;
    assert ratio * n as real == m as real;
    if ratio < 1.0 then ratio else 1.0
  }

  /** `_calculate_section_confidence`: 0.5 for "general" and for a name without a rule,
      otherwise the share of the section's keywords present in the lower-cased text. */
  function SectionConfidence(rules: Rules, text: string, section: string): real {
    if section == General then 0.5
    else
      var keywords := RuleKeywords(rules, section);
      if keywords == [] then 0.5
      else
        Share(MatchCount(Lower(text), keywords), |keywords|)
  }

  /** The confidence lies in [0, 1]; it is 0.5 without a rule, and otherwise 1.0 exactly when
      all of the rule's keywords occur and 0.0 exactly when none does. */
  lemma SectionConfidenceRange(rules: Rules, text: string, section: string)
    ensures 0.0 <= SectionConfidence(rules, text, section) <= 1.0
    ensures section == General || RuleKeywords(rules, section) == [] ==> SectionConfidence(rules, text, section) == 0.5
    ensures section != General && RuleKeywords(rules, section) != [] ==>
      var keywords := RuleKeywords(rules, section);
      (exists i :: 0 <= i < |rules| && rules[i] == (section, keywords)) &&
      (SectionConfidence(rules, text, section) == 1.0 <==> forall k :: 0 <= k < |keywords| ==> Contains(Lower(text), keywords[k])) &&
      (SectionConfidence(rules, text, section) == 0.0 <==> forall k :: 0 <= k < |keywords| ==> !Contains(Lower(text), keywords[k]))
  {
    RuleKeywordsFound(rules, section, 0);
    MatchCountBounds(Lower(text), RuleKeywords(rules, section));
  }

  /** The processor's own table has no rule labelled "general". */
  lemma SectionRulesLabels()
    ensures LabelsNotGeneral(SectionRules)
  {
  }
}
