/** The section weights of a question (backend/src/rag/questionSectionDetector.js): every
    rule with a keyword in the lower-cased question sets its section's boost; a question no
    rule matches gets the small "general" boost alone. */
module QuestionSections {
  import opened Text

  datatype WeightRule = WeightRule(section: string, keywords: seq<string>, weight: real)

  const General: string := "general"
  const GeneralWeight: real := 0.05

  /** The rule table of `detectSectionWeights`, in declaration order. */
  const QuestionRules: seq<WeightRule> := [
    WeightRule("technical", ["architecture", "system", "technical", "configuration", "stack"], 0.15),
    WeightRule("procedure", ["procedure", "process", "steps", "how to"], 0.12),
    WeightRule("safety", ["safety", "hazard", "risk", "emergency"], 0.12),
    WeightRule("policy", ["policy", "compliance", "regulation"], 0.10),
    WeightRule("training", ["training", "course", "certification", "learning"], 0.10)
  ]

  /** No two rules name the same section, and none names "general". */
  predicate WellFormed(rules: seq<WeightRule>) {
    (forall i, j :: 0 <= i < j < |rules| ==> rules[i].section != rules[j].section) &&
    (forall i :: 0 <= i < |rules| ==> rules[i].section != General)
  }

  /** The weights set by the first `n` rules for the lower-cased question `q`: a rule with a
      keyword in `q` sets its section to its weight. */
  function Matched(rules: seq<WeightRule>, q: string, n: nat): map<string, real>
    requires n <= |rules|
  {
    if n == 0 then map[]
    else
      var m := Matched(rules, q, n - 1);
      if ContainsAny(q, rules[n - 1].keywords) then m[rules[n - 1].section := rules[n - 1].weight] else m
  }

  /** The answer: the weights set, or `{general: 0.05}` when no rule set one. */
  function Weights(rules: seq<WeightRule>, question: string): map<string, real> {
    var m := Matched(rules, Lower(question), |rules|);
    if |m| > 0 then m else map[General := GeneralWeight]
  }

  /** `detectSectionWeights` under a rule table: the nested loops stop scanning a rule's
      keywords at the first one found. */
  method DetectWeightsWith(rules: seq<WeightRule>, question: string) returns (weights: map<string, real>)
    ensures weights == Weights(rules, question)
  {
    var q := Lower(question);
    var found: map<string, real> := map[];
    var i := 0;
    while i < |rules|
      invariant i <= |rules|
      invariant found == Matched(rules, q, i)
    {
      var rule := rules[i];
      var j := 0;
      while j < |rule.keywords|
        invariant j <= |rule.keywords|
        invariant found == Matched(rules, q, i)
        invariant forall k :: 0 <= k < j ==> !Contains(q, rule.keywords[k])
      {
        if Contains(q, rule.keywords[j]) {
          found := found[rule.section := rule.weight];
          break;
        }
        j := j + 1;
      }
      i := i + 1;
    }
    if |found| > 0 {
      weights := found;
    } else {
      weights := map[General := GeneralWeight];
    }
  }

  /** `detectSectionWeights`. */
  method DetectSectionWeights(question: string) returns (weights: map<string, real>)
    ensures weights == Weights(QuestionRules, question)
  {
    weights := DetectWeightsWith(QuestionRules, question);
  }

  /** Every key set by the first `n` rules is the section of a rule among them that fires. */
  lemma {:induction false} MatchedKeys(rules: seq<WeightRule>, q: string, n: nat)
    requires n <= |rules|
    ensures forall s :: s in Matched(rules, q, n) ==>
      exists i :: 0 <= i < n && rules[i].section == s && ContainsAny(q, rules[i].keywords)
  {
    if n > 0 {
      MatchedKeys(rules, q, n - 1);
    }
  }

  /** With distinct sections, the section of each of the first `n` rules is set exactly when
      the rule fires, and then to the rule's weight. */
  lemma {:induction false} MatchedEntries(rules: seq<WeightRule>, q: string, n: nat)
    requires n <= |rules| && WellFormed(rules)
    ensures forall i :: 0 <= i < n ==>
      (rules[i].section in Matched(rules, q, n) <==> ContainsAny(q, rules[i].keywords))
    ensures forall i :: 0 <= i < n && ContainsAny(q, rules[i].keywords) ==>
      Matched(rules, q, n)[rules[i].section] == rules[i].weight
  {
    if n > 0 {
      MatchedEntries(rules, q, n - 1);
      MatchedKeys(rules, q, n - 1);
      forall i | 0 <= i < n - 1
        ensures rules[i].section != rules[n - 1].section
      {
      }
    }
  }

  /** The answer is never empty; "general" is answered alone and exactly when no rule fires;
      otherwise a section is present exactly when its rule fires, with the rule's weight. */
  lemma WeightsSpec(rules: seq<WeightRule>, question: string)
    requires WellFormed(rules)
    ensures var w := Weights(rules, question);
      |w| > 0 &&
      (w == map[General := GeneralWeight] <==> forall i :: 0 <= i < |rules| ==> !ContainsAny(Lower(question), rules[i].keywords)) &&
      (General in w ==> w == map[General := GeneralWeight]) &&
      (forall i :: 0 <= i < |rules| ==>
        (rules[i].section in w <==> ContainsAny(Lower(question), rules[i].keywords))) &&
      (forall i :: 0 <= i < |rules| && ContainsAny(Lower(question), rules[i].keywords) ==>
        w[rules[i].section] == rules[i].weight) &&
      (forall s :: s in w ==> s == General || exists i :: 0 <= i < |rules| && rules[i].section == s)
  {
    var q := Lower(question);
    var m := Matched(rules, q, |rules|);
    MatchedKeys(rules, q, |rules|);
    MatchedEntries(rules, q, |rules|);
    if |m| == 0 {
      forall i | 0 <= i < |rules|
        ensures !ContainsAny(q, rules[i].keywords)
      {
        assert rules[i].section !in m;
      }
    } else {
      var s :| s in m;
      assert General !in m;
    }
  }

  /** The weight table's sections are distinct and none is "general". */
  lemma QuestionRulesWellFormed()
    ensures WellFormed(QuestionRules)
  {
  }

  /** The answer's keys are among the five sections and "general". */
  lemma WeightKeys(question: string)
    ensures forall s :: s in Weights(QuestionRules, question) ==>
      s in {"technical", "procedure", "safety", "policy", "training", General}
  {
    var rules, q := QuestionRules, Lower(question);
    MatchedKeys(rules, q, |rules|);
    var labels := {"technical", "procedure", "safety", "policy", "training", General};
    assert forall i :: 0 <= i < |rules| ==> rules[i].section in labels;
  }
}
