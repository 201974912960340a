/** The query-intent guess of the retriever (backend/src/rag/queryIntent.js): an ordered chain
    of substring tests on the lower-cased question picks the section to prefer. */
module QueryIntent {
  import opened Text
  import opened KeywordRules

  const General: string := "general"

  /** The chain's tests, in the order they are tried. */
  const IntentRules: seq<(string, seq<string>)> := [
    ("technical", ["skill", "technical", "technology", "framework", "language"]),
    ("training", ["certificate", "certification", "training", "course"]),
    ("policy", ["policy", "rule", "compliance"]),
    ("procedure", ["procedure", "process", "steps", "how to"]),
    ("safety", ["safety", "risk", "hazard"])
  ]

  /** `inferPreferredSection`. */
  function InferPreferredSection(question: string): string {
    var q := Lower(question);
    if ContainsAny(q, ["skill", "technical", "technology", "framework", "language"]) then "technical"
    else if ContainsAny(q, ["certificate", "certification", "training", "course"]) then "training"
    else if ContainsAny(q, ["policy", "rule", "compliance"]) then "policy"
    else if ContainsAny(q, ["procedure", "process", "steps", "how to"]) then "procedure"
    else if ContainsAny(q, ["safety", "risk", "hazard"]) then "safety"
    else General
  }

  /** The chain answers the label of the first rule of the table that fires, "general" when
      none does. */
  lemma IntentIsFirstMatch(question: string)
    ensures InferPreferredSection(question) == FirstMatch(IntentRules, Lower(question), General)
  {
    var rules, q := IntentRules, Lower(question);
    assert rules[5..] == [];
    assert rules[4..][1..] == rules[5..];
    assert FirstMatch(rules[4..], q, General)
      == if ContainsAny(q, rules[4].1) then rules[4].0 else FirstMatch(rules[5..], q, General);
    assert rules[3..][1..] == rules[4..];
    assert FirstMatch(rules[3..], q, General)
      == if ContainsAny(q, rules[3].1) then rules[3].0 else FirstMatch(rules[4..], q, General);
    assert rules[2..][1..] == rules[3..];
    assert FirstMatch(rules[2..], q, General)
      == if ContainsAny(q, rules[2].1) then rules[2].0 else FirstMatch(rules[3..], q, General);
    assert rules[1..][1..] == rules[2..];
    assert FirstMatch(rules[1..], q, General)
      == if ContainsAny(q, rules[1].1) then rules[1].0 else FirstMatch(rules[2..], q, General);
    assert rules[0..][1..] == rules[1..];
    assert FirstMatch(rules[0..], q, General)
      == if ContainsAny(q, rules[0].1) then rules[0].0 else FirstMatch(rules[1..], q, General);
    assert rules[0..] == rules;
  }

  /** The answer is one of the five section labels or "general". */
  lemma IntentLabels(question: string)
    ensures InferPreferredSection(question) in {"technical", "training", "policy", "procedure", "safety", General}
  {
  }

  /** "general" exactly when no listed keyword occurs in the lower-cased question; otherwise
      the label of the first rule with a keyword that occurs, no earlier rule having one. */
  lemma IntentFirstFiring(question: string)
    ensures var s := InferPreferredSection(question);
      (s == General <==> !AnyFires(IntentRules, Lower(question))) &&
      (s != General ==>
        exists i :: 0 <= i < |IntentRules| && FirstFiring(IntentRules, Lower(question), i) && IntentRules[i].0 == s)
  {
    IntentIsFirstMatch(question);
    FirstMatchSpec(IntentRules, Lower(question), General);
  }

  /** Technical questions outrank safety ones. */
  lemma TechnicalBeforeSafety(question: string)
    requires Contains(Lower(question), "technical") && Contains(Lower(question), "safety")
    ensures InferPreferredSection(question) == "technical"
  {
    var words := ["skill", "technical", "technology", "framework", "language"];
    assert Contains(Lower(question), words[1]);
  }

  /** Only the lower-cased question matters. */
  lemma IntentIgnoresCase(question: string)
    ensures InferPreferredSection(Lower(question)) == InferPreferredSection(question)
  {
    LowerIdempotent(question);
  }
}
