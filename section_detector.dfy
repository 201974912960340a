/** The JavaScript section detector (backend/src/rag/sectionDetector.js): the first rule,
    in table order, with a keyword occurring in the lower-cased text names the section;
    "general" when none does. */
module SectionDetector {
  import opened Text
  import opened KeywordRules

  const General: string := "general"

  /** `SECTION_RULES`, in declaration order. */
  const SectionRules: seq<(string, seq<string>)> := [
    ("safety", ["safety", "ppe", "hazard", "emergency", "risk", "incident", "accident", "protective equipment"]),
    ("policy", ["policy", "rules", "guidelines", "compliance", "code of conduct", "regulation"]),
    ("procedure", ["procedure", "steps", "process", "workflow", "how to", "instructions"]),
    ("technical", ["architecture", "system", "technical", "implementation", "configuration", "api", "database"]),
    ("training", ["training", "course", "learning", "certification", "workshop", "curriculum"])
  ]

  /** `detectSection`: the nested loops return on the first keyword found, so the first rule
      with any keyword in the lower-cased text wins. */
  function DetectSection(text: string): string {
    FirstMatch(SectionRules, Lower(text), General)
  }

  /** The answer is one of the five rule labels or "general". */
  lemma DetectSectionLabels(text: string)
    ensures DetectSection(text) in {"safety", "policy", "procedure", "technical", "training", General}
  {
    FirstMatchLabel(SectionRules, Lower(text), General);
  }

  /** "general" exactly when no keyword of any rule occurs; otherwise the label of a rule with
      a keyword in the text, and no keyword of an earlier rule occurs. */
  lemma DetectSectionFirstMatch(text: string)
    ensures DetectSection(text) == General <==> !AnyFires(SectionRules, Lower(text))
    ensures DetectSection(text) != General ==>
      exists i :: 0 <= i < |SectionRules| && FirstFiring(SectionRules, Lower(text), i) &&
        DetectSection(text) == SectionRules[i].0
  {
    FirstMatchSpec(SectionRules, Lower(text), General);
  }

  /** Detection ignores case. */
  lemma DetectSectionIgnoresCase(text: string)
    ensures DetectSection(Lower(text)) == DetectSection(text)
  {
    LowerIdempotent(text);
  }
}
