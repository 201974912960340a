/** Whole-document analysis of the enterprise document analyser
    (`enterprise_document_analysis` and its helpers, and the empty-input rule of `main`):
    text statistics, document type, compliance score and recommendations around the
    section, PII, keyword and chunk analyses. */
module NlpDocument {
  import opened Wrappers
  import opened Text
  import opened NlpSections
  import opened NlpPii
  import opened NlpKeywords
  import opened NlpChunks
  import opened KeywordRules

  // ---------------------------------------------------------------------------
  // Document type (`_classify_document_type`)

  datatype DocumentType =
    | StandardOperatingProcedure | PolicyDocument | UserManual | SafetyDocument
    | TrainingMaterial | TechnicalSpecification | GeneralDocument
  {
    function Name(): string {
      match this
      case StandardOperatingProcedure => "standard_operating_procedure"
      case PolicyDocument => "policy_document"
      case UserManual => "user_manual"
      case SafetyDocument => "safety_document"
      case TrainingMaterial => "training_material"
      case TechnicalSpecification => "technical_specification"
      case GeneralDocument => "general_document"
    }
  }

  /** The indicator words of each document type, in the order they are tested. */
  const TypeIndicators: seq<(DocumentType, seq<string>)> := [
    (StandardOperatingProcedure, ["sop", "standard operating", "procedure"]),
    (PolicyDocument, ["policy", "governance", "compliance"]),
    (UserManual, ["manual", "guide", "handbook"]),
    (SafetyDocument, ["safety", "hazard", "emergency"]),
    (TrainingMaterial, ["training", "course", "curriculum"]),
    (TechnicalSpecification, ["specification", "technical", "design"])
  ]

  /** `_classify_document_type`: the if/elif chain over the lower-cased text. Its
      `keywords` argument is never read, so it is not a parameter here. */
  function ClassifyDocumentType(text: string): DocumentType {
    var lowered := Lower(text);
    if ContainsAny(lowered, ["sop", "standard operating", "procedure"]) then StandardOperatingProcedure
    else if ContainsAny(lowered, ["policy", "governance", "compliance"]) then PolicyDocument
    else if ContainsAny(lowered, ["manual", "guide", "handbook"]) then UserManual
    else if ContainsAny(lowered, ["safety", "hazard", "emergency"]) then SafetyDocument
    else if ContainsAny(lowered, ["training", "course", "curriculum"]) then TrainingMaterial
    else if ContainsAny(lowered, ["specification", "technical", "design"]) then TechnicalSpecification
    else GeneralDocument
  }

  /** The chain answers the type of the first rule of the indicator table that fires, and
      "general_document" when none does. */
  lemma ClassifyIsFirstMatch(text: string)
    ensures ClassifyDocumentType(text) == FirstMatch(TypeIndicators, Lower(text), GeneralDocument)
  {
    var rules, lowered := TypeIndicators, Lower(text);
    assert rules[6..] == [];
    assert rules[5..][1..] == rules[6..];
    assert FirstMatch(rules[5..], lowered, GeneralDocument)
      == if ContainsAny(lowered, rules[5].1) then rules[5].0 else FirstMatch(rules[6..], lowered, GeneralDocument);
    assert rules[4..][1..] == rules[5..];
    assert FirstMatch(rules[4..], lowered, GeneralDocument)
      == if ContainsAny(lowered, rules[4].1) then rules[4].0 else FirstMatch(rules[5..], lowered, GeneralDocument);
    assert rules[3..][1..] == rules[4..];
    assert FirstMatch(rules[3..], lowered, GeneralDocument)
      == if ContainsAny(lowered, rules[3].1) then rules[3].0 else FirstMatch(rules[4..], lowered, GeneralDocument);
    assert rules[2..][1..] == rules[3..];
    assert FirstMatch(rules[2..], lowered, GeneralDocument)
      == if ContainsAny(lowered, rules[2].1) then rules[2].0 else FirstMatch(rules[3..], lowered, GeneralDocument);
    assert rules[1..][1..] == rules[2..];
    assert FirstMatch(rules[1..], lowered, GeneralDocument)
      == if ContainsAny(lowered, rules[1].1) then rules[1].0 else FirstMatch(rules[2..], lowered, GeneralDocument);
    assert rules[0..][1..] == rules[1..];
    assert FirstMatch(rules[0..], lowered, GeneralDocument)
      == if ContainsAny(lowered, rules[0].1) then rules[0].0 else FirstMatch(rules[1..], lowered, GeneralDocument);
    assert rules[0..] == rules;
  }

  /** "general_document" exactly when no indicator occurs in the lower-cased text; otherwise
      the type of the first rule with an indicator that occurs, no earlier rule having one. */
  lemma ClassifyFirstFiring(text: string)
    ensures var t := ClassifyDocumentType(text);
      (t == GeneralDocument <==> !AnyFires(TypeIndicators, Lower(text))) &&
      (t != GeneralDocument ==>
        exists i :: 0 <= i < |TypeIndicators| && FirstFiring(TypeIndicators, Lower(text), i) && TypeIndicators[i].0 == t)
  {
    ClassifyIsFirstMatch(text);
    FirstMatchSpec(TypeIndicators, Lower(text), GeneralDocument);
  }

  /** Classification ignores case: the lower-cased text gets the same type. */
  lemma ClassifyIgnoresCase(text: string)
    ensures ClassifyDocumentType(Lower(text)) == ClassifyDocumentType(text)
  {
    LowerIdempotent(text);
  }

  /** Procedures outrank safety: a text naming a procedure and safety is a standard operating
      procedure. */
  lemma ProcedureBeforeSafety(text: string)
    requires Contains(Lower(text), "procedure") && Contains(Lower(text), "safety")
    ensures ClassifyDocumentType(text) == StandardOperatingProcedure
  {
    var words := ["sop", "standard operating", "procedure"];
    assert Contains(Lower(text), words[2]);
  }

  // ---------------------------------------------------------------------------
  // Compliance (`_assess_compliance`)

  /** The section names a compliant document mentions. */
  const RequiredSections: seq<string> := ["purpose", "scope", "responsibility"]

  /** The points the PII risk costs. */
  function RiskPenalty(risk: Risk): int {
    match risk
    case High => 30
    case Medium => 15
    case Low => 0
  }

  /** The number of `sections` absent from `lowered`. */
  function MissingCount(lowered: string, sections: seq<string>): (n: nat)
    ensures n <= |sections|
  {
    if sections == [] then 0
    else MissingCount(lowered, sections[..|sections| - 1]) + (if Contains(lowered, sections[|sections| - 1]) then 0 else 1)
  }

  function Clamp(x: int, lo: int, hi: int): int
    requires lo <= hi
  {
    if x < lo then lo else if x > hi then hi else x
  }

  /** The compliance score: 100 less the risk penalty and five points per missing section,
      kept within [0, 100]. */
  function ComplianceScore(text: string, risk: Risk): int {
    Clamp(100 - RiskPenalty(risk) - 5 * MissingCount(Lower(text), RequiredSections), 0, 100)
  }

  /** `_assess_compliance`: `base_score` starts at 100 and loses points for the risk and for
      each required section the lower-cased text does not mention. The scores are whole
      numbers, so the model counts in integers. */
  method AssessCompliance(text: string, risk: Risk) returns (score: int)
    ensures score == ComplianceScore(text, risk)
  {
    var baseScore := 100;
    if risk == High {
      baseScore := baseScore - 30;
    } else if risk == Medium {
      baseScore := baseScore - 15;
    }
    var lowered := Lower(text);
    var missing := 0;
    for i := 0 to |RequiredSections|
      invariant missing == MissingCount(lowered, RequiredSections[..i])
    {
      assert RequiredSections[..i + 1][..i] == RequiredSections[..i];
      if !Contains(lowered, RequiredSections[i]) {
        missing := missing + 1;
      }
    }
    assert RequiredSections[..|RequiredSections|] == RequiredSections;
    baseScore := baseScore - missing * 5;
    score := Clamp(baseScore, 0, 100);
  }

  /** The score is a multiple of five between 55 and 100: the clamp never bites. It is 100
      exactly for a low-risk text that mentions every required section. */
  lemma ComplianceScoreRange(text: string, risk: Risk)
    ensures var s := ComplianceScore(text, risk);
      55 <= s <= 100 && s % 5 == 0 &&
      (s == 100 <==> risk == Low && forall i :: 0 <= i < |RequiredSections| ==> Contains(Lower(text), RequiredSections[i]))
  {
    MissingCountZero(Lower(text), RequiredSections);
  }

  /** No section is missing exactly when every one occurs. */
  lemma {:induction false} MissingCountZero(lowered: string, sections: seq<string>)
    ensures MissingCount(lowered, sections) == 0 <==> forall i :: 0 <= i < |sections| ==> Contains(lowered, sections[i])
  {
    if sections != [] {
      var init := sections[..|sections| - 1];
      MissingCountZero(lowered, init);
      assert forall i :: 0 <= i < |init| ==> init[i] == sections[i];
    }
  }

  /** A higher risk never raises the score. */
  lemma ComplianceMonotone(text: string, a: Risk, b: Risk)
    requires a.Level() <= b.Level()
    ensures ComplianceScore(text, b) <= ComplianceScore(text, a)
  {
  }

  // ---------------------------------------------------------------------------
  // Recommendations (`_generate_recommendations`)

  const MaskAdvice: string := "Consider masking or removing PII before sharing"
  const AccessAdvice: string := "High PII risk detected - implement access controls"
  const SafetyAdvice: string := "Ensure safety document follows enterprise safety standards"
  const BaselineAdvice: string := "Document meets basic compliance requirements"

  /** `_generate_recommendations`: masking advice when masking is required, access-control
      advice for a high risk, safety advice for a safety document, in that order, and the
      baseline message alone when none of these applies. */
  function Recommendations(report: PiiReport, docType: DocumentType): (r: seq<string>)
    ensures 1 <= |r| <= 3
    ensures MaskAdvice in r <==> report.requiresMasking
    ensures AccessAdvice in r <==> report.risk == High
    ensures SafetyAdvice in r <==> docType == SafetyDocument
    ensures BaselineAdvice in r <==> !report.requiresMasking && report.risk != High && docType != SafetyDocument
    ensures BaselineAdvice in r ==> r == [BaselineAdvice]
    ensures report.requiresMasking ==> r[0] == MaskAdvice
    ensures docType == SafetyDocument ==> r[|r| - 1] == SafetyAdvice
  {
    var r := (if report.requiresMasking then [MaskAdvice] else [])
      + (if report.risk == High then [AccessAdvice] else [])
      + (if docType == SafetyDocument then [SafetyAdvice] else []);
    if r == [] then [BaselineAdvice] else r
  }

  /** For a report of `advanced_pii_detection`, a high risk always comes with the masking
      advice first and the access-control advice second. */
  lemma HighRiskAdvice(report: PiiReport, docType: DocumentType)
    requires report.risk == RiskOf(report.totalCount)
    requires report.requiresMasking <==> report.totalCount > 0
    requires report.risk == High
    ensures var r := Recommendations(report, docType);
      |r| >= 2 && r[0] == MaskAdvice && r[1] == AccessAdvice
  {
  }

  // ---------------------------------------------------------------------------
  // Statistics and the whole analysis (`enterprise_document_analysis`)

  datatype DocumentStats = DocumentStats(
    characterCount: nat,
    wordCount: nat,
    lineCount: nat,
    readingMinutes: nat,
    readingTime: string)

  /** Reading time at 200 words a minute, at least one minute. */
  function ReadingMinutes(wordCount: nat): (m: nat)
    ensures m >= 1
    ensures m * 200 <= wordCount || m == 1
    ensures wordCount < (m + 1) * 200
  {
    if wordCount / 200 < 1 then 1 else wordCount / 200
  }

  /** The `document_stats` record: `len(text)`, `len(text.split())`, `len(text.split('\n'))`
      and the reading time rendered as "<n> minutes". */
  function Stats(text: string): (s: DocumentStats)
    ensures s.characterCount == |text|
    ensures s.wordCount == 0 <==> AllSpace(text)
    ensures s.lineCount >= 1
    ensures s.readingTime == NatToString(s.readingMinutes) + " minutes" && s.readingMinutes >= 1
  {
    var words := |SplitWords(text)|;
    var minutes := ReadingMinutes(words);
    DocumentStats(|text|, words, CountChar(text, '\n') + 1, minutes, NatToString(minutes) + " minutes")
  }

  /** The reading time can be read back: its digits spell the number of minutes. */
  lemma ReadingTimeDigits(text: string)
    ensures var s := Stats(text);
      ParseNat(s.readingTime[..|s.readingTime| - |" minutes"|]) == s.readingMinutes
  {
    var s := Stats(text);
    assert s.readingTime[..|s.readingTime| - |" minutes"|] == NatToString(s.readingMinutes);
    ParseNatToString(s.readingMinutes);
  }

  /** How many keywords the analysis reports as top keywords. */
  const TopKeywords: nat := 15

  /** `content_analysis`. */
  datatype ContentReport = ContentReport(
    primarySection: string,
    documentType: DocumentType,
    topKeywords: seq<string>,
    keywordCount: nat)

  /** `chunk_analysis` of the document record. */
  datatype ChunkReport = ChunkReport(totalChunks: nat, chunks: seq<ChunkInfo>)

  /** `compliance`. */
  datatype ComplianceReport = ComplianceReport(score: int, requiresReview: bool, recommendations: seq<string>)

  datatype DocumentAnalysis = DocumentAnalysis(
    timestamp: string,
    stats: DocumentStats,
    content: ContentReport,
    security: PiiReport,
    chunking: ChunkReport,
    compliance: ComplianceReport,
    processingStatus: string,
    nlpVersion: string)

  /** The content record describes `text`: the detected section, the document type, the
      first fifteen of the (at most twenty) keywords and how many keywords there are. */
  predicate ContentOf(p: Processor, text: string, c: ContentReport) {
    SectionChoice(p.sectionRules, text, c.primarySection) &&
    c.documentType == ClassifyDocumentType(text) &&
    c.topKeywords == Take(Take(Ranking(p.stopWords, text), MaxKeywords), TopKeywords) &&
    c.keywordCount == |Take(Ranking(p.stopWords, text), MaxKeywords)|
  }

  /** The chunk record lists the chunks of the default windows (800 characters, 150 of
      overlap), numbered from 0, each describing its window, and counts them. */
  predicate ChunksOf(p: Processor, findAll: (PiiPattern, string) -> seq<string>, text: string, c: ChunkReport) {
    c.totalChunks == |c.chunks| &&
    StartsOf(c.chunks) == EmittedStarts(text, 800, 650) &&
    forall k :: 0 <= k < |c.chunks| ==> c.chunks[k].index == k && Describes(p, findAll, text, 800, c.chunks[k])
  }

  /** The compliance record: the score, review exactly for a medium or high risk, and the
      recommendations. */
  predicate ComplianceOf(text: string, security: PiiReport, docType: DocumentType, c: ComplianceReport) {
    c.score == ComplianceScore(text, security.risk) &&
    (c.requiresReview <==> security.risk in {Medium, High}) &&
    c.recommendations == Recommendations(security, docType)
  }

  /** The content analysis: section, keywords and document type of the whole text. */
  method AnalyzeContent(p: Processor, text: string) returns (c: ContentReport)
    requires LabelsNotGeneral(p.sectionRules)
    ensures ContentOf(p, text, c)
  {
    var section := DetectSection(p.sectionRules, text);
    var keywords := ExtractKeywords(p.stopWords, text);
    var docType := ClassifyDocumentType(text);
    c := ContentReport(section, docType, Take(keywords, TopKeywords), |keywords|);
  }

  /** The chunk analysis of the whole text with the default window size and overlap. */
  method AnalyzeChunks(p: Processor, findAll: (PiiPattern, string) -> seq<string>, text: string) returns (c: ChunkReport)
    requires LabelsNotGeneral(p.sectionRules)
    ensures ChunksOf(p, findAll, text, c)
  {
    var chunks := ChunkAnalysis(p, findAll, text, 800, 150);
    c := ChunkReport(|chunks|, chunks);
  }

  /** The compliance record built from the PII report and the document type. */
  method AnalyzeCompliance(text: string, security: PiiReport, docType: DocumentType) returns (c: ComplianceReport)
    ensures ComplianceOf(text, security, docType, c)
  {
    var score := AssessCompliance(text, security.risk);
    c := ComplianceReport(score, security.risk == Medium || security.risk == High, Recommendations(security, docType));
  }

  /** `a` is the analysis of `text` stamped with `timestamp`: its statistics, its content
      record, the PII report of the whole text as its security record, its chunk record, the
      compliance record that follows from them, and the fixed status and version strings. */
  predicate AnalysisOf(p: Processor, findAll: (PiiPattern, string) -> seq<string>, text: string, timestamp: string,
                       a: DocumentAnalysis) {
    a.timestamp == timestamp && a.stats == Stats(text) &&
    ContentOf(p, text, a.content) &&
    PiiReportOf(findAll, text, a.security) &&
    ChunksOf(p, findAll, text, a.chunking) &&
    ComplianceOf(text, a.security, a.content.documentType, a.compliance) &&
    a.processingStatus == "success" && a.nlpVersion == "enterprise-v2.0"
  }

  /** `enterprise_document_analysis`. The clock reading `datetime.now().isoformat()` is
      passed in as `timestamp`. */
  method AnalyzeDocument(p: Processor, findAll: (PiiPattern, string) -> seq<string>, text: string, timestamp: string)
    returns (a: DocumentAnalysis)
    requires LabelsNotGeneral(p.sectionRules)
    ensures AnalysisOf(p, findAll, text, timestamp, a)
  {
    var stats := Stats(text);
    var content := AnalyzeContent(p, text);
    var pii := DetectPii(findAll, text);
    var chunking := AnalyzeChunks(p, findAll, text);
    var compliance := AnalyzeCompliance(text, pii, content.documentType);
    a := DocumentAnalysis(timestamp, stats, content, pii, chunking, compliance, "success", "enterprise-v2.0");
  }

  const NoInput: string := "No input text provided via stdin"

  /** `main` after reading standard input: the input is stripped, an empty result is an error,
      anything else is analysed by the constructed processor. */
  method Run(findAll: (PiiPattern, string) -> seq<string>, input: string, timestamp: string)
    returns (r: Result<DocumentAnalysis, string>)
    ensures r.Failure? <==> AllSpace(input)
    ensures r.Failure? ==> r.error == NoInput
    ensures r.Success? ==> AnalysisOf(Enterprise, findAll, Trim(input), timestamp, r.value)
  {
    TrimBlank(input);
    var text := Trim(input);
    if text == [] {
      return Failure(NoInput);
    }
    SectionRulesLabels();
    var a := AnalyzeDocument(Enterprise, findAll, text, timestamp);
    r := Success(a);
  }
}
