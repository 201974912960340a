/** PII aggregation and risk bucketing of the enterprise document analyser
    (`advanced_pii_detection`). The regular expressions themselves are not modelled:
    `findAll(p, text)` stands for `re.findall(pattern, text, re.IGNORECASE)` and is a
    parameter, so every property below holds for whatever matches the patterns produce. */
module NlpPii {

  /** The registered patterns, one constructor each, in declaration order. */
  datatype PiiPattern =
    | Email | Phone | Ssn | EmployeeId | BadgeNumber | CreditCard | IpAddress | SerialNumber | LicensePlate

  const PiiPatterns: seq<PiiPattern> :=
    [Email, Phone, Ssn, EmployeeId, BadgeNumber, CreditCard, IpAddress, SerialNumber, LicensePlate]

  /** The position of a pattern in the registration order. */
  function Rank(p: PiiPattern): (n: nat)
    ensures n < |PiiPatterns| && PiiPatterns[n] == p
  {
    match p
    case Email => 0
    case Phone => 1
    case Ssn => 2
    case EmployeeId => 3
    case BadgeNumber => 4
    case CreditCard => 5
    case IpAddress => 6
    case SerialNumber => 7
    case LicensePlate => 8
  }

  lemma RankOfPattern(i: nat)
    requires i < |PiiPatterns|
    ensures Rank(PiiPatterns[i]) == i
  {
  }

  /** The dictionary key reported for a pattern. */
  function TypeName(p: PiiPattern): string {
    match p
    case Email => "email"
    case Phone => "phone"
    case Ssn => "ssn"
    case EmployeeId => "employee_id"
    case BadgeNumber => "badge_number"
    case CreditCard => "credit_card"
    case IpAddress => "ip_address"
    case SerialNumber => "serial_number"
    case LicensePlate => "license_plate"
  }

  datatype Risk = Low | Medium | High {
    /** Severity order of the levels. */
    function Level(): nat {
      match this
      case Low => 0
      case Medium => 1
      case High => 2
    }

    function Name(): string {
      match this
      case Low => "LOW"
      case Medium => "MEDIUM"
      case High => "HIGH"
    }
  }

  /** One entry of `details`: how often a pattern matched and its first matches. */
  datatype PiiDetail = PiiDetail(pattern: PiiPattern, count: nat, samples: seq<string>)

  datatype PiiReport = PiiReport(
    hasPii: bool,
    piiTypes: seq<string>,
    totalCount: nat,
    risk: Risk,
    details: seq<PiiDetail>,
    requiresMasking: bool)

  /** The number of matches of the patterns `ps` in `text`. */
  function TotalMatches(findAll: (PiiPattern, string) -> seq<string>, text: string, ps: seq<PiiPattern>): nat {
    if ps == [] then 0
    else TotalMatches(findAll, text, ps[..|ps| - 1]) + |findAll(ps[|ps| - 1], text)|
  }

  /** The sum of the counts of `details`. */
  function SumCounts(details: seq<PiiDetail>): nat {
    if details == [] then 0 else SumCounts(details[..|details| - 1]) + details[|details| - 1].count
  }

  /** The risk thresholds: more than 10 matches is HIGH, more than 3 is MEDIUM. */
  function RiskOf(total: nat): (r: Risk)
    ensures r == High <==> total > 10
    ensures r == Medium <==> 3 < total <= 10
    ensures r == Low <==> total <= 3
  {
    if total > 10 then High else if total > 3 then Medium else Low
  }

  /** More matches never lower the risk. */
  lemma RiskMonotone(a: nat, b: nat)
    requires a <= b
    ensures RiskOf(a).Level() <= RiskOf(b).Level()
  {
  }

  /** A detail that reports pattern `d.pattern` faithfully: its match count, which is
      positive, and at most its first three matches. */
  predicate DetailOf(findAll: (PiiPattern, string) -> seq<string>, text: string, d: PiiDetail) {
    var matches := findAll(d.pattern, text);
    d.count == |matches| > 0 && d.samples == matches[..Min3(d.count)]
  }

  /** The patterns of `details` appear in registration order, each once. */
  predicate InPatternOrder(details: seq<PiiDetail>) {
    forall k, l :: 0 <= k < l < |details| ==> Rank(details[k].pattern) < Rank(details[l].pattern)
  }

  function Min3(n: nat): nat { if n < 3 then n else 3 }

  /** The details reported for the patterns `ps`, in their order: one per pattern that matched. */
  function Details(findAll: (PiiPattern, string) -> seq<string>, text: string, ps: seq<PiiPattern>): seq<PiiDetail> {
    if ps == [] then []
    else
      var matches := findAll(ps[|ps| - 1], text);
      var init := Details(findAll, text, ps[..|ps| - 1]);
      if matches == [] then init else init + [PiiDetail(ps[|ps| - 1], |matches|, matches[..Min3(|matches|)])]
  }

  /** The counts of the details add up to the number of all matches. */
  lemma {:induction false} DetailsSum(findAll: (PiiPattern, string) -> seq<string>, text: string, ps: seq<PiiPattern>)
    ensures SumCounts(Details(findAll, text, ps)) == TotalMatches(findAll, text, ps)
  {
    if ps != [] {
      DetailsSum(findAll, text, ps[..|ps| - 1]);
      var init := Details(findAll, text, ps[..|ps| - 1]);
      var matches := findAll(ps[|ps| - 1], text);
      if matches != [] {
        var d := PiiDetail(ps[|ps| - 1], |matches|, matches[..Min3(|matches|)]);
        assert (init + [d])[..|init|] == init;
      }
    }
  }

  /** Every detail reports its pattern's count and first matches. */
  lemma {:induction false} DetailsFaithful(findAll: (PiiPattern, string) -> seq<string>, text: string, ps: seq<PiiPattern>)
    ensures forall k :: 0 <= k < |Details(findAll, text, ps)| ==> DetailOf(findAll, text, Details(findAll, text, ps)[k])
  {
    if ps != [] {
      DetailsFaithful(findAll, text, ps[..|ps| - 1]);
    }
  }

  /** A pattern of `ps` has a detail exactly when it matched, and no other pattern has one. */
  lemma {:induction false} DetailsCover(findAll: (PiiPattern, string) -> seq<string>, text: string, ps: seq<PiiPattern>, p: PiiPattern)
    ensures (p in ps && findAll(p, text) != [])
        <==> exists k :: 0 <= k < |Details(findAll, text, ps)| && Details(findAll, text, ps)[k].pattern == p
  {
    if ps != [] {
      var init, last := ps[..|ps| - 1], ps[|ps| - 1];
      DetailsCover(findAll, text, init, p);
      assert (p in init && findAll(p, text) != []) <==> exists j :: 0 <= j < |Details(findAll, text, init)| && Details(findAll, text, init)[j].pattern == p;
      assert ps == init + [last];
      var ds := Details(findAll, text, ps);
      var di := Details(findAll, text, init);
      assert forall k :: 0 <= k < |di| ==> ds[k] == di[k];
      if findAll(last, text) != [] {
        assert ds[|di|].pattern == last;
      }
      if exists k :: 0 <= k < |ds| && ds[k].pattern == p {
        var k :| 0 <= k < |ds| && ds[k].pattern == p;
        if k < |di| {
          assert 0 <= k < |di| && di[k].pattern == p;
          assert exists j :: 0 <= j < |di| && di[j].pattern == p;
          assert p in init;
        }
      }
    }
  }

  /** The patterns of `ps` rise strictly in registration order. */
  predicate Ascending(ps: seq<PiiPattern>) {
    forall i, j :: 0 <= i < j < |ps| ==> Rank(ps[i]) < Rank(ps[j])
  }

  /** Every detail reports a pattern of `ps`. */
  lemma {:induction false} DetailsPatterns(findAll: (PiiPattern, string) -> seq<string>, text: string, ps: seq<PiiPattern>)
    ensures forall k :: 0 <= k < |Details(findAll, text, ps)| ==> Details(findAll, text, ps)[k].pattern in ps
  {
    if ps != [] {
      var init := ps[..|ps| - 1];
      DetailsPatterns(findAll, text, init);
      assert ps == init + [ps[|ps| - 1]];
    }
  }

  /** A detail ranked above every detail before it keeps the order. */
  lemma AppendInOrder(details: seq<PiiDetail>, d: PiiDetail)
    requires InPatternOrder(details)
    requires forall k :: 0 <= k < |details| ==> Rank(details[k].pattern) < Rank(d.pattern)
    ensures InPatternOrder(details + [d])
  {
  }

  /** The details keep the order of their patterns in `ps`. */
  lemma {:induction false} DetailsOrdered(findAll: (PiiPattern, string) -> seq<string>, text: string, ps: seq<PiiPattern>)
    requires Ascending(ps)
    ensures InPatternOrder(Details(findAll, text, ps))
  {
    if ps != [] {
      var init, last := ps[..|ps| - 1], ps[|ps| - 1];
      assert Ascending(init) by {
        forall i, j | 0 <= i < j < |init| ensures Rank(init[i]) < Rank(init[j]) {
          assert init[i] == ps[i] && init[j] == ps[j];
        }
      }
      DetailsOrdered(findAll, text, init);
      DetailsPatterns(findAll, text, init);
      var di := Details(findAll, text, init);
      forall k | 0 <= k < |di| ensures Rank(di[k].pattern) < Rank(last) {
        var i :| 0 <= i < |init| && init[i] == di[k].pattern;
        assert ps[i] == init[i];
      }
      var matches := findAll(last, text);
      if matches != [] {
        AppendInOrder(di, PiiDetail(last, |matches|, matches[..Min3(|matches|)]));
      }
    }
  }

  lemma PatternsAscending()
    ensures Ascending(PiiPatterns)
  {
    forall i, j | 0 <= i < j < |PiiPatterns| ensures Rank(PiiPatterns[i]) < Rank(PiiPatterns[j]) {
      RankOfPattern(i);
      RankOfPattern(j);
    }
  }

  /** What `Details` reports for the registered patterns. */
  lemma RegisteredDetails(findAll: (PiiPattern, string) -> seq<string>, text: string)
    ensures var ds := Details(findAll, text, PiiPatterns);
      SumCounts(ds) == TotalMatches(findAll, text, PiiPatterns) &&
      (forall k :: 0 <= k < |ds| ==> DetailOf(findAll, text, ds[k])) &&
      InPatternOrder(ds) &&
      (forall p :: findAll(p, text) != [] <==> exists k :: 0 <= k < |ds| && ds[k].pattern == p)
  {
    DetailsSum(findAll, text, PiiPatterns);
    DetailsFaithful(findAll, text, PiiPatterns);
    PatternsAscending();
    DetailsOrdered(findAll, text, PiiPatterns);
    forall p ensures findAll(p, text) != [] <==> exists k :: 0 <= k < |Details(findAll, text, PiiPatterns)| && Details(findAll, text, PiiPatterns)[k].pattern == p {
      DetailsCover(findAll, text, PiiPatterns, p);
      assert p in PiiPatterns by { RankOfPattern(Rank(p)); }
    }
  }

  /** The loop of `advanced_pii_detection` that fills `detected` and `total_matches`. */
  method CollectDetails(findAll: (PiiPattern, string) -> seq<string>, text: string)
    returns (details: seq<PiiDetail>, total: nat)
    ensures details == Details(findAll, text, PiiPatterns)
    ensures total == TotalMatches(findAll, text, PiiPatterns)
  {
    details, total := [], 0;
    for i := 0 to |PiiPatterns|
      invariant details == Details(findAll, text, PiiPatterns[..i])
      invariant total == TotalMatches(findAll, text, PiiPatterns[..i])
    {
      var matches := findAll(PiiPatterns[i], text);
      assert PiiPatterns[..i + 1][..i] == PiiPatterns[..i];
      if matches != [] {
        details := details + [PiiDetail(PiiPatterns[i], |matches|, matches[..Min3(|matches|)])];
        total := total + |matches|;
      }
    }
    assert PiiPatterns[..|PiiPatterns|] == PiiPatterns;
  }

  /** `list(detected.keys())`: the type names of the details, in order. */
  function TypeNames(details: seq<PiiDetail>): (names: seq<string>)
    ensures |names| == |details|
    ensures forall k :: 0 <= k < |details| ==> names[k] == TypeName(details[k].pattern)
  {
    if details == [] then [] else [TypeName(details[0].pattern)] + TypeNames(details[1..])
  }

  /** `report` is the PII report of `text`: the details are those of `Details` (see
      `RegisteredDetails` for what they contain), the total counts every match, the risk
      follows the thresholds, PII is present and masking required exactly when something
      matched, and the types name the detailed patterns in order. */
  predicate PiiReportOf(findAll: (PiiPattern, string) -> seq<string>, text: string, report: PiiReport) {
    report.details == Details(findAll, text, PiiPatterns) &&
    report.totalCount == TotalMatches(findAll, text, PiiPatterns) &&
    report.risk == RiskOf(report.totalCount) &&
    (report.hasPii <==> report.totalCount > 0) &&
    (report.requiresMasking <==> report.totalCount > 0) &&
    |report.piiTypes| == |report.details| &&
    forall k :: 0 <= k < |report.details| ==> report.piiTypes[k] == TypeName(report.details[k].pattern)
  }

  /** `advanced_pii_detection`. */
  method DetectPii(findAll: (PiiPattern, string) -> seq<string>, text: string) returns (report: PiiReport)
    ensures PiiReportOf(findAll, text, report)
  {
    var details, total := CollectDetails(findAll, text);
    DetailsSum(findAll, text, PiiPatterns);
    DetailsFaithful(findAll, text, PiiPatterns);
    if details != [] {
      assert DetailOf(findAll, text, details[|details| - 1]);
    }
    report := PiiReport(|details| > 0, TypeNames(details), total, RiskOf(total), details, total > 0);
  }
}
