/** The severity badge of the error-code pages (frontend/components/error-code-status-badge.tsx):
    the severity a numeric level stands for, the text shown for a severity, and the icon,
    indicator and size classes the badge is drawn with. Rendering is outside the model; the
    classes are the strings the component chooses. */
module StatusBadge {
  import opened Text

  datatype Severity = Critical | High | Medium | Low

  /** The severity's name as the API spells it. */
  function Name(s: Severity): string {
    match s
    case Critical => "CRITICAL"
    case High => "HIGH"
    case Medium => "MEDIUM"
    case Low => "LOW"
  }

  /** The severity's rank, from 1 (LOW) to 4 (CRITICAL). */
  function Rank(s: Severity): int {
    match s
    case Low => 1
    case Medium => 2
    case High => 3
    case Critical => 4
  }

  /** `getSeverityFromLevel(level)`. */
  function SeverityFromLevel(level: real): (r: Severity)
    ensures r == Critical <==> level >= 4.0
    ensures r == High <==> 3.0 <= level < 4.0
    ensures r == Medium <==> 2.0 <= level < 3.0
    ensures r == Low <==> level < 2.0
  {
    if level >= 4.0 then Critical
    else if level >= 3.0 then High
    else if level >= 2.0 then Medium
    else Low
  }

  /** A higher level never gives a lower severity. */
  lemma SeverityMonotone(a: real, b: real)
    requires a <= b
    ensures Rank(SeverityFromLevel(a)) <= Rank(SeverityFromLevel(b))
  {
  }

  /** A severity's own rank gives the severity back. */
  lemma SeverityFromRank(s: Severity)
    ensures SeverityFromLevel(Rank(s) as real) == s
  {
  }

  /** `getSeverityText(severity)`: the first character upper-cased, the rest lower-cased. */
  function SeverityText(s: string): (r: string)
    ensures |r| == |s|
    ensures s != [] ==> r[0] == ToUpperChar(s[0]) && r[1..] == Lower(s[1..])
  {
    if s == [] then [] else [ToUpperChar(s[0])] + Lower(s[1..])
  }

  /** The text shown for each severity. */
  lemma SeverityTexts()
    ensures SeverityText(Name(Critical)) == "Critical" && SeverityText(Name(High)) == "High"
    ensures SeverityText(Name(Medium)) == "Medium" && SeverityText(Name(Low)) == "Low"
  {
    CriticalText();
    HighText();
    MediumText();
    LowText();
  }

  lemma CriticalText()
    ensures SeverityText(Name(Critical)) == "Critical"
  {
    assert Lower("RITICAL")[0] == 'r';
    assert Lower("RITICAL")[1] == 'i';
    assert Lower("RITICAL")[2] == 't';
    assert Lower("RITICAL")[3] == 'i';
    assert Lower("RITICAL")[4] == 'c';
    assert Lower("RITICAL")[5] == 'a';
    assert Lower("RITICAL")[6] == 'l';
  }

  lemma HighText()
    ensures SeverityText(Name(High)) == "High"
  {
    assert Lower("IGH")[0] == 'i';
    assert Lower("IGH")[1] == 'g';
    assert Lower("IGH")[2] == 'h';
  }

  lemma MediumText()
    ensures SeverityText(Name(Medium)) == "Medium"
  {
    assert Lower("EDIUM")[0] == 'e';
    assert Lower("EDIUM")[1] == 'd';
    assert Lower("EDIUM")[2] == 'i';
    assert Lower("EDIUM")[3] == 'u';
    assert Lower("EDIUM")[4] == 'm';
  }

  lemma LowText()
    ensures SeverityText(Name(Low)) == "Low"
  {
    assert Lower("OW")[0] == 'o';
    assert Lower("OW")[1] == 'w';
  }

  /** Applying the text mapping to a text changes nothing. */
  lemma SeverityTextIdempotent(s: string)
    ensures SeverityText(SeverityText(s)) == SeverityText(s)
  {
    if s != [] {
      LowerIdempotent(s[1..]);
      assert SeverityText(s)[1..] == Lower(s[1..]);
    }
  }

  /** The colour family the component uses for a severity name; gray for any other text. */
  function Hue(severity: string): string {
    match severity
    case "CRITICAL" => "red"
    case "HIGH" => "orange"
    case "MEDIUM" => "yellow"
    case "LOW" => "green"
    case _ => "gray"
  }

  datatype Icon = AlertCircle | AlertTriangle | CheckCircle | InfoIcon

  /** The icon of `getSeverityIcon` and its colour class. */
  function SeverityIcon(severity: string): (Icon, string) {
    match severity
    case "CRITICAL" => (AlertCircle, "text-red-500")
    case "HIGH" => (AlertTriangle, "text-orange-500")
    case "MEDIUM" => (AlertTriangle, "text-yellow-500")
    case "LOW" => (CheckCircle, "text-green-500")
    case _ => (InfoIcon, "text-gray-500")
  }

  /** The indicator colour of `SeverityIndicator`. */
  function IndicatorColor(severity: string): string {
    match severity
    case "CRITICAL" => "bg-red-500"
    case "HIGH" => "bg-orange-500"
    case "MEDIUM" => "bg-yellow-500"
    case "LOW" => "bg-green-500"
    case _ => "bg-gray-500"
  }

  /** The icon and the indicator of a severity are drawn in the same colour: red for
      CRITICAL, orange for HIGH, yellow for MEDIUM, green for LOW, gray otherwise. */
  lemma ColoursAgree(severity: string)
    ensures SeverityIcon(severity).1 == "text-" + Hue(severity) + "-500"
    ensures IndicatorColor(severity) == "bg-" + Hue(severity) + "-500"
  {
    var h := Hue(severity);
    if h == "red" {
      assert "text-" + "red" + "-500" == "text-red-500" && "bg-" + "red" + "-500" == "bg-red-500";
    } else if h == "orange" {
      assert "text-" + "orange" + "-500" == "text-orange-500" && "bg-" + "orange" + "-500" == "bg-orange-500";
    } else if h == "yellow" {
      assert "text-" + "yellow" + "-500" == "text-yellow-500" && "bg-" + "yellow" + "-500" == "bg-yellow-500";
    } else if h == "green" {
      assert "text-" + "green" + "-500" == "text-green-500" && "bg-" + "green" + "-500" == "bg-green-500";
    } else {
      assert "text-" + "gray" + "-500" == "text-gray-500" && "bg-" + "gray" + "-500" == "bg-gray-500";
    }
  }

  /** The four severities get their own colours, and only an unknown severity gets the
      information icon. */
  lemma SeverityColours(severity: string)
    ensures SeverityIcon(severity).0 == InfoIcon <==> severity !in {"CRITICAL", "HIGH", "MEDIUM", "LOW"}
    ensures IndicatorColor(Name(Critical)) == "bg-red-500" && IndicatorColor(Name(High)) == "bg-orange-500"
    ensures IndicatorColor(Name(Medium)) == "bg-yellow-500" && IndicatorColor(Name(Low)) == "bg-green-500"
  {
  }

  datatype Size = Small | MediumSize | Large

  /** The icon size classes. */
  function IconSize(size: Size): string {
    match size
    case Small => "w-3 h-3"
    case MediumSize => "w-4 h-4"
    case Large => "w-5 h-5"
  }

  /** The size classes of a badge with text. */
  function TextBadgeSize(size: Size): string {
    match size
    case Small => "text-xs px-2 py-0.5 gap-1"
    case Large => "text-base px-3 py-1.5 gap-2"
    case MediumSize => "text-sm px-2.5 py-1 gap-1.5"
  }

  /** The size classes of an icon-only badge. */
  function IconBadgeSize(size: Size): string {
    if size == Small then "w-5 h-5" else if size == Large then "w-8 h-8" else "w-6 h-6"
  }

  /** The badge is the compact round one exactly when it shows the icon and no text. */
  predicate Compact(showIcon: bool, showText: bool) { showIcon && !showText }

  /** The size classes the badge is drawn with. */
  function BadgeSize(size: Size, showIcon: bool, showText: bool): string {
    if Compact(showIcon, showText) then IconBadgeSize(size) else TextBadgeSize(size)
  }

  /** The defaults of the badge's `size`, `showText` and `showIcon` props. */
  const DefaultSize := MediumSize
  const DefaultShowText := true
  const DefaultShowIcon := true

  /** A badge given only its severity is the medium badge with icon and text: not the compact
      one, and sized like a medium text badge rather than any other size or layout. */
  lemma DefaultBadge()
    ensures !Compact(DefaultShowIcon, DefaultShowText)
    ensures BadgeSize(DefaultSize, DefaultShowIcon, DefaultShowText) == "text-sm px-2.5 py-1 gap-1.5"
    ensures IconSize(DefaultSize) == "w-4 h-4"
    ensures forall s: Size :: s != DefaultSize ==> BadgeSize(s, DefaultShowIcon, DefaultShowText) != BadgeSize(DefaultSize, DefaultShowIcon, DefaultShowText)
    ensures forall s: Size :: BadgeSize(s, true, false) != BadgeSize(DefaultSize, DefaultShowIcon, DefaultShowText)
  {
  }

  /** Each size draws a different badge and a different icon, in either layout. */
  lemma SizesDistinct(a: Size, b: Size, showIcon: bool, showText: bool)
    requires a != b
    ensures BadgeSize(a, showIcon, showText) != BadgeSize(b, showIcon, showText)
    ensures IconSize(a) != IconSize(b)
  {
  }
}
