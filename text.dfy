/** Character and string helpers shared by the Python runner and the JavaScript
    modules: ASCII case mapping, whitespace trimming, substring search, word
    splitting and decimal rendering. Strings are sequences of `char`. */
module Text {
  import opened Wrappers

  predicate IsUpper(c: char) { 'A' <= c <= 'Z' }
  predicate IsLower(c: char) { 'a' <= c <= 'z' }
  predicate IsLetter(c: char) { IsUpper(c) || IsLower(c) }
  predicate IsDigit(c: char) { '0' <= c <= '9' }

  /** A regular-expression word character (`\w`): letter, digit or underscore. */
  predicate IsWordChar(c: char) { IsLetter(c) || IsDigit(c) || c == '_' }

  /** The whitespace set used for Python `str.strip`/`str.split`, JavaScript `trim` and `\s`. */
  predicate IsSpace(c: char) {
    c == ' ' || c == '\t' || c == '\n' || c == '\r' || c == '\U{000B}' || c == '\U{000C}'
  }

  function ToLowerChar(c: char): (r: char)
    ensures !IsUpper(r)
    ensures IsLetter(c) <==> IsLetter(r)
    ensures !IsUpper(c) ==> r == c
  {
    if IsUpper(c) then (c as int + 32) as char else c
  }

  function ToUpperChar(c: char): (r: char)
    ensures !IsLower(r)
    ensures IsLetter(c) <==> IsLetter(r)
    ensures !IsLower(c) ==> r == c
  {
    if IsLower(c) then (c as int - 32) as char else c
  }

  /** `str.lower()` / `String.prototype.toLowerCase`, on the ASCII range. */
  function Lower(s: string): (r: string)
    ensures |r| == |s|
    ensures forall i :: 0 <= i < |s| ==> r[i] == ToLowerChar(s[i])
  {
    seq(|s|, i requires 0 <= i < |s| => ToLowerChar(s[i]))
  }

  /** `String.prototype.toUpperCase`, on the ASCII range. */
  function Upper(s: string): (r: string)
    ensures |r| == |s|
    ensures forall i :: 0 <= i < |s| ==> r[i] == ToUpperChar(s[i])
  {
    seq(|s|, i requires 0 <= i < |s| => ToUpperChar(s[i]))
  }

  lemma LowerIdempotent(s: string)
    ensures Lower(Lower(s)) == Lower(s)
  {
  }

  lemma LowerAppend(a: string, b: string)
    ensures Lower(a + b) == Lower(a) + Lower(b)
  {
  }

  // ---------------------------------------------------------------------------
  // Substring search (`needle in haystack`, `haystack.includes(needle)`)

  predicate StartsWith(s: string, prefix: string) {
    |prefix| <= |s| && s[..|prefix|] == prefix
  }

  predicate Contains(s: string, needle: string)
    decreases |s|
  {
    StartsWith(s, needle) || (|s| > 0 && Contains(s[1..], needle))
  }

  ghost predicate OccursAt(s: string, needle: string, i: int) {
    0 <= i && i + |needle| <= |s| && s[i..i + |needle|] == needle
  }

  /** The recursive search agrees with the positional definition of a substring. */
  lemma {:induction false} ContainsIffOccurs(s: string, needle: string)
    ensures Contains(s, needle) <==> exists i :: OccursAt(s, needle, i)
    decreases |s|
  {
    if StartsWith(s, needle) {
      assert OccursAt(s, needle, 0);
    } else if |s| > 0 {
      ContainsIffOccurs(s[1..], needle);
      forall i | 1 <= i
        ensures OccursAt(s, needle, i) <==> OccursAt(s[1..], needle, i - 1)
      {
        if i + |needle| <= |s| {
          assert s[1..][i - 1..i - 1 + |needle|] == s[i..i + |needle|];
        }
      }
      if Contains(s[1..], needle) {
        var j :| OccursAt(s[1..], needle, j);
        assert OccursAt(s, needle, j + 1);
      }
    }
  }

  /** `any(k in text for k in keywords)`. */
  predicate ContainsAny(s: string, keywords: seq<string>) {
    exists k :: 0 <= k < |keywords| && Contains(s, keywords[k])
  }

  // ---------------------------------------------------------------------------
  // Trimming (`str.strip()`, `String.prototype.trim`)

  /** The number of whitespace characters at the start of `s`. */
  function LeadingSpace(s: string): (n: nat)
    ensures n <= |s|
    ensures forall i :: 0 <= i < n ==> IsSpace(s[i])
    ensures n < |s| ==> !IsSpace(s[n])
  {
    if |s| > 0 && IsSpace(s[0]) then 1 + LeadingSpace(s[1..]) else 0
  }

  predicate AllSpace(s: string) {
    forall i :: 0 <= i < |s| ==> IsSpace(s[i])
  }

  /** `s` without its leading whitespace (`TrimStartShape` says which suffix). */
  function TrimStart(s: string): (r: string)
    ensures |r| <= |s|
  {
    if s != [] && IsSpace(s[0]) then TrimStart(s[1..]) else s
  }

  /** The result is the suffix of `s` after its leading whitespace. */
  lemma {:induction false} TrimStartShape(s: string)
    ensures TrimStart(s) == s[|s| - |TrimStart(s)|..]
    ensures AllSpace(s[..|s| - |TrimStart(s)|])
    ensures TrimStart(s) != [] ==> !IsSpace(TrimStart(s)[0])
  {
    if s != [] && IsSpace(s[0]) {
      var r := TrimStart(s[1..]);
      TrimStartShape(s[1..]);
      assert s[1..][..|s| - 1 - |r|] == s[1..|s| - |r|];
    }
  }

  /** `s` without its trailing whitespace (`TrimEndShape` says which prefix). */
  function TrimEnd(s: string): (r: string)
    ensures |r| <= |s|
  {
    if s != [] && IsSpace(s[|s| - 1]) then TrimEnd(s[..|s| - 1]) else s
  }

  /** The result is the prefix of `s` before its trailing whitespace. */
  lemma {:induction false} TrimEndShape(s: string)
    ensures TrimEnd(s) == s[..|TrimEnd(s)|]
    ensures AllSpace(s[|TrimEnd(s)|..])
    ensures TrimEnd(s) != [] ==> !IsSpace(TrimEnd(s)[|TrimEnd(s)| - 1])
  {
    if s != [] && IsSpace(s[|s| - 1]) {
      var r := TrimEnd(s[..|s| - 1]);
      TrimEndShape(s[..|s| - 1]);
      assert s[..|s| - 1][|r|..] == s[|r|..|s| - 1];
    }
  }

  /** Whitespace removed from both ends (`str.strip()`, `String.prototype.trim`); empty
      exactly when `s` is all whitespace (`TrimBlank`). */
  function Trim(s: string): (r: string)
    ensures |r| <= |s|
  {
    TrimEnd(TrimStart(s))
  }

  /** Trimming leaves nothing exactly when the text is all whitespace, and the text left
      after its leading whitespace is all whitespace exactly when the text is. */
  lemma TrimBlank(s: string)
    ensures Trim(s) == [] <==> AllSpace(s)
    ensures AllSpace(TrimStart(s)) <==> AllSpace(s)
    ensures TrimEnd(s) == [] <==> AllSpace(s)
  {
    TrimEndBlank(s);
    TrimStartBlank(s);
    TrimEndBlank(TrimStart(s));
  }

  lemma TrimStartBlank(s: string)
    ensures AllSpace(TrimStart(s)) <==> AllSpace(s)
  {
    TrimStartShape(s);
    var t := TrimStart(s);
    var k := |s| - |t|;
    if AllSpace(t) {
      if t != [] {
        assert false;
      }
      assert s[..k] == s;
    }
  }

  lemma TrimEndBlank(s: string)
    ensures TrimEnd(s) == [] <==> AllSpace(s)
  {
    TrimEndShape(s);
    var n := |TrimEnd(s)|;
    assert forall i :: n <= i < |s| ==> s[i] == s[n..][i - n];
    if n > 0 {
      assert TrimEnd(s)[n - 1] == s[n - 1];
    }
  }

  /** The trimmed text is the slice of `s` that follows its leading whitespace (see
      `TrimStart` and `TrimEnd` for what is cut), and starts and ends with a non-space
      character. */
  lemma TrimSlice(s: string, a: nat)
    requires a == |s| - |TrimStart(s)|
    ensures a + |Trim(s)| <= |s| && Trim(s) == s[a..a + |Trim(s)|]
    ensures Trim(s) != [] ==> !IsSpace(Trim(s)[0]) && !IsSpace(Trim(s)[|Trim(s)| - 1])
  {
    var t := TrimStart(s);
    var r := TrimEnd(t);
    TrimStartShape(s);
    TrimEndShape(t);
    assert t == s[a..];
    assert r == t[..|r|] == s[a..a + |r|];
    if r != [] {
      assert r[0] == t[0];
    }
  }

  /** Trimming twice changes nothing the second time. */
  lemma TrimIdempotent(s: string)
    ensures Trim(Trim(s)) == Trim(s)
  {
    var r := Trim(s);
    TrimSlice(s, |s| - |TrimStart(s)|);
    if r != [] {
      assert TrimStart(r) == r;
      assert TrimEnd(r) == r;
    }
  }

  // ---------------------------------------------------------------------------
  // Whitespace word splitting (`str.split()` with no separator)

  /** The number of non-space characters at the start of `s`. */
  function WordLength(s: string): (n: nat)
    ensures n <= |s|
    ensures forall i :: 0 <= i < n ==> !IsSpace(s[i])
    ensures n < |s| ==> IsSpace(s[n])
  {
    if |s| > 0 && !IsSpace(s[0]) then 1 + WordLength(s[1..]) else 0
  }

  /** The maximal runs of non-space characters of `s`, in order. */
  function SplitWords(s: string): (words: seq<string>)
    ensures words == [] <==> AllSpace(s)
    decreases |s|
  {
    var a := LeadingSpace(s);
    if a == |s| then []
    else
      var n := WordLength(s[a..]);
      [s[a..a + n]] + SplitWords(s[a + n..])
  }

  /** The number of occurrences of `c` in `s`. */
  function CountChar(s: string, c: char): nat {
    if s == [] then 0 else (if s[0] == c then 1 else 0) + CountChar(s[1..], c)
  }

  // ---------------------------------------------------------------------------
  // Decimal rendering (template literals `${n}`)

  function DigitChar(d: nat): (c: char)
    requires d < 10
    ensures IsDigit(c)
  {
    ('0' as int + d) as char
  }

  function NatToString(n: nat): (s: string)
    ensures s != [] && forall i :: 0 <= i < |s| ==> IsDigit(s[i])
  {
    if n < 10 then [DigitChar(n)] else NatToString(n / 10) + [DigitChar(n % 10)]
  }

  function ParseNat(s: string): nat
    requires forall i :: 0 <= i < |s| ==> IsDigit(s[i])
  {
    if s == [] then 0
    else
      assert IsDigit(s[|s| - 1]);
      10 * ParseNat(s[..|s| - 1]) + (s[|s| - 1] as int - '0' as int)
  }

  /** Rendering a number in decimal loses nothing: parsing the digits gives it back. */
  lemma {:induction false} ParseNatToString(n: nat)
    ensures ParseNat(NatToString(n)) == n
  {
    if n >= 10 {
      var s := NatToString(n);
      ParseNatToString(n / 10);
      assert s[..|s| - 1] == NatToString(n / 10);
    }
  }

  // ---------------------------------------------------------------------------
  // Joining (`Array.prototype.join`)

  /** The parts with `sep` between each two neighbours; `""` for no parts. */
  function Join(parts: seq<string>, sep: string): (r: string)
    ensures parts != [] ==> StartsWith(r, parts[0])
  {
    if parts == [] then ""
    else if |parts| == 1 then parts[0]
    else parts[0] + sep + Join(parts[1..], sep)
  }

  // ---------------------------------------------------------------------------
  // Integer parsing (JavaScript `parseInt` with no radix)

  /** The smaller and the larger of two integers (`Math.min`, `Math.max`, Python's `min`). */
  function Min(a: int, b: int): int { if a <= b then a else b }
  function Max(a: int, b: int): int { if a >= b then a else b }

  /** The value of `c` as a digit of radix up to 16; 16 for any other character. */
  function DigitValue(c: char): (d: nat)
    ensures d <= 16
  {
    if '0' <= c <= '9' then c as int - '0' as int
    else if 'a' <= c <= 'f' then c as int - 'a' as int + 10
    else if 'A' <= c <= 'F' then c as int - 'A' as int + 10
    else 16
  }

  /** The number of leading characters of `s` that are digits in `radix`. */
  function DigitRun(s: string, radix: nat): (n: nat)
    ensures n <= |s|
    ensures forall i :: 0 <= i < n ==> DigitValue(s[i]) < radix
    ensures n < |s| ==> DigitValue(s[n]) >= radix
  {
    if s != [] && DigitValue(s[0]) < radix then 1 + DigitRun(s[1..], radix) else 0
  }

  /** The value of a string of digits in `radix`, most significant first. */
  function DigitsValue(s: string, radix: nat): nat {
    if s == [] then 0
    else radix * DigitsValue(s[..|s| - 1], radix) + DigitValue(s[|s| - 1])
  }

  /** The longest run of `radix` digits at the start of `s`, as a number; `None` when there
      is no digit at all. */
  function LeadingNumber(s: string, radix: nat): Option<nat> {
    var n := DigitRun(s, radix);
    if n == 0 then None else Some(DigitsValue(s[..n], radix))
  }

  /** An unsigned `parseInt` literal: a "0x" or "0X" prefix selects radix 16, otherwise
      radix 10; the longest run of digits is read and the rest ignored. */
  function ParseUnsigned(u: string): Option<nat> {
    if |u| >= 2 && u[0] == '0' && (u[1] == 'x' || u[1] == 'X') then LeadingNumber(u[2..], 16)
    else LeadingNumber(u, 10)
  }

  /** `parseInt(s)`: leading whitespace is skipped, then an optional sign, then an unsigned
      literal. `None` is `NaN`. */
  function ParseInt(s: string): Option<int> {
    var t := TrimStart(s);
    if t != [] && t[0] == '-' then Signed(ParseUnsigned(t[1..]), true)
    else if t != [] && t[0] == '+' then Signed(ParseUnsigned(t[1..]), false)
    else Signed(ParseUnsigned(t), false)
  }

  function Signed(m: Option<nat>, negative: bool): Option<int> {
    match m
    case None => None
    case Some(v) => Some(if negative then -(v as int) else v as int)
  }

  /** Base ten digits read back as the number they spell. */
  lemma {:induction false} DecimalDigitsValue(s: string)
    requires forall i :: 0 <= i < |s| ==> IsDigit(s[i])
    ensures DigitsValue(s, 10) == ParseNat(s)
  {
    if s != [] {
      DecimalDigitsValue(s[..|s| - 1]);
    }
  }

  /** A non-empty string of decimal digits is read whole, as the number it spells. */
  lemma LeadingNumberDecimal(d: string)
    requires d != [] && forall i :: 0 <= i < |d| ==> IsDigit(d[i])
    ensures LeadingNumber(d, 10) == Some(ParseNat(d))
  {
    DigitRunAll(d);
    assert d[..|d|] == d;
    DecimalDigitsValue(d);
  }

  /** `parseInt` of a non-empty string of decimal digits. */
  lemma ParseIntDigits(d: string)
    requires d != [] && forall i :: 0 <= i < |d| ==> IsDigit(d[i])
    ensures ParseInt(d) == Some(ParseNat(d))
  {
    assert !IsSpace(d[0]) && TrimStart(d) == d;
    assert d[0] != '-' && d[0] != '+';
    assert |d| >= 2 ==> IsDigit(d[1]);
    LeadingNumberDecimal(d);
    assert ParseUnsigned(d) == Some(ParseNat(d));
  }

  /** `parseInt` of a minus sign followed by a non-empty string of decimal digits. */
  lemma ParseIntMinusDigits(s: string)
    requires |s| >= 2 && s[0] == '-' && forall i :: 1 <= i < |s| ==> IsDigit(s[i])
    ensures ParseInt(s) == Option<int>.Some(-(ParseNat(s[1..]) as int))
  {
    var d := s[1..];
    assert TrimStart(s) == s;
    assert IsDigit(d[0]) && (|d| >= 2 ==> IsDigit(d[1]));
    LeadingNumberDecimal(d);
  }

  /** `parseInt` reads back a rendered natural number. */
  lemma ParseIntNatToString(n: nat)
    ensures ParseInt(NatToString(n)) == Some(n)
  {
    ParseIntDigits(NatToString(n));
    ParseNatToString(n);
  }

  /** A string of decimal digits is one digit run. */
  lemma {:induction false} DigitRunAll(s: string)
    requires forall i :: 0 <= i < |s| ==> IsDigit(s[i])
    ensures DigitRun(s, 10) == |s|
  {
    if s != [] {
      DigitRunAll(s[1..]);
    }
  }

  /** `parseInt` of a minus sign followed by a rendered natural number is its negation. */
  lemma ParseIntNegative(n: nat)
    ensures ParseInt("-" + NatToString(n)) == Option<int>.Some(-(n as int))
  {
    var s := "-" + NatToString(n);
    assert s[1..] == NatToString(n);
    ParseIntMinusDigits(s);
    ParseNatToString(n);
  }
}
