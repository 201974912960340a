/** Untyped JavaScript values as they arrive from database rows and request parameters, with
    the coercions the backend applies to them: truthiness, `parseFloat`, `Number` (as used
    by `isNaN` and by comparisons) and `parseInt`. `NaN` is `None`. */
module JsValue {
  import opened Wrappers
  import opened Text

  datatype Value = Undefined | Null | Bool(b: bool) | Num(n: real) | Str(s: string) | List(items: seq<Value>)

  /** JavaScript truthiness: `undefined`, `null`, `false`, `0` and `""` are falsy. */
  predicate IsTruthy(v: Value) {
    match v
    case Undefined => false
    case Null => false
    case Bool(b) => b
    case Num(n) => n != 0.0
    case Str(s) => s != ""
    case List(_) => true
  }

  /** `v || fallback`. */
  function Or(v: Value, fallback: Value): (r: Value)
    ensures IsTruthy(v) ==> r == v
    ensures !IsTruthy(v) ==> r == fallback
  {
    if IsTruthy(v) then v else fallback
  }

  /** A default parameter or destructuring default: used only when the value is `undefined`. */
  function Default(v: Value, fallback: Value): (r: Value)
    ensures v != Undefined ==> r == v
    ensures v == Undefined ==> r == fallback
  {
    if v == Undefined then fallback else v
  }

  /** `row.key`: a missing property reads `undefined`. */
  function Get(row: map<string, Value>, key: string): Value {
    if key in row then row[key] else Undefined
  }

  function Pow10(k: nat): (p: nat)
    ensures p >= 1
  {
    if k == 0 then 1 else 10 * Pow10(k - 1)
  }

  /** The value of a decimal literal with the digits `whole` before the point and `fraction`
      after it. */
  function DecimalValue(whole: string, fraction: string): real {
    DigitsValue(whole, 10) as real + DigitsValue(fraction, 10) as real / Pow10(|fraction|) as real
  }

  /** The decimal literal at the start of an unsigned text: digits, then optionally a point and
      more digits, with at least one digit in all. The answer is the value and the number of
      characters read. */
  function DecimalPrefix(u: string): Option<(real, nat)> {
    var i := DigitRun(u, 10);
    Decimal(u[..i], u[i..])
  }

  /** The literal made of the digits `whole` and what `rest`, the text after them, adds: a
      point and the digits after it. */
  function Decimal(whole: string, rest: string): Option<(real, nat)> {
    if rest != [] && rest[0] == '.' then
      var after := rest[1..];
      WithFraction(whole, after[..DigitRun(after, 10)])
    else if whole == [] then None
    else Some((DigitsValue(whole, 10) as real, |whole|))
  }

  /** The literal made of the digits `whole`, a point and the digits `fraction`. */
  function WithFraction(whole: string, fraction: string): Option<(real, nat)> {
    if |whole| + |fraction| == 0 then None
    else Some((DecimalValue(whole, fraction), |whole| + 1 + |fraction|))
  }

  /** The literal at the start of `t` with an optional sign; the count includes the sign. */
  function SignedPrefix(t: string): Option<(real, nat)> {
    if t != [] && (t[0] == '-' || t[0] == '+') then WithSign(t[0] == '-', DecimalPrefix(t[1..]))
    else DecimalPrefix(t)
  }

  /** An unsigned literal read after a sign character. */
  function WithSign(negative: bool, p: Option<(real, nat)>): Option<(real, nat)> {
    match p
    case None => None
    case Some(q) => Some((if negative then -q.0 else q.0, q.1 + 1))
  }

  /** `parseFloat(s)` on a string: leading whitespace is skipped and the longest decimal
      literal is read; anything after it is ignored. */
  function ParseFloatString(s: string): Option<real> {
    match SignedPrefix(TrimStart(s))
    case None => None
    case Some(p) => Some(p.0)
  }

  /** `parseFloat(v)`. An array is read as its comma-joined text, and since a comma ends
      every literal (`ParseFloatStopsAtComma`), only its first element counts: `undefined`,
      `null` and booleans join as text with no number in front. */
  function ParseFloat(v: Value): Option<real> {
    match v
    case Num(n) => Some(n)
    case Str(s) => ParseFloatString(s)
    case List(items) =>
      if items == [] then None
      else
        (match items[0]
         case Num(n) => Some(n)
         case Str(s) => ParseFloatString(s)
         case List(_) => ParseFloat(items[0])
         case _ => None)
    case _ => None
  }

  /** `Number(s)` on a string: surrounding whitespace is ignored, an empty text is 0, and
      otherwise the whole text must be one decimal literal. */
  function NumberOfString(s: string): Option<real> {
    var t := Trim(s);
    if t == [] then Some(0.0)
    else
      match SignedPrefix(t)
      case None => None
      case Some(p) => if p.1 == |t| then Some(p.0) else None
  }

  /** `Number(v)`, the coercion behind `isNaN(v)` and `v < 1`. An array is read as its
      comma-joined text: the empty array is 0, an array of two or more elements holds a comma
      and is `NaN`, and a single element is read as its own text, `undefined` and `null`
      joining as the empty text and booleans as words. */
  function ToNumber(v: Value): Option<real> {
    match v
    case Undefined => None
    case Null => Some(0.0)
    case Bool(b) => Some(if b then 1.0 else 0.0)
    case Num(n) => Some(n)
    case Str(s) => NumberOfString(s)
    case List(items) =>
      if items == [] then Some(0.0)
      else if |items| >= 2 then None
      else
        match items[0]
        case Undefined => Some(0.0)
        case Bool(_) => None
        case _ => ToNumber(items[0])
  }

  /** `isNaN(v)`. */
  predicate IsNaN(v: Value) { ToNumber(v).None? }

  /** The integer part of `x`, rounded toward zero. */
  function Truncate(x: real): int {
    if x >= 0.0 then x.Floor else -((-x).Floor)
  }

  /** `parseInt(v)`. An array is read as its comma-joined text, so only its first element
      counts (`ParseIntStopsAtComma`). */
  function ParseIntValue(v: Value): Option<int> {
    match v
    case Num(n) => Some(Truncate(n))
    case Str(s) => ParseInt(s)
    case List(items) =>
      if items == [] then None
      else
        (match items[0]
         case Num(n) => Some(Truncate(n))
         case Str(s) => ParseInt(s)
         case List(_) => ParseIntValue(items[0])
         case _ => None)
    case _ => None
  }

  /** `parseFloat(v) || 0`: a number that is never `NaN`, and 0 exactly when the parse
      failed or gave 0. */
  function FloatOrZero(v: Value): (r: real)
    ensures (ParseFloat(v).None? || ParseFloat(v).value == 0.0) <==> r == 0.0
    ensures ParseFloat(v).Some? ==> r == ParseFloat(v).value
  {
    match ParseFloat(v)
    case None => 0.0
    case Some(x) => x
  }

  /** `parseInt(v) || 0`. */
  function IntOrZero(v: Value): (r: int)
    ensures (ParseIntValue(v).None? || ParseIntValue(v).value == 0) <==> r == 0
    ensures ParseIntValue(v).Some? ==> r == ParseIntValue(v).value
  {
    match ParseIntValue(v)
    case None => 0
    case Some(x) => x
  }

  // ---------------------------------------------------------------------------
  // Round trips

  /** A text that starts with a digit string and has a non-digit, non-point character (or
      nothing) after it is read as that whole digit string. */
  lemma DecimalPrefixDigits(d: string, rest: string)
    requires d != [] && forall i :: 0 <= i < |d| ==> IsDigit(d[i])
    requires rest == [] || (!IsDigit(rest[0]) && rest[0] != '.' && DigitValue(rest[0]) >= 10)
    ensures DecimalPrefix(d + rest) == Some((ParseNat(d) as real, |d|))
  {
    var u := d + rest;
    DigitRunPrefix(d, rest);
    assert u[..|d|] == d;
    DecimalDigitsValue(d);
  }

  /** The digit run of a digit string followed by a non-digit is the digit string. */
  lemma {:induction false} DigitRunPrefix(d: string, rest: string)
    requires forall i :: 0 <= i < |d| ==> IsDigit(d[i])
    requires rest == [] || DigitValue(rest[0]) >= 10
    ensures DigitRun(d + rest, 10) == |d|
  {
    if d != [] {
      assert (d + rest)[1..] == d[1..] + rest;
      DigitRunPrefix(d[1..], rest);
    }
  }

  /** A text that starts with a digit has no whitespace or sign to skip. */
  lemma DigitFirstParse(s: string)
    requires s != [] && IsDigit(s[0])
    ensures ParseFloatString(s) == if DecimalPrefix(s).None? then None else Some(DecimalPrefix(s).value.0)
  {
    assert !IsSpace(s[0]) && TrimStart(s) == s;
  }

  /** `parseFloat` reads back a rendered natural number. */
  lemma ParseFloatReadsBack(n: nat)
    ensures ParseFloat(Str(NatToString(n))) == Some(n as real)
  {
    var d := NatToString(n);
    DecimalPrefixDigits(d, []);
    assert d + [] == d;
    ParseNatToString(n);
    DigitFirstParse(d);
  }

  /** A digit string has no surrounding whitespace. */
  lemma TrimDigits(d: string)
    requires d != [] && forall i :: 0 <= i < |d| ==> IsDigit(d[i])
    ensures Trim(d) == d
  {
    assert !IsSpace(d[0]) && !IsSpace(d[|d| - 1]);
    TrimSlice(d, 0);
  }

  /** `Number` reads back a rendered natural number. */
  lemma NumberReadsBack(n: nat)
    ensures ToNumber(Str(NatToString(n))) == Some(n as real)
  {
    var d := NatToString(n);
    DecimalPrefixDigits(d, []);
    assert d + [] == d;
    ParseNatToString(n);
    TrimDigits(d);
    assert d[0] != '-' && d[0] != '+';
    assert SignedPrefix(d) == Some((n as real, |d|));
  }

  /** `parseFloat` stops at the first character that cannot continue the literal, so a unit
      written after the number is ignored. */
  lemma TrailingTextIgnoredByParseFloat(n: nat, unit: string)
    requires unit != [] && DigitValue(unit[0]) >= 10 && unit[0] != '.'
    ensures ParseFloat(Str(NatToString(n) + unit)) == Some(n as real)
  {
    var d := NatToString(n);
    DecimalPrefixDigits(d, unit);
    ParseNatToString(n);
    DigitFirstParse(d + unit);
  }

  // ---------------------------------------------------------------------------
  // Arrays: text after a comma is never read

  lemma {:induction false} TrimStartAppend(s: string, x: string)
    requires x != [] && !IsSpace(x[0])
    ensures TrimStart(s + x) == TrimStart(s) + x
  {
    if s == [] {
      assert s + x == x;
    } else if IsSpace(s[0]) {
      assert (s + x)[1..] == s[1..] + x;
      TrimStartAppend(s[1..], x);
    }
  }

  lemma {:induction false} DigitRunAppend(u: string, x: string, radix: nat)
    requires x != [] && DigitValue(x[0]) >= radix
    ensures DigitRun(u + x, radix) == DigitRun(u, radix)
  {
    if u == [] {
      assert u + x == x;
    } else if DigitValue(u[0]) < radix {
      assert (u + x)[1..] == u[1..] + x;
      DigitRunAppend(u[1..], x, radix);
    }
  }

  lemma DecimalPrefixAppend(u: string, x: string)
    requires x != [] && x[0] == ','
    ensures DecimalPrefix(u + x) == DecimalPrefix(u)
  {
    var i := DigitRun(u, 10);
    DigitRunAppend(u, x, 10);
    assert (u + x)[..i] == u[..i];
    assert (u + x)[i..] == u[i..] + x;
    DecimalRestAppend(u[..i], u[i..], x);
  }

  lemma DecimalRestAppend(whole: string, rest: string, x: string)
    requires x != [] && x[0] == ','
    ensures Decimal(whole, rest + x) == Decimal(whole, rest)
  {
    var r := rest + x;
    if rest != [] && rest[0] == '.' {
      FractionAppend(whole, rest, x);
    } else {
      assert r[0] != '.' by {
        if rest != [] {
          assert r[0] == rest[0];
        }
      }
    }
  }

  lemma FractionAppend(whole: string, rest: string, x: string)
    requires x != [] && x[0] == ','
    requires rest != [] && rest[0] == '.'
    ensures Decimal(whole, rest + x) == Decimal(whole, rest)
  {
    var r := rest + x;
    var w := rest[1..];
    assert r[0] == '.';
    assert r[1..] == w + x;
    DigitRunAppend(w, x, 10);
    var f := DigitRun(w, 10);
    assert (w + x)[..f] == w[..f];
  }

  lemma SignedPrefixAppend(t: string, x: string)
    requires x != [] && x[0] == ','
    ensures SignedPrefix(t + x) == SignedPrefix(t)
  {
    var v := t + x;
    if t == [] {
      assert v == x;
      DecimalPrefixAppend(t, x);
      assert SignedPrefix(v) == DecimalPrefix(v);
    } else if t[0] == '-' || t[0] == '+' {
      assert v[0] == t[0];
      assert v[1..] == t[1..] + x;
      DecimalPrefixAppend(t[1..], x);
      assert DecimalPrefix(v[1..]) == DecimalPrefix(t[1..]);
    } else {
      assert v[0] == t[0];
      DecimalPrefixAppend(t, x);
      assert SignedPrefix(v) == DecimalPrefix(v);
    }
  }

  /** `parseFloat` reads nothing past a comma: the joined text of an array parses as its
      first element's text does. */
  lemma ParseFloatStopsAtComma(s: string, x: string)
    requires x != [] && x[0] == ','
    ensures ParseFloatString(s + x) == ParseFloatString(s)
  {
    TrimStartAppend(s, x);
    SignedPrefixAppend(TrimStart(s), x);
  }

  lemma LeadingNumberAppend(u: string, x: string, radix: nat)
    requires radix <= 16 && x != [] && x[0] == ','
    ensures LeadingNumber(u + x, radix) == LeadingNumber(u, radix)
  {
    DigitRunAppend(u, x, radix);
    var n := DigitRun(u, radix);
    assert (u + x)[..n] == u[..n];
  }

  lemma ParseUnsignedAppend(u: string, x: string)
    requires x != [] && x[0] == ','
    ensures ParseUnsigned(u + x) == ParseUnsigned(u)
  {
    if |u| >= 2 && u[0] == '0' && (u[1] == 'x' || u[1] == 'X') {
      assert (u + x)[2..] == u[2..] + x;
      LeadingNumberAppend(u[2..], x, 16);
    } else {
      assert |u| < 2 ==> (u + x)[|u|] == ',';
      LeadingNumberAppend(u, x, 10);
    }
  }

  /** `parseInt` reads nothing past a comma either. */
  lemma ParseIntStopsAtComma(s: string, x: string)
    requires x != [] && x[0] == ','
    ensures ParseInt(s + x) == ParseInt(s)
  {
    TrimStartAppend(s, x);
    var t := TrimStart(s);
    if t == [] {
      assert t + x == x;
      ParseUnsignedAppend(t, x);
    } else if t[0] == '-' || t[0] == '+' {
      assert (t + x)[1..] == t[1..] + x;
      ParseUnsignedAppend(t[1..], x);
    } else {
      ParseUnsignedAppend(t, x);
    }
  }

  /** A one-element array of a number's decimal text reads as that number under all three
      coercions, and the empty array is 0 to `Number` but `NaN` to the parsers. */
  lemma ArraysCoerce(n: nat)
    ensures ToNumber(List([Str(NatToString(n))])) == Some(n as real)
    ensures ParseFloat(List([Str(NatToString(n))])) == Some(n as real)
    ensures ParseIntValue(List([Str(NatToString(n))])) == Some(n as int)
    ensures ToNumber(List([])) == Some(0.0) && ParseFloat(List([])).None? && ParseIntValue(List([])).None?
  {
    NumberReadsBack(n);
    ParseFloatReadsBack(n);
    ParseIntNatToString(n);
  }
}
