/** The error-code service (backend/src/services/ErrorCodeService.js): input validation in
    front of the error-code store, the full-details aggregation and the quick lookup that
    falls back to a search. The store is abstracted as a `Backend` value whose functions
    answer each query; a thrown error is a `Failure` carrying its message. */
module ErrorCodeService {
  import opened Wrappers
  import opened Text
  import opened JsValue
  import opened ErrorCodeModel

  /** What the store answers. `byId` and `proceduresById` receive the result of `parseInt`,
      where `None` is `NaN`. */
  datatype Backend = Backend(
    allErrorCodes: Object -> seq<ErrorCode>,
    byCode: string -> Option<ErrorCode>,
    byId: Option<int> -> Option<ErrorCode>,
    search: (string, Value) -> seq<ErrorCode>,
    proceduresById: Option<int> -> seq<TroubleshootingProcedure>,
    proceduresByCode: string -> seq<TroubleshootingProcedure>,
    statistics: Object,
    top: Value -> seq<ErrorCode>)

  const InvalidSeverity: string := "Invalid severity level"
  const InvalidCategory: string := "Invalid category"
  const CodeRequired: string := "Valid error code is required"
  const NotFound: string := "Error code not found"
  const IdRequired: string := "Valid error code ID is required"
  const TermRequired: string := "Search term is required"
  const LimitOutOfRange: string := "Limit must be between 1 and 100"

  /** `list.includes(v)`: strict equality, so only a string can be listed. */
  predicate Listed(list: seq<string>, v: Value) { v.Str? && v.s in list }

  /** `getAllErrorCodes(filters)`. */
  function GetAllErrorCodes(b: Backend, filters: Object): Result<seq<ErrorCode>, string> {
    var severity := Get(filters, "severityLevel");
    var category := Get(filters, "category");
    if IsTruthy(severity) && !Listed(SeverityLevels, severity) then Failure(InvalidSeverity)
    else if IsTruthy(category) && !Listed(ErrorCategories, category) then Failure(InvalidCategory)
    else Success(b.allErrorCodes(filters))
  }

  /** A filter is passed on exactly when each of its severity and category is unset (falsy)
      or one of the model's values; the severity is checked first. */
  lemma GetAllErrorCodesSpec(b: Backend, filters: Object)
    ensures var severity := Get(filters, "severityLevel");
      var category := Get(filters, "category");
      (GetAllErrorCodes(b, filters).Success? <==>
        (!IsTruthy(severity) || Listed(SeverityLevels, severity)) &&
        (!IsTruthy(category) || Listed(ErrorCategories, category))) &&
      (GetAllErrorCodes(b, filters).Success? ==> GetAllErrorCodes(b, filters).value == b.allErrorCodes(filters)) &&
      (IsTruthy(severity) && !Listed(SeverityLevels, severity) ==> GetAllErrorCodes(b, filters) == Failure(InvalidSeverity))
  {
  }

  /** A code argument is usable when it is a non-empty string. */
  predicate ValidCode(code: Value) { IsTruthy(code) && code.Str? }

  /** `getErrorCodeByCode(code)`: the store is asked for the upper-cased code. */
  function GetErrorCodeByCode(b: Backend, code: Value): Result<ErrorCode, string> {
    if !ValidCode(code) then Failure(CodeRequired)
    else
      match b.byCode(Upper(code.s))
      case None => Failure(NotFound)
      case Some(e) => Success(e)
  }

  /** The three outcomes of a lookup by code, and that the case of the argument does not
      matter. */
  lemma GetErrorCodeByCodeSpec(b: Backend, code: Value)
    ensures !ValidCode(code) <==> GetErrorCodeByCode(b, code) == Failure(CodeRequired)
    ensures ValidCode(code) && b.byCode(Upper(code.s)).None? <==> GetErrorCodeByCode(b, code) == Failure(NotFound)
    ensures GetErrorCodeByCode(b, code).Success? <==> ValidCode(code) && b.byCode(Upper(code.s)).Some?
    ensures GetErrorCodeByCode(b, code).Success? ==> Some(GetErrorCodeByCode(b, code).value) == b.byCode(Upper(code.s))
  {
  }

  /** A code and its lower-case spelling find the same error code. */
  lemma LookupIgnoresCase(b: Backend, s: string)
    requires s != []
    ensures GetErrorCodeByCode(b, Str(Lower(s))) == GetErrorCodeByCode(b, Str(s))
  {
    assert Upper(Lower(s)) == Upper(s);
  }

  /** An id argument is usable when it is truthy and not `NaN`. */
  predicate ValidId(id: Value) { IsTruthy(id) && !IsNaN(id) }

  /** `getErrorCodeById(id)`. */
  function GetErrorCodeById(b: Backend, id: Value): Result<ErrorCode, string> {
    if !ValidId(id) then Failure(IdRequired)
    else
      match b.byId(ParseIntValue(id))
      case None => Failure(NotFound)
      case Some(e) => Success(e)
  }

  /** An id is refused exactly when it is falsy or not a number; a rendered positive number
      reaches the store as that number. */
  lemma GetErrorCodeByIdSpec(b: Backend, id: Value, n: nat)
    ensures GetErrorCodeById(b, id) == Failure(IdRequired) <==> !ValidId(id)
    ensures n > 0 ==> (GetErrorCodeById(b, Str(NatToString(n))) ==
                       if b.byId(Some(n)).None? then Failure(NotFound) else Success(b.byId(Some(n)).value))
  {
    if n > 0 {
      NumberReadsBack(n);
      ParseIntNatToString(n);
    }
  }

  /** A blank id passes the check (`Number` reads it as 0, which is not `NaN`, and the text
      itself is truthy), so the store is asked for `parseInt` of it, which is `NaN`. */
  lemma BlankIdReachesStoreAsNaN(b: Backend)
    ensures ValidId(Str(" "))
    ensures GetErrorCodeById(b, Str(" ")) == (if b.byId(None).None? then Failure(NotFound) else Success(b.byId(None).value))
  {
    assert Trim(" ") == [];
    assert TrimStart(" ") == [];
  }

  /** `searchErrorCodes(searchTerm, limit)`; an `undefined` limit is 20. */
  function SearchErrorCodes(b: Backend, term: Value, limit: Value): Result<seq<ErrorCode>, string> {
    if !IsTruthy(term) || !term.Str? || |Trim(term.s)| == 0 then Failure(TermRequired)
    else Success(b.search(Trim(term.s), Default(limit, Num(20.0))))
  }

  /** A search runs exactly for a string with a non-space character, and the store gets
      the trimmed term. */
  lemma SearchErrorCodesSpec(b: Backend, term: Value, limit: Value)
    ensures SearchErrorCodes(b, term, limit).Success? <==> term.Str? && !AllSpace(term.s)
    ensures SearchErrorCodes(b, term, limit).Failure? ==> SearchErrorCodes(b, term, limit).error == TermRequired
    ensures term.Str? && !AllSpace(term.s) ==>
      SearchErrorCodes(b, term, limit).value == b.search(Trim(term.s), Default(limit, Num(20.0)))
  {
    if term.Str? {
      TrimBlank(term.s);
    }
  }

  /** `getTroubleshootingProcedures(errorCodeId)`. */
  function GetTroubleshootingProcedures(b: Backend, id: Value): Result<seq<TroubleshootingProcedure>, string> {
    if !ValidId(id) then Failure(IdRequired) else Success(b.proceduresById(ParseIntValue(id)))
  }

  /** `getTroubleshootingProceduresByCode(code)`. */
  function GetTroubleshootingProceduresByCode(b: Backend, code: Value): Result<seq<TroubleshootingProcedure>, string> {
    if !ValidCode(code) then Failure(CodeRequired) else Success(b.proceduresByCode(Upper(code.s)))
  }

  /** Both procedure queries refuse exactly the arguments the matching error-code lookups
      refuse, with the same message. */
  lemma ProcedureQueriesValidate(b: Backend, id: Value, code: Value)
    ensures GetTroubleshootingProcedures(b, id).Failure? <==> GetErrorCodeById(b, id) == Failure(IdRequired)
    ensures GetTroubleshootingProceduresByCode(b, code).Failure? <==> GetErrorCodeByCode(b, code) == Failure(CodeRequired)
    ensures GetTroubleshootingProceduresByCode(b, code).Failure? ==> GetTroubleshootingProceduresByCode(b, code).error == CodeRequired
  {
  }

  datatype Statistics = Statistics(
    totalErrorCodes: int, criticalErrors: int, highErrors: int, mediumErrors: int,
    lowErrors: int, avgFrequency: real, avgResolutionTime: real)

  /** `getErrorCodeStatistics()`. */
  function GetErrorCodeStatistics(b: Backend): Statistics {
    var s := b.statistics;
    Statistics(IntOrZero(Get(s, "total_error_codes")), IntOrZero(Get(s, "critical_errors")),
               IntOrZero(Get(s, "high_errors")), IntOrZero(Get(s, "medium_errors")),
               IntOrZero(Get(s, "low_errors")), FloatOrZero(Get(s, "avg_frequency")),
               FloatOrZero(Get(s, "avg_resolution_time")))
  }

  /** A count the store renders as decimal text is read back as that count; a missing or
      null one is 0. */
  lemma StatisticsReadCounts(b: Backend, n: nat)
    ensures Get(b.statistics, "total_error_codes") == Str(NatToString(n)) ==>
      GetErrorCodeStatistics(b).totalErrorCodes == n
    ensures Get(b.statistics, "critical_errors") in {Undefined, Null} ==>
      GetErrorCodeStatistics(b).criticalErrors == 0
    ensures Get(b.statistics, "avg_frequency") == Str(NatToString(n)) ==>
      GetErrorCodeStatistics(b).avgFrequency == n as real
  {
    ParseIntNatToString(n);
    ParseFloatReadsBack(n);
  }

  /** `getTopErrorCodes(limit)`; an `undefined` limit is 10. */
  function GetTopErrorCodes(b: Backend, limit: Value): Result<seq<ErrorCode>, string> {
    var l := Default(limit, Num(10.0));
    if IsTruthy(l) && (IsNaN(l) || ToNumber(l).value < 1.0 || ToNumber(l).value > 100.0) then Failure(LimitOutOfRange)
    else Success(b.top(l))
  }

  /** A truthy limit is refused exactly when it is not a number in 1..100; a falsy one such as
      0 is not checked at all and reaches the store as it is. */
  lemma GetTopErrorCodesSpec(b: Backend, limit: Value)
    requires limit != Undefined
    ensures GetTopErrorCodes(b, limit).Failure? <==>
      IsTruthy(limit) && (ToNumber(limit).None? || !(1.0 <= ToNumber(limit).value <= 100.0))
    ensures !IsTruthy(limit) ==> GetTopErrorCodes(b, limit) == Success(b.top(limit))
  {
  }

  /** Any whole number 1..100, given as a number, as its decimal text or as an array holding
      that text, is accepted and passed on unchanged; the default is 10. An empty array is
      truthy but reads as 0, so it is refused. */
  lemma TopLimitsAccepted(b: Backend, n: nat)
    requires 1 <= n <= 100
    ensures GetTopErrorCodes(b, Num(n as real)) == Success(b.top(Num(n as real)))
    ensures GetTopErrorCodes(b, Str(NatToString(n))) == Success(b.top(Str(NatToString(n))))
    ensures GetTopErrorCodes(b, List([Str(NatToString(n))])) == Success(b.top(List([Str(NatToString(n))])))
    ensures GetTopErrorCodes(b, Undefined) == Success(b.top(Num(10.0)))
    ensures GetTopErrorCodes(b, List([])) == Failure(LimitOutOfRange)
  {
    NumberReadsBack(n);
    ArraysCoerce(n);
  }

  // ---------------------------------------------------------------------------
  // Full details and quick lookup

  /** The value a step adds to the total: `proc.estimatedTimeMinutes || 0`. */
  function Term(p: TroubleshootingProcedure): Value {
    Or(p.estimatedTimeMinutes, Num(0.0))
  }

  /** The running total of the `reduce`. JavaScript's `+` adds numbers (and `true` as 1), but
      once a string or an array is added it concatenates text, and the total stays text from
      then on. `Joined(parts)` stands for the text the string forms of `parts` spell one after
      the other. */
  datatype Total = Minutes(m: real) | Joined(parts: seq<Value>)

  /** A step whose term is added as a number: its term is neither a string nor an array. */
  predicate IsNumericStep(p: TroubleshootingProcedure) {
    !Term(p).Str? && !Term(p).List?
  }

  /** The number a numeric step adds: the estimate, 1 for `true`, 0 for a falsy estimate. */
  function StepMinutes(p: TroubleshootingProcedure): real {
    match Term(p)
    case Num(n) => n
    case Bool(b) => if b then 1.0 else 0.0
    case _ => 0.0
  }

  /** `sum + (proc.estimatedTimeMinutes || 0)`. */
  function AddStep(sum: Total, p: TroubleshootingProcedure): Total {
    match sum
    case Joined(parts) => Joined(parts + [Term(p)])
    case Minutes(m) => if IsNumericStep(p) then Minutes(m + StepMinutes(p)) else Joined([Num(m), Term(p)])
  }

  /** The `reduce` from `sum`, adding the steps from the first on. */
  function Accumulate(sum: Total, ps: seq<TroubleshootingProcedure>): Total
    decreases |ps|
  {
    if ps == [] then sum else Accumulate(AddStep(sum, ps[0]), ps[1..])
  }

  /** `procedures.reduce(..., 0)`. */
  function TotalTime(ps: seq<TroubleshootingProcedure>): Total {
    Accumulate(Minutes(0.0), ps)
  }

  /** The sum of the numbers the steps add. */
  function SumMinutes(ps: seq<TroubleshootingProcedure>): real {
    if ps == [] then 0.0 else StepMinutes(ps[0]) + SumMinutes(ps[1..])
  }

  /** The terms of the steps, in order. */
  function Terms(ps: seq<TroubleshootingProcedure>): seq<Value> {
    if ps == [] then [] else [Term(ps[0])] + Terms(ps[1..])
  }

  /** Reducing two lists of steps one after the other is reducing the first and going on from
      its total with the second. */
  lemma {:induction false} TotalTimeAppend(sum: Total, a: seq<TroubleshootingProcedure>, c: seq<TroubleshootingProcedure>)
    ensures Accumulate(sum, a + c) == Accumulate(Accumulate(sum, a), c)
    decreases |a|
  {
    if a == [] {
      assert a + c == c;
    } else {
      assert (a + c)[0] == a[0] && (a + c)[1..] == a[1..] + c;
      TotalTimeAppend(AddStep(sum, a[0]), a[1..], c);
    }
  }

  /** Numeric steps keep the total a number: the start plus what they add. */
  lemma {:induction false} NumericSteps(x: real, ps: seq<TroubleshootingProcedure>)
    requires forall i :: 0 <= i < |ps| ==> IsNumericStep(ps[i])
    ensures Accumulate(Minutes(x), ps) == Minutes(x + SumMinutes(ps))
    decreases |ps|
  {
    if ps != [] {
      assert forall i :: 0 <= i < |ps| - 1 ==> ps[1..][i] == ps[i + 1];
      NumericSteps(x + StepMinutes(ps[0]), ps[1..]);
    }
  }

  /** Once the total is text, every later term is concatenated to it. */
  lemma {:induction false} TextStaysText(parts: seq<Value>, ps: seq<TroubleshootingProcedure>)
    ensures Accumulate(Joined(parts), ps) == Joined(parts + Terms(ps))
    decreases |ps|
  {
    if ps != [] {
      TextStaysText(parts + [Term(ps[0])], ps[1..]);
      assert parts + [Term(ps[0])] + Terms(ps[1..]) == parts + Terms(ps);
    }
  }

  /** Steps that each add a number between 0 and `m` give a numeric total between 0 and `m`
      times their number. */
  lemma {:induction false} TotalTimeBounds(ps: seq<TroubleshootingProcedure>, m: real)
    requires forall i :: 0 <= i < |ps| ==> IsNumericStep(ps[i]) && 0.0 <= StepMinutes(ps[i]) <= m
    ensures TotalTime(ps) == Minutes(SumMinutes(ps))
    ensures 0.0 <= SumMinutes(ps) <= m * |ps| as real
  {
    NumericSteps(0.0, ps);
    SumBounds(ps, m);
  }

  lemma {:induction false} SumBounds(ps: seq<TroubleshootingProcedure>, m: real)
    requires forall i :: 0 <= i < |ps| ==> 0.0 <= StepMinutes(ps[i]) <= m
    ensures 0.0 <= SumMinutes(ps) <= m * |ps| as real
    decreases |ps|
  {
    if ps != [] {
      assert forall i :: 0 <= i < |ps| - 1 ==> ps[1..][i] == ps[i + 1];
      SumBounds(ps[1..], m);
    }
  }

  /** The first step whose estimate is a non-empty string or an array turns the total into
      text: the number reached so far, then that step's term and every later one, as written. */
  lemma TotalBecomesText(ps: seq<TroubleshootingProcedure>, i: nat)
    requires i < |ps| && !IsNumericStep(ps[i])
    requires forall j :: 0 <= j < i ==> IsNumericStep(ps[j])
    ensures TotalTime(ps) == Joined([Num(SumMinutes(ps[..i]))] + Terms(ps[i..]))
  {
    assert ps == ps[..i] + ps[i..];
    TotalTimeAppend(Minutes(0.0), ps[..i], ps[i..]);
    NumericSteps(0.0, ps[..i]);
    var rest := ps[i..];
    assert rest[0] == ps[i];
    TextStaysText([Num(0.0 + SumMinutes(ps[..i])), Term(ps[i])], rest[1..]);
    assert [Num(SumMinutes(ps[..i])), Term(ps[i])] + Terms(rest[1..]) == [Num(SumMinutes(ps[..i]))] + Terms(rest);
  }

  /** A string estimate followed by a number: `0 + "15"` is `"015"`, and adding 10 gives
      `"01510"`. */
  lemma StringEstimateConcatenates(p: TroubleshootingProcedure, q: TroubleshootingProcedure)
    requires p.estimatedTimeMinutes == Str("15") && q.estimatedTimeMinutes == Num(10.0)
    ensures TotalTime([p, q]) == Joined([Num(0.0), Str("15"), Num(10.0)])
  {
    assert Term(p) == Str("15") && !IsNumericStep(p);
    assert Term(q) == Num(10.0);
    assert [p, q][0] == p && [p, q][1..] == [q];
    assert [q][1..] == [];
    calc {
      TotalTime([p, q]);
      Accumulate(AddStep(Minutes(0.0), p), [q]);
      Accumulate(Joined([Num(0.0), Str("15")]), [q]);
      Accumulate(Joined([Num(0.0), Str("15")] + [Num(10.0)]), []);
    }
    assert [Num(0.0), Str("15")] + [Num(10.0)] == [Num(0.0), Str("15"), Num(10.0)];
  }

  /** Steps read with a missing estimate take the default 5 minutes each. */
  lemma {:induction false} DefaultStepsTotal(ps: seq<TroubleshootingProcedure>)
    requires forall i :: 0 <= i < |ps| ==> ps[i].estimatedTimeMinutes == Num(5.0)
    ensures TotalTime(ps) == Minutes(5.0 * |ps| as real)
  {
    NumericSteps(0.0, ps);
    DefaultSum(ps);
  }

  lemma {:induction false} DefaultSum(ps: seq<TroubleshootingProcedure>)
    requires forall i :: 0 <= i < |ps| ==> ps[i].estimatedTimeMinutes == Num(5.0)
    ensures SumMinutes(ps) == 5.0 * |ps| as real
    decreases |ps|
  {
    if ps != [] {
      assert forall i :: 0 <= i < |ps| - 1 ==> ps[1..][i] == ps[i + 1];
      DefaultSum(ps[1..]);
    }
  }

  /** What `getErrorCodeWithFullDetails` returns: the error code's properties and three more. */
  datatype FullDetails = FullDetails(errorCode: ErrorCode, procedures: seq<TroubleshootingProcedure>,
                                     totalSteps: nat, estimatedTotalTime: Total)

  /** `getErrorCodeWithFullDetails(code)`. */
  function GetErrorCodeWithFullDetails(b: Backend, code: Value): Result<FullDetails, string> {
    match GetErrorCodeByCode(b, code)
    case Failure(m) => Failure(m)
    case Success(e) =>
      match GetTroubleshootingProceduresByCode(b, code)
      case Failure(m) => Failure(m)
      case Success(ps) => Success(FullDetails(e, ps, |ps|, TotalTime(ps)))
  }

  /** The details exist exactly when the code is found; they carry the code's procedures, as
      many steps as procedures, and the sum of their estimates. */
  lemma FullDetailsSpec(b: Backend, code: Value)
    ensures GetErrorCodeWithFullDetails(b, code).Success? <==> GetErrorCodeByCode(b, code).Success?
    ensures GetErrorCodeWithFullDetails(b, code).Failure? ==>
      GetErrorCodeWithFullDetails(b, code).error == GetErrorCodeByCode(b, code).error
    ensures GetErrorCodeWithFullDetails(b, code).Success? ==>
      var d := GetErrorCodeWithFullDetails(b, code).value;
      d.errorCode == GetErrorCodeByCode(b, code).value &&
      d.procedures == b.proceduresByCode(Upper(code.s)) &&
      d.totalSteps == |d.procedures| && d.estimatedTotalTime == TotalTime(d.procedures)
  {
  }

  datatype Lookup = Exact(result: FullDetails) | Search(results: seq<ErrorCode>)

  /** `quickLookup(searchTerm)`: the exact code when it is found, and otherwise, whatever
      went wrong with the exact lookup, a search limited to 5 results. */
  function QuickLookup(b: Backend, term: Value): Result<Lookup, string> {
    var exact := GetErrorCodeWithFullDetails(b, term);
    if exact.Success? then Success(Exact(exact.value))
    else
      match SearchErrorCodes(b, term, Num(5.0))
      case Failure(m) => Failure(m)
      case Success(rs) => Success(Search(rs))
  }

  /** The lookup is exact precisely when the code is found; otherwise it is the limited search,
      and it fails only when the term is not a string with a non-space character. */
  lemma QuickLookupSpec(b: Backend, term: Value)
    ensures QuickLookup(b, term).Success? && QuickLookup(b, term).value.Exact? <==>
      GetErrorCodeByCode(b, term).Success?
    ensures GetErrorCodeByCode(b, term).Failure? ==>
      (QuickLookup(b, term).Success? <==> term.Str? && !AllSpace(term.s))
    ensures GetErrorCodeByCode(b, term).Failure? && term.Str? && !AllSpace(term.s) ==>
      QuickLookup(b, term) == Success(Search(b.search(Trim(term.s), Num(5.0))))
    ensures QuickLookup(b, term).Failure? ==> QuickLookup(b, term).error == TermRequired
  {
    FullDetailsSpec(b, term);
    SearchErrorCodesSpec(b, term, Num(5.0));
  }

  /** `getSeverityLevels()` and `getErrorCategories()`. */
  function SeverityLevelsList(): (r: seq<string>)
    ensures |r| == 4 && "CRITICAL" in r
  {
    SeverityLevels
  }

  function ErrorCategoriesList(): (r: seq<string>)
    ensures |r| == 13 && "Lighting" in r
  {
    ErrorCategories
  }
}
