/** The equipment data model (backend/src/models/equipment.js): the equipment record with
    its specification list, the search criteria that become a parameterised SQL `WHERE`
    clause, and the per-user equipment permissions. */
module EquipmentModel {
  import opened Wrappers
  import opened Text
  import opened Sequences

  // ---------------------------------------------------------------------------
  // Equipment

  /** Where a piece of equipment stands; only present when the row has a (truthy) plant. */
  datatype Location = Location(plant: string, area: Option<string>, line: Option<string>)

  /** One specification entry; `specType` is 'TECHNICAL', 'OPERATING', 'SAFETY' or
      'PERFORMANCE' in the data. */
  datatype Specification = Specification(specType: Option<string>, specName: Option<string>, specValue: Option<string>)

  /** The joined database row an `Equipment` is built from (the columns the core reads). */
  datatype EquipmentRow = EquipmentRow(
    equipmentNumber: Option<string>, name: Option<string>,
    criticality: Option<string>, operationalState: Option<string>,
    plant: Option<string>, area: Option<string>, line: Option<string>)

  /** The latest status record: its `performanceData` object, as key/value pairs. */
  datatype EquipmentStatus = EquipmentStatus(operationalState: Option<string>, performanceData: Option<map<string, string>>)

  /** The location object of the constructor: present exactly when `plant` is truthy. */
  function LocationOf(row: EquipmentRow): (loc: Option<Location>)
    ensures loc.Some? <==> Truthy(row.plant)
    ensures loc.Some? ==> loc.value == Location(row.plant.value, row.area, row.line)
  {
    if Truthy(row.plant) then Some(Location(row.plant.value, row.area, row.line)) else None
  }

  class Equipment {
    var equipmentNumber: Option<string>
    var name: Option<string>
    var criticality: Option<string>
    var operationalState: Option<string>
    var location: Option<Location>
    var specifications: seq<Specification>
    var status: Option<EquipmentStatus>

    /** `new Equipment(data)`: no specifications and no status yet. */
    constructor (row: EquipmentRow)
      ensures equipmentNumber == row.equipmentNumber && name == row.name
      ensures criticality == row.criticality && operationalState == row.operationalState
      ensures location == LocationOf(row)
      ensures specifications == [] && status == None
    {
      equipmentNumber := row.equipmentNumber;
      name := row.name;
      criticality := row.criticality;
      operationalState := row.operationalState;
      location := LocationOf(row);
      specifications := [];
      status := None;
    }

    /** `addSpecification`: appends one entry and changes nothing else. */
    method AddSpecification(spec: Specification)
      modifies this
      ensures specifications == old(specifications) + [spec]
      ensures equipmentNumber == old(equipmentNumber) && name == old(name)
      ensures criticality == old(criticality) && operationalState == old(operationalState)
      ensures location == old(location) && status == old(status)
    {
      specifications := specifications + [spec];
    }

    /** `getSpecificationsByType(type)`: the entries whose `specType` is `type`, in order
        (see `SpecificationsByTypeSpec`). */
    function SpecificationsByType(specType: Option<string>): seq<Specification>
      reads this
    {
      Filter(specifications, (s: Specification) => s.specType == specType)
    }
  }

  /** The entries of a type are exactly the entries with that type, in the list's order. */
  lemma SpecificationsByTypeSpec(e: Equipment, specType: Option<string>)
    ensures var r := e.SpecificationsByType(specType);
      IsSubsequence(r, e.specifications) &&
      (forall s :: s in r <==> s in e.specifications && s.specType == specType)
  {
    var p := (s: Specification) => s.specType == specType;
    FilterSpec(e.specifications, p);
    FilterSubsequence(e.specifications, p);
  }

  /** The entry just added is listed under its own type, after the earlier ones. */
  lemma AddedSpecificationListed(specs: seq<Specification>, spec: Specification)
    ensures Filter(specs + [spec], (s: Specification) => s.specType == spec.specType)
         == Filter(specs, (s: Specification) => s.specType == spec.specType) + [spec]
  {
    var p := (s: Specification) => s.specType == spec.specType;
    FilterAppend(specs, [spec], p);
    assert Filter([spec], p) == [spec] + Filter([spec][1..], p);
  }

  // ---------------------------------------------------------------------------
  // Search criteria

  /** The query parameters `EquipmentSearchCriteria` is built from; every one may be absent. */
  datatype SearchParams = SearchParams(
    equipmentNumber: Option<string>, name: Option<string>, manufacturer: Option<string>,
    model: Option<string>, category: Option<string>, plant: Option<string>,
    area: Option<string>, line: Option<string>, operationalState: Option<string>,
    criticality: Option<string>, hasAlarms: Option<string>, maintenanceDue: Option<string>,
    page: Option<string>, limit: Option<string>, sortBy: Option<string>, sortOrder: Option<string>)

  /** `parseInt(value) || fallback`: `NaN` (also for an absent value) and 0 are falsy. */
  function IntOr(value: Option<string>, fallback: int): (r: int)
    requires fallback != 0
    ensures r != 0
  {
    match value
    case None => fallback
    case Some(s) =>
      match ParseInt(s)
      case None => fallback
      case Some(n) => if n != 0 then n else fallback
  }

  const DefaultPage: int := 1
  const DefaultLimit: int := 20
  const DefaultSortBy: string := "equipment_number"

  /** `params.sortBy || 'equipment_number'`. */
  function SortByOf(sortBy: Option<string>): string {
    if Truthy(sortBy) then sortBy.value else DefaultSortBy
  }

  /** `params.sortOrder === 'desc' ? 'DESC' : 'ASC'`. */
  function SortOrderOf(sortOrder: Option<string>): string {
    if sortOrder == Some("desc") then "DESC" else "ASC"
  }

  /** A page or a limit defaults when it is absent, unparsable or zero. */
  lemma PaginationDefaults()
    ensures IntOr(None, DefaultPage) == 1 && IntOr(None, DefaultLimit) == 20
    ensures IntOr(Some("0"), DefaultPage) == 1 && IntOr(Some("0"), DefaultLimit) == 20
    ensures IntOr(Some("abc"), DefaultPage) == 1 && IntOr(Some("abc"), DefaultLimit) == 20
  {
    ParseIntNatToString(0);
    assert ParseInt("abc") == None by {
      assert TrimStart("abc") == "abc";
      assert DigitRun("abc", 10) == 0;
    }
  }

  /** A non-zero number given in decimal is kept as it is, negative or not, and the offset
      then skips the earlier pages (a negative page gives a negative offset). */
  lemma PaginationNumbers(n: nat, limit: int)
    requires n > 0 && limit != 0
    ensures IntOr(Some(NatToString(n)), DefaultPage) == n
    ensures IntOr(Some("-" + NatToString(n)), DefaultPage) == -(n as int)
    ensures (IntOr(Some("-" + NatToString(n)), DefaultPage) - 1) * limit == -(n as int + 1) * limit
  {
    ParseIntNatToString(n);
    ParseIntNegative(n);
  }

  /** The sort order is "DESC" exactly for the parameter "desc" (case matters), and the
      sort column is the parameter unless that is absent or empty. */
  lemma SortingSpec(sortBy: Option<string>, sortOrder: Option<string>)
    ensures SortOrderOf(sortOrder) == "DESC" <==> sortOrder == Some("desc")
    ensures SortOrderOf(sortOrder) in {"ASC", "DESC"}
    ensures SortOrderOf(Some("DESC")) == "ASC"
    ensures SortByOf(sortBy) == (if Truthy(sortBy) then sortBy.value else "equipment_number")
  {
  }

  /** The ten filter values that can reach the `WHERE` clause. */
  datatype FilterValues = FilterValues(
    equipmentNumber: Option<string>, name: Option<string>, manufacturer: Option<string>,
    model: Option<string>, category: Option<string>, plant: Option<string>,
    area: Option<string>, line: Option<string>, operationalState: Option<string>,
    criticality: Option<string>)

  /** One possible condition: its SQL text up to the placeholder number, whether the value is
      matched as a substring (`ILIKE '%v%'`) or verbatim (`=`), and the filter value. */
  datatype Candidate = Candidate(test: string, like: bool, value: Option<string>)

  /** The conditions in the order `buildWhereClause` tests them. */
  function Candidates(f: FilterValues): (cs: seq<Candidate>)
    ensures |cs| == 10
  {
    [ Candidate("e.equipment_number ILIKE $", true, f.equipmentNumber),
      Candidate("e.name ILIKE $", true, f.name),
      Candidate("e.manufacturer ILIKE $", true, f.manufacturer),
      Candidate("e.model ILIKE $", true, f.model),
      Candidate("ec.name ILIKE $", true, f.category),
      Candidate("el.plant = $", false, f.plant),
      Candidate("el.area = $", false, f.area),
      Candidate("el.line = $", false, f.line),
      Candidate("e.operational_state = $", false, f.operationalState),
      Candidate("e.criticality = $", false, f.criticality) ]
  }

  predicate IsSet(c: Candidate) { Truthy(c.value) }

  /** The bound value: `%v%` for a substring match, `v` itself otherwise. */
  function Bound(c: Candidate): string {
    var v := c.value.GetOr("");
    if c.like then "%" + v + "%" else v
  }

  /** The accumulators `conditions`, `values` and `paramIndex`. */
  datatype Clause = Clause(conditions: seq<string>, values: seq<string>, paramIndex: nat)

  /** One `if (this.x) { push; push; paramIndex++ }` block. */
  function Push(acc: Clause, c: Candidate): Clause {
    if IsSet(c) then Clause(acc.conditions + [c.test + NatToString(acc.paramIndex)], acc.values + [Bound(c)], acc.paramIndex + 1)
    else acc
  }

  /** The accumulators after the blocks for `cs`, in order. */
  function Blocks(cs: seq<Candidate>): Clause {
    if cs == [] then Clause([], [], 1) else Push(Blocks(cs[..|cs| - 1]), cs[|cs| - 1])
  }

  /** What `buildWhereClause` returns. */
  datatype Where = Where(whereClause: string, values: seq<string>, paramIndex: nat)

  function WhereOf(f: FilterValues): Where {
    var acc := Blocks(Candidates(f));
    Where(if |acc.conditions| > 0 then "WHERE " + Join(acc.conditions, " AND ") else "",
          acc.values, acc.paramIndex)
  }

  /** The k-th condition is the k-th set filter with placeholder `$k`; there is one value
      per condition, shaped by its filter; the next free placeholder follows the last. */
  lemma {:induction false} BlocksSpec(cs: seq<Candidate>)
    ensures var acc, a := Blocks(cs), Filter(cs, IsSet);
      |acc.conditions| == |a| && |acc.values| == |a| && acc.paramIndex == |a| + 1 &&
      forall k :: 0 <= k < |a| ==>
        acc.conditions[k] == a[k].test + NatToString(k + 1) && acc.values[k] == Bound(a[k])
  {
    if cs != [] {
      var init, last := cs[..|cs| - 1], cs[|cs| - 1];
      BlocksSpec(init);
      FilterAppend(init, [last], IsSet);
      assert init + [last] == cs;
      assert Filter([last], IsSet) == (if IsSet(last) then [last] else []) + Filter([last][1..], IsSet);
    }
  }

  /** Numbering: the k-th condition is the k-th set filter followed by placeholder `$k`,
      there are as many values as conditions, each shaped by its filter, and the returned
      index is one past the last placeholder. */
  lemma WhereNumbering(f: FilterValues)
    ensures var acc, w, a := Blocks(Candidates(f)), WhereOf(f), Filter(Candidates(f), IsSet);
      |acc.conditions| == |a| && |w.values| == |a| && w.paramIndex == |w.values| + 1 &&
      forall k :: 0 <= k < |a| ==>
        IsSet(a[k]) && acc.conditions[k] == a[k].test + NatToString(k + 1) &&
        w.values[k] == (if a[k].like then "%" + a[k].value.value + "%" else a[k].value.value)
  {
    var cs := Candidates(f);
    BlocksSpec(cs);
    FilterSpec(cs, IsSet);
  }

  predicate AnyFilterSet(f: FilterValues) {
    Truthy(f.equipmentNumber) || Truthy(f.name) || Truthy(f.manufacturer) || Truthy(f.model) ||
    Truthy(f.category) || Truthy(f.plant) || Truthy(f.area) || Truthy(f.line) ||
    Truthy(f.operationalState) || Truthy(f.criticality)
  }

  /** The clause is empty exactly when no filter is set, and otherwise is "WHERE " followed by
      the conditions joined with " AND ". */
  lemma WhereEmptyIffNoFilter(f: FilterValues)
    ensures WhereOf(f).whereClause == "" <==> !AnyFilterSet(f)
    ensures AnyFilterSet(f) ==>
      WhereOf(f).whereClause == "WHERE " + Join(Blocks(Candidates(f)).conditions, " AND ")
  {
    var cs := Candidates(f);
    BlocksSpec(cs);
    FilterSpec(cs, IsSet);
    if AnyFilterSet(f) {
      SomeFilterSomeCandidate(f);
      var i :| 0 <= i < 10 && IsSet(cs[i]);
      assert cs[i] in Filter(cs, IsSet);
    } else {
      NoFilterNoCandidate(f);
    }
  }

  /** With some filter set, some candidate is set. */
  lemma SomeFilterSomeCandidate(f: FilterValues)
    requires AnyFilterSet(f)
    ensures exists i :: 0 <= i < 10 && IsSet(Candidates(f)[i])
  {
    var cs := Candidates(f);
    if Truthy(f.equipmentNumber) { assert IsSet(cs[0]); }
    else if Truthy(f.name) { assert IsSet(cs[1]); }
    else if Truthy(f.manufacturer) { assert IsSet(cs[2]); }
    else if Truthy(f.model) { assert IsSet(cs[3]); }
    else if Truthy(f.category) { assert IsSet(cs[4]); }
    else if Truthy(f.plant) { assert IsSet(cs[5]); }
    else if Truthy(f.area) { assert IsSet(cs[6]); }
    else if Truthy(f.line) { assert IsSet(cs[7]); }
    else if Truthy(f.operationalState) { assert IsSet(cs[8]); }
    else { assert IsSet(cs[9]); }
  }

  /** With no filter set, no candidate is set. */
  lemma NoFilterNoCandidate(f: FilterValues)
    requires !AnyFilterSet(f)
    ensures forall c :: c in Candidates(f) ==> !IsSet(c)
  {
  }

  class SearchCriteria {
    var equipmentNumber: Option<string>
    var name: Option<string>
    var manufacturer: Option<string>
    var model: Option<string>
    var category: Option<string>
    var plant: Option<string>
    var area: Option<string>
    var line: Option<string>
    var operationalState: Option<string>
    var criticality: Option<string>
    var hasAlarms: Option<string>
    var maintenanceDue: Option<string>
    var page: int
    var limit: int
    var offset: int
    var sortBy: string
    var sortOrder: string

    /** `new EquipmentSearchCriteria(params)`. */
    constructor (params: SearchParams)
      ensures Filters() == FilterValues(params.equipmentNumber, params.name, params.manufacturer,
        params.model, params.category, params.plant, params.area, params.line,
        params.operationalState, params.criticality)
      ensures hasAlarms == params.hasAlarms && maintenanceDue == params.maintenanceDue
      ensures page == IntOr(params.page, DefaultPage) && limit == IntOr(params.limit, DefaultLimit)
      ensures offset == (page - 1) * limit
      ensures sortBy == SortByOf(params.sortBy) && sortOrder == SortOrderOf(params.sortOrder)
    {
      equipmentNumber := params.equipmentNumber;
      name := params.name;
      manufacturer := params.manufacturer;
      model := params.model;
      category := params.category;
      plant := params.plant;
      area := params.area;
      line := params.line;
      operationalState := params.operationalState;
      criticality := params.criticality;
      hasAlarms := params.hasAlarms;
      maintenanceDue := params.maintenanceDue;
      var pageNumber := IntOr(params.page, DefaultPage);
      var pageSize := IntOr(params.limit, DefaultLimit);
      page := pageNumber;
      limit := pageSize;
      offset := (pageNumber - 1) * pageSize;
      sortBy := SortByOf(params.sortBy);
      sortOrder := SortOrderOf(params.sortOrder);
    }

    /** The filter fields that `buildWhereClause` reads (`hasAlarms` and `maintenanceDue`
        are not among them). */
    function Filters(): FilterValues
      reads this
    {
      FilterValues(equipmentNumber, name, manufacturer, model, category, plant, area, line,
                   operationalState, criticality)
    }

    /** `buildWhereClause`: the ten `if` blocks over this criteria's filter fields. */
    method BuildWhereClause() returns (whereClause: string, values: seq<string>, paramIndex: nat)
      ensures Where(whereClause, values, paramIndex) == WhereOf(Filters())
    {
      whereClause, values, paramIndex := BuildWhere(Filters());
    }
  }

  /** The candidates, one block after the other, as `BuildWhere` pushes them. */
  lemma CandidatesPushed(f: FilterValues)
    ensures Candidates(f) == []
      + [Candidate("e.equipment_number ILIKE $", true, f.equipmentNumber)]
      + [Candidate("e.name ILIKE $", true, f.name)]
      + [Candidate("e.manufacturer ILIKE $", true, f.manufacturer)]
      + [Candidate("e.model ILIKE $", true, f.model)]
      + [Candidate("ec.name ILIKE $", true, f.category)]
      + [Candidate("el.plant = $", false, f.plant)]
      + [Candidate("el.area = $", false, f.area)]
      + [Candidate("el.line = $", false, f.line)]
      + [Candidate("e.operational_state = $", false, f.operationalState)]
      + [Candidate("e.criticality = $", false, f.criticality)]
  {
  }

  /** The ten `if` blocks of `buildWhereClause`, in source order, over the filter values `f`;
      `done` holds the candidates whose blocks have run. */
  method BuildWhere(f: FilterValues) returns (whereClause: string, values: seq<string>, paramIndex: nat)
    ensures Where(whereClause, values, paramIndex) == WhereOf(f)
  {
    var conditions: seq<string> := [];
    values := [];
    paramIndex := 1;
    ghost var done: seq<Candidate> := [];
    conditions, values, paramIndex, done := PushIfSet(conditions, values, paramIndex, Candidate("e.equipment_number ILIKE $", true, f.equipmentNumber), done);
    conditions, values, paramIndex, done := PushIfSet(conditions, values, paramIndex, Candidate("e.name ILIKE $", true, f.name), done);
    conditions, values, paramIndex, done := PushIfSet(conditions, values, paramIndex, Candidate("e.manufacturer ILIKE $", true, f.manufacturer), done);
    conditions, values, paramIndex, done := PushIfSet(conditions, values, paramIndex, Candidate("e.model ILIKE $", true, f.model), done);
    conditions, values, paramIndex, done := PushIfSet(conditions, values, paramIndex, Candidate("ec.name ILIKE $", true, f.category), done);
    conditions, values, paramIndex, done := PushIfSet(conditions, values, paramIndex, Candidate("el.plant = $", false, f.plant), done);
    conditions, values, paramIndex, done := PushIfSet(conditions, values, paramIndex, Candidate("el.area = $", false, f.area), done);
    conditions, values, paramIndex, done := PushIfSet(conditions, values, paramIndex, Candidate("el.line = $", false, f.line), done);
    conditions, values, paramIndex, done := PushIfSet(conditions, values, paramIndex, Candidate("e.operational_state = $", false, f.operationalState), done);
    conditions, values, paramIndex, done := PushIfSet(conditions, values, paramIndex, Candidate("e.criticality = $", false, f.criticality), done);
    CandidatesPushed(f);
    whereClause := if |conditions| > 0 then "WHERE " + Join(conditions, " AND ") else "";
  }

  /** One `if (this.x)` block of `buildWhereClause`: when the filter value is set, push its
      condition with the next placeholder and its bound value, and advance the placeholder. */
  method PushIfSet(conditions: seq<string>, values: seq<string>, paramIndex: nat, c: Candidate, ghost done: seq<Candidate>)
    returns (conditions': seq<string>, values': seq<string>, paramIndex': nat, ghost done': seq<Candidate>)
    requires Clause(conditions, values, paramIndex) == Blocks(done)
    ensures done' == done + [c]
    ensures Clause(conditions', values', paramIndex') == Blocks(done')
  {
    done' := done + [c];
    assert done'[..|done|] == done;
    conditions', values', paramIndex' := conditions, values, paramIndex;
    if Truthy(c.value) {
      conditions' := conditions' + [c.test + NatToString(paramIndex')];
      values' := values' + [if c.like then "%" + c.value.value + "%" else c.value.value];
      paramIndex' := paramIndex' + 1;
    }
  }

  // ---------------------------------------------------------------------------
  // Permissions

  /** `UserEquipmentPermissions`; the lists are `[]` when the row has none. */
  datatype Permissions = Permissions(
    role: Option<string>, equipmentRole: Option<string>,
    accessiblePlants: seq<string>, accessibleAreas: seq<string>,
    accessibleLines: seq<string>, assignedEquipment: seq<string>)

  /** The permission row; the four lists may be `null`. */
  datatype PermissionsRow = PermissionsRow(
    role: Option<string>, equipmentRole: Option<string>,
    accessiblePlants: Option<seq<string>>, accessibleAreas: Option<seq<string>>,
    accessibleLines: Option<seq<string>>, assignedEquipment: Option<seq<string>>)

  /** The constructor: `data.x || []` for each list. */
  function PermissionsOf(row: PermissionsRow): (p: Permissions)
    ensures p.role == row.role && p.equipmentRole == row.equipmentRole
    ensures p.accessiblePlants == row.accessiblePlants.GetOr([]) && p.accessibleAreas == row.accessibleAreas.GetOr([])
    ensures p.accessibleLines == row.accessibleLines.GetOr([]) && p.assignedEquipment == row.assignedEquipment.GetOr([])
  {
    Permissions(row.role, row.equipmentRole, row.accessiblePlants.GetOr([]), row.accessibleAreas.GetOr([]),
                row.accessibleLines.GetOr([]), row.assignedEquipment.GetOr([]))
  }

  predicate IsAdmin(p: Permissions) { p.role == Some("admin") }

  /** `canAccessEquipment(equipment)`, for an equipment with this number and location: the
      checks run in source order and the first failing one answers. */
  function CanAccessEquipment(p: Permissions, equipmentNumber: Option<string>, location: Option<Location>): bool {
    if IsAdmin(p) then true
    else if |p.accessiblePlants| > 0 && location.Some? && location.value.plant !in p.accessiblePlants then false
    else if |p.accessibleAreas| > 0 && location.Some? && !Includes(p.accessibleAreas, location.value.area) then false
    else if |p.accessibleLines| > 0 && location.Some? && Truthy(location.value.line)
            && !Includes(p.accessibleLines, location.value.line) then false
    else if p.equipmentRole == Some("technician") && |p.assignedEquipment| > 0 then
      Includes(p.assignedEquipment, equipmentNumber)
    else true
  }

  /** Each location list restricts only when it is non-empty and there is a location. */
  predicate LocationAllowed(p: Permissions, location: Option<Location>) {
    location.None? ||
    ((p.accessiblePlants == [] || location.value.plant in p.accessiblePlants) &&
     (p.accessibleAreas == [] || Includes(p.accessibleAreas, location.value.area)) &&
     (p.accessibleLines == [] || !Truthy(location.value.line) || Includes(p.accessibleLines, location.value.line)))
  }

  /** A technician with an assignment list sees only the assigned equipment. */
  predicate AssignmentAllowed(p: Permissions, equipmentNumber: Option<string>) {
    p.equipmentRole != Some("technician") || p.assignedEquipment == [] ||
    Includes(p.assignedEquipment, equipmentNumber)
  }

  /** Access is granted exactly to admins and to those whose location lists and assignment
      list all allow the equipment. */
  lemma CanAccessEquipmentSpec(p: Permissions, equipmentNumber: Option<string>, location: Option<Location>)
    ensures CanAccessEquipment(p, equipmentNumber, location) <==>
      IsAdmin(p) || (LocationAllowed(p, location) && AssignmentAllowed(p, equipmentNumber))
  {
  }

  /** A missing or falsy line is never checked: the line list then does not matter. */
  lemma FalsyLineNeverDenies(p: Permissions, equipmentNumber: Option<string>, plant: string, area: Option<string>, line: Option<string>)
    requires !Truthy(line)
    ensures CanAccessEquipment(p, equipmentNumber, Some(Location(plant, area, line))) ==
            CanAccessEquipment(p.(accessibleLines := []), equipmentNumber, Some(Location(plant, area, line)))
  {
  }

  /** Equipment without a location is only ever refused by a technician's assignment list. */
  lemma NoLocationOnlyAssignment(p: Permissions, equipmentNumber: Option<string>)
    ensures CanAccessEquipment(p, equipmentNumber, None) <==> IsAdmin(p) || AssignmentAllowed(p, equipmentNumber)
  {
  }

  const TechnicalRoles: seq<string> := ["admin", "plant_manager", "maintenance_supervisor", "technician"]
  const CostRoles: seq<string> := ["admin", "plant_manager"]

  predicate CanViewMaintenance(p: Permissions) { Includes(TechnicalRoles, p.equipmentRole) }
  predicate CanViewTechnicalSpecs(p: Permissions) { Includes(TechnicalRoles, p.equipmentRole) }
  predicate CanViewCostData(p: Permissions) { Includes(CostRoles, p.equipmentRole) }

  /** Maintenance and technical specifications are shown to the same roles; whoever sees
      costs sees both; a technician or supervisor sees both but no costs. */
  lemma ViewRules(p: Permissions)
    ensures CanViewMaintenance(p) == CanViewTechnicalSpecs(p)
    ensures CanViewCostData(p) ==> CanViewMaintenance(p) && CanViewTechnicalSpecs(p)
    ensures p.equipmentRole in {Some("technician"), Some("maintenance_supervisor")} ==>
      CanViewTechnicalSpecs(p) && !CanViewCostData(p)
    ensures p.equipmentRole.None? ==> !CanViewMaintenance(p) && !CanViewCostData(p)
  {
  }
}
