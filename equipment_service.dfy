/** The equipment service's permission logic and cache (backend/src/services/EquipmentService.js):
    search criteria narrowed to the locations a user may see, equipment and maintenance data
    stripped of what the user may not see, per-user statistics, and a time-limited result
    cache. The database adapter and the clock are outside the model: search results arrive as
    a function of the filters, and the current time is a parameter. */
module EquipmentService {
  import opened Wrappers
  import opened Sequences
  import opened EquipmentModel

  // ---------------------------------------------------------------------------
  // Search narrowing

  const PlantDenied: string := "Access denied: Cannot access specified plant"
  const AreaDenied: string := "Access denied: Cannot access specified area"
  const LineDenied: string := "Access denied: Cannot access specified line"

  /** `applyPermissionFilters(criteria, permissions)`: admins are not narrowed; otherwise an
      absent plant (area) is set to the first accessible one, and a given plant, area or line
      outside a non-empty list is refused. The plant is already set when the area is refused. */
  method ApplyPermissionFilters(criteria: SearchCriteria, p: Permissions) returns (r: Result<(), string>)
    modifies criteria
    ensures IsAdmin(p) ==> r.Success? && criteria.plant == old(criteria.plant) && criteria.area == old(criteria.area)
    ensures !IsAdmin(p) ==> criteria.plant == NarrowedPlant(p, old(criteria.plant))
    ensures !IsAdmin(p) && r.Success? ==> criteria.area == Narrowed(p.accessibleAreas, old(criteria.area))
    ensures !IsAdmin(p) && r.Failure? ==>
      criteria.area == (if PlantRefused(p, old(criteria.plant)) then old(criteria.area)
                        else Narrowed(p.accessibleAreas, old(criteria.area)))
    ensures r == NarrowingOutcome(p, old(criteria.plant), old(criteria.area), old(criteria.line))
    ensures criteria.line == old(criteria.line)
    ensures criteria.Filters() == old(criteria.Filters()).(plant := criteria.plant, area := criteria.area)
    ensures criteria.page == old(criteria.page) && criteria.limit == old(criteria.limit)
    ensures criteria.offset == old(criteria.offset)
    ensures criteria.sortBy == old(criteria.sortBy) && criteria.sortOrder == old(criteria.sortOrder)
  {
    if IsAdmin(p) {
      return Success(());
    }
    if |p.accessiblePlants| > 0 {
      if !Truthy(criteria.plant) {
        criteria.plant := Some(p.accessiblePlants[0]);
      } else if criteria.plant.value !in p.accessiblePlants {
        return Failure(PlantDenied);
      }
    }
    if |p.accessibleAreas| > 0 {
      if !Truthy(criteria.area) {
        criteria.area := Some(p.accessibleAreas[0]);
      } else if criteria.area.value !in p.accessibleAreas {
        return Failure(AreaDenied);
      }
    }
    if |p.accessibleLines| > 0 && Truthy(criteria.line) {
      if criteria.line.value !in p.accessibleLines {
        return Failure(LineDenied);
      }
    }
    return Success(());
  }

  /** A value outside a non-empty list is refused. */
  predicate Refused(list: seq<string>, v: Option<string>) {
    |list| > 0 && Truthy(v) && v.value !in list
  }

  predicate PlantRefused(p: Permissions, plant: Option<string>) { Refused(p.accessiblePlants, plant) }

  /** An absent value takes the first entry of a non-empty list. */
  function Narrowed(list: seq<string>, v: Option<string>): Option<string> {
    if |list| > 0 && !Truthy(v) then Some(list[0]) else v
  }

  function NarrowedPlant(p: Permissions, plant: Option<string>): Option<string> {
    Narrowed(p.accessiblePlants, plant)
  }

  /** Which refusal, if any, the narrowing ends with: plant first, then area, then line. */
  function NarrowingOutcome(p: Permissions, plant: Option<string>, area: Option<string>, line: Option<string>): Result<(), string> {
    if IsAdmin(p) then Success(())
    else if Refused(p.accessiblePlants, plant) then Failure(PlantDenied)
    else if Refused(p.accessibleAreas, area) then Failure(AreaDenied)
    else if Refused(p.accessibleLines, line) then Failure(LineDenied)
    else Success(())
  }

  /** After a successful narrowing of a non-admin, the plant and area filters are members of
      their lists whenever those are non-empty, and a given line is in its non-empty list;
      the line is never filled in. */
  lemma NarrowingSpec(p: Permissions, plant: Option<string>, area: Option<string>, line: Option<string>)
    requires !IsAdmin(p) && NarrowingOutcome(p, plant, area, line).Success?
    ensures |p.accessiblePlants| > 0 ==> Includes(p.accessiblePlants, NarrowedPlant(p, plant))
    ensures |p.accessibleAreas| > 0 ==> Includes(p.accessibleAreas, Narrowed(p.accessibleAreas, area))
    ensures |p.accessibleLines| > 0 && Truthy(line) ==> Includes(p.accessibleLines, line)
    ensures !Truthy(plant) && |p.accessiblePlants| > 0 ==> NarrowedPlant(p, plant) == Some(p.accessiblePlants[0])
  {
  }

  /** Narrowing refuses exactly the requests `canAccessLocation` refuses for the given
      plant, area and line, once an absent plant is filled in. */
  lemma NarrowingAgreesWithLocation(p: Permissions, plant: Option<string>, area: Option<string>, line: Option<string>)
    ensures NarrowingOutcome(p, plant, area, line).Success? <==>
      CanAccessLocation(p, NarrowedPlant(p, plant), area, line)
  {
  }

  // ---------------------------------------------------------------------------
  // Location check

  /** `canAccessLocation(permissions, plant, area, line)`. */
  function CanAccessLocation(p: Permissions, plant: Option<string>, area: Option<string>, line: Option<string>): bool {
    if IsAdmin(p) then true
    else if |p.accessiblePlants| > 0 && !Includes(p.accessiblePlants, plant) then false
    else if Truthy(area) && |p.accessibleAreas| > 0 && !Includes(p.accessibleAreas, area) then false
    else if Truthy(line) && |p.accessibleLines| > 0 && !Includes(p.accessibleLines, line) then false
    else true
  }

  /** Admins may see every location; anyone else is refused exactly when a non-empty list
      excludes the plant, or excludes a given area or line. */
  lemma CanAccessLocationSpec(p: Permissions, plant: Option<string>, area: Option<string>, line: Option<string>)
    ensures CanAccessLocation(p, plant, area, line) <==>
      IsAdmin(p) ||
      !((|p.accessiblePlants| > 0 && !Includes(p.accessiblePlants, plant)) ||
        Refused(p.accessibleAreas, area) || Refused(p.accessibleLines, line))
  {
  }

  /** The location check and the equipment check differ on an absent area: the location check
      lets it through, while the equipment check refuses equipment whose location has none
      when the user's area list is non-empty. */
  lemma AbsentAreaChecksDiffer(p: Permissions, equipmentNumber: Option<string>, plant: string)
    requires !IsAdmin(p) && |p.accessibleAreas| > 0
    requires p.accessiblePlants == [] || plant in p.accessiblePlants
    ensures CanAccessLocation(p, Some(plant), None, None)
    ensures !CanAccessEquipment(p, equipmentNumber, Some(Location(plant, None, None)))
  {
  }

  // ---------------------------------------------------------------------------
  // Data stripping

  predicate NotTechnical(s: Specification) { s.specType != Some("TECHNICAL") }

  /** The cost keys removed from the performance data. */
  const CostKeys: set<string> := {"cost", "maintenance_cost"}

  /** `filterEquipmentData(equipment, permissions)`. */
  method FilterEquipmentData(e: Equipment, p: Permissions)
    modifies e
    ensures e.specifications == if CanViewTechnicalSpecs(p) then old(e.specifications)
                                else Filter(old(e.specifications), NotTechnical)
    ensures e.status == if !CanViewCostData(p) && old(e.status).Some? && old(e.status).value.performanceData.Some?
                        then Some(old(e.status).value.(performanceData := Some(old(e.status).value.performanceData.value - CostKeys)))
                        else old(e.status)
    ensures e.equipmentNumber == old(e.equipmentNumber) && e.location == old(e.location)
    ensures e.name == old(e.name) && e.criticality == old(e.criticality)
    ensures e.operationalState == old(e.operationalState)
  {
    if !CanViewTechnicalSpecs(p) {
      e.specifications := Filter(e.specifications, NotTechnical);
    }
    if !CanViewCostData(p) && e.status.Some? {
      if e.status.value.performanceData.Some? {
        var data := e.status.value.performanceData.value;
        assert data - {"cost"} - {"maintenance_cost"} == data - CostKeys;
        e.status := Some(e.status.value.(performanceData := Some(data - {"cost"} - {"maintenance_cost"})));
      }
    }
  }

  /** Stripping keeps exactly the non-technical entries, in order, and stripping again
      changes nothing. */
  lemma StrippedSpecifications(specs: seq<Specification>)
    ensures var r := Filter(specs, NotTechnical);
      IsSubsequence(r, specs) &&
      (forall s :: s in r <==> s in specs && s.specType != Some("TECHNICAL")) &&
      Filter(r, NotTechnical) == r
  {
    FilterSpec(specs, NotTechnical);
    FilterSubsequence(specs, NotTechnical);
    FilterIdempotent(specs, NotTechnical);
  }

  /** Stripping removes the two cost keys and keeps every other entry. */
  lemma StrippedPerformanceData(data: map<string, string>)
    ensures var r := data - CostKeys;
      "cost" !in r && "maintenance_cost" !in r &&
      (forall k :: k in data && k !in CostKeys ==> k in r && r[k] == data[k]) &&
      (forall k :: k in r ==> k in data)
  {
  }

  /** A maintenance record, as the adapter returns it. */
  class MaintenanceRecord {
    var workOrderNumber: Option<string>
    var description: Option<string>
    var materialCost: Option<real>
    var laborCost: Option<real>
    var totalCost: Option<real>

    constructor (workOrderNumber: Option<string>, description: Option<string>,
                 materialCost: Option<real>, laborCost: Option<real>, totalCost: Option<real>)
      ensures this.workOrderNumber == workOrderNumber && this.description == description
      ensures this.materialCost == materialCost && this.laborCost == laborCost && this.totalCost == totalCost
    {
      this.workOrderNumber := workOrderNumber;
      this.description := description;
      this.materialCost := materialCost;
      this.laborCost := laborCost;
      this.totalCost := totalCost;
    }

    predicate CostsHidden()
      reads this
    {
      materialCost == None && laborCost == None && totalCost == None
    }
  }

  /** The cost filter of `getMaintenanceHistory`: without cost permission every record's
      three costs are set to `null`; nothing else changes. */
  method HideMaintenanceCosts(records: seq<MaintenanceRecord>, p: Permissions)
    modifies set r | r in records
    ensures !CanViewCostData(p) ==> forall r :: r in records ==> r.CostsHidden()
    ensures CanViewCostData(p) ==> forall r :: r in records ==>
      r.materialCost == old(r.materialCost) && r.laborCost == old(r.laborCost) && r.totalCost == old(r.totalCost)
    ensures forall r :: r in records ==>
      r.workOrderNumber == old(r.workOrderNumber) && r.description == old(r.description)
  {
    if !CanViewCostData(p) {
      var i := 0;
      while i < |records|
        invariant i <= |records|
        invariant forall k :: 0 <= k < i ==> records[k].CostsHidden()
        invariant forall r :: r in records ==>
          r.workOrderNumber == old(r.workOrderNumber) && r.description == old(r.description)
      {
        var record := records[i];
        record.materialCost := None;
        record.laborCost := None;
        record.totalCost := None;
        i := i + 1;
      }
    }
  }

  // ---------------------------------------------------------------------------
  // Statistics

  /** What statistics read of a piece of equipment. */
  datatype EquipmentSummary = EquipmentSummary(
    equipmentNumber: Option<string>, location: Option<Location>,
    operationalState: Option<string>, criticality: Option<string>)

  datatype Stats = Stats(total: nat, operational: nat, maintenance: nat, offline: nat, alarm: nat, critical: nat)

  function Accessible(p: Permissions, equipment: seq<EquipmentSummary>): seq<EquipmentSummary> {
    Filter(equipment, (e: EquipmentSummary) => CanAccessEquipment(p, e.equipmentNumber, e.location))
  }

  function InState(equipment: seq<EquipmentSummary>, state: string): nat {
    |Filter(equipment, (e: EquipmentSummary) => e.operationalState == Some(state))|
  }

  /** The counts of the non-admin branch over the accessible equipment. */
  function StatsOf(accessible: seq<EquipmentSummary>): Stats {
    Stats(|accessible|,
          InState(accessible, "OPERATIONAL"), InState(accessible, "MAINTENANCE"),
          InState(accessible, "OFFLINE"), InState(accessible, "ALARM"),
          |Filter(accessible, (e: EquipmentSummary) => e.criticality == Some("CRITICAL"))|)
  }

  /** The criteria of the non-admin branch: no filters and `{ limit: 1000 }`. */
  const StatisticsParams: SearchParams :=
    SearchParams(None, None, None, None, None, None, None, None, None, None, None, None,
                 None, Some("1000"), None, None)

  /** `getEquipmentStatistics`: admins get the adapter's statistics; anyone else gets counts
      over the equipment that the narrowed search returns and that they may access. The
      adapter's search is the function `search` of the narrowed filters. */
  method EquipmentStatistics(p: Permissions, baseStats: Stats, search: FilterValues -> seq<EquipmentSummary>)
    returns (r: Result<Stats, string>)
    ensures IsAdmin(p) ==> r == Success(baseStats)
    ensures !IsAdmin(p) ==> (r.Failure? <==> NarrowingOutcome(p, None, None, None).Failure?)
    ensures !IsAdmin(p) && r.Success? ==>
      var narrowed := FilterValues(None, None, None, None, None, NarrowedPlant(p, None),
                                   Narrowed(p.accessibleAreas, None), None, None, None);
      r.value == StatsOf(Accessible(p, search(narrowed)))
  {
    if IsAdmin(p) {
      return Success(baseStats);
    }
    var criteria := new SearchCriteria(StatisticsParams);
    var narrowing := ApplyPermissionFilters(criteria, p);
    if narrowing.Failure? {
      return Failure(narrowing.error);
    }
    var found := search(criteria.Filters());
    r := Success(StatsOf(Accessible(p, found)));
  }

  /** With nothing given, narrowing never refuses. */
  lemma StatisticsNeverRefused(p: Permissions)
    ensures NarrowingOutcome(p, None, None, None).Success?
  {
  }

  /** Every count is at most the total, the four states together are at most the total, and
      the total is the number of accessible items. */
  lemma StatsBounds(p: Permissions, equipment: seq<EquipmentSummary>)
    ensures var s := StatsOf(Accessible(p, equipment));
      s.total == |Accessible(p, equipment)| && s.total <= |equipment| &&
      s.operational <= s.total && s.maintenance <= s.total && s.offline <= s.total &&
      s.alarm <= s.total && s.critical <= s.total &&
      s.operational + s.maintenance + s.offline + s.alarm <= s.total
  {
    var a := Accessible(p, equipment);
    FilterSpec(equipment, (e: EquipmentSummary) => CanAccessEquipment(p, e.equipmentNumber, e.location));
    FilterSpec(a, (e: EquipmentSummary) => e.criticality == Some("CRITICAL"));
    StatesBounded(a);
  }

  /** The four state counts add up to at most the number of items: no item is in two states. */
  lemma {:induction false} StatesBounded(s: seq<EquipmentSummary>)
    ensures InState(s, "OPERATIONAL") + InState(s, "MAINTENANCE") + InState(s, "OFFLINE") + InState(s, "ALARM") <= |s|
  {
    if s != [] {
      StatesBounded(s[1..]);
    }
  }

  // ---------------------------------------------------------------------------
  // Cache

  datatype CacheEntry<D> = CacheEntry(data: D, timestamp: int)

  /** Entries live this many milliseconds (five minutes). */
  const CacheTimeout: int := 5 * 60 * 1000

  /** `getCacheKey(operation, params)`, with the parameters already serialised. */
  function CacheKey(operation: string, paramsJson: string): string {
    operation + ":" + paramsJson
  }

  /** Keys of operations without ':' in their name never collide. */
  lemma CacheKeyInjective(op1: string, json1: string, op2: string, json2: string)
    requires ':' !in op1 && ':' !in op2
    requires CacheKey(op1, json1) == CacheKey(op2, json2)
    ensures op1 == op2 && json1 == json2
  {
    var k := CacheKey(op1, json1);
    KeyShape(op1, json1);
    KeyShape(op2, json2);
    if |op1| != |op2| {
      assert false;
    }
    assert op1 == k[..|op1|] == op2;
    assert json1 == k[|op1| + 1..] == json2;
  }

  /** The key is the operation, a colon, and the parameters. */
  lemma KeyShape(operation: string, paramsJson: string)
    ensures |CacheKey(operation, paramsJson)| == |operation| + 1 + |paramsJson|
    ensures CacheKey(operation, paramsJson)[|operation|] == ':'
    ensures forall i :: 0 <= i < |operation| ==> CacheKey(operation, paramsJson)[i] == operation[i]
  {
  }

  /** The answer of `getCache(key)` at time `now`. */
  function Lookup<D>(cache: map<string, CacheEntry<D>>, key: string, now: int): Option<D> {
    if key !in cache then None
    else if now - cache[key].timestamp > CacheTimeout then None
    else Some(cache[key].data)
  }

  /** The cache after `getCache(key)` at time `now`: an expired entry is deleted. */
  function AfterLookup<D>(cache: map<string, CacheEntry<D>>, key: string, now: int): map<string, CacheEntry<D>> {
    if key in cache && now - cache[key].timestamp > CacheTimeout then cache - {key} else cache
  }

  /** The result cache of the service. */
  class ResultCache<D> {
    var entries: map<string, CacheEntry<D>>

    /** The service starts with an empty cache. */
    constructor ()
      ensures entries == map[]
    {
      entries := map[];
    }

    /** `setCache(key, data)` at time `now`: overwrites the key. */
    method Set(key: string, data: D, now: int)
      modifies this
      ensures entries == old(entries)[key := CacheEntry(data, now)]
    {
      entries := entries[key := CacheEntry(data, now)];
    }

    /** `getCache(key)` at time `now`. */
    method Get(key: string, now: int) returns (r: Option<D>)
      modifies this
      ensures r == Lookup(old(entries), key, now)
      ensures entries == AfterLookup(old(entries), key, now)
    {
      if key !in entries {
        return None;
      }
      var cached := entries[key];
      if now - cached.timestamp > CacheTimeout {
        entries := entries - {key};
        return None;
      }
      return Some(cached.data);
    }

    /** `clearCache()`. */
    method Clear()
      modifies this
      ensures entries == map[]
    {
      entries := map[];
    }
  }

  /** Data stored at time `t` is answered for the next five minutes, and after that it is
      gone and the key is deleted; other keys are not touched. */
  lemma SetThenGet<D>(cache: map<string, CacheEntry<D>>, key: string, data: D, t: int, now: int)
    ensures var c := cache[key := CacheEntry(data, t)];
      (now - t <= CacheTimeout ==> Lookup(c, key, now) == Some(data) && AfterLookup(c, key, now) == c) &&
      (now - t > CacheTimeout ==> Lookup(c, key, now) == None && AfterLookup(c, key, now) == cache - {key})
  {
    var c := cache[key := CacheEntry(data, t)];
    if now - t > CacheTimeout {
      assert c - {key} == cache - {key};
    }
  }

  /** A lookup never adds keys and never changes an entry it keeps; once it has answered
      `None`, asking again at the same time answers `None` too. */
  lemma LookupShrinks<D>(cache: map<string, CacheEntry<D>>, key: string, now: int)
    ensures var after := AfterLookup(cache, key, now);
      (forall k :: k in after ==> k in cache && after[k] == cache[k]) &&
      (Lookup(cache, key, now).None? ==> key !in after && Lookup(after, key, now).None?)
      && (Lookup(cache, key, now).Some? ==> after == cache)
  {
  }
}
