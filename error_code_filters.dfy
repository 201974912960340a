/** The filter panel of the error-code pages (frontend/components/error-code-filters.tsx): the
    search parameters it keeps locally, the search box text, and what it hands to its
    `onFiltersChange` callback. Every call of the callback is recorded, in order, in `emitted`.
    React's scheduling is not modelled: each handler and each effect is one method that runs
    to completion, and the debounced search term is passed in by the caller. */
module ErrorCodeFilters {
  import opened Wrappers

  /** The `ErrorCodeSearchParams` keys the panel reads and writes; an absent key and a key
      holding `undefined` are both `None`. */
  datatype Params = Params(
    searchTerm: Option<string>,
    category: Option<string>,
    severityLevel: Option<string>,
    code: Option<string>,
    title: Option<string>,
    sortBy: Option<string>,
    sortOrder: Option<string>)

  datatype Key = SearchTermKey | CategoryKey | SeverityKey | CodeKey | TitleKey | SortByKey | SortOrderKey

  /** The value held under a key. */
  function Field(p: Params, k: Key): Option<string> {
    match k
    case SearchTermKey => p.searchTerm
    case CategoryKey => p.category
    case SeverityKey => p.severityLevel
    case CodeKey => p.code
    case TitleKey => p.title
    case SortByKey => p.sortBy
    case SortOrderKey => p.sortOrder
  }

  /** `{ ...p, [k]: v }`: the key gets the new value and every other key keeps its own. */
  function With(p: Params, k: Key, v: Option<string>): (r: Params)
    ensures Field(r, k) == v
    ensures forall j :: j != k ==> Field(r, j) == Field(p, j)
  {
    match k
    case SearchTermKey => p.(searchTerm := v)
    case CategoryKey => p.(category := v)
    case SeverityKey => p.(severityLevel := v)
    case CodeKey => p.(code := v)
    case TitleKey => p.(title := v)
    case SortByKey => p.(sortBy := v)
    case SortOrderKey => p.(sortOrder := v)
  }

  /** `value || undefined` for a string or `undefined`: the empty string becomes `undefined`. */
  function OrUndefined(v: Option<string>): (r: Option<string>)
    ensures r == None <==> !Truthy(v)
    ensures Truthy(v) ==> r == v
  {
    if Truthy(v) then v else None
  }

  /** The parameters `handleFilterChange(key, value)` stores and emits. */
  function FilterChanged(p: Params, k: Key, v: Option<string>): Params {
    With(p, k, OrUndefined(v))
  }

  /** The changed key holds the value, or `None` when the value is empty; no other key changes. */
  lemma FilterChangedSpec(p: Params, k: Key, v: Option<string>)
    ensures Field(FilterChanged(p, k, v), k) == (if Truthy(v) then v else None)
    ensures forall j :: j != k ==> Field(FilterChanged(p, k, v), j) == Field(p, j)
  {
  }

  /** The severity `handleSeverityToggle(severity)` passes on: the currently selected
      severity is a list of at most one element, and a severity already in it is cleared. */
  function ToggledSeverity(current: Option<string>, severity: string): Option<string> {
    var selected := if Truthy(current) then [current.value] else [];
    if severity in selected then None else Some(severity)
  }

  /** Toggling the selected severity clears it; toggling any other non-empty severity selects
      it; toggling twice from an empty selection ends with nothing selected. */
  lemma SeverityToggleSpec(p: Params, severity: string)
    requires severity != ""
    ensures p.severityLevel == Some(severity) ==>
      FilterChanged(p, SeverityKey, ToggledSeverity(p.severityLevel, severity)).severityLevel == None
    ensures p.severityLevel != Some(severity) ==>
      FilterChanged(p, SeverityKey, ToggledSeverity(p.severityLevel, severity)).severityLevel == Some(severity)
    ensures var once := FilterChanged(p.(severityLevel := None), SeverityKey, ToggledSeverity(None, severity));
      FilterChanged(once, SeverityKey, ToggledSeverity(once.severityLevel, severity)).severityLevel == None
  {
  }

  /** The parameters `clearFilters()` stores and emits. */
  const Cleared := Params(None, None, None, None, None, Some("frequency_count"), Some("desc"))

  /** `hasActiveFilters()`: some search or filter value is set. */
  predicate Active(p: Params) {
    Truthy(p.searchTerm) || Truthy(p.category) || Truthy(p.severityLevel) || Truthy(p.code) || Truthy(p.title)
  }

  /** The keys that count as filters; the sort keys do not. */
  predicate IsFilterKey(k: Key) {
    k !in {SortByKey, SortOrderKey}
  }

  /** Filters are active exactly when some filter key holds a non-empty value; a cleared panel
      has none, and setting a non-empty value on a filter key makes the panel active. */
  lemma ActiveSpec(p: Params, k: Key, v: string)
    ensures Active(p) <==> exists j :: IsFilterKey(j) && Truthy(Field(p, j))
    ensures !Active(Cleared)
    ensures IsFilterKey(k) && v != "" ==> Active(FilterChanged(p, k, Some(v)))
    ensures !IsFilterKey(k) ==> (Active(FilterChanged(p, k, Some(v))) <==> Active(p))
  {
    if Truthy(p.searchTerm) { assert IsFilterKey(SearchTermKey) && Truthy(Field(p, SearchTermKey)); }
    if Truthy(p.category) { assert IsFilterKey(CategoryKey) && Truthy(Field(p, CategoryKey)); }
    if Truthy(p.severityLevel) { assert IsFilterKey(SeverityKey) && Truthy(Field(p, SeverityKey)); }
    if Truthy(p.code) { assert IsFilterKey(CodeKey) && Truthy(Field(p, CodeKey)); }
    if Truthy(p.title) { assert IsFilterKey(TitleKey) && Truthy(Field(p, TitleKey)); }
  }

  /** What the debounced-search effect stores and emits when the debounced term differs from
      the stored search term (`None` when it does not, and nothing happens). */
  function Debounced(p: Params, term: string): Option<Params> {
    if term != p.searchTerm.GetOr("") then Some(p.(searchTerm := OrUndefined(Some(term)))) else None
  }

  /** The effect fires exactly when the terms differ; it then stores the term, or `None` for
      the empty term, leaves every other key as it was, and firing it again with the same
      term does nothing. */
  lemma DebouncedSpec(p: Params, term: string)
    ensures Debounced(p, term).None? <==> term == p.searchTerm.GetOr("")
    ensures Debounced(p, term).Some? ==>
      var q := Debounced(p, term).value;
      q.searchTerm == (if term == "" then None else Some(term)) &&
      (forall j :: j != SearchTermKey ==> Field(q, j) == Field(p, j)) &&
      Debounced(q, term) == None
  {
  }

  datatype Order = Asc | Desc

  function OrderName(o: Order): string {
    match o
    case Asc => "asc"
    case Desc => "desc"
  }

  /** The four sort buttons and the field each sorts by. */
  datatype SortField = Frequency | SeverityField | CodeField | TimeField

  function SortFieldName(f: SortField): string {
    match f
    case Frequency => "frequency_count"
    case SeverityField => "severity_level"
    case CodeField => "code"
    case TimeField => "avg_resolution_time_minutes"
  }

  /** The order a button sorts by when its field is not the active one. */
  function FirstOrder(f: SortField): Order {
    if f == Frequency || f == SeverityField then Desc else Asc
  }

  /** The order a click on a sort button asks for: the other order when its field is active
      and sorted by its first order, its first order otherwise. */
  function NextOrder(f: SortField, p: Params): Order {
    if f == Frequency || f == SeverityField then
      (if p.sortBy == Some(SortFieldName(f)) && p.sortOrder == Some("desc") then Asc else Desc)
    else
      (if p.sortBy == Some(SortFieldName(f)) && p.sortOrder == Some("asc") then Desc else Asc)
  }

  /** The parameters `handleSortChange(sortBy, sortOrder)` stores and emits. */
  function SortChanged(p: Params, sortBy: string, o: Order): Params {
    p.(sortBy := Some(sortBy), sortOrder := Some(OrderName(o)))
  }

  /** A click on a sort button: the field sorted by and the order it asks for. */
  function Clicked(p: Params, f: SortField): Params {
    SortChanged(p, SortFieldName(f), NextOrder(f, p))
  }

  /** A button whose field is not active sorts by its first order (descending for frequency
      and severity, ascending for code and time); clicking the active button again flips the
      order, and a third click flips it back. Only the sort keys change. */
  lemma SortToggleSpec(p: Params, f: SortField)
    ensures p.sortBy != Some(SortFieldName(f)) ==> NextOrder(f, p) == FirstOrder(f)
    ensures Clicked(p, f).sortBy == Some(SortFieldName(f))
    ensures NextOrder(f, Clicked(p, f)) != NextOrder(f, p)
    ensures Clicked(Clicked(Clicked(p, f), f), f) == Clicked(p, f)
    ensures forall j :: IsFilterKey(j) ==> Field(Clicked(p, f), j) == Field(p, j)
  {
  }

  /** `getSortIcon(currentSort, targetSort)`: no icon unless the button's field is the one
      sorted by, and then ascending only when the stored order is "asc". */
  function SortIcon(p: Params, currentSort: string, targetSort: string): Option<Order> {
    if currentSort == targetSort then Some(if p.sortOrder == Some("asc") then Asc else Desc) else None
  }

  /** After a click, the clicked button shows the order it asked for and every other button
      shows no icon. */
  lemma SortIconAfterClick(p: Params, f: SortField, g: SortField)
    ensures var q := Clicked(p, f);
      SortIcon(q, q.sortBy.GetOr(""), SortFieldName(g)) == (if g == f then Some(NextOrder(f, p)) else None)
  {
  }

  /** The panel's own state. */
  class Panel {
    var localFilters: Params
    var searchTerm: string
    var emitted: seq<Params>

    /** The panel starts from the parameters it is given, and the search box shows their
        search term or nothing. */
    constructor (filters: Params)
      ensures localFilters == filters && searchTerm == filters.searchTerm.GetOr("") && emitted == []
    {
      localFilters := filters;
      searchTerm := filters.searchTerm.GetOr("");
      emitted := [];
    }

    /** The effect on a new `filters` property: both copies are reset and nothing is emitted. */
    method FiltersPropChanged(filters: Params)
      modifies this
      ensures localFilters == filters && searchTerm == filters.searchTerm.GetOr("")
      ensures emitted == old(emitted)
    {
      localFilters := filters;
      searchTerm := filters.searchTerm.GetOr("");
    }

    /** `handleSearchChange(value)`: only the search box changes until the term settles. */
    method HandleSearchChange(value: string)
      modifies this
      ensures searchTerm == value
      ensures localFilters == old(localFilters) && emitted == old(emitted)
    {
      searchTerm := value;
    }

    /** The debounced-search effect for the settled term `debounced`. */
    method DebouncedSearch(debounced: string)
      modifies this
      ensures localFilters.searchTerm.GetOr("") == debounced
      ensures searchTerm == old(searchTerm)
      ensures Debounced(old(localFilters), debounced).None? ==>
        localFilters == old(localFilters) && emitted == old(emitted)
      ensures Debounced(old(localFilters), debounced).Some? ==>
        localFilters == Debounced(old(localFilters), debounced).value && emitted == old(emitted) + [localFilters]
    {
      if debounced != localFilters.searchTerm.GetOr("") {
        var newFilters := localFilters.(searchTerm := OrUndefined(Some(debounced)));
        localFilters := newFilters;
        emitted := emitted + [newFilters];
      }
    }

    /** `handleFilterChange(key, value)`. */
    method HandleFilterChange(k: Key, value: Option<string>)
      modifies this
      ensures localFilters == FilterChanged(old(localFilters), k, value)
      ensures emitted == old(emitted) + [localFilters] && searchTerm == old(searchTerm)
    {
      var newFilters := With(localFilters, k, OrUndefined(value));
      localFilters := newFilters;
      emitted := emitted + [newFilters];
    }

    /** `handleSortChange(sortBy, sortOrder)`. */
    method HandleSortChange(sortBy: string, o: Order)
      modifies this
      ensures localFilters == SortChanged(old(localFilters), sortBy, o)
      ensures emitted == old(emitted) + [localFilters] && searchTerm == old(searchTerm)
    {
      var newFilters := localFilters.(sortBy := Some(sortBy), sortOrder := Some(OrderName(o)));
      localFilters := newFilters;
      emitted := emitted + [newFilters];
    }

    /** A click on one of the four sort buttons. */
    method ClickSort(f: SortField)
      modifies this
      ensures localFilters == Clicked(old(localFilters), f)
      ensures emitted == old(emitted) + [localFilters] && searchTerm == old(searchTerm)
    {
      HandleSortChange(SortFieldName(f), NextOrder(f, localFilters));
    }

    /** `handleSeverityToggle(severity)`. */
    method HandleSeverityToggle(severity: string)
      modifies this
      ensures localFilters == FilterChanged(old(localFilters), SeverityKey, ToggledSeverity(old(localFilters).severityLevel, severity))
      ensures emitted == old(emitted) + [localFilters] && searchTerm == old(searchTerm)
    {
      var selected := if Truthy(localFilters.severityLevel) then [localFilters.severityLevel.value] else [];
      var newSeverity := if severity in selected then None else Some(severity);
      HandleFilterChange(SeverityKey, newSeverity);
    }

    /** `clearFilters()`. */
    method ClearFilters()
      modifies this
      ensures localFilters == Cleared && searchTerm == ""
      ensures emitted == old(emitted) + [Cleared]
    {
      localFilters := Cleared;
      searchTerm := "";
      emitted := emitted + [Cleared];
    }

    /** `hasActiveFilters()`. */
    predicate HasActiveFilters()
      reads this
    {
      Active(localFilters)
    }
  }
}
