/**
 * The client container of the contacts page: the filter record, the contact rows and the
 * pagination totals it keeps in state, the URL it reads them from on mount, the URL
 * parameters it writes them to, and the fetch that replaces the rows.
 */
module ContactMain {
  import opened Wrappers
  import opened Text
  import opened Values
  import opened SearchParams
  import opened ContactService
  import opened Contact

  /** The five keys of the filter record. */
  const FilterKeys: set<string> := {"name", "species", "status", "gender", "page"}

  /** The filter record on first render: empty text filters, first page. */
  const InitialFilters: map<string, Value> :=
    map["name" := Str(""), "species" := Str(""), "status" := Str(""), "gender" := Str(""), "page" := Num(1)]

  /** The pagination kept in state: totals from the last listing and the number of rows shown. */
  datatype PaginationState = PaginationState(totalPages: int, totalCount: int, count: int)

  /** The pagination handed to the table: the stored one with the page of the current filters. */
  datatype TablePagination = TablePagination(totalPages: int, totalCount: int, count: int, page: Option<Value>)

  /** `{ ...prev, [key]: value }`, or `prev` itself when `key` is falsy. */
  function WithInput(prev: map<string, Value>, value: Value, key: string): (next: map<string, Value>)
    ensures key == "" ==> next == prev
    ensures key != "" ==> next.Keys == prev.Keys + {key} && next[key] == value
    ensures forall k :: k in prev && k != key ==> k in next && next[k] == prev[k]
  {
    if key == "" then prev else prev[key := value]
  }

  /** The `page` URL parameter is missing, or made of decimal digits. */
  predicate PageParamReadable(raw: Option<string>) {
    raw.None? || IsDigits(raw.value)
  }

  /** `Number(raw || 1)`: the page number, 1 when the parameter is missing or empty. */
  function PageNumber(raw: Option<string>): (n: int)
    requires PageParamReadable(raw)
    ensures raw.None? || raw.value == "" ==> n == 1
    ensures raw.Some? && raw.value != "" ==> n == ParseDecimal(raw.value)
  {
    if raw.None? || raw.value == "" then 1 else ParseDecimal(raw.value)
  }

  /** The filter record hydrated from the URL on mount; missing parameters take their defaults. */
  function FiltersFromUrl(location: Query): (f: map<string, Value>)
    requires PageParamReadable(Get(location, "page"))
    ensures f.Keys == FilterKeys
    ensures forall k :: k in FilterKeys && k != "page" ==> f[k] == Str(Get(location, k).GetOr(""))
    ensures f["page"] == Num(PageNumber(Get(location, "page")))
  {
    map[
      "name" := Str(Get(location, "name").GetOr("")),
      "species" := Str(Get(location, "species").GetOr("")),
      "status" := Str(Get(location, "status").GetOr("")),
      "gender" := Str(Get(location, "gender").GetOr("")),
      "page" := Num(PageNumber(Get(location, "page")))]
  }

  /** `filters[key] || ""`, as written to the URL. */
  function TextParam(filters: map<string, Value>, key: string): (t: string)
    ensures t != "" <==> key in filters && Truthy(filters[key])
    ensures key in filters && filters[key].Str? ==> t == filters[key].s
  {
    var v := Lookup(filters, key);
    if v.Some? && Truthy(v.value) then ToText(v.value) else ""
  }

  /** `String(filters.page)`, as written to the URL ("undefined" when the key is missing). */
  function PageParam(filters: map<string, Value>): (t: string)
    ensures "page" !in filters ==> t == "undefined"
    ensures "page" in filters && filters["page"].Str? ==> t == filters["page"].s
    ensures "page" in filters && filters["page"].Num? && filters["page"].n >= 0 ==>
      IsDigits(t) && ParseDecimal(t) == filters["page"].n
  {
    match Lookup(filters, "page")
    case Some(v) =>
      if v.Num? && v.n >= 0 then ParseNatToString(v.n); ToText(v) else ToText(v)
    case None => "undefined"
  }

  /** The URL parameters after the five `params.set` calls on the current ones. */
  function SerializedParams(location: Query, filters: map<string, Value>): (p: Query)
    ensures Get(p, "page") == Some(PageParam(filters)) && Occurrences(p, "page") == 1
  {
    var p1 := SearchParams.Set(location, "name", TextParam(filters, "name"));
    var p2 := SearchParams.Set(p1, "species", TextParam(filters, "species"));
    var p3 := SearchParams.Set(p2, "status", TextParam(filters, "status"));
    var p4 := SearchParams.Set(p3, "gender", TextParam(filters, "gender"));
    SearchParams.Set(p4, "page", PageParam(filters))
  }

  /**
   * Every filter key is written, empty text filters as "" rather than left out, and every
   * other parameter of the URL reads as before.
   */
  lemma SerializedParamsShape(location: Query, filters: map<string, Value>)
    ensures var p := SerializedParams(location, filters);
      && Get(p, "name") == Some(TextParam(filters, "name"))
      && Get(p, "species") == Some(TextParam(filters, "species"))
      && Get(p, "status") == Some(TextParam(filters, "status"))
      && Get(p, "gender") == Some(TextParam(filters, "gender"))
      && Get(p, "page") == Some(PageParam(filters))
      && (forall k :: k !in FilterKeys ==> Get(p, k) == Get(location, k))
  {
    var a, b, c, d, e := TextParam(filters, "name"), TextParam(filters, "species"),
                         TextParam(filters, "status"), TextParam(filters, "gender"), PageParam(filters);
    FiveSetsAt(location, a, b, c, d, e, "name");
    FiveSetsAt(location, a, b, c, d, e, "species");
    FiveSetsAt(location, a, b, c, d, e, "status");
    FiveSetsAt(location, a, b, c, d, e, "gender");
    FiveSetsAt(location, a, b, c, d, e, "page");
    forall k | k !in FilterKeys
      ensures Get(SerializedParams(location, filters), k) == Get(location, k)
    {
      FiveSetsAt(location, a, b, c, d, e, k);
    }
  }

  /** Five `set` calls in a row, seen from one name. */
  lemma FiveSetsAt(q0: Query, a: string, b: string, c: string, d: string, e: string, k: string)
    ensures var p := Set(Set(Set(Set(Set(q0, "name", a), "species", b), "status", c), "gender", d), "page", e);
      && (if k == "page" then Get(p, k) == Some(e)
          else if k == "gender" then Get(p, k) == Some(d)
          else if k == "status" then Get(p, k) == Some(c)
          else if k == "species" then Get(p, k) == Some(b)
          else if k == "name" then Get(p, k) == Some(a)
          else Get(p, k) == Get(q0, k))
  {
    var p1 := Set(q0, "name", a);
    var p2 := Set(p1, "species", b);
    var p3 := Set(p2, "status", c);
    var p4 := Set(p3, "gender", d);
    SetStep(p4, "page", e, k);
    SetStep(p3, "gender", d, k);
    SetStep(p2, "status", c, k);
    SetStep(p1, "species", b, k);
    SetStep(q0, "name", a, k);
  }

  /** The filters a user can reach: the five keys, text in the four filters, a page of 0 or more. */
  predicate PlainFilters(filters: map<string, Value>) {
    && filters.Keys == FilterKeys
    && (forall k :: k in FilterKeys && k != "page" ==> filters[k].Str?)
    && filters["page"].Num? && filters["page"].n >= 0
  }

  /** Writing plain filters to the URL and hydrating from it gives the same filters back. */
  lemma HydrateAfterSerialize(location: Query, filters: map<string, Value>)
    requires PlainFilters(filters)
    ensures PageParamReadable(Get(SerializedParams(location, filters), "page"))
    ensures FiltersFromUrl(SerializedParams(location, filters)) == filters
  {
    SerializedParamsShape(location, filters);
    HydratePlainParams(SerializedParams(location, filters), filters);
  }

  /** Parameters that carry exactly what plain filters write hydrate back to those filters. */
  lemma HydratePlainParams(p: Query, filters: map<string, Value>)
    requires PlainFilters(filters)
    requires Get(p, "name") == Some(TextParam(filters, "name"))
    requires Get(p, "species") == Some(TextParam(filters, "species"))
    requires Get(p, "status") == Some(TextParam(filters, "status"))
    requires Get(p, "gender") == Some(TextParam(filters, "gender"))
    requires Get(p, "page") == Some(PageParam(filters))
    ensures PageParamReadable(Get(p, "page"))
    ensures FiltersFromUrl(p) == filters
  {
    var n: nat := filters["page"].n;
    assert Get(p, "page") == Some(NatToString(n));
    ParseNatToString(n);
    var back := FiltersFromUrl(p);
    TextParamOfText(filters, "name");
    TextParamOfText(filters, "species");
    TextParamOfText(filters, "status");
    TextParamOfText(filters, "gender");
    forall k | k in FilterKeys ensures back[k] == filters[k] {
      assert k == "name" || k == "species" || k == "status" || k == "gender" || k == "page";
    }
  }

  /** A text filter is written as its own text: `s || ""` is `s` for every string. */
  lemma TextParamOfText(filters: map<string, Value>, key: string)
    requires key in filters && filters[key].Str?
    ensures Str(TextParam(filters, key)) == filters[key]
  {
  }

  /** The component's state slots. */
  class ContactMainState {
    var searchFilters: map<string, Value>
    var contactData: seq<ContactSummary>
    var pagination: PaginationState

    /** `count` is always the number of rows shown, and the five filter keys are always present. */
    ghost predicate Valid()
      reads this
    {
      pagination.count == |contactData| && FilterKeys <= searchFilters.Keys
    }

    /** First render, from the server's listing; `{ totalPages: 1, totalCount: 0 }` and `[]` by default. */
    constructor (initialPagination: Option<Totals>, data: Option<seq<ContactSummary>>)
      ensures Valid()
      ensures searchFilters == InitialFilters
      ensures contactData == data.GetOr([])
      ensures var t := initialPagination.GetOr(Totals(1, 0));
        pagination == PaginationState(t.totalPages, t.totalCount, |data.GetOr([])|)
    {
      var t := initialPagination.GetOr(Totals(1, 0));
      searchFilters := InitialFilters;
      contactData := data.GetOr([]);
      pagination := PaginationState(t.totalPages, t.totalCount, |data.GetOr([])|);
    }

    /** An edit of one filter (or of the page): that key takes the value, every other key is kept. */
    method HandleInputChange(value: Value, key: string)
      requires Valid()
      modifies this`searchFilters
      ensures Valid()
      ensures searchFilters == WithInput(old(searchFilters), value, key)
    {
      if key == "" {
        return;
      }
      searchFilters := WithInput(searchFilters, value, key);
    }

    /** `runFilter`: the listing for `filters` replaces the rows and the totals; a throw changes nothing. */
    method RunFilter(up: Upstream, filters: map<string, Value>) returns (outcome: Result<ContactList, FetchError>)
      requires Valid()
      modifies this`contactData, this`pagination
      ensures Valid()
      ensures outcome == GetContacts(up, filters)
      ensures outcome.Ok? ==>
        && contactData == outcome.value.contacts
        && pagination == PaginationState(outcome.value.pagination.totalPages,
                                         outcome.value.pagination.totalCount,
                                         |outcome.value.contacts|)
      ensures outcome.Err? ==> contactData == old(contactData) && pagination == old(pagination)
    {
      outcome := GetContacts(up, filters);
      if outcome.Ok? {
        var contacts := outcome.value.contacts;
        contactData := contacts;
        pagination := PaginationState(
          outcome.value.pagination.totalPages, outcome.value.pagination.totalCount, |contacts|);
      }
    }

    /** The mount effect: the filter record read from the URL. */
    method HydrateFromUrl(location: Query)
      requires Valid()
      requires PageParamReadable(Get(location, "page"))
      modifies this`searchFilters
      ensures Valid()
      ensures searchFilters == FiltersFromUrl(location)
    {
      searchFilters := FiltersFromUrl(location);
    }

    /**
     * The debounced callback once it fires for `filters`: the URL parameters to navigate to,
     * then the fetch that replaces rows and totals.
     */
    method FlushFilters(up: Upstream, location: Query, filters: map<string, Value>)
      returns (url: Query, outcome: Result<ContactList, FetchError>)
      requires Valid()
      modifies this`contactData, this`pagination
      ensures Valid()
      ensures url == SerializedParams(location, filters)
      ensures outcome == GetContacts(up, filters)
      ensures outcome.Ok? ==>
        contactData == outcome.value.contacts && pagination == PaginationState(
          outcome.value.pagination.totalPages, outcome.value.pagination.totalCount, |outcome.value.contacts|)
      ensures outcome.Err? ==> contactData == old(contactData) && pagination == old(pagination)
    {
      url := WriteFilterParams(location, filters);
      outcome := RunFilter(up, filters);
    }

    /** `{ ...pagination, page: searchFilters.page }`. */
    function TablePaginationProps(): (t: TablePagination)
      reads this
      ensures t.totalPages == pagination.totalPages && t.totalCount == pagination.totalCount
      ensures t.count == pagination.count
      ensures t.page == Lookup(searchFilters, "page")
    {
      TablePagination(pagination.totalPages, pagination.totalCount, pagination.count, Lookup(searchFilters, "page"))
    }
  }

  /** `params.set` for the five filter keys, one call after another, on the current URL parameters. */
  method WriteFilterParams(location: Query, filters: map<string, Value>) returns (params: Query)
    ensures params == SerializedParams(location, filters)
    ensures Get(params, "name") == Some(TextParam(filters, "name"))
    ensures Get(params, "species") == Some(TextParam(filters, "species"))
    ensures Get(params, "status") == Some(TextParam(filters, "status"))
    ensures Get(params, "gender") == Some(TextParam(filters, "gender"))
    ensures Get(params, "page") == Some(PageParam(filters))
    ensures forall k :: k !in FilterKeys ==> Get(params, k) == Get(location, k)
  {
    params := location;
    params := SearchParams.Set(params, "name", TextParam(filters, "name"));
    params := SearchParams.Set(params, "species", TextParam(filters, "species"));
    params := SearchParams.Set(params, "status", TextParam(filters, "status"));
    params := SearchParams.Set(params, "gender", TextParam(filters, "gender"));
    params := SearchParams.Set(params, "page", PageParam(filters));
    SerializedParamsShape(location, filters);
  }
}
