/**
 * The server-rendered contacts page: the filter record read from the request's search
 * parameters, the listing fetched for it, and the props handed to the client container.
 */
module ContactsPage {
  import opened Wrappers
  import opened Text
  import opened Values
  import opened SearchParams
  import opened ContactService
  import opened Contact
  import opened ContactMain

  /** The filter record of the page: `searchParams.x || ""` and `Number(searchParams.page || 1)`. */
  function ServerFilters(searchParams: map<string, string>): (f: map<string, Value>)
    requires PageParamReadable(Lookup(searchParams, "page"))
    ensures f.Keys == FilterKeys
    ensures forall k :: k in FilterKeys && k != "page" ==>
      f[k] == Str(if k in searchParams then searchParams[k] else "")
    ensures f["page"] == Num(if "page" !in searchParams || searchParams["page"] == "" then 1
                             else ParseDecimal(searchParams["page"]))
  {
    map[
      "name" := Str(Lookup(searchParams, "name").GetOr("")),
      "species" := Str(Lookup(searchParams, "species").GetOr("")),
      "status" := Str(Lookup(searchParams, "status").GetOr("")),
      "gender" := Str(Lookup(searchParams, "gender").GetOr("")),
      "page" := Num(PageNumber(Lookup(searchParams, "page")))]
  }

  /** For the same query string, the server builds the filters the client hydrates on mount. */
  lemma ServerMatchesClient(location: Query)
    requires UniqueKeys(location)
    requires PageParamReadable(Get(location, "page"))
    ensures PageParamReadable(Lookup(ToMap(location), "page"))
    ensures ServerFilters(ToMap(location)) == FiltersFromUrl(location)
  {
    var sp := ToMap(location);
    assert forall k :: Lookup(sp, k) == Get(location, k);
    var server, client := ServerFilters(sp), FiltersFromUrl(location);
    forall k | k in FilterKeys ensures server[k] == client[k] {
      assert k == "name" || k == "species" || k == "status" || k == "gender" || k == "page";
    }
  }

  /** A first visit without search parameters asks the upstream for page 1 and nothing else. */
  lemma FirstVisitQueriesFirstPage()
    ensures ListingQuery(ServerFilters(map[])) == [("page", "1")]
  {
    var f := ServerFilters(map[]);
    EmptyFiltersQueryFirstPage(map k | k in f && k != "page" :: f[k]);
    assert f == (map k | k in f && k != "page" :: f[k])["page" := Num(1)];
  }

  /** The props of the client container: `pagination` and `data`. */
  datatype MainProps = MainProps(pagination: Totals, data: seq<ContactSummary>)

  /** The page: the listing for the server filters, handed on unchanged; a thrown fetch is passed on. */
  function Contacts(searchParams: map<string, string>, up: Upstream): (r: Result<MainProps, FetchError>)
    requires PageParamReadable(Lookup(searchParams, "page"))
    ensures var listing := GetContacts(up, ServerFilters(searchParams));
      && (listing.Ok? ==> r == Ok(MainProps(listing.value.pagination, listing.value.contacts)))
      && (listing.Err? ==> r == Err(listing.error))
  {
    match GetContacts(up, ServerFilters(searchParams))
    case Ok(list) => Ok(MainProps(list.pagination, list.contacts))
    case Err(e) => Err(e)
  }

  /** Rendering the page mounts the client container with the server's listing. */
  method RenderContacts(searchParams: map<string, string>, up: Upstream)
    returns (main: Result<ContactMainState, FetchError>)
    requires PageParamReadable(Lookup(searchParams, "page"))
    ensures Contacts(searchParams, up).Err? ==> main == Err(Contacts(searchParams, up).error)
    ensures Contacts(searchParams, up).Ok? ==> main.Ok? && fresh(main.value) && main.value.Valid()
    ensures Contacts(searchParams, up).Ok? ==>
      var props := Contacts(searchParams, up).value;
      && main.value.contactData == props.data
      && main.value.pagination == PaginationState(props.pagination.totalPages, props.pagination.totalCount, |props.data|)
      && main.value.searchFilters == InitialFilters
  {
    match Contacts(searchParams, up)
    case Err(e) =>
      main := Err(e);
    case Ok(props) =>
      var state := new ContactMainState(Some(props.pagination), Some(props.data));
      main := Ok(state);
  }
}
