/**
 * The remote data gateway: builds the listing query, issues one request per call and
 * classifies the response status into a body, a designed empty value, or a thrown error.
 * HTTP itself is the `Upstream` parameter: one response per request.
 */
module ContactService {
  import opened Wrappers
  import opened Text
  import opened Values
  import opened SearchParams

  /** A `{ name, url }` reference to a location. */
  datatype Place = Place(name: Option<string>, url: Option<string>)

  /** A character record as the upstream API sends it; a property it leaves out is None. */
  datatype RawCharacter = RawCharacter(
    id: int,
    name: Option<string>,
    status: Option<string>,
    species: Option<string>,
    kind: Option<string>,
    gender: Option<string>,
    origin: Option<Place>,
    location: Option<Place>,
    image: Option<string>,
    episode: Option<seq<string>>,
    url: Option<string>,
    created: Option<string>)

  datatype ListingInfo = ListingInfo(count: int, pages: int)

  /** The body of a character listing: `{ info, results }`. */
  datatype Listing = Listing(info: ListingInfo, results: seq<RawCharacter>)

  datatype RawEpisode = RawEpisode(
    id: int,
    name: Option<string>,
    air_date: Option<string>,
    episode: Option<string>,
    characters: seq<string>)

  /** The episode endpoint answers a single id with an object and several ids with an array. */
  datatype EpisodePayload = One(episode: RawEpisode) | Many(episodes: seq<RawEpisode>)

  /** An HTTP response: its status code and the JSON body `res.json()` would yield. */
  datatype Response<T> = Response(status: int, body: T)

  /** What the upstream API answers to each of the three kinds of request. */
  datatype Upstream = Upstream(
    listing: Query -> Response<Listing>,
    character: string -> Response<RawCharacter>,
    episodes: string -> Response<EpisodePayload>)

  /** A request the gateway sends: the variable part of its URL. */
  datatype Request =
    | ListingRequest(query: Query)
    | CharacterRequest(id: string)
    | EpisodesRequest(ids: string)

  /** The `Error` a failed fetch throws. */
  datatype FetchError = FetchError(message: string)

  /** `res.ok`. */
  predicate IsOk(status: int) {
    200 <= status <= 299
  }

  /** The three ways every gateway call treats a status. */
  datatype StatusClass = Success | NotFound | Failure

  function ClassifyStatus(status: int): (c: StatusClass)
    ensures c == Success <==> IsOk(status)
    ensures c == NotFound <==> status == 404
  {
    if IsOk(status) then Success else if status == 404 then NotFound else Failure
  }

  /** The error thrown for a failing status, e.g. "Failed to fetch contacts: 500". */
  function Failed(what: string, status: int): FetchError {
    FetchError("Failed to fetch " + what + ": " + IntToString(status))
  }

  /** The thrown message names the status: reading its tail back gives the status code. */
  lemma FailedNamesStatus(what: string, status: nat)
    ensures var m := Failed(what, status).message;
      var head := "Failed to fetch " + what + ": ";
      |head| <= |m| && m[..|head|] == head && IsDigits(m[|head|..]) && ParseDecimal(m[|head|..]) == status
  {
    var head := "Failed to fetch " + what + ": ";
    var m := Failed(what, status).message;
    assert m == head + NatToString(status);
    assert m[|head|..] == NatToString(status);
    ParseNatToString(status);
  }

  // ----- Listing -----

  /** The position of each listing parameter in the query (unknown names last). */
  function ParamRank(key: string): nat {
    if key == "name" then 0
    else if key == "species" then 1
    else if key == "status" then 2
    else if key == "gender" then 3
    else if key == "page" then 4
    else 5
  }

  /** The value a listing parameter is read with, default included: `page = 1`, the others `""`. */
  function ParamValue(params: map<string, Value>, key: string): Value {
    FieldOr(params, key, if key == "page" then Num(1) else Str(""))
  }

  /** `if (v) query.append(key, v)`. */
  function AppendIfTruthy(query: Query, key: string, v: Value): Query {
    if Truthy(v) then query + [(key, ToText(v))] else query
  }

  /** The listing query for `params`: name, species, status, gender, page, each only when truthy. */
  function ListingQuery(params: map<string, Value>): (q: Query)
    ensures |q| <= 5
    ensures Truthy(ParamValue(params, "page")) <==> |q| > 0 && q[|q| - 1] == ("page", ToText(ParamValue(params, "page")))
  {
    var q0: Query := [];
    var q1 := AppendIfTruthy(q0, "name", ParamValue(params, "name"));
    var q2 := AppendIfTruthy(q1, "species", ParamValue(params, "species"));
    var q3 := AppendIfTruthy(q2, "status", ParamValue(params, "status"));
    var q4 := AppendIfTruthy(q3, "gender", ParamValue(params, "gender"));
    AppendIfTruthy(q4, "page", ParamValue(params, "page"))
  }

  /** The query is built step by step on a fresh `URLSearchParams`. */
  method BuildListingQuery(params: map<string, Value>) returns (query: Query)
    ensures query == ListingQuery(params)
  {
    var name := FieldOr(params, "name", Str(""));
    var page := FieldOr(params, "page", Num(1));
    var status := FieldOr(params, "status", Str(""));
    var species := FieldOr(params, "species", Str(""));
    var gender := FieldOr(params, "gender", Str(""));
    query := [];
    if Truthy(name) { query := query + [("name", ToText(name))]; }
    if Truthy(species) { query := query + [("species", ToText(species))]; }
    if Truthy(status) { query := query + [("status", ToText(status))]; }
    if Truthy(gender) { query := query + [("gender", ToText(gender))]; }
    if Truthy(page) { query := query + [("page", ToText(page))]; }
  }

  predicate IsListingParam(key: string) {
    ParamRank(key) < 5
  }

  /** Every name in `q` comes before position `r`. */
  predicate RankedBelow(q: Query, r: nat) {
    forall i :: 0 <= i < |q| ==> ParamRank(q[i].0) < r
  }

  /** The names of `q` appear in strictly increasing position. */
  predicate InParamOrder(q: Query) {
    forall i, j :: 0 <= i < j < |q| ==> ParamRank(q[i].0) < ParamRank(q[j].0)
  }

  /** One conditional append keeps the names in order and moves the bound one position on. */
  lemma AppendInOrder(q: Query, key: string, v: Value)
    requires InParamOrder(q) && RankedBelow(q, ParamRank(key))
    ensures InParamOrder(AppendIfTruthy(q, key, v))
    ensures RankedBelow(AppendIfTruthy(q, key, v), ParamRank(key) + 1)
  {
  }

  /** What a name reads after one conditional append: unchanged unless it was absent and is the appended name. */
  lemma AppendIfTruthyGet(q: Query, key: string, v: Value, k: string)
    ensures Get(AppendIfTruthy(q, key, v), k) ==
      if Truthy(v) && Get(q, k).None? && k == key then Some(ToText(v)) else Get(q, k)
  {
    if Truthy(v) {
      GetAppend(q, key, ToText(v), k);
    }
  }

  /** What one listing parameter reads in the query: its text exactly when its value is truthy. */
  lemma ListingQueryReads(params: map<string, Value>, k: string)
    requires IsListingParam(k)
    ensures Get(ListingQuery(params), k) ==
      if Truthy(ParamValue(params, k)) then Some(ToText(ParamValue(params, k))) else None
  {
    var q0: Query := [];
    var q1 := AppendIfTruthy(q0, "name", ParamValue(params, "name"));
    var q2 := AppendIfTruthy(q1, "species", ParamValue(params, "species"));
    var q3 := AppendIfTruthy(q2, "status", ParamValue(params, "status"));
    var q4 := AppendIfTruthy(q3, "gender", ParamValue(params, "gender"));
    AppendIfTruthyGet(q0, "name", ParamValue(params, "name"), k);
    AppendIfTruthyGet(q1, "species", ParamValue(params, "species"), k);
    AppendIfTruthyGet(q2, "status", ParamValue(params, "status"), k);
    AppendIfTruthyGet(q3, "gender", ParamValue(params, "gender"), k);
    AppendIfTruthyGet(q4, "page", ParamValue(params, "page"), k);
    assert ListingQuery(params) == AppendIfTruthy(q4, "page", ParamValue(params, "page"));
  }

  /**
   * What the query holds: each listing parameter exactly when its value is truthy, with that
   * value's text; nothing else; and the names in the order name, species, status, gender, page.
   */
  lemma ListingQueryShape(params: map<string, Value>)
    ensures var q := ListingQuery(params);
      && (forall k :: IsListingParam(k) ==>
            Get(q, k) == if Truthy(ParamValue(params, k)) then Some(ToText(ParamValue(params, k))) else None)
      && (forall i :: 0 <= i < |q| ==> IsListingParam(q[i].0))
      && InParamOrder(q)
  {
    var q0: Query := [];
    var q1 := AppendIfTruthy(q0, "name", ParamValue(params, "name"));
    var q2 := AppendIfTruthy(q1, "species", ParamValue(params, "species"));
    var q3 := AppendIfTruthy(q2, "status", ParamValue(params, "status"));
    var q4 := AppendIfTruthy(q3, "gender", ParamValue(params, "gender"));
    AppendInOrder(q0, "name", ParamValue(params, "name"));
    AppendInOrder(q1, "species", ParamValue(params, "species"));
    AppendInOrder(q2, "status", ParamValue(params, "status"));
    AppendInOrder(q3, "gender", ParamValue(params, "gender"));
    AppendInOrder(q4, "page", ParamValue(params, "page"));
    forall k | IsListingParam(k)
      ensures Get(ListingQuery(params), k) ==
        if Truthy(ParamValue(params, k)) then Some(ToText(ParamValue(params, k))) else None
    {
      ListingQueryReads(params, k);
    }
  }

  /** Appending one pair: a name that already reads a value keeps it; otherwise it reads the new pair when that pair has the name. */
  lemma {:induction false} GetAppend(q: Query, key: string, value: string, k: string)
    ensures Get(q + [(key, value)], k) == if Get(q, k).Some? then Get(q, k) else if k == key then Some(value) else None
  {
    if q != [] {
      assert (q + [(key, value)])[1..] == q[1..] + [(key, value)];
      GetAppend(q[1..], key, value, k);
    }
  }

  /** With every text filter empty or missing and no page given, the query is exactly `page=1`. */
  lemma EmptyFiltersQueryFirstPage(params: map<string, Value>)
    requires forall k :: k in params && IsListingParam(k) ==> k != "page" && params[k] == Str("")
    ensures ListingQuery(params) == [("page", "1")]
  {
  }

  /** Page 0 is falsy, so it is left out of the query altogether. */
  lemma PageZeroOmitted(params: map<string, Value>)
    requires "page" in params && params["page"] == Num(0)
    ensures Get(ListingQuery(params), "page") == None
  {
    ListingQueryShape(params);
  }

  /** The empty page the listing call returns for a 404. */
  const EmptyListing := Listing(ListingInfo(0, 0), [])

  /** Status handling of `fetchContactsFromAPI`. */
  function ListingOutcome(res: Response<Listing>): (r: Result<Listing, FetchError>)
    ensures ClassifyStatus(res.status) == Success ==> r == Ok(res.body)
    ensures ClassifyStatus(res.status) == NotFound ==> r == Ok(EmptyListing)
    ensures ClassifyStatus(res.status) == Failure ==> r == Err(Failed("contacts", res.status))
  {
    if !IsOk(res.status) then
      if res.status == 404 then Ok(EmptyListing) else Err(Failed("contacts", res.status))
    else Ok(res.body)
  }

  /** `fetchContactsFromAPI(params)`: one listing request for the listing query, its status sorted. */
  function FetchContacts(up: Upstream, params: map<string, Value>): (r: Result<Listing, FetchError>)
    ensures var res := up.listing(ListingQuery(params));
      && (ClassifyStatus(res.status) == Success ==> r == Ok(res.body))
      && (ClassifyStatus(res.status) == NotFound ==> r == Ok(EmptyListing))
      && (ClassifyStatus(res.status) == Failure ==> r == Err(Failed("contacts", res.status)))
  {
    ListingOutcome(up.listing(ListingQuery(params)))
  }

  // ----- Single contact -----

  /**
   * Status handling shared by `fetchSingleContactFromAPI` and `fetchMultipleEpisodesFromAPI`:
   * the body on success, None for the `null` of a 404, and the error naming `what` otherwise.
   */
  function NullOn404Outcome<T>(what: string, res: Response<T>): (r: Result<Option<T>, FetchError>)
    ensures ClassifyStatus(res.status) == Success ==> r == Ok(Some(res.body))
    ensures ClassifyStatus(res.status) == NotFound ==> r == Ok(None)
    ensures ClassifyStatus(res.status) == Failure ==> r == Err(Failed(what, res.status))
  {
    if !IsOk(res.status) then
      if res.status == 404 then Ok(None) else Err(Failed(what, res.status))
    else Ok(Some(res.body))
  }

  /** `fetchSingleContactFromAPI(id)`: one request for the id, its status sorted. */
  function FetchSingleContact(up: Upstream, id: string): (r: Result<Option<RawCharacter>, FetchError>)
    ensures var res := up.character(id);
      && (ClassifyStatus(res.status) == Success ==> r == Ok(Some(res.body)))
      && (ClassifyStatus(res.status) == NotFound ==> r == Ok(None))
      && (ClassifyStatus(res.status) == Failure ==> r == Err(Failed("contact", res.status)))
  {
    NullOn404Outcome("contact", up.character(id))
  }

  // ----- Episodes -----

  /** The path of the episode request: `episodes.toString()`, the ids joined by commas. */
  function EpisodesPath(ids: seq<string>): string {
    JoinComma(ids)
  }

  /** The request names exactly the ids asked for, in order (when no id holds a comma). */
  lemma EpisodesPathNamesIds(ids: seq<string>)
    requires |ids| > 0 && forall k :: 0 <= k < |ids| ==> NoComma(ids[k])
    ensures SplitComma(EpisodesPath(ids)) == ids
  {
    SplitJoinComma(ids);
  }

  /** `fetchMultipleEpisodesFromAPI(ids)`: one request for the comma-joined ids, its status sorted. */
  function FetchMultipleEpisodes(up: Upstream, ids: seq<string>): (r: Result<Option<EpisodePayload>, FetchError>)
    ensures var res := up.episodes(JoinComma(ids));
      && (ClassifyStatus(res.status) == Success ==> r == Ok(Some(res.body)))
      && (ClassifyStatus(res.status) == NotFound ==> r == Ok(None))
      && (ClassifyStatus(res.status) == Failure ==> r == Err(Failed("episodes", res.status)))
    ensures |ids| == 1 ==> r == NullOn404Outcome("episodes", up.episodes(ids[0]))
  {
    NullOn404Outcome("episodes", up.episodes(EpisodesPath(ids)))
  }
}
