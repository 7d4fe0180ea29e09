/**
 * The normalisation layer between the gateway and the pages: contact summaries with
 * listing totals, and the single-contact profile pipeline with its episodes.
 * The date library is the parameter `formatDate` (what `moment(d).format("YYYY-MM-DD")` yields).
 */
module Contact {
  import opened Wrappers
  import opened Text
  import opened Values
  import opened SearchParams
  import opened ContactService

  /** One row of the contact table: six properties copied from the raw record. */
  datatype ContactSummary = ContactSummary(
    image: Option<string>,
    id: int,
    name: Option<string>,
    status: Option<string>,
    species: Option<string>,
    gender: Option<string>)

  datatype Totals = Totals(totalPages: int, totalCount: int)

  /** What `getContacts` resolves to: `{ pagination, contacts }`. */
  datatype ContactList = ContactList(pagination: Totals, contacts: seq<ContactSummary>)

  function Summarize(c: RawCharacter): ContactSummary {
    ContactSummary(c.image, c.id, c.name, c.status, c.species, c.gender)
  }

  /** The pure part of `getContacts`: a listing body reshaped for the table. */
  function NormalizeListing(data: Listing): (r: ContactList)
    ensures r.pagination == Totals(data.info.pages, data.info.count)
    ensures |r.contacts| == |data.results|
    ensures forall i :: 0 <= i < |data.results| ==>
      var s, c := r.contacts[i], data.results[i];
      s.image == c.image && s.id == c.id && s.name == c.name &&
      s.status == c.status && s.species == c.species && s.gender == c.gender
  {
    ContactList(
      Totals(data.info.pages, data.info.count),
      seq(|data.results|, i requires 0 <= i < |data.results| => Summarize(data.results[i])))
  }

  /** `getContacts(params)`: one listing request, its body normalised, a thrown error passed on. */
  function GetContacts(up: Upstream, params: map<string, Value>): (r: Result<ContactList, FetchError>)
    ensures FetchContacts(up, params).Ok? ==> r == Ok(NormalizeListing(FetchContacts(up, params).value))
    ensures FetchContacts(up, params).Err? ==> r == Err(FetchContacts(up, params).error)
  {
    match FetchContacts(up, params)
    case Ok(data) => Ok(NormalizeListing(data))
    case Err(e) => Err(e)
  }

  /** A listing that answers 404 gives zero totals and no contacts, not an error. */
  lemma ListingNotFoundIsEmpty(up: Upstream, params: map<string, Value>)
    requires up.listing(ListingQuery(params)).status == 404
    ensures GetContacts(up, params) == Ok(ContactList(Totals(0, 0), []))
  {
  }

  // ----- The profile pipeline -----

  /** One row of the episode list; `air_date` is what the date formatter produced. */
  datatype EpisodeSummary = EpisodeSummary(name: Option<string>, air_date: string, episode: Option<string>)

  /** The profile: `{}` when there is nothing to show, otherwise the flattened contact. */
  datatype Profile =
    | EmptyProfile
    | ContactProfile(
        name: string,
        status: string,
        gender: string,
        species: string,
        image: string,
        location: string,
        origin: string,
        episodes: seq<EpisodeSummary>)

  /** The prefix removed from each episode reference to get its id. */
  const EpisodeUrlPrefix := "https://rickandmortyapi.com/api/episode/"

  /** Episode ids from the reference URLs: one per URL, in order, prefix removed. */
  function EpisodeIds(refs: seq<string>): (ids: seq<string>)
    ensures |ids| == |refs|
    ensures forall i :: 0 <= i < |refs| ==> ids[i] == RemoveFirst(refs[i], EpisodeUrlPrefix)
  {
    seq(|refs|, i requires 0 <= i < |refs| => RemoveFirst(refs[i], EpisodeUrlPrefix))
  }

  /** References built from the prefix give back exactly the ids they were built from. */
  lemma EpisodeIdsOfPrefixedUrls(refs: seq<string>, ids: seq<string>)
    requires |refs| == |ids|
    requires forall i :: 0 <= i < |refs| ==> refs[i] == EpisodeUrlPrefix + ids[i]
    ensures EpisodeIds(refs) == ids
  {
    forall i | 0 <= i < |refs| ensures EpisodeIds(refs)[i] == ids[i] {
      RemoveLeadingPrefix(EpisodeUrlPrefix, ids[i]);
    }
  }

  function SummarizeEpisode(ep: RawEpisode, formatDate: Option<string> -> string): EpisodeSummary {
    EpisodeSummary(ep.name, formatDate(ep.air_date), ep.episode)
  }

  /** The episode list: an array maps element by element, a single object becomes a one-element list. */
  function NormalizeEpisodes(payload: EpisodePayload, formatDate: Option<string> -> string): (r: seq<EpisodeSummary>)
    ensures payload.One? ==> |r| == 1
    ensures payload.Many? ==> |r| == |payload.episodes|
    ensures forall i :: 0 <= i < |r| ==>
      var ep := if payload.One? then payload.episode else payload.episodes[i];
      r[i].name == ep.name && r[i].episode == ep.episode && r[i].air_date == formatDate(ep.air_date)
  {
    match payload
    case Many(eps) => seq(|eps|, i requires 0 <= i < |eps| => SummarizeEpisode(eps[i], formatDate))
    case One(ep) => [SummarizeEpisode(ep, formatDate)]
  }

  /** A single object and a one-element array give the same list. */
  lemma OneMatchesSingletonArray(ep: RawEpisode, formatDate: Option<string> -> string)
    ensures NormalizeEpisodes(One(ep), formatDate) == NormalizeEpisodes(Many([ep]), formatDate)
  {
  }

  /** `place?.name || ""`. */
  function PlaceName(place: Option<Place>): (s: string)
    ensures place.Some? && place.value.name.Some? ==> s == place.value.name.value
    ensures place.None? || place.value.name.None? ==> s == ""
  {
    match place
    case None => ""
    case Some(p) => p.name.GetOr("")
  }

  /** The profile assembled from a found contact and its normalised episodes. */
  function FlattenContact(c: RawCharacter, episodes: seq<EpisodeSummary>): (p: Profile)
    ensures p.ContactProfile? && p.episodes == episodes
    ensures p.name == c.name.GetOr("") && p.status == c.status.GetOr("") && p.gender == c.gender.GetOr("")
    ensures p.species == c.species.GetOr("") && p.image == c.image.GetOr("")
    ensures p.location == PlaceName(c.location) && p.origin == PlaceName(c.origin)
  {
    ContactProfile(
      c.name.GetOr(""), c.status.GetOr(""), c.gender.GetOr(""), c.species.GetOr(""), c.image.GetOr(""),
      PlaceName(c.location), PlaceName(c.origin), episodes)
  }

  /** A run of the pipeline: what it resolves to (or throws) and the requests it sent, in order. */
  datatype ProfileRun = ProfileRun(result: Result<Profile, FetchError>, requests: seq<Request>)

  /** The episode references of a contact: `episode = []` when the property is missing. */
  function EpisodeRefs(c: RawCharacter): (refs: seq<string>)
    ensures c.episode.None? ==> refs == []
    ensures c.episode.Some? ==> refs == c.episode.value
  {
    c.episode.GetOr([])
  }

  /** `getSingleContact(id)`. */
  function GetSingleContact(id: string, up: Upstream, formatDate: Option<string> -> string): (r: ProfileRun)
    ensures id == "" <==> r.requests == []
    ensures id != "" ==> r.requests[0] == CharacterRequest(id) && |r.requests| <= 2
    ensures r.result.Ok? && r.result.value.ContactProfile? ==> FetchSingleContact(up, id) == Ok(Some(up.character(id).body))
  {
    if id == "" then ProfileRun(Ok(EmptyProfile), [])
    else
      var first := [CharacterRequest(id)];
      match FetchSingleContact(up, id)
      case Err(e) => ProfileRun(Err(e), first)
      case Ok(None) => ProfileRun(Ok(EmptyProfile), first)
      case Ok(Some(c)) =>
        var ids := EpisodeIds(EpisodeRefs(c));
        if |ids| == 0 then ProfileRun(Ok(FlattenContact(c, [])), first)
        else
          var both := first + [EpisodesRequest(EpisodesPath(ids))];
          match FetchMultipleEpisodes(up, ids)
          case Err(e) => ProfileRun(Err(e), both)
          case Ok(None) => ProfileRun(Ok(EmptyProfile), both)
          case Ok(Some(payload)) => ProfileRun(Ok(FlattenContact(c, NormalizeEpisodes(payload, formatDate))), both)
  }

  /** A falsy id gives the empty profile and sends no request at all. */
  lemma NoIdNoRequest(up: Upstream, formatDate: Option<string> -> string)
    ensures GetSingleContact("", up, formatDate) == ProfileRun(Ok(EmptyProfile), [])
  {
  }

  /** A contact the API does not know (404) gives the empty profile after the one lookup. */
  lemma UnknownContactIsEmpty(id: string, up: Upstream, formatDate: Option<string> -> string)
    requires id != "" && up.character(id).status == 404
    ensures GetSingleContact(id, up, formatDate) == ProfileRun(Ok(EmptyProfile), [CharacterRequest(id)])
  {
  }

  /** A failing lookup is thrown on, not turned into an empty profile. */
  lemma LookupFailurePropagates(id: string, up: Upstream, formatDate: Option<string> -> string)
    requires id != "" && ClassifyStatus(up.character(id).status) == Failure
    ensures GetSingleContact(id, up, formatDate).result == Err(Failed("contact", up.character(id).status))
  {
  }

  /** A contact with no episode references: the profile has no episodes and no episode request is sent. */
  lemma NoReferencesNoEpisodeRequest(id: string, up: Upstream, formatDate: Option<string> -> string)
    requires id != "" && IsOk(up.character(id).status)
    requires EpisodeRefs(up.character(id).body) == []
    ensures var run := GetSingleContact(id, up, formatDate);
      run.requests == [CharacterRequest(id)] &&
      run.result == Ok(FlattenContact(up.character(id).body, []))
  {
  }

  /**
   * A found contact with references: the episode request lists the ids taken from the references;
   * an episode 404 empties the whole profile, a failure is thrown on, and a body becomes the list.
   */
  lemma EpisodesFetchOutcome(id: string, up: Upstream, formatDate: Option<string> -> string)
    requires id != "" && IsOk(up.character(id).status)
    requires EpisodeRefs(up.character(id).body) != []
    ensures var c := up.character(id).body;
      var ids := EpisodeIds(EpisodeRefs(c));
      var res := up.episodes(EpisodesPath(ids));
      var run := GetSingleContact(id, up, formatDate);
      && run.requests == [CharacterRequest(id), EpisodesRequest(EpisodesPath(ids))]
      && (res.status == 404 ==> run.result == Ok(EmptyProfile))
      && (ClassifyStatus(res.status) == Failure ==> run.result == Err(Failed("episodes", res.status)))
      && (IsOk(res.status) ==> run.result == Ok(FlattenContact(c, NormalizeEpisodes(res.body, formatDate))))
  {
  }
}
