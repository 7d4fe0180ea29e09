# Contact directory data layer, modelled in Dafny

This project models the data layer of a contact-directory web application. The contacts are
characters of a public REST API. The model covers five files:

- **Gateway** (`src/services/contactService.js`). It builds the listing query from the filters.
  It sends one request per call. It sorts each response status into three outcomes: the body,
  a designed empty value (on 404), or a thrown error.
- **Normalisation** (`src/lib/contact.js`). `getContacts` reshapes a listing into table rows plus
  totals. `getSingleContact` is a pipeline from a contact id to a flattened profile with its
  episodes.
- **Client container** (`src/app/contact/components/ContactMain.js`). This is the state of the
  contacts page: the filter record, the rows and the pagination totals. It also covers the
  filter edits, the fetch that replaces rows and totals, hydration from the URL on mount, and
  the URL parameters written after an edit.
- **Server page** (`src/app/contact/page.js`). It builds the filter record from the request's
  search parameters and hands the listing to the client container.
- **Pagination bar** (`src/components/DataTable/Pagination.js`). It computes the window of at
  most eight page buttons, the Previous/Next rules and the item-range label.

Three small definitions carry the JavaScript value rules that the contracts build on:

- `Values.Truthy` is truthiness: `""` and `0` are falsy, every other text or number is truthy.
- `Values.ToText` is `String(v)`: a text stays itself, and a number is written in decimal with a leading `-` when negative.
- `Text.ParseDecimal` is `Number(s)` on a string of decimal digits.

Modules, by file:

- `wrappers.dfy`: `Option`, `Result`.
- `text.dfy`: the JavaScript string operations the code relies on. These are `String(n)`,
  `Number` on digit strings, first-occurrence `replace`, and comma joining. Joining comes with
  its inverse, splitting.
- `values.dfy`: the dynamically typed filter values (text or number) and their truthiness.
- `search_params.dfy`: `URLSearchParams` as an ordered list of pairs, with `get`, `delete` and
  `set`.
- `contact_service.dfy`, `contact.dfy`, `contact_main.dfy`, `contacts_page.dfy`,
  `pagination.dfy`: one module per source file above.

Inputs and outputs the model takes as parameters:

- HTTP is the `Upstream` value: the response (status and JSON body) that each request would get.
- `res.ok` is a status from 200 to 299.
- The date library is a function parameter `formatDate`.
- The current URL is a `Query` argument.
- The listing's filters are a `map<string, Value>`, because `handleInputChange` writes
  `{ ...prev, [key]: value }` with any key.

`GetSingleContact` returns the requests it sent along with its result. That is how "no gateway
call" is stated.

Three facts about the code shape the model:

- `getSingleContact`, not the gateway, skips the episode request when the id list is empty.
  Called with `[]`, the gateway would request the bare episode path.
- Nothing discards a stale response. `RunFilter` overwrites rows and totals with whatever
  listing it is given.
- Episode dates are whatever the date formatter returns. Nothing checks their format.

## Model

| member | source | states |
|---|---|---|
| `Text.NatToString` | src/services/contactService.js:40 | `String(n)` of a non-negative number is a non-empty string of decimal digits, with a leading zero only for 0 |
| `Text.IntToString` | src/services/contactService.js:49 | `String(n)` is non-empty, and it is all digits exactly when `n` is not negative |
| `Text.ParseNatToString` | src/app/contact/components/ContactMain.js:90 | `Number` applied to the digits `String` writes gives the number back |
| `Text.IndexOf` | src/lib/contact.js:67 | finds the first index at or after `from` where the pattern occurs, and none before it; `None` only when there is no occurrence |
| `Text.RemoveFirst` | src/lib/contact.js:67 | `replace(pat, "")` removes the first occurrence of `pat` and is the identity when `pat` does not occur |
| `Text.RemoveLeadingPrefix` | src/lib/contact.js:67 | removing a prefix that the string starts with leaves exactly the rest |
| `Text.JoinComma` | src/services/contactService.js:91 | `ids.toString()` of a one-element list is that element |
| `Text.SplitJoinComma` | src/services/contactService.js:91 | splitting the comma-joined ids gives the list back (non-empty list, no element holding a comma) |
| `Values.Lookup` | src/services/contactService.js:32 | a property read is present exactly when the key is in the object, and then holds its value |
| `Values.FieldOr` | src/services/contactService.js:32 | a destructuring default applies exactly when the key is missing |
| `SearchParams.Get` | src/app/contact/components/ContactMain.js:86-90 | `params.get(key)` yields only a value that some pair under `key` holds |
| `SearchParams.GetFirstPair` | src/app/contact/components/ContactMain.js:86-90 | `params.get(key)` is absent exactly when no pair has the name, and otherwise is the value of the first pair with that name |
| `SearchParams.Without` | src/app/contact/components/ContactMain.js:63-67 | dropping a name removes all its pairs and keeps the count of every other name |
| `SearchParams.Set` | src/app/contact/components/ContactMain.js:63-67 | after `params.set(key, v)`, `key` reads `v`, it occurs exactly once, and the pairs of every other name are unchanged and in order |
| `SearchParams.SetKeepsOtherKeys` | src/app/contact/components/ContactMain.js:63-67 | a `set` leaves what every other name reads unchanged |
| `SearchParams.ToMap` | src/app/contact/page.js:17 | the name-to-value map of a query with unique names holds exactly the names the query has, with the values `get` reads |
| `ContactService.ClassifyStatus` | src/services/contactService.js:45-49 | each status is success exactly when `res.ok`, and not found exactly when it is 404 |
| `ContactService.FailedNamesStatus` | src/services/contactService.js:49 | the thrown message starts with "Failed to fetch X: " and its tail reads back as the status |
| `ContactService.ListingQuery` | src/services/contactService.js:36-40 | at most five parameters; the last one is `page` with its text exactly when the page (default 1) is truthy |
| `ContactService.BuildListingQuery` | src/services/contactService.js:34-40 | the step-by-step `append` calls build the listing query |
| `ContactService.ListingQueryShape` | src/services/contactService.js:32-40 | each listing parameter is in the query exactly when its value (default included) is truthy, and then with that value's text; no other name appears; the order is name, species, status, gender, page |
| `ContactService.EmptyFiltersQueryFirstPage` | src/services/contactService.js:32-40 | with every text filter empty or missing and no page given, the query is exactly `page=1` |
| `ContactService.PageZeroOmitted` | src/services/contactService.js:40 | page 0 is left out of the query |
| `ContactService.ListingOutcome` | src/services/contactService.js:45-55 | a listing gives an ok body unchanged, the zero-count empty page on 404, and the "contacts" error for any other status |
| `ContactService.NullOn404Outcome` | src/services/contactService.js:70-77 | the status handling of the single-contact request, which the episodes request repeats at lines 93-100: the body on ok, `null` on 404, and otherwise the error naming what was fetched |
| `ContactService.FetchContacts` | src/services/contactService.js:31-56 | one request for the listing query; an ok status gives its body, 404 the zero-count empty page, any other status the "contacts" error |
| `ContactService.FetchSingleContact` | src/services/contactService.js:67-78 | one request for the id; an ok status gives the contact, 404 `null`, any other status the "contact" error |
| `ContactService.FetchMultipleEpisodes` | src/services/contactService.js:89-101 | one request for the comma-joined ids (a single id requested as itself); an ok status gives the body, 404 `null`, any other status the "episodes" error |
| `ContactService.EpisodesPathNamesIds` | src/services/contactService.js:91 | the episode request path names exactly the requested ids, in order |
| `Contact.NormalizeListing` | src/lib/contact.js:22-39 | one summary per raw result, in order, with image, id, name, status, species and gender copied; totals are `info.pages` and `info.count` |
| `Contact.GetContacts` | src/lib/contact.js:19-40 | the listing fetched for the params, normalised; a thrown fetch error is passed on unchanged |
| `Contact.ListingNotFoundIsEmpty` | src/lib/contact.js:34-37 | a listing 404 gives totals 0/0 and no contacts, not an error |
| `Contact.EpisodeIds` | src/lib/contact.js:67 | one id per episode URL, same order, each the URL with the first occurrence of the episode URL prefix removed |
| `Contact.EpisodeIdsOfPrefixedUrls` | src/lib/contact.js:67 | URLs made of the prefix plus an id give back exactly those ids |
| `Contact.NormalizeEpisodes` | src/lib/contact.js:74-84 | an array gives one summary per element in order, and a single object gives a one-element list; name and episode are copied; `air_date` is the formatter's output |
| `Contact.OneMatchesSingletonArray` | src/lib/contact.js:74-84 | a single-object response and a one-element array give the same list |
| `Contact.PlaceName` | src/lib/contact.js:86-87 | `location`/`origin` flatten to their name, or `""` when the place or its name is missing |
| `Contact.EpisodeRefs` | src/lib/contact.js:65 | the episode references default to `[]` when the property is missing and are the contact's list otherwise |
| `Contact.FlattenContact` | src/lib/contact.js:65 | the profile has the given episodes; name, status, gender, species and image default to `""`; location and origin are flattened |
| `Contact.GetSingleContact` | src/lib/contact.js:55-100 | no request is sent exactly when the id is empty; otherwise the contact lookup comes first and at most one episode request follows; a filled profile implies the lookup succeeded |
| `Contact.NoIdNoRequest` | src/lib/contact.js:57 | an empty id gives the empty profile and sends no request |
| `Contact.UnknownContactIsEmpty` | src/lib/contact.js:59-63 | a 404 contact lookup gives the empty profile after that single request |
| `Contact.LookupFailurePropagates` | src/lib/contact.js:59 | any other failing lookup status is thrown on as the "contact" error |
| `Contact.NoReferencesNoEpisodeRequest` | src/lib/contact.js:68 | zero episode references give `episodes: []` (not the empty profile) and no episode request |
| `Contact.EpisodesFetchOutcome` | src/lib/contact.js:68-72 | with references, the episode request carries the derived ids; a 404 gives the empty profile, a failure is thrown on, and a body becomes the normalised list |
| `ContactMain.WithInput` | src/app/contact/components/ContactMain.js:102-107 | a falsy key leaves the filters unchanged; otherwise that key takes the value and every other key keeps its value, so editing a text filter keeps `page` |
| `ContactMain.PageNumber` | src/app/contact/components/ContactMain.js:90 | the page is 1 when the parameter is missing or empty, and its decimal value otherwise |
| `ContactMain.FiltersFromUrl` | src/app/contact/components/ContactMain.js:85-91 | hydration gives exactly the five keys; each text filter is its URL parameter or `""`; the page is that parameter's number or 1 |
| `ContactMain.TextParam` | src/app/contact/components/ContactMain.js:63-66 | the written text filter (`""` for a falsy one) is non-empty exactly when the filter is present and truthy, and it is the text itself for a text filter |
| `ContactMain.PageParam` | src/app/contact/components/ContactMain.js:67 | the page written to the URL is "undefined" when missing, the text for a text page, and digits that read back as the number for a non-negative page |
| `ContactMain.SerializedParams` | src/app/contact/components/ContactMain.js:62-67 | after the five `set` calls the URL holds exactly one `page` parameter, set to the written page |
| `ContactMain.SerializedParamsShape` | src/app/contact/components/ContactMain.js:62-67 | all five keys are written, empty text filters as `""`; every other URL parameter reads as before |
| `ContactMain.TextParamOfText` | src/app/contact/components/ContactMain.js:63-66 | a text filter is written as its own text |
| `ContactMain.HydrateAfterSerialize` | src/app/contact/components/ContactMain.js:62-91 | writing plain filters into the URL and hydrating from it gives the same filters back |
| `ContactMain.WriteFilterParams` | src/app/contact/components/ContactMain.js:62-67 | the five `params.set` calls in sequence set each filter key to its written text, and other names are untouched |
| `ContactMain.ContactMainState.constructor` | src/app/contact/components/ContactMain.js:32-47 | initial filters are four empty texts and page 1; rows are the server data; `count` is the data length; totals come from the prop (default 1/0) |
| `ContactMain.ContactMainState.HandleInputChange` | src/app/contact/components/ContactMain.js:98-108 | the filters become the functional update of the old ones; the invariant is kept |
| `ContactMain.ContactMainState.RunFilter` | src/app/contact/components/ContactMain.js:49-57 | after the listing resolves, the rows are exactly its contacts and the pagination has its totals with `count` equal to the contacts' length; a throw changes nothing |
| `ContactMain.ContactMainState.HydrateFromUrl` | src/app/contact/components/ContactMain.js:82-92 | on mount the filters become those read from the URL |
| `ContactMain.ContactMainState.FlushFilters` | src/app/contact/components/ContactMain.js:59-73 | the debounced callback writes the serialised URL parameters and then runs the filter for the same filters: on success rows, total pages, total count and `count` are replaced; on a throw nothing changes |
| `ContactMain.ContactMainState.TablePaginationProps` | src/app/contact/components/ContactMain.js:124-128 | the table gets the stored pagination with `page` taken from the current filters |
| `ContactsPage.ServerFilters` | src/app/contact/page.js:18-24 | missing or empty text parameters become `""` and present ones pass through; the page is the number of the parameter, or 1 when it is missing or empty |
| `ContactsPage.ServerMatchesClient` | src/app/contact/page.js:18-24 | for the same query parameters, the server-built filters equal the client-hydrated filters |
| `ContactsPage.FirstVisitQueriesFirstPage` | src/app/contact/page.js:18-26 | with no search parameters, the page's listing query is exactly `page=1` |
| `ContactsPage.Contacts` | src/app/contact/page.js:17-29 | the listing for the server filters is handed on unchanged, `pagination` as `pagination` and `contacts` as `data`; a throw is passed on |
| `ContactsPage.RenderContacts` | src/app/contact/page.js:26-28 | the client container is mounted with the server's rows and totals, `count` equal to the row count, and the initial filters |
| `Pagination.Resolve` | src/components/DataTable/Pagination.js:26 | a missing field defaults to page 1, count 0, totalPages 1, totalCount 0 |
| `Pagination.Range` | src/components/DataTable/Pagination.js:46-49 | `Array.from` gives `max(0, hi - lo + 1)` consecutive numbers starting at `lo` |
| `Pagination.PageWindow` | src/components/DataTable/Pagination.js:33-50 | exactly `min(8, max(0, totalPages))` buttons; consecutive increasing pages; all in `[1, totalPages]`; contains `page` when it is in range; is `page-4 .. page+3` away from the edges |
| `Pagination.PreviousRequest` | src/components/DataTable/Pagination.js:60-61 | Previous is disabled exactly when `page <= 1` and otherwise requests `(page - 1, "page")` |
| `Pagination.NextRequest` | src/components/DataTable/Pagination.js:90-91 | Next is disabled exactly when `page >= totalPages` and otherwise requests `(page + 1, "page")` |
| `Pagination.ButtonsStayInRange` | src/components/DataTable/Pagination.js:60-91 | from a page in range, both buttons can only request a page in range |
| `Pagination.NextThenPrevious` | src/components/DataTable/Pagination.js:60-91 | Next followed by Previous returns to the starting page |
| `Pagination.ItemRange` | src/components/DataTable/Pagination.js:30-31 | start is `(page-1)*20+1` and end is `min(page*20, n)`, for the row bound `n` it is given. As written the bound is `count`; the corrected label passes `totalCount` |
| `Pagination.ItemRangeInvertedAfterFirstPage` | src/components/DataTable/Pagination.js:31 | as written, on every page after the first (with at most 20 rows) the end falls below the start |
| `Pagination.SecondFullPageLabel` | src/components/DataTable/Pagination.js:31 | as written, a full second page is labelled 21–20 |
| `Pagination.IntendedRangeSpansRows` | src/components/DataTable/Pagination.js:31 | corrected (the range bounded by the total count): on a page in range with the row count the listing implies, the label spans exactly the rows shown and stays within the total |
| `Pagination.RangeLabel` | src/components/DataTable/Pagination.js:26-31 | corrected: the label's numbers from the prop with its defaults. It is the corrected range of the resolved page, then the resolved total; the end never passes the total, and an empty prop gives 1–0 of 0 |

## Left out

- Network I/O is left out: the `fetch` calls, `cache: "force-cache"`, `res.json()` and a rejected fetch (a network exception). `Upstream` gives each request a status and an already-typed body.
- The date library (`moment(...).format("YYYY-MM-DD")`) is a parameter. Nothing is claimed about its output format.
- Debouncing is left out: the lodash timer, the 500 ms delay, the `useEffect` that arms it, and the order in which async calls resolve. `FlushFilters` models one firing of the callback for the filters it is given.
- Browser side effects are left out: `sessionStorage.setItem`, `router.replace`/`router.push` (including the row-click navigation) and reading `window.location` (passed in as a `Query`).
- Percent-encoding and `query.toString()` are left out. Queries stay lists of pairs.
- A property that is present with the value `null` is not modelled. Only present or absent is.
- `ContactMain.FiltersFromUrl`: requires the `page` URL parameter to be missing or decimal digits, because `Number()` on other strings (signs, blanks, fractions, NaN) is not modelled.
- `ContactMain.PageNumber`: same restriction as `FiltersFromUrl`.
- `ContactMain.ContactMainState.HydrateFromUrl`: same restriction as `FiltersFromUrl`.
- `ContactsPage.ServerFilters`: same restriction on `searchParams.page`.
- `ContactsPage.Contacts`: inherits the `searchParams.page` restriction of `ServerFilters`.
- `ContactsPage.RenderContacts`: inherits the `searchParams.page` restriction of `ServerFilters`.
- `ContactsPage.ServerMatchesClient`: requires a query without repeated names, because the server framework turns repeated names into arrays, which are not modelled.
- `ContactMain.SerializedParamsShape`: does not state that each key occurs exactly once. That holds per call by `SearchParams.Set`, but is not restated for the whole sequence.
- JavaScript numbers are doubles, but the model's numbers are exact integers. `String(n)` for `n >= 10^21` (exponent notation) and `Number` of digit strings beyond 2^53 (rounding) are not modelled; pages and statuses never come near these values.
- The pagination bar takes integer pages. A text value stored under `page` through `handleInputChange` (no caller does this) is not carried into its arithmetic.
- The `if (!searchFilters) return` guard is left out, because the filters are always an object.
- JSX rendering is left out: the table, inputs, toolbar and profile components. So are the table header constants, `next.config.mjs` and the page `metadata`.

## Findings

| source | as written | input that shows it | evidently intended | confidence | as-written member | corrected member |
|---|---|---|---|---|---|---|
| src/components/DataTable/Pagination.js:31 | the label's end is the smaller of `page*20` and `count`, and `count` is the number of rows on the current page | page 2 with 20 rows of 826 gives "21–20 of 826 items" | end bounded by `totalCount` (`ItemRange(page, totalCount)`): page 2 gives "21–40 of 826 items" | high (not executed) | `Pagination.ItemRange`, `Pagination.ItemRangeInvertedAfterFirstPage`, `Pagination.SecondFullPageLabel` | `Pagination.IntendedRangeSpansRows`, `Pagination.RangeLabel` |
