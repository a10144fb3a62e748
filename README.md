# Link-Manager core in Dafny

Link-Manager is a bookmark application. Its Express server stores links and
groups for each user in MongoDB, and enriches every new link in the
background with its page's Open Graph metadata. Its React client draws the
links as a graph, talks to the server through one axios instance, and checks
the registration form before it submits.

This project models the behaviour of that core and proves properties of it.

- **Documents** (`LinkModel`, `GroupModel`): the `Link` and `Group`
  documents, with their schema defaults and their `trim: true` setters. A
  save refuses an empty `required` string, and the pre-save hook refreshes
  `updatedAt`. `GroupModel` also has the `linkCount` virtual.
- **Link store** (`LinkRoutes.LinkStore`): a class over the Link collection
  (`map<LinkId, Link>`).
  - Its methods are the handlers of POST, PUT, DELETE and GET `/api/links`.
  - The background enrichment that POST starts is an explicit per-link
    `Task`. It holds the parsed URL and the closure's document as created,
    and, once the `.then` save has thrown, the metadata assigned to it. A
    caller settles it later through `SettleSuccess` (the `.then` callback)
    and, only when that callback's save rejects, `SettleFailure` (the
    `.catch` callback): `processLink` never rejects for a URL that parsed.
  - Both settlement saves write only the paths the callback's document
    changed since creation, so a PUT that came in between keeps the fields
    the callback leaves as they were.
  - `Valid()` keeps every stored link valid: it passed validation, and a
    link with a pending task is still processing with no error, and keeps
    the domain of the document the task holds.
- **Group store** (`GroupRoutes.GroupStore`): a class over the Group
  collection. It holds a reference to the link store, so that a group's
  deletion can be stated as its effect on the links (the `$unset` of their
  `group`).
- **Metadata extraction** (`AiService`): the fallback chains of
  `fetchWebpageContent`, and the hostname fallback it answers with when the
  fetch fails. The HTML lookups and the URL parse are inputs.
- **Knowledge graph** (`KnowledgeGraph`): `links.map` to nodes, and the
  nested loop that links every two nodes of the same group. The loop is a
  method proved against a specification of index pairs. The edge count is
  proved equal to the sum of k(k-1)/2 over the groups present.
- **API client** (`Api`): the `API_URL` normalisation and the two
  interceptors. `localStorage` and `window.location` are the fields of a
  `Browser` object.
- **Registration form** (`RegisterPage`): the validation order of
  `handleSubmit`, and what the result of `register` leads to.

Modelling notes:

- JavaScript truthiness of request fields is `Truthy`, over `Option`. `||` is
  `OrElse` and `Either`.
- `String.prototype.trim` removes the ECMAScript white-space and
  line-terminator code points.
- A JavaScript string's `length` counts UTF-16 code units (`Utf16Length`).
- Clocks are an `int` parameter `now`.
- Document ids come from a counter that never repeats.
- The requester's id is a trusted parameter, as the auth middleware hands it
  over.

## Model

| member | source | states |
|---|---|---|
| JsValues.TrimStart | server/src/models/Link.js:7 | the leading white space is removed: the result is a suffix of the input, everything cut is white space, and it starts with a non-space unless empty |
| JsValues.TrimEnd | server/src/models/Link.js:7 | the trailing white space is removed: the result is a prefix of the input, everything cut is white space, and it ends with a non-space unless empty |
| JsValues.Trim | server/src/models/Link.js:7 | the trim setter never lengthens a string, and a non-empty result starts and ends with a non-space |
| JsValues.TrimEmptyIffBlank | server/src/models/Link.js:9-13 | a `trim: true` string becomes '' exactly when it is all white space, which is when `required` refuses it |
| JsValues.TrimIdempotent | server/src/models/Link.js:4-8 | the trim setter applied to an already trimmed value changes nothing |
| JsValues.Contains | client/src/services/api.js:39-40 | `includes` holds for the empty needle, and only for a needle no longer than the string |
| JsValues.EndsWith | client/src/services/api.js:5 | `endsWith` holds only when the string is some prefix followed by the suffix |
| JsValues.EndsWithAppend | client/src/services/api.js:5 | a string built by appending a suffix ends with it |
| Http.Owned | server/src/routes/links.js:135-144 | the lookup and ownership check of both route files: an unknown id gives 404 with the collection's message, another owner gives 403 "Not authorized", else exactly the stored document |
| JsValues.Utf16Length | client/src/pages/RegisterPage.jsx:22 | `length` counts between one and two units per code point |
| LinkModel.NewLink | server/src/models/Link.js:3-86 | a new Link has url and title trimmed, `''` in every other string field, no tags, an empty embedding, a null group, `isProcessing` false, both timestamps now |
| LinkModel.Save | server/src/models/Link.js:89-92 | the save succeeds iff url and title are non-empty. On success only `updatedAt` changes, to now. On failure the error names exactly the empty required paths |
| LinkModel.WriteModified | server/src/routes/links.js:111 | the update of the modified paths: against an unchanged record it stores the in-memory document, and an unmodified document leaves the record as it is |
| LinkModel.SaveOver | server/src/routes/links.js:111 | `doc.save()` of a loaded document: validation of the in-memory document (missing required paths) comes first, then a deleted record gives DocumentNotFound, else the hooked document's modified paths are written over the current record, and with no intervening write that is the hooked document itself |
| LinkModel.SaveFresh | server/src/models/Link.js:78-92 | a document created at `now` is stored unchanged, or refused |
| GroupModel.NewGroup | server/src/models/Group.js:3-34 | a new Group has its name trimmed, description `''`, color `#6366f1`, icon 📁, the owner, both timestamps now |
| GroupModel.Save | server/src/models/Group.js:37-40 | the save succeeds iff the name is non-empty, and then changes only `updatedAt` |
| GroupModel.Members | server/src/models/Group.js:43-48 | the `linkCount` virtual counts exactly the links whose `group` is the group |
| GroupModel.LinkCount | server/src/models/Group.js:43-48 | the count never exceeds the number of links, and it is 0 iff no link references the group |
| AiService.FaviconOf | server/src/services/aiService.js:25 | the favicon URL begins with `protocol//hostname` and ends with "/favicon.ico" |
| AiService.OgImageOf | server/src/services/aiService.js:17 | the og:image content when truthy, else '' |
| AiService.OgTitleOf | server/src/services/aiService.js:18 | the og:title content when truthy, else the `<title>` text (which may itself be '') |
| AiService.OgDescriptionOf | server/src/services/aiService.js:19-20 | the og:description content when truthy, else the meta description when truthy, else '' |
| AiService.FetchWebpageContent | server/src/services/aiService.js:5-51 | rejects only for an unparseable URL. Domain is the hostname; favicon is `protocol//hostname/favicon.ico`. After a fetch: the og:title, `<title>` and '' chain; the og:description, meta description and '' chain; og:image or ''; title equals ogTitle and description equals ogDescription. After a failed fetch: title and ogTitle are the hostname, the other fields '' |
| AiService.ProcessLink | server/src/services/aiService.js:54-68 | resolves and rejects exactly as `fetchWebpageContent` |
| AiService.NeverRejectsParsedUrl | server/src/services/aiService.js:36-50 | for a URL that parses, processing resolves whatever the fetch did, with the same domain and favicon as on failure |
| AiService.EmptyPageYieldsEmptyFields | server/src/services/aiService.js:17-20 | a page without any of the looked-up tags yields '' in every page-derived field |
| AiService.ExampleArticle | server/src/services/aiService.js:16-35 | a concrete page with og:title and og:description yields those as title and description |
| LinkRoutes.NameDefaults | server/src/routes/links.js:93-94 | after the setter, `name \|\| 'Processing...'` is the trimmed name or the placeholder, and `name \|\| ''` is the trimmed name or '' |
| LinkRoutes.PlaceholderLink | server/src/routes/links.js:91-98 | the created record is processing and unenriched. Its title is the custom name or "Processing...", its customName the name or '', and its url, group and owner are those of the request |
| LinkRoutes.Admit | server/src/routes/links.js:79-98 | no truthy url gives 400 "Please provide a URL". An unparseable url gives 400 "Invalid URL format". Otherwise the record is created iff its url and title survive trimming, else 500 |
| LinkRoutes.WithMetadata | server/src/routes/links.js:103-110 | the `.then` assignments: title is the scraped title or else the domain; the six enrichment fields are copied; `isProcessing` is false; nothing else changes |
| LinkRoutes.WithFailure | server/src/routes/links.js:116-118 | the `.catch` assignments: title is the hostname, `isProcessing` is false, `processingError` is the message, nothing else changes |
| LinkRoutes.SuccessWrite | server/src/routes/links.js:102-111 | the `.then` save: it fails validation with `title` as the only missing path exactly when the chosen title trims to '', and otherwise fails only on a deleted record. On success each assigned field takes its new value where that differs from the created record and keeps the current record's value elsewhere; the flag is lowered; every other field is the current record's |
| LinkRoutes.FailureWrite | server/src/routes/links.js:114-119 | the `.catch` save after a rejected `.then` save: the same rule over the `.then` assignments still in memory plus the hostname title and the error message. It fails validation exactly when the hostname trims to '', otherwise only on a deleted record |
| LinkRoutes.Edited | server/src/routes/links.js:146-160 | the PUT merges. title changes only for a truthy title or name, title first. customName changes iff name is defined. description and group change iff defined. aiTags changes iff truthy. Nothing else changes |
| LinkRoutes.TrimAll | server/src/models/Link.js:23-26 | every tag passes its trim setter, and the order and number are kept |
| LinkRoutes.ClearGroup | server/src/routes/groups.js:111 | `$unset` drops the group reference from exactly the links of that group, whoever owns them, and changes nothing else |
| LinkRoutes.AdmittedStored | server/src/routes/links.js:91-98 | a created record is valid and processing without an error, and agrees with the `Task` started for it (same domain, unenriched) |
| LinkRoutes.SuccessWriteStored | server/src/routes/links.js:102-111 | a successful `.then` save over a stored, tracked record leaves a valid record with the flag lowered |
| LinkRoutes.FailureWriteStored | server/src/routes/links.js:114-119 | a successful `.catch` save over a stored, tracked record leaves a valid record with the flag lowered |
| LinkRoutes.EditStored | server/src/routes/links.js:146-162 | a successful PUT save keeps the record valid |
| LinkRoutes.EditTracks | server/src/routes/links.js:146-162 | a PUT never writes the domain, so a record and its pending task still agree |
| LinkRoutes.LinkStore.List | server/src/routes/links.js:16-23 | returns exactly the requester's links, restricted to one group unless the query is absent or 'all' |
| LinkRoutes.LinkStore.Create | server/src/routes/links.js:75-128 | an error creates nothing and starts nothing. Success stores the placeholder under a fresh id, starts its task and answers 201 |
| LinkRoutes.LinkStore.SettleSuccess | server/src/routes/links.js:102-113 | the `.then` callback stores the `SuccessWrite` result and ends its task, or its save throws and the collection is kept while its task moves on to `.catch` with the metadata still in memory. A written record has the flag down and the hostname as domain |
| LinkRoutes.LinkStore.SettleFailure | server/src/routes/links.js:114-120 | the `.catch` callback, callable only after a rejected `.then` save, ends its task and stores the `FailureWrite` result unless that save throws. A written record has the flag down and the hostname as domain |
| LinkRoutes.LinkStore.Update | server/src/routes/links.js:133-171 | 404 and 403 change nothing. Otherwise the merged record is saved (200), or nothing changes (500) |
| LinkRoutes.LinkStore.Delete | server/src/routes/links.js:176-196 | 404 and 403 change nothing. Otherwise the link is removed and the answer is "Link deleted" |
| LinkRoutes.LinkStore.UnsetGroup | server/src/routes/groups.js:111 | the collection becomes `ClearGroup` of itself, and tasks and ids are kept |
| LinkRoutes.FetchFailureSettlesAsSuccess | server/src/routes/links.js:101-111 | a failed fetch of a URL with a hostname still settles down `.then`: the save succeeds, the flag is down, `processingError` stays '', ogTitle, domain and favicon come from the hostname, and so does the title unless the created title already equals it |
| LinkRoutes.SuccessRejectsOnlyBlankTitle | server/src/routes/links.js:101-120 | for a stored link, `.catch` runs after `.then` exactly when the chosen title (the scraped title, or else the hostname when that is empty) trims to '', and then `title` is the only missing path |
| LinkRoutes.EditedDescriptionSurvives | server/src/routes/links.js:104 | a description written by a PUT before settlement survives a page without one, because the scraped '' leaves the path unmodified |
| LinkRoutes.QuietSettlementStoresDocument | server/src/routes/links.js:102-111 | with no write between creation and settlement, the `.then` save stores the document as the callback assigned it, with `updatedAt` now |
| LinkRoutes.HostlessUrlNeverSettles | server/src/routes/links.js:101-119 | for a URL that parses without a hostname, both settlement saves fail validation on `title`, so the record stays processing |
| LinkRoutes.BlankOgTitleRecordsError | server/src/routes/links.js:102-119 | an og:title of white space only makes the `.then` save fail validation, and the `.catch` save then records that rejection's message as `processingError` with the flag down |
| GroupRoutes.Admit | server/src/routes/groups.js:41-53 | no truthy name gives 400 "Please provide a group name". Defaults are description '', color `#6366f1` and icon 📁, each kept when truthy. The owner is the requester. A name of white space only gives 500 |
| GroupRoutes.Edited | server/src/routes/groups.js:78-83 | name, color and icon are replaced only by truthy inputs; description is replaced whenever it is defined, '' included |
| GroupRoutes.EditKeepsOnEmpty | server/src/routes/groups.js:80-83 | an update without truthy inputs and without a description leaves a stored group as it is |
| GroupRoutes.EditNamed | server/src/routes/groups.js:80-85 | the PUT save fails only for a truthy name of white space, and keeps a stored name trimmed and non-empty |
| GroupRoutes.OwnedMembers | server/src/routes/groups.js:21 | `countDocuments({ group, user })` counts exactly the requester's links of the group |
| GroupRoutes.OwnedCountAtMostLinkCount | server/src/models/Group.js:43-48 | the count the list attaches never exceeds the `linkCount` virtual |
| GroupRoutes.ClearGroupMembers | server/src/routes/groups.js:110-111 | after the `$unset` the deleted group has no links, and every other group keeps exactly its links |
| GroupRoutes.DeleteKeepsOtherCounts | server/src/routes/groups.js:111 | deletion leaves the other groups' `linkCount` unchanged and the deleted one's at 0 |
| GroupRoutes.GroupStore.List | server/src/routes/groups.js:14-29 | exactly the requester's groups, each with the requester's number of links in it |
| GroupRoutes.GroupStore.Create | server/src/routes/groups.js:39-60 | an error stores nothing. Success stores the new group under a fresh id and answers 201 |
| GroupRoutes.GroupStore.Update | server/src/routes/groups.js:65-92 | 404 and 403 change nothing. Otherwise the merged group is saved (200), or nothing changes (500) |
| GroupRoutes.GroupStore.Delete | server/src/routes/groups.js:97-120 | 404 and 403 change neither collection. Otherwise the group's links lose their reference and the group is removed |
| KnowledgeGraph.Nodes | client/src/components/KnowledgeGraph.jsx:18-26 | one node per link, in order, with id, title, url, domain and group copied |
| KnowledgeGraph.Row | client/src/components/KnowledgeGraph.jsx:31-40 | the inner loop emits pairs of row `i` only, with a later column |
| KnowledgeGraph.Rows | client/src/components/KnowledgeGraph.jsx:30-41 | the outer loop emits pairs of the finished rows only, each with `i < j` |
| KnowledgeGraph.RowExactly | client/src/components/KnowledgeGraph.jsx:31-33 | a row holds exactly the same-group pairs, by increasing column |
| KnowledgeGraph.RowsOrdered | client/src/components/KnowledgeGraph.jsx:30-33 | the finished rows hold same-group pairs only, in strict lexicographic order |
| KnowledgeGraph.RowsComplete | client/src/components/KnowledgeGraph.jsx:30-33 | every same-group pair of a finished row is emitted |
| KnowledgeGraph.EdgeOf | client/src/components/KnowledgeGraph.jsx:34-38 | an edge goes from node `i`'s id to node `j`'s id, with strength 2 |
| KnowledgeGraph.RowsMatches | client/src/components/KnowledgeGraph.jsx:29-41 | the pushed edges are the edges of the emitted pairs, position by position |
| KnowledgeGraph.BuildEdges | client/src/components/KnowledgeGraph.jsx:29-41 | the loop's result is the edge of each same-group pair `i < j`, in `(i, j)` order, each of strength 2 |
| KnowledgeGraph.PairsExactly | client/src/components/KnowledgeGraph.jsx:30-33 | `(i, j)` is an edge iff `i < j` and both nodes have a group with the same id |
| KnowledgeGraph.PairsOrdered | client/src/components/KnowledgeGraph.jsx:30-31 | no self-edge, no pair twice, lexicographic order |
| KnowledgeGraph.UngroupedIsolated | client/src/components/KnowledgeGraph.jsx:33 | a node without a group has no incident edge |
| KnowledgeGraph.GroupIdsOccur | client/src/components/KnowledgeGraph.jsx:33 | a group id is listed among the groups present iff some node carries it |
| KnowledgeGraph.PairsCount | client/src/components/KnowledgeGraph.jsx:30-41 | the number of edges is the sum over the groups present of Choose2 of their node counts |
| KnowledgeGraph.EdgeCount | client/src/components/KnowledgeGraph.jsx:30-41 | the same sum, with twice every term equal to k(k-1) for the group's node count k |
| Api.BaseUrl | client/src/services/api.js:4 | the configured base when truthy, else '' |
| Api.ApiUrl | client/src/services/api.js:5 | always ends with "/api". It equals the base iff the base already ends with "/api", and otherwise is the base plus "/api" |
| Api.ApiUrlIdempotent | client/src/services/api.js:5 | normalising twice is normalising once |
| Api.EmptyBaseIsApi | client/src/services/api.js:4-5 | an unset or empty base gives "/api" |
| Api.Authorization | client/src/services/api.js:18-21 | a header is set iff the stored token is truthy, and then it is "Bearer " followed by the token |
| Api.OnRequest | client/src/services/api.js:17-23 | the config gains that header, or its headers stay untouched, and the same config is returned |
| Api.ContainsAt | client/src/services/api.js:39-40 | `includes` holds iff the substring occurs at some position |
| Api.ShouldRedirect | client/src/services/api.js:39-42 | the 401 handler redirects exactly when neither "/login" nor "/register" occurs at any position of the pathname |
| Api.OnResponseError | client/src/services/api.js:32-46 | a 401 removes token and user and sets href to "/login" iff the pathname mentions neither auth page. Any other status changes nothing. The same error is always re-rejected |
| RegisterPage.Validate | client/src/pages/RegisterPage.jsx:22-30 | under 6 code units gives the length error. Otherwise a mismatch gives "Passwords do not match". Otherwise the submit proceeds, and only then |
| RegisterPage.Submit | client/src/pages/RegisterPage.jsx:17-43 | the error is cleared first. `register(name, email, password)` is called iff validation passes. Success navigates to "/dashboard"; a failure shows `result.message`; a rejection shows its message and calls nothing |
| RegisterPage.LengthBeforeMatch | client/src/pages/RegisterPage.jsx:22-30 | a short password that also mismatches reports the length |
| RegisterPage.EmojiCountsTwice | client/src/pages/RegisterPage.jsx:22 | a password of five code points, one of them outside the BMP, already has length 6 |

## Left out

- The regex search: the `search` filter of GET `/api/links` and the route GET `/api/links/search` (server/src/routes/links.js:25-31, 47-70). They depend on MongoDB's `$regex` matching, which is not modelled.
- `sort`, `populate` and `toObject`: lists are maps keyed by id, so they have no order and carry the group id rather than the populated group.
- The concurrency of the enrichment promise. Settlement is a separate step the caller invokes, so PUT or DELETE can come between creation and settlement, but the interleaving inside one callback is not modelled.
- LinkModel.WriteModified: a path counts as modified when its in-memory value differs from its value at the last create, load or save. Mongoose marks a path at assignment instead, so a path set away from that value and back again is written by the source, with its value at creation, and keeps the current record's value here. In the callbacks this happens only to the `.catch` title, when the `.then` title differed from the created one and the hostname equals the created one, and it differs only when a PUT changed the title meanwhile. The version key (`__v`) is not modelled.
- LinkModel.SaveOver: the message of a rejected save is an input of the `.catch` callback, not derived from the validation error. On a deleted record the pre-save hook has already refreshed the in-memory `updatedAt`; the model drops that document, as no later code reads it.
- Generic database and network errors, which every handler answers with 500 "Server error". Only the validation failures and the save of a deleted document are modelled.
- JSON values that are not strings (numbers, null, objects) in request bodies, and Mongoose's casting of them. `group` in a body is an id or `None`.
- The ObjectId format and the `CastError` of a malformed id. Ids are natural numbers.
- The outbound HTTP fetch (axios, user agent, 10-second timeout) and the cheerio parse: their results are the `Fetch` input.
- The WHATWG URL parser: its result is the `Option<Url>` input.
- `aiSummary` and `embedding` are never written by the core. They exist only with their defaults, and the index declarations (server/src/models/Link.js:95-98) have no behaviour.
- `Date.now`: the clock is the parameter `now`.
- The d3 force simulation, drag handlers, random node positions and drawing (client/src/components/KnowledgeGraph.jsx:14-15, 24-25 and 43 onwards). The early return for an empty list is left out as well, since it draws nothing, as an empty graph would.
- The authentication middleware, Express routing, CORS, static serving and the database connection. The requester id is a parameter.
- The React state and rendering of all pages and components, the `loading` flag of RegisterPage, and AuthContext's session handling.
- The axios request error handler, which only re-rejects, and the response success handler, which returns the response unchanged.
