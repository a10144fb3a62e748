/** The link routes of server/src/routes/links.js over an in-memory Link
    collection. The request's user id comes from the (trusted) auth
    middleware; the fire-and-forget enrichment started by POST is a `Task`
    kept per link, which the caller settles later with `SettleSuccess` (the
    `.then` callback) and, if that rejects, `SettleFailure` (the `.catch`). */
module LinkRoutes {
  import opened JsValues
  import opened Http
  import opened LinkModel
  import opened AiService

  /** `req.body` of POST /api/links; `None` stands for undefined. A falsy
      `group` (undefined, '' or null) is `None` too. */
  datatype CreateBody = CreateBody(url: Option<string>, group: Option<GroupId>, name: Option<string>)

  /** `req.body` of PUT /api/links/:id; `None` stands for undefined. `group`
      is `Some(None)` for an explicit null. `aiTags` is `None` when falsy;
      an array, even an empty one, is truthy. */
  datatype UpdateBody = UpdateBody(
    title: Option<string>,
    name: Option<string>,
    description: Option<string>,
    group: Option<Option<GroupId>>,
    aiTags: Option<seq<string>>)

  /** `req.query.group` of GET /api/links: falsy, the word 'all', or an id. */
  datatype GroupQuery = Absent | All | Only(id: GroupId)

  /** Where the background enrichment of one link stands: its promise has not
      settled yet, or the `.then` callback's save threw after it had assigned
      the metadata to the in-memory document. */
  datatype Stage = Fetching | SaveRejected(pending: Metadata)

  /** The closure of the background enrichment: the parsed URL, the document
      `Link.create` resolved with (the `link` the callbacks assign to and
      save, whose change tracking starts from it), and the stage. */
  datatype Task = Task(url: Url, base: Link, stage: Stage)

  /** Whether a settlement write reached the collection. */
  datatype Written = Written | NotWritten(error: SaveError)

  const Placeholder := "Processing..."

  /** The `name || ...` defaults after the `trim: true` setter. */
  lemma NameDefaults(name: Option<string>)
    ensures Trim(OrElse(name, Placeholder)) == (if Truthy(name) then Trim(name.value) else Placeholder)
    ensures Trim(OrElse(name, "")) == (if Truthy(name) then Trim(name.value) else "")
  {
    if Truthy(name) {
      assert OrElse(name, Placeholder) == name.value && OrElse(name, "") == name.value;
    } else {
      assert OrElse(name, Placeholder) == Placeholder && OrElse(name, "") == "";
      PlaceholderTrimmed();
      TrimEmpty();
    }
  }

  lemma TrimEmpty()
    ensures Trim("") == ""
  {
  }

  /** The placeholder already has no surrounding white space. */
  lemma PlaceholderTrimmed()
    ensures Trim(Placeholder) == Placeholder
  {
    var p := Placeholder;
    assert p[0] == 'P' && p[|p| - 1] == '.';
    TrimKeeps(p);
  }

  /** The document POST creates: custom name or placeholder as title, the
      processing flag raised, nothing enriched yet. */
  function PlaceholderLink(url: string, name: Option<string>, group: Option<GroupId>, user: UserId, now: int): (l: Link)
    ensures l.isProcessing && Unenriched(l)
    ensures l.title == (if Truthy(name) then Trim(name.value) else Placeholder)
    ensures l.customName == (if Truthy(name) then Trim(name.value) else "")
    ensures l.url == Trim(url) && l.group == group && l.user == user
    ensures l.createdAt == now && l.updatedAt == now
  {
    NameDefaults(name);
    NewLink(url, OrElse(name, Placeholder), user, now)
      .(customName := Trim(OrElse(name, "")), group := group, isProcessing := true)
  }

  /** The synchronous part of POST /api/links, given what `new URL(url)`
      yields for the request's URL (`None` where it throws): the two 400
      checks, then `Link.create`, whose validation failure is the handler's
      500. On success, the parsed URL the background task keeps and the new
      record. */
  function Admit(body: CreateBody, parsed: Option<Url>, user: UserId, now: int): (r: Result<(Url, Link), (nat, string)>)
    ensures !Truthy(body.url) ==> r == Err((400, "Please provide a URL"))
    ensures Truthy(body.url) && parsed.None? ==> r == Err((400, "Invalid URL format"))
    ensures Truthy(body.url) && parsed.Some? ==>
      var doc := PlaceholderLink(body.url.value, body.name, body.group, user, now);
      (r.Ok? <==> doc.url != "" && doc.title != "")
      && (r.Ok? ==> r.value == (parsed.value, doc))
      && (r.Err? ==> r.error == (500, ServerErrorMessage))
  {
    if !Truthy(body.url) then Err((400, "Please provide a URL"))
    else match parsed
      case None => Err((400, "Invalid URL format"))
      case Some(u) =>
        var doc := PlaceholderLink(body.url.value, body.name, body.group, user, now);
        SaveFresh(doc, now);
        if LinkModel.Save(doc, now).Ok? then Ok((u, LinkModel.Save(doc, now).value))
        else Err((500, ServerErrorMessage))
  }

  /** The metadata `processLink` resolves with for a URL that parsed. */
  function Enrichment(f: Fetch, u: Url): (m: Metadata)
    ensures m.domain == u.hostname && m.favicon == FaviconOf(u)
  {
    NeverRejectsParsedUrl(f, u);
    ProcessLink(f, Some(u)).value
  }

  /** The assignments of the `.then` callback: scraped title (or the domain)
      over `title`, the enrichment fields copied, the flag lowered. */
  function WithMetadata(l: Link, m: Metadata): (r: Link)
    ensures r.title == Trim(Either(m.title, m.domain)) && !r.isProcessing
    ensures r.description == m.description && r.ogImage == m.ogImage && r.ogTitle == m.ogTitle
    ensures r.ogDescription == m.ogDescription && r.domain == m.domain && r.favicon == m.favicon
    ensures r.(title := l.title, description := l.description, ogImage := l.ogImage, ogTitle := l.ogTitle,
               ogDescription := l.ogDescription, domain := l.domain, favicon := l.favicon,
               isProcessing := l.isProcessing) == l
  {
    l.(title := Trim(Either(m.title, m.domain)), description := m.description, ogImage := m.ogImage,
       ogTitle := m.ogTitle, ogDescription := m.ogDescription, domain := m.domain, favicon := m.favicon,
       isProcessing := false)
  }

  /** The assignments of the `.catch` callback: hostname as title, the flag
      lowered, the rejection's message recorded. */
  function WithFailure(l: Link, host: string, message: string): (r: Link)
    ensures r.title == Trim(host) && !r.isProcessing && r.processingError == message
    ensures r.(title := l.title, isProcessing := l.isProcessing, processingError := l.processingError) == l
  {
    l.(title := Trim(host), isProcessing := false, processingError := message)
  }

  /** The record `id` as the collection holds it now, `None` once deleted. */
  function Current(links: map<LinkId, Link>, id: LinkId): (r: Option<Link>)
    ensures r.Some? <==> id in links
    ensures r.Some? ==> r.value == links[id]
  {
    if id in links then Some(links[id]) else None
  }

  /** The save at the end of the `.then` callback: the metadata assigned to
      the closure's document, and only the paths that differ from the created
      record written onto the record as it is now. */
  function SuccessWrite(links: map<LinkId, Link>, id: LinkId, t: Task, m: Metadata, now: int): (r: Result<Link, SaveError>)
    ensures r.Ok? ==> id in links
    ensures t.base.url != "" ==> (r.Ok? <==> Trim(Either(m.title, m.domain)) != "" && id in links)
    ensures t.base.url != "" && Trim(Either(m.title, m.domain)) == "" ==> r == Err(ValidationFailed({"title"}))
    ensures t.base.url != "" && Trim(Either(m.title, m.domain)) != "" && id !in links ==> r == Err(DocumentNotFound)
    ensures r.Ok? ==>
      var prev, b, title := links[id], t.base, Trim(Either(m.title, m.domain));
      && r.value.title == (if title != b.title then title else prev.title)
      && r.value.description == (if m.description != b.description then m.description else prev.description)
      && r.value.ogImage == (if m.ogImage != b.ogImage then m.ogImage else prev.ogImage)
      && r.value.ogTitle == (if m.ogTitle != b.ogTitle then m.ogTitle else prev.ogTitle)
      && r.value.ogDescription == (if m.ogDescription != b.ogDescription then m.ogDescription else prev.ogDescription)
      && r.value.domain == (if m.domain != b.domain then m.domain else prev.domain)
      && r.value.favicon == (if m.favicon != b.favicon then m.favicon else prev.favicon)
      && r.value.isProcessing == (if b.isProcessing then false else prev.isProcessing)
      && r.value.updatedAt == (if now != b.updatedAt then now else prev.updatedAt)
      && r.value.(title := prev.title, description := prev.description, ogImage := prev.ogImage,
                  ogTitle := prev.ogTitle, ogDescription := prev.ogDescription, domain := prev.domain,
                  favicon := prev.favicon, isProcessing := prev.isProcessing, updatedAt := prev.updatedAt) == prev
  {
    var doc := WithMetadata(t.base, m);
    MissingTitleOnly(doc);
    SaveOver(Current(links, id), t.base, doc, now)
  }

  /** The save at the end of the `.catch` callback, which runs only after the
      `.then` save threw: the closure's document carries the `.then`
      assignments and now the `.catch` ones, and its paths that differ from
      the created record are written. */
  function FailureWrite(links: map<LinkId, Link>, id: LinkId, t: Task, message: string, now: int): (r: Result<Link, SaveError>)
    requires t.stage.SaveRejected?
    ensures r.Ok? ==> id in links
    ensures t.base.url != "" ==> (r.Ok? <==> Trim(t.url.hostname) != "" && id in links)
    ensures t.base.url != "" && Trim(t.url.hostname) == "" ==> r == Err(ValidationFailed({"title"}))
    ensures t.base.url != "" && Trim(t.url.hostname) != "" && id !in links ==> r == Err(DocumentNotFound)
    ensures r.Ok? ==>
      var prev, b, p, title := links[id], t.base, t.stage.pending, Trim(t.url.hostname);
      && r.value.title == (if title != b.title then title else prev.title)
      && r.value.description == (if p.description != b.description then p.description else prev.description)
      && r.value.ogImage == (if p.ogImage != b.ogImage then p.ogImage else prev.ogImage)
      && r.value.ogTitle == (if p.ogTitle != b.ogTitle then p.ogTitle else prev.ogTitle)
      && r.value.ogDescription == (if p.ogDescription != b.ogDescription then p.ogDescription else prev.ogDescription)
      && r.value.domain == (if p.domain != b.domain then p.domain else prev.domain)
      && r.value.favicon == (if p.favicon != b.favicon then p.favicon else prev.favicon)
      && r.value.isProcessing == (if b.isProcessing then false else prev.isProcessing)
      && r.value.processingError == (if message != b.processingError then message else prev.processingError)
      && r.value.updatedAt == (if now != b.updatedAt then now else prev.updatedAt)
      && r.value.(title := prev.title, description := prev.description, ogImage := prev.ogImage,
                  ogTitle := prev.ogTitle, ogDescription := prev.ogDescription, domain := prev.domain,
                  favicon := prev.favicon, isProcessing := prev.isProcessing,
                  processingError := prev.processingError, updatedAt := prev.updatedAt) == prev
  {
    var doc := WithFailure(WithMetadata(t.base, t.stage.pending), t.url.hostname, message);
    MissingTitleOnly(doc);
    SaveOver(Current(links, id), t.base, doc, now)
  }

  /** The merge rules of PUT /api/links/:id. */
  function Edited(l: Link, b: UpdateBody): (r: Link)
    ensures r.title == (if Truthy(b.title) then Trim(b.title.value)
                        else if Truthy(b.name) then Trim(b.name.value) else l.title)
    ensures r.customName == (if b.name.Some? then Trim(b.name.value) else l.customName)
    ensures r.description == (if b.description.Some? then b.description.value else l.description)
    ensures r.group == (if b.group.Some? then b.group.value else l.group)
    ensures r.aiTags == (if b.aiTags.Some? then TrimAll(b.aiTags.value) else l.aiTags)
    ensures r.(title := l.title, customName := l.customName, description := l.description,
               group := l.group, aiTags := l.aiTags) == l
  {
    var title := if Truthy(b.title) || Truthy(b.name) then Trim(OrElse(b.title, OrElse(b.name, l.title))) else l.title;
    l.(title := title,
       customName := if b.name.Some? then Trim(b.name.value) else l.customName,
       description := if b.description.Some? then b.description.value else l.description,
       group := if b.group.Some? then b.group.value else l.group,
       aiTags := if b.aiTags.Some? then TrimAll(b.aiTags.value) else l.aiTags)
  }

  /** Each tag through its `trim: true` setter. */
  function TrimAll(tags: seq<string>): (r: seq<string>)
    ensures |r| == |tags| && forall k :: 0 <= k < |r| ==> r[k] == Trim(tags[k])
  {
    if tags == [] then [] else [Trim(tags[0])] + TrimAll(tags[1..])
  }

  /** The owner of a link, for the ownership check of PUT and DELETE. */
  function LinkOwner(l: Link): UserId {
    l.user
  }

  const LinkNotFound := "Link not found"

  /** The filter GET /api/links adds when a group is asked for. */
  predicate InQuery(q: GroupQuery, l: Link) {
    q.Only? ==> l.group == Some(q.id)
  }

  /** `Link.updateMany({ group }, { $unset: { group: 1 } })`: the reference
      dropped on every link of the group, whoever owns it; no hook runs, so
      no `updatedAt` changes either. */
  function ClearGroup(links: map<LinkId, Link>, g: GroupId): (r: map<LinkId, Link>)
    ensures r.Keys == links.Keys
    ensures forall id :: id in r ==> r[id].group != Some(g)
    ensures forall id :: id in r && links[id].group != Some(g) ==> r[id] == links[id]
    ensures forall id :: id in r && links[id].group == Some(g) ==> r[id] == links[id].(group := None)
  {
    map id | id in links :: if links[id].group == Some(g) then links[id].(group := None) else links[id]
  }

  /** A link as it may be stored: it passed validation, a link whose task is
      still out is processing with no error, and an error is only ever
      recorded together with the lowered flag. */
  predicate Stored(l: Link, pending: bool) {
    && l.url != "" && l.title != ""
    && (pending ==> l.isProcessing && l.processingError == "")
    && (l.processingError != "" ==> !l.isProcessing)
  }

  /** A stored link and the `Task` still out for it: the closure's document is
      the placeholder as created, the record still has that document's
      domain (only a settlement writes it), and a `.then` that got as far as
      its save assigned the domain of the link's URL. */
  predicate Tracks(l: Link, t: Task) {
    && t.base.url != "" && t.base.isProcessing && Unenriched(t.base)
    && l.domain == t.base.domain
    && (t.stage.SaveRejected? ==> t.stage.pending.domain == t.url.hostname)
  }

  /** Every stored link is storable, given which ones still have a task out,
      and each task agrees with its link. */
  predicate AllStored(links: map<LinkId, Link>, tasks: map<LinkId, Task>) {
    && (forall id :: id in links ==> Stored(links[id], id in tasks))
    && (forall id :: id in links && id in tasks ==> Tracks(links[id], tasks[id]))
  }

  /** Writing a storable document, starting a task or dropping one keeps
      every stored link storable. */
  lemma AllStoredPut(links: map<LinkId, Link>, tasks: map<LinkId, Task>, id: LinkId, doc: Link)
    requires AllStored(links, tasks) && Stored(doc, id in tasks)
    requires id in tasks ==> Tracks(doc, tasks[id])
    ensures AllStored(links[id := doc], tasks)
  {
  }

  lemma AllStoredStart(links: map<LinkId, Link>, tasks: map<LinkId, Task>, id: LinkId, doc: Link, t: Task)
    requires AllStored(links, tasks) && Stored(doc, true) && Tracks(doc, t)
    ensures AllStored(links[id := doc], tasks[id := t])
  {
  }

  lemma AllStoredHold(links: map<LinkId, Link>, tasks: map<LinkId, Task>, id: LinkId, t: Task)
    requires AllStored(links, tasks) && id in tasks
    requires id in links ==> Tracks(links[id], t)
    ensures AllStored(links, tasks[id := t])
  {
  }

  lemma AllStoredSettle(links: map<LinkId, Link>, tasks: map<LinkId, Task>, id: LinkId, doc: Link)
    requires AllStored(links, tasks) && Stored(doc, false)
    ensures AllStored(links[id := doc], tasks - {id})
  {
  }

  lemma AllStoredForget(links: map<LinkId, Link>, tasks: map<LinkId, Task>, id: LinkId)
    requires AllStored(links, tasks)
    ensures AllStored(links, tasks - {id})
  {
    forall k | k in links ensures Stored(links[k], k in tasks - {k}) {
      assert Stored(links[k], k in tasks);
    }
  }

  lemma AllStoredClear(links: map<LinkId, Link>, tasks: map<LinkId, Task>, g: GroupId)
    requires AllStored(links, tasks)
    ensures AllStored(ClearGroup(links, g), tasks)
  {
    var r := ClearGroup(links, g);
    forall id | id in r ensures Stored(r[id], id in tasks) && (id in tasks ==> Tracks(r[id], tasks[id])) {
      assert r[id].(group := links[id].group) == links[id];
    }
  }

  /** What each write leaves behind is a storable link. A created record and
      the `Task` started for it agree. */
  lemma AdmittedStored(body: CreateBody, parsed: Option<Url>, user: UserId, now: int)
    requires Admit(body, parsed, user, now).Ok?
    ensures var a := Admit(body, parsed, user, now).value;
      Stored(a.1, true) && Tracks(a.1, Task(a.0, a.1, Fetching))
  {
  }

  lemma SuccessWriteStored(links: map<LinkId, Link>, id: LinkId, t: Task, m: Metadata, now: int)
    requires id in links && Stored(links[id], true) && Tracks(links[id], t)
    requires SuccessWrite(links, id, t, m, now).Ok?
    ensures Stored(SuccessWrite(links, id, t, m, now).value, false)
  {
  }

  lemma FailureWriteStored(links: map<LinkId, Link>, id: LinkId, t: Task, message: string, now: int)
    requires id in links && Stored(links[id], true) && Tracks(links[id], t) && t.stage.SaveRejected?
    requires FailureWrite(links, id, t, message, now).Ok?
    ensures Stored(FailureWrite(links, id, t, message, now).value, false)
  {
  }

  lemma EditStored(l: Link, b: UpdateBody, now: int, pending: bool)
    requires Stored(l, pending) && LinkModel.Save(Edited(l, b), now).Ok?
    ensures Stored(LinkModel.Save(Edited(l, b), now).value, pending)
  {
  }

  /** A PUT never writes the domain, so a link and its task still agree. */
  lemma EditTracks(l: Link, b: UpdateBody, now: int, t: Task)
    requires Tracks(l, t) && LinkModel.Save(Edited(l, b), now).Ok?
    ensures Tracks(LinkModel.Save(Edited(l, b), now).value, t)
  {
  }

  class LinkStore {
    /** The Link collection. */
    var links: map<LinkId, Link>
    /** The background enrichments started and not yet settled. */
    var tasks: map<LinkId, Task>
    /** The next id handed out; ids are never reused. */
    var nextId: LinkId

    ghost predicate Valid()
      reads this
    {
      && (forall id :: id in links ==> id < nextId)
      && (forall id :: id in tasks ==> id < nextId)
      && AllStored(links, tasks)
    }

    constructor ()
      ensures Valid() && links == map[] && tasks == map[] && nextId == 0
    {
      links, tasks, nextId := map[], map[], 0;
    }

    /** GET /api/links: the requester's links, restricted to one group unless
        the query names none or 'all' (the regex `search` and the sort are not
        part of this model). */
    function List(user: UserId, q: GroupQuery): (r: map<LinkId, Link>)
      reads this
      ensures forall id :: id in r ==> id in links && r[id] == links[id]
      ensures forall id :: id in r ==> r[id].user == user
      ensures forall id :: id in r && q.Only? ==> r[id].group == Some(q.id)
      ensures forall id :: id in links && links[id].user == user && InQuery(q, links[id]) ==> id in r
    {
      map id | id in links && links[id].user == user && InQuery(q, links[id]) :: links[id]
    }

    /** POST /api/links: validates, stores the placeholder under a fresh id,
        starts its enrichment and answers 201 with the placeholder. */
    method Create(user: UserId, body: CreateBody, parsed: Option<Url>, now: int)
      returns (r: Response<(LinkId, Link)>)
      requires Valid()
      modifies this
      ensures Valid()
      ensures match Admit(body, parsed, user, now)
        case Err(e) =>
          r == Failure(e.0, e.1) && links == old(links) && tasks == old(tasks) && nextId == old(nextId)
        case Ok(a) =>
          && r == Success(201, (old(nextId), a.1))
          && links == old(links)[old(nextId) := a.1]
          && tasks == old(tasks)[old(nextId) := Task(a.0, a.1, Fetching)]
          && nextId == old(nextId) + 1
    {
      match Admit(body, parsed, user, now)
      case Err(e) =>
        r := Failure(e.0, e.1);
      case Ok(a) =>
        AdmittedStored(body, parsed, user, now);
        var id := Insert(a.1, Task(a.0, a.1, Fetching));
        r := Success(201, (id, a.1));
    }

    /** Stores a new processing record under a fresh id, with its task. */
    method Insert(doc: Link, t: Task) returns (id: LinkId)
      requires Valid() && Stored(doc, true) && Tracks(doc, t)
      modifies this
      ensures Valid() && id == old(nextId) && nextId == old(nextId) + 1
      ensures links == old(links)[id := doc] && tasks == old(tasks)[id := t]
    {
      id := nextId;
      AllStoredStart(links, tasks, id, doc, t);
      links := links[id := doc];
      tasks := tasks[id := t];
      nextId := nextId + 1;
    }

    /** Overwrites the record `id` with a storable document. */
    method Put(id: LinkId, doc: Link)
      requires Valid() && id in links && Stored(doc, id in tasks)
      requires id in tasks ==> Tracks(doc, tasks[id])
      modifies this
      ensures Valid() && links == old(links)[id := doc] && tasks == old(tasks) && nextId == old(nextId)
    {
      AllStoredPut(links, tasks, id, doc);
      links := links[id := doc];
    }

    /** Writes the settled record `id` and ends its task. */
    method Settle(id: LinkId, doc: Link)
      requires Valid() && id in links && Stored(doc, false)
      modifies this
      ensures Valid() && links == old(links)[id := doc] && tasks == old(tasks) - {id} && nextId == old(nextId)
    {
      AllStoredSettle(links, tasks, id, doc);
      links := links[id := doc];
      tasks := tasks - {id};
    }

    /** Moves the enrichment task of `id` on to a later stage. */
    method Hold(id: LinkId, t: Task)
      requires Valid() && id in tasks
      requires id in links ==> Tracks(links[id], t)
      modifies this
      ensures Valid() && links == old(links) && tasks == old(tasks)[id := t] && nextId == old(nextId)
    {
      AllStoredHold(links, tasks, id, t);
      tasks := tasks[id := t];
    }

    /** Ends the enrichment task of `id` without touching its record. */
    method Drop(id: LinkId)
      requires Valid()
      modifies this
      ensures Valid() && links == old(links) && tasks == old(tasks) - {id} && nextId == old(nextId)
    {
      AllStoredForget(links, tasks, id);
      tasks := tasks - {id};
    }

    /** The `.then` callback of the enrichment of `id`, run once the fetch has
        produced `fetched`. A save that throws leaves the collection as it was
        and hands its task on to the `.catch` callback. */
    method SettleSuccess(id: LinkId, fetched: Fetch, now: int) returns (w: Written)
      requires Valid() && id in tasks && tasks[id].stage == Fetching
      modifies this
      ensures Valid() && nextId == old(nextId)
      ensures var t := old(tasks[id]);
        var m := Enrichment(fetched, t.url);
        match SuccessWrite(old(links), id, t, m, now)
        case Ok(doc) => w == Written && links == old(links)[id := doc] && tasks == old(tasks) - {id}
        case Err(e) =>
          w == NotWritten(e) && links == old(links) && tasks == old(tasks)[id := Task(t.url, t.base, SaveRejected(m))]
      ensures w == Written ==> id in links && !links[id].isProcessing && links[id].domain == old(tasks[id]).url.hostname
    {
      var t := tasks[id];
      var m := Enrichment(fetched, t.url);
      match SuccessWrite(links, id, t, m, now)
      case Ok(doc) =>
        SuccessWriteStored(links, id, t, m, now);
        Settle(id, doc);
        w := Written;
      case Err(e) =>
        Hold(id, Task(t.url, t.base, SaveRejected(m)));
        w := NotWritten(e);
    }

    /** The `.catch` callback of the enrichment of `id`, which follows only a
        `.then` save that threw (`processLink` never rejects for a URL that
        parsed), with the message of that rejection. This ends its task: if
        this save throws as well, the rejection goes unhandled and the record
        stays as it is. */
    method SettleFailure(id: LinkId, message: string, now: int) returns (w: Written)
      requires Valid() && id in tasks && tasks[id].stage.SaveRejected?
      modifies this
      ensures Valid() && nextId == old(nextId) && tasks == old(tasks) - {id}
      ensures match FailureWrite(old(links), id, old(tasks[id]), message, now)
        case Ok(doc) => w == Written && links == old(links)[id := doc]
        case Err(e) => w == NotWritten(e) && links == old(links)
      ensures w == Written ==> id in links && !links[id].isProcessing && links[id].domain == old(tasks[id]).url.hostname
    {
      var t := tasks[id];
      Drop(id);
      match FailureWrite(links, id, t, message, now)
      case Ok(doc) =>
        FailureWriteStored(links, id, t, message, now);
        Put(id, doc);
        w := Written;
      case Err(e) =>
        w := NotWritten(e);
    }

    /** PUT /api/links/:id. */
    method Update(user: UserId, id: LinkId, body: UpdateBody, now: int) returns (r: Response<Link>)
      requires Valid()
      modifies this
      ensures Valid() && tasks == old(tasks) && nextId == old(nextId)
      ensures match Owned(old(links), LinkOwner, user, id, LinkNotFound)
        case Err(e) => r == Failure(e.0, e.1) && links == old(links)
        case Ok(l) =>
          match LinkModel.Save(Edited(l, body), now)
          case Ok(doc) => r == Success(200, doc) && links == old(links)[id := doc]
          case Err(_) => r == Failure(500, ServerErrorMessage) && links == old(links)
    {
      match Owned(links, LinkOwner, user, id, LinkNotFound)
      case Err(e) =>
        r := Failure(e.0, e.1);
      case Ok(l) =>
        match LinkModel.Save(Edited(l, body), now)
        case Ok(doc) =>
          EditStored(l, body, now, id in tasks);
          if id in tasks {
            EditTracks(l, body, now, tasks[id]);
          }
          Put(id, doc);
          r := Success(200, doc);
        case Err(_) =>
          r := Failure(500, ServerErrorMessage);
    }

    /** DELETE /api/links/:id. A task still out for the link stays out; its
        save will find no document. */
    method Delete(user: UserId, id: LinkId) returns (r: Response<string>)
      requires Valid()
      modifies this
      ensures Valid() && tasks == old(tasks) && nextId == old(nextId)
      ensures match Owned(old(links), LinkOwner, user, id, LinkNotFound)
        case Err(e) => r == Failure(e.0, e.1) && links == old(links)
        case Ok(_) => r == Success(200, "Link deleted") && links == old(links) - {id}
    {
      match Owned(links, LinkOwner, user, id, LinkNotFound)
      case Err(e) =>
        r := Failure(e.0, e.1);
      case Ok(_) =>
        links := links - {id};
        r := Success(200, "Link deleted");
    }

    /** The bulk `$unset` DELETE /api/groups/:id issues before removing a group. */
    method UnsetGroup(g: GroupId)
      requires Valid()
      modifies this
      ensures Valid() && links == ClearGroup(old(links), g) && tasks == old(tasks) && nextId == old(nextId)
    {
      AllStoredClear(links, tasks, g);
      links := ClearGroup(links, g);
    }
  }

  /** For a URL that parses, a fetch that fails (timeout, network error, bad
      status) still settles down the success branch: the flag is lowered,
      `processingError` keeps its '', and the hostname becomes domain,
      ogTitle and (unless it is the title already) title. */
  lemma FetchFailureSettlesAsSuccess(links: map<LinkId, Link>, id: LinkId, t: Task, now: int)
    requires id in links && Stored(links[id], true) && Tracks(links[id], t) && Trim(t.url.hostname) != ""
    ensures var r := SuccessWrite(links, id, t, Enrichment(FetchFailed, t.url), now);
      && r.Ok? && !r.value.isProcessing && r.value.processingError == ""
      && r.value.title == (if Trim(t.url.hostname) != t.base.title then Trim(t.url.hostname) else links[id].title)
      && r.value.ogTitle == t.url.hostname && r.value.domain == t.url.hostname
      && r.value.favicon == FaviconOf(t.url)
  {
    var m := Enrichment(FetchFailed, t.url);
    assert m.title == t.url.hostname && m.ogTitle == t.url.hostname;
    assert FaviconOf(t.url) != "" by {
      assert FaviconOf(t.url)[|t.url.protocol|] == '/';
    }
  }

  /** The `.catch` callback runs only when the `.then` save threw: for a
      stored link that is exactly when the chosen title (the scraped title,
      or the hostname when that is empty) trims to ''. */
  lemma SuccessRejectsOnlyBlankTitle(links: map<LinkId, Link>, id: LinkId, t: Task, f: Fetch, now: int)
    requires id in links && Tracks(links[id], t)
    ensures SuccessWrite(links, id, t, Enrichment(f, t.url), now).Err? <==>
      Trim(Either(Enrichment(f, t.url).title, t.url.hostname)) == ""
    ensures SuccessWrite(links, id, t, Enrichment(f, t.url), now).Err? ==>
      SuccessWrite(links, id, t, Enrichment(f, t.url), now).error == ValidationFailed({"title"})
  {
  }

  /** A description a PUT wrote before settlement survives a page without
      one: the scraped '' equals the placeholder's '', so the path is not
      modified and the settlement save leaves it alone. */
  lemma EditedDescriptionSurvives(links: map<LinkId, Link>, id: LinkId, t: Task, m: Metadata, now: int)
    requires id in links && Tracks(links[id], t) && m.description == ""
    requires SuccessWrite(links, id, t, m, now).Ok?
    ensures SuccessWrite(links, id, t, m, now).value.description == links[id].description
  {
  }

  /** Without a write in between, the `.then` save stores the closure's
      document as it is in memory. */
  lemma QuietSettlementStoresDocument(links: map<LinkId, Link>, id: LinkId, t: Task, m: Metadata, now: int)
    requires id in links && links[id] == t.base
    requires SuccessWrite(links, id, t, m, now).Ok?
    ensures SuccessWrite(links, id, t, m, now).value == WithMetadata(t.base, m).(updatedAt := now)
  {
  }

  /** A URL that parses but has no hostname (`mailto:x`, say) cannot be
      fetched, and then neither settlement save passes validation: the `.then`
      title falls back to the empty domain and the `.catch` title to the empty
      hostname, so the record keeps `isProcessing` for good. */
  lemma HostlessUrlNeverSettles(links: map<LinkId, Link>, id: LinkId, t: Task, message: string, now: int, later: int)
    requires t.url.hostname == "" && t.base.url != ""
    ensures var m := Enrichment(FetchFailed, t.url);
      && SuccessWrite(links, id, t, m, now) == Err(ValidationFailed({"title"}))
      && FailureWrite(links, id, Task(t.url, t.base, SaveRejected(m)), message, later) == Err(ValidationFailed({"title"}))
  {
    var m := Enrichment(FetchFailed, t.url);
    assert m.title == "" && m.domain == "";
    TrimEmpty();
  }

  /** A page whose og:title is white space only is a truthy title that trims
      to '': the `.then` save fails validation, and its message is what the
      `.catch` callback records as `processingError`. */
  lemma BlankOgTitleRecordsError(links: map<LinkId, Link>, id: LinkId, t: Task, p: Page, message: string, now: int)
    requires id in links && Stored(links[id], true) && Tracks(links[id], t)
    requires p.ogTitle == Some(" ") && Trim(t.url.hostname) != "" && message != ""
    ensures var m := Enrichment(Fetched(p), t.url);
      && SuccessWrite(links, id, t, m, now) == Err(ValidationFailed({"title"}))
      && var r := FailureWrite(links, id, Task(t.url, t.base, SaveRejected(m)), message, now);
         r.Ok? && r.value.processingError == message && !r.value.isProcessing
  {
    var m := Enrichment(Fetched(p), t.url);
    assert m.title == " ";
    TrimEmptyIffBlank(" ");
  }
}
