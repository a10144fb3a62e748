/** The `Link` document of server/src/models/Link.js: the persisted shape of a
    saved bookmark, the defaults Mongoose fills in, the `required` validators
    and the pre-save hook that refreshes `updatedAt`. */
module LinkModel {
  import opened JsValues

  /** Document ids and the references between documents (MongoDB ObjectIds). */
  type LinkId = nat
  type UserId = nat
  type GroupId = nat

  datatype Link = Link(
    url: string,
    title: string,
    description: string,
    aiSummary: string,
    aiTags: seq<string>,
    embedding: seq<real>,
    ogImage: string,
    ogTitle: string,
    ogDescription: string,
    customName: string,
    user: UserId,
    group: Option<GroupId>,
    favicon: string,
    domain: string,
    isProcessing: bool,
    processingError: string,
    createdAt: int,
    updatedAt: int)

  /** No enrichment output and no processing error recorded yet. */
  predicate Unenriched(l: Link) {
    && l.description == "" && l.ogImage == "" && l.ogTitle == "" && l.ogDescription == ""
    && l.favicon == "" && l.domain == "" && l.processingError == ""
  }

  /** The document Mongoose builds from `url` and `title` alone: both pass
      through their `trim: true` setters, every other path takes its schema
      default, and both timestamps default to the clock value `now`. */
  function NewLink(url: string, title: string, user: UserId, now: int): (l: Link)
    ensures l.url == Trim(url) && l.title == Trim(title) && l.user == user
    ensures Unenriched(l) && l.aiSummary == "" && l.customName == ""
    ensures l.aiTags == [] && l.embedding == [] && l.group == None && !l.isProcessing
    ensures l.createdAt == now && l.updatedAt == now
  {
    Link(Trim(url), Trim(title), "", "", [], [], "", "", "", "", user, None,
         "", "", false, "", now, now)
  }

  /** Why a save was refused. */
  datatype SaveError =
    | ValidationFailed(paths: set<string>)  // a `required` String path is empty
    | DocumentNotFound                      // the document was deleted meanwhile

  /** The `required` String paths that are empty (Mongoose's required check on
      a String fails for ''); `user` is always an id here, so never missing. */
  function MissingPaths(l: Link): set<string> {
    (if l.url == "" then {"url"} else {}) + (if l.title == "" then {"title"} else {})
  }

  /** `doc.save()` on a document that exists: validation, then the pre-save
      hook, which sets `updatedAt` to the current time. */
  function Save(l: Link, now: int): (r: Result<Link, SaveError>)
    ensures r.Ok? <==> l.url != "" && l.title != ""
    ensures r.Ok? ==> r.value.updatedAt == now && r.value.(updatedAt := l.updatedAt) == l
    ensures r.Err? ==> r.error == ValidationFailed(MissingPaths(l)) && r.error.paths != {}
  {
    if MissingPaths(l) != {} then Err(ValidationFailed(MissingPaths(l)))
    else Ok(l.(updatedAt := now))
  }

  /** The record an update of the modified paths leaves behind. A path is
      modified when its in-memory value in `current` differs from the value
      the document had when it was last created, loaded or saved (`saved`);
      those paths take the in-memory value and every other path keeps its
      value in `stored`, the record as the collection holds it now. */
  function WriteModified(stored: Link, saved: Link, current: Link): (r: Link)
    ensures saved == stored ==> r == current
    ensures current == saved ==> r == stored
  {
    Link(
      if current.url != saved.url then current.url else stored.url,
      if current.title != saved.title then current.title else stored.title,
      if current.description != saved.description then current.description else stored.description,
      if current.aiSummary != saved.aiSummary then current.aiSummary else stored.aiSummary,
      if current.aiTags != saved.aiTags then current.aiTags else stored.aiTags,
      if current.embedding != saved.embedding then current.embedding else stored.embedding,
      if current.ogImage != saved.ogImage then current.ogImage else stored.ogImage,
      if current.ogTitle != saved.ogTitle then current.ogTitle else stored.ogTitle,
      if current.ogDescription != saved.ogDescription then current.ogDescription else stored.ogDescription,
      if current.customName != saved.customName then current.customName else stored.customName,
      if current.user != saved.user then current.user else stored.user,
      if current.group != saved.group then current.group else stored.group,
      if current.favicon != saved.favicon then current.favicon else stored.favicon,
      if current.domain != saved.domain then current.domain else stored.domain,
      if current.isProcessing != saved.isProcessing then current.isProcessing else stored.isProcessing,
      if current.processingError != saved.processingError then current.processingError else stored.processingError,
      if current.createdAt != saved.createdAt then current.createdAt else stored.createdAt,
      if current.updatedAt != saved.updatedAt then current.updatedAt else stored.updatedAt)
  }

  /** A document whose url is kept and whose title is '' misses `title` only. */
  lemma MissingTitleOnly(l: Link)
    ensures l.url != "" && l.title == "" ==> MissingPaths(l) == {"title"}
  {
  }

  /** `doc.save()` of a document last saved as `saved` and since changed in
      memory to `current`, against the record the collection holds now
      (`None` once it was deleted). Validation and the pre-save hook run on
      the in-memory document; then only its modified paths are written, and
      the update fails when the record is gone. */
  function SaveOver(stored: Option<Link>, saved: Link, current: Link, now: int): (r: Result<Link, SaveError>)
    ensures r.Ok? <==> current.url != "" && current.title != "" && stored.Some?
    ensures (current.url == "" || current.title == "") ==> r == Err(ValidationFailed(MissingPaths(current)))
    ensures current.url != "" && current.title != "" && stored.None? ==> r == Err(DocumentNotFound)
    ensures r.Ok? ==> r.value == WriteModified(stored.value, saved, current.(updatedAt := now))
    ensures r.Ok? && stored == Some(saved) ==> r.value == current.(updatedAt := now)
  {
    match Save(current, now)
    case Err(e) => Err(e)
    case Ok(hooked) =>
      if stored.None? then Err(DocumentNotFound)
      else Ok(WriteModified(stored.value, saved, hooked))
  }

  /** Saving a document built at `now` stores it as it is, or refuses it. */
  lemma SaveFresh(l: Link, now: int)
    requires l.updatedAt == now
    ensures Save(l, now) == if l.url != "" && l.title != "" then Ok(l) else Err(ValidationFailed(MissingPaths(l)))
  {
  }
}
