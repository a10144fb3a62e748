/** The group routes of server/src/routes/groups.js over an in-memory Group
    collection, kept beside the link store so that a group's deletion can be
    stated in terms of the links that pointed to it. */
module GroupRoutes {
  import opened JsValues
  import opened Http
  import opened LinkModel
  import opened GroupModel
  import LinkRoutes

  /** `req.body` of POST and PUT /api/groups; `None` stands for undefined. */
  datatype GroupBody = GroupBody(
    name: Option<string>,
    description: Option<string>,
    color: Option<string>,
    icon: Option<string>)

  /** A group as stored: its name passed the `trim: true` setter and the
      `required` validator. */
  predicate Named(g: Group) {
    g.name != "" && Trim(g.name) == g.name
  }

  /** POST /api/groups up to the write: 400 without a truthy name, then
      `Group.create` with the `||` defaults, whose validation failure (a name
      of white space only) is the handler's 500. */
  function Admit(b: GroupBody, user: UserId, now: int): (r: Result<Group, (nat, string)>)
    ensures !Truthy(b.name) ==> r == Err((400, "Please provide a group name"))
    ensures Truthy(b.name) ==> (r.Ok? <==> !Blank(b.name.value))
    ensures r.Err? && Truthy(b.name) ==> r.error == (500, ServerErrorMessage)
    ensures r.Ok? ==>
      && Named(r.value) && r.value.name == Trim(b.name.value) && r.value.user == user
      && r.value.description == (if Truthy(b.description) then b.description.value else "")
      && r.value.color == (if Truthy(b.color) then b.color.value else DefaultColor)
      && r.value.icon == (if Truthy(b.icon) then b.icon.value else DefaultIcon)
      && r.value.createdAt == now && r.value.updatedAt == now
  {
    if !Truthy(b.name) then Err((400, "Please provide a group name"))
    else
      var g := NewGroup(b.name.value, user, now).(
        description := OrElse(b.description, ""),
        color := OrElse(b.color, DefaultColor),
        icon := OrElse(b.icon, DefaultIcon));
      TrimEmptyIffBlank(b.name.value);
      TrimIdempotent(b.name.value);
      match GroupModel.Save(g, now)
      case Ok(saved) => Ok(saved)
      case Err(_) => Err((500, ServerErrorMessage))
  }

  /** The assignments of PUT /api/groups/:id: `||` merges for name, color and
      icon, a replacement of the description whenever one is sent. The name
      goes through its setter again. */
  function Edited(g: Group, b: GroupBody): (r: Group)
    ensures r.name == Trim(if Truthy(b.name) then b.name.value else g.name)
    ensures Truthy(b.color) ==> r.color == b.color.value
    ensures !Truthy(b.color) ==> r.color == g.color
    ensures Truthy(b.icon) ==> r.icon == b.icon.value
    ensures !Truthy(b.icon) ==> r.icon == g.icon
    ensures b.description.Some? ==> r.description == b.description.value
    ensures b.description.None? ==> r.description == g.description
    ensures r.user == g.user && r.createdAt == g.createdAt && r.updatedAt == g.updatedAt
  {
    g.(name := Trim(OrElse(b.name, g.name)),
       description := if b.description.Some? then b.description.value else g.description,
       color := OrElse(b.color, g.color),
       icon := OrElse(b.icon, g.icon))
  }

  /** An update that sends nothing truthy keeps a stored group's name, color
      and icon: empty inputs never erase a value. */
  lemma EditKeepsOnEmpty(g: Group, b: GroupBody)
    requires Named(g) && !Truthy(b.name) && !Truthy(b.color) && !Truthy(b.icon) && b.description.None?
    ensures Edited(g, b) == g
  {
  }

  /** A stored group edited and saved is stored again, and the save refuses
      only a name of white space. */
  lemma EditNamed(g: Group, b: GroupBody, now: int)
    requires Named(g)
    ensures GroupModel.Save(Edited(g, b), now).Ok? <==> !(Truthy(b.name) && Blank(b.name.value))
    ensures GroupModel.Save(Edited(g, b), now).Ok? ==> Named(GroupModel.Save(Edited(g, b), now).value)
  {
    var n := if Truthy(b.name) then b.name.value else g.name;
    TrimEmptyIffBlank(n);
    TrimIdempotent(n);
    if !Truthy(b.name) {
      TrimEmptyIffBlank(g.name);
    }
  }

  /** The owner of a group, for the ownership check of PUT and DELETE. */
  function GroupOwner(g: Group): UserId {
    g.user
  }

  const GroupNotFound := "Group not found"

  /** The requester's links that reference the group:
      `Link.countDocuments({ group, user })` counts these. */
  function OwnedMembers(links: map<LinkId, Link>, id: GroupId, user: UserId): (s: set<LinkId>)
    ensures forall k :: k in s <==> k in links && links[k].group == Some(id) && links[k].user == user
  {
    set k | k in links && links[k].group == Some(id) && links[k].user == user
  }

  /** The count the list attaches never exceeds the `linkCount` virtual, which
      counts every user's links. */
  lemma OwnedCountAtMostLinkCount(links: map<LinkId, Link>, id: GroupId, user: UserId)
    ensures |OwnedMembers(links, id, user)| <= LinkCount(links, id)
  {
    assert OwnedMembers(links, id, user) <= Members(links, id);
    SubsetCard(OwnedMembers(links, id, user), Members(links, id));
  }

  /** After the `$unset`, the deleted group has no members left, and every
      other group keeps exactly its members. */
  lemma ClearGroupMembers(links: map<LinkId, Link>, g: GroupId, h: GroupId)
    ensures Members(LinkRoutes.ClearGroup(links, g), g) == {}
    ensures h != g ==> Members(LinkRoutes.ClearGroup(links, g), h) == Members(links, h)
  {
    var r := LinkRoutes.ClearGroup(links, g);
    if h != g {
      forall k | k in links
        ensures k in Members(r, h) <==> k in Members(links, h)
      {
        if links[k].group == Some(g) {
          assert r[k].group == None;
        } else {
          assert r[k] == links[k];
        }
      }
    }
  }

  /** Hence the link counts of the other groups survive a deletion. */
  lemma DeleteKeepsOtherCounts(links: map<LinkId, Link>, g: GroupId, h: GroupId)
    requires h != g
    ensures LinkCount(LinkRoutes.ClearGroup(links, g), h) == LinkCount(links, h)
    ensures LinkCount(LinkRoutes.ClearGroup(links, g), g) == 0
  {
    ClearGroupMembers(links, g, h);
  }

  class GroupStore {
    /** The Group collection. */
    var groups: map<GroupId, Group>
    /** The next id handed out; ids are never reused. */
    var nextId: GroupId
    /** The Link collection the routes count in and clear references from. */
    const linkStore: LinkRoutes.LinkStore

    ghost predicate Valid()
      reads this, linkStore
    {
      && (forall id :: id in groups ==> id < nextId)
      && (forall id :: id in groups ==> Named(groups[id]))
      && linkStore.Valid()
    }

    constructor (store: LinkRoutes.LinkStore)
      requires store.Valid()
      ensures Valid() && groups == map[] && nextId == 0 && linkStore == store
    {
      groups, nextId, linkStore := map[], 0, store;
    }

    /** GET /api/groups: the requester's groups, each with the number of the
        requester's links that reference it (the sort by `createdAt` is not
        part of this model). */
    function List(user: UserId): (r: map<GroupId, (Group, nat)>)
      reads this, linkStore
      ensures forall id :: id in r <==> id in groups && groups[id].user == user
      ensures forall id :: id in r ==> r[id].0 == groups[id]
      ensures forall id :: id in r ==>
        r[id].1 == |OwnedMembers(linkStore.links, id, user)|
    {
      map id | id in groups && groups[id].user == user ::
        (groups[id], |OwnedMembers(linkStore.links, id, user)|)
    }

    /** POST /api/groups. */
    method Create(user: UserId, body: GroupBody, now: int) returns (r: Response<(GroupId, Group)>)
      requires Valid()
      modifies this
      ensures Valid() && unchanged(linkStore)
      ensures match Admit(body, user, now)
        case Err(e) => r == Failure(e.0, e.1) && groups == old(groups) && nextId == old(nextId)
        case Ok(g) =>
          && r == Success(201, (old(nextId), g))
          && groups == old(groups)[old(nextId) := g] && nextId == old(nextId) + 1
    {
      match Admit(body, user, now)
      case Err(e) =>
        r := Failure(e.0, e.1);
      case Ok(g) =>
        var id := Insert(g);
        r := Success(201, (id, g));
    }

    /** Stores a new group under a fresh id. */
    method Insert(g: Group) returns (id: GroupId)
      requires Valid() && Named(g)
      modifies this
      ensures Valid() && unchanged(linkStore)
      ensures id == old(nextId) && groups == old(groups)[id := g] && nextId == old(nextId) + 1
    {
      id := nextId;
      groups := groups[id := g];
      nextId := nextId + 1;
    }

    /** Overwrites the group `id`. */
    method Put(id: GroupId, g: Group)
      requires Valid() && id in groups && Named(g)
      modifies this
      ensures Valid() && unchanged(linkStore) && groups == old(groups)[id := g] && nextId == old(nextId)
    {
      groups := groups[id := g];
    }

    /** PUT /api/groups/:id. */
    method Update(user: UserId, id: GroupId, body: GroupBody, now: int) returns (r: Response<Group>)
      requires Valid()
      modifies this
      ensures Valid() && unchanged(linkStore) && nextId == old(nextId)
      ensures match Owned(old(groups), GroupOwner, user, id, GroupNotFound)
        case Err(e) => r == Failure(e.0, e.1) && groups == old(groups)
        case Ok(g) =>
          match GroupModel.Save(Edited(g, body), now)
          case Ok(saved) => r == Success(200, saved) && groups == old(groups)[id := saved]
          case Err(_) => r == Failure(500, ServerErrorMessage) && groups == old(groups)
    {
      match Owned(groups, GroupOwner, user, id, GroupNotFound)
      case Err(e) =>
        r := Failure(e.0, e.1);
      case Ok(g) =>
        EditNamed(g, body, now);
        match GroupModel.Save(Edited(g, body), now)
        case Ok(saved) =>
          Put(id, saved);
          r := Success(200, saved);
        case Err(_) =>
          r := Failure(500, ServerErrorMessage);
    }

    /** DELETE /api/groups/:id: the reference is dropped from every link of
        the group, whoever owns the link, and then the group is removed. */
    method Delete(user: UserId, id: GroupId) returns (r: Response<string>)
      requires Valid()
      modifies this, linkStore
      ensures Valid() && nextId == old(nextId)
      ensures linkStore.tasks == old(linkStore.tasks) && linkStore.nextId == old(linkStore.nextId)
      ensures match Owned(old(groups), GroupOwner, user, id, GroupNotFound)
        case Err(e) =>
          r == Failure(e.0, e.1) && groups == old(groups) && linkStore.links == old(linkStore.links)
        case Ok(_) =>
          && r == Success(200, "Group deleted") && groups == old(groups) - {id}
          && linkStore.links == LinkRoutes.ClearGroup(old(linkStore.links), id)
    {
      match Owned(groups, GroupOwner, user, id, GroupNotFound)
      case Err(e) =>
        r := Failure(e.0, e.1);
      case Ok(_) =>
        linkStore.UnsetGroup(id);
        groups := groups - {id};
        r := Success(200, "Group deleted");
    }
  }
}
