/** The `Group` document of server/src/models/Group.js: a named collection
    owned by one user, its defaults, its `required` validator, the pre-save
    hook and the `linkCount` virtual. */
module GroupModel {
  import opened JsValues
  import opened LinkModel

  datatype Group = Group(
    name: string,
    description: string,
    color: string,
    icon: string,
    user: UserId,
    createdAt: int,
    updatedAt: int)

  /** Schema defaults for the display fields. */
  const DefaultColor := "#6366f1"
  const DefaultIcon := "\U{1F4C1}"

  /** The document Mongoose builds from a name alone: `name` through its
      `trim: true` setter, every other path at its default. */
  function NewGroup(name: string, user: UserId, now: int): (g: Group)
    ensures g.name == Trim(name) && g.user == user
    ensures g.description == "" && g.color == DefaultColor && g.icon == DefaultIcon
    ensures g.createdAt == now && g.updatedAt == now
  {
    Group(Trim(name), "", DefaultColor, DefaultIcon, user, now, now)
  }

  /** `group.save()`: the `required` check on `name`, then the pre-save hook
      that refreshes `updatedAt` and nothing else. */
  function Save(g: Group, now: int): (r: Result<Group, SaveError>)
    ensures r.Ok? <==> g.name != ""
    ensures r.Ok? ==> r.value.updatedAt == now && r.value.(updatedAt := g.updatedAt) == g
    ensures r.Err? ==> r.error == ValidationFailed({"name"})
  {
    if g.name == "" then Err(ValidationFailed({"name"})) else Ok(g.(updatedAt := now))
  }

  /** The links whose `group` reference is `id`. */
  function Members(links: map<LinkId, Link>, id: GroupId): (s: set<LinkId>)
    ensures forall k :: k in s <==> k in links && links[k].group == Some(id)
  {
    set k | k in links && links[k].group == Some(id)
  }

  /** The `linkCount` virtual: how many links reference the group. */
  function LinkCount(links: map<LinkId, Link>, id: GroupId): (n: nat)
    ensures n <= |links|
    ensures n == 0 <==> forall k :: k in links ==> links[k].group != Some(id)
  {
    assert Members(links, id) <= links.Keys;
    SubsetCard(Members(links, id), links.Keys);
    |Members(links, id)|
  }

  lemma SubsetCard<T>(a: set<T>, b: set<T>)
    requires a <= b
    ensures |a| <= |b|
  {
    if a != {} {
      var x :| x in a;
      SubsetCard(a - {x}, b - {x});
    }
  }
}
