/** The graph data of client/src/components/KnowledgeGraph.jsx: one node per
    link, and an edge between every two links of the same group, built by
    the component's nested loop. The d3 layout, the random start positions
    and the drawing are not part of this model. */
module KnowledgeGraph {
  import opened JsValues

  /** A populated `group` reference as the client receives it. */
  datatype GroupRef = GroupRef(id: nat, name: string)

  /** A link as the client receives it; `group` is `None` for null. */
  datatype ClientLink = ClientLink(id: nat, title: string, url: string, domain: string, group: Option<GroupRef>)

  datatype Node = Node(id: nat, title: string, url: string, domain: string, group: Option<GroupRef>)

  datatype Edge = Edge(source: nat, target: nat, strength: nat)

  /** `links.map(...)`: the node of each link, in order. */
  function Nodes(links: seq<ClientLink>): (ns: seq<Node>)
    ensures |ns| == |links|
    ensures forall k :: 0 <= k < |links| ==>
      && ns[k].id == links[k].id && ns[k].title == links[k].title && ns[k].url == links[k].url
      && ns[k].domain == links[k].domain && ns[k].group == links[k].group
  {
    if links == [] then []
    else
      var l := links[0];
      [Node(l.id, l.title, l.url, l.domain, l.group)] + Nodes(links[1..])
  }

  /** The edge test: both nodes carry a group, and the groups' ids agree. */
  predicate SameGroup(a: Node, b: Node) {
    a.group.Some? && b.group.Some? && a.group.value.id == b.group.value.id
  }

  /** Node `n` belongs to the group with id `g`. */
  predicate InGroup(n: Node, g: nat) {
    n.group.Some? && n.group.value.id == g
  }

  /** The index pairs `(i, j')` with `i < j' < j` the inner loop emits for row `i`. */
  function Row(ns: seq<Node>, i: nat, j: nat): (r: seq<(nat, nat)>)
    requires i < |ns| && j <= |ns|
    ensures forall k :: 0 <= k < |r| ==> r[k].0 == i && i < r[k].1 < j
    decreases j
  {
    if j <= i + 1 then []
    else Row(ns, i, j - 1) + (if SameGroup(ns[i], ns[j - 1]) then [(i, j - 1)] else [])
  }

  /** Pairs are ordered lexicographically: by row, then by column. */
  predicate Before(p: (nat, nat), q: (nat, nat)) {
    p.0 < q.0 || (p.0 == q.0 && p.1 < q.1)
  }

  /** The pairs the outer loop has emitted once rows `0 .. i-1` are done. */
  function Rows(ns: seq<Node>, i: nat): (r: seq<(nat, nat)>)
    requires i <= |ns|
    ensures forall k :: 0 <= k < |r| ==> r[k].0 < i && r[k].0 < r[k].1 < |ns|
  {
    if i == 0 then []
    else Rows(ns, i - 1) + Row(ns, i - 1, |ns|)
  }

  /** Row `i` holds the same-group pairs `(i, b)`, `b < j`, and only those,
      by increasing `b`. */
  lemma {:induction false} RowExactly(ns: seq<Node>, i: nat, j: nat)
    requires i < |ns| && j <= |ns|
    ensures forall k :: 0 <= k < |Row(ns, i, j)| ==> SameGroup(ns[i], ns[Row(ns, i, j)[k].1])
    ensures forall b :: i < b < j && SameGroup(ns[i], ns[b]) ==> (i, b) in Row(ns, i, j)
    ensures forall a, b :: 0 <= a < b < |Row(ns, i, j)| ==> Row(ns, i, j)[a].1 < Row(ns, i, j)[b].1
    decreases j
  {
    if j > i + 1 {
      RowExactly(ns, i, j - 1);
    }
  }

  /** The finished rows hold only same-group pairs, in lexicographic order. */
  lemma {:induction false} RowsOrdered(ns: seq<Node>, i: nat)
    requires i <= |ns|
    ensures forall k :: 0 <= k < |Rows(ns, i)| ==> SameGroup(ns[Rows(ns, i)[k].0], ns[Rows(ns, i)[k].1])
    ensures forall a, b :: 0 <= a < b < |Rows(ns, i)| ==> Before(Rows(ns, i)[a], Rows(ns, i)[b])
  {
    if i > 0 {
      RowsOrdered(ns, i - 1);
      RowExactly(ns, i - 1, |ns|);
      ConcatOrdered(ns, Rows(ns, i - 1), Row(ns, i - 1, |ns|), i - 1);
    }
  }

  /** Rows before row `i`, then row `i`: still same-group pairs, still in order. */
  lemma ConcatOrdered(ns: seq<Node>, p: seq<(nat, nat)>, q: seq<(nat, nat)>, i: nat)
    requires i < |ns|
    requires forall k :: 0 <= k < |p| ==> p[k].0 < i && p[k].1 < |ns| && SameGroup(ns[p[k].0], ns[p[k].1])
    requires forall k :: 0 <= k < |q| ==> q[k].0 == i && q[k].1 < |ns| && SameGroup(ns[q[k].0], ns[q[k].1])
    requires forall a, b :: 0 <= a < b < |p| ==> Before(p[a], p[b])
    requires forall a, b :: 0 <= a < b < |q| ==> q[a].1 < q[b].1
    ensures forall k :: 0 <= k < |p + q| ==>
      (p + q)[k].0 < |ns| && (p + q)[k].1 < |ns| && SameGroup(ns[(p + q)[k].0], ns[(p + q)[k].1])
    ensures forall a, b :: 0 <= a < b < |p + q| ==> Before((p + q)[a], (p + q)[b])
  {
    var r := p + q;
    forall a, b | 0 <= a < b < |r| ensures Before(r[a], r[b]) {
      if b < |p| {
        assert r[a] == p[a] && r[b] == p[b];
      } else if a < |p| {
        assert r[a] == p[a] && r[b] == q[b - |p|];
      } else {
        assert r[a] == q[a - |p|] && r[b] == q[b - |p|];
      }
    }
    forall k | 0 <= k < |r| ensures r[k].0 < |ns| && r[k].1 < |ns| && SameGroup(ns[r[k].0], ns[r[k].1]) {
      if k < |p| {
        assert r[k] == p[k];
      } else {
        assert r[k] == q[k - |p|];
      }
    }
  }

  /** Every same-group pair of the finished rows is there. */
  lemma RowsComplete(ns: seq<Node>, i: nat, a: nat, b: nat)
    requires i <= |ns| && a < i && a < b < |ns| && SameGroup(ns[a], ns[b])
    ensures (a, b) in Rows(ns, i)
    decreases i
  {
    if a < i - 1 {
      RowsComplete(ns, i - 1, a, b);
    } else {
      RowExactly(ns, a, |ns|);
    }
  }

  /** All same-group pairs, in the order the loops emit them. */
  function Pairs(ns: seq<Node>): seq<(nat, nat)> {
    Rows(ns, |ns|)
  }

  /** The edge the loop pushes for a pair of node indices. */
  function EdgeOf(ns: seq<Node>, p: (nat, nat)): (e: Edge)
    requires p.0 < |ns| && p.1 < |ns|
    ensures e.source == ns[p.0].id && e.target == ns[p.1].id && e.strength == 2
  {
    Edge(ns[p.0].id, ns[p.1].id, 2)
  }

  /** The edges the inner loop pushes for row `i` before reaching `j`. */
  function RowEdges(ns: seq<Node>, i: nat, j: nat): seq<Edge>
    requires i < |ns| && j <= |ns|
    decreases j
  {
    if j <= i + 1 then []
    else RowEdges(ns, i, j - 1) + (if SameGroup(ns[i], ns[j - 1]) then [Edge(ns[i].id, ns[j - 1].id, 2)] else [])
  }

  /** The edges pushed once rows `0 .. i-1` are done. */
  function RowsEdges(ns: seq<Node>, i: nat): seq<Edge>
    requires i <= |ns|
  {
    if i == 0 then [] else RowsEdges(ns, i - 1) + RowEdges(ns, i - 1, |ns|)
  }

  /** `es` is the edge of each pair of `ps`, position by position. */
  predicate Matches(ns: seq<Node>, es: seq<Edge>, ps: seq<(nat, nat)>) {
    && |es| == |ps|
    && forall k :: 0 <= k < |ps| ==> ps[k].0 < |ns| && ps[k].1 < |ns| && es[k] == EdgeOf(ns, ps[k])
  }

  lemma MatchesAppend(ns: seq<Node>, es: seq<Edge>, ps: seq<(nat, nat)>, fs: seq<Edge>, qs: seq<(nat, nat)>)
    requires Matches(ns, es, ps) && Matches(ns, fs, qs)
    ensures Matches(ns, es + fs, ps + qs)
  {
    forall k | 0 <= k < |ps + qs|
      ensures (ps + qs)[k].0 < |ns| && (ps + qs)[k].1 < |ns| && (es + fs)[k] == EdgeOf(ns, (ps + qs)[k])
    {
      if k >= |ps| {
        assert (ps + qs)[k] == qs[k - |ps|] && (es + fs)[k] == fs[k - |ps|];
      }
    }
  }

  lemma {:induction false} RowMatches(ns: seq<Node>, i: nat, j: nat)
    requires i < |ns| && j <= |ns|
    ensures Matches(ns, RowEdges(ns, i, j), Row(ns, i, j))
    decreases j
  {
    if j > i + 1 {
      RowMatches(ns, i, j - 1);
      if SameGroup(ns[i], ns[j - 1]) {
        MatchesAppend(ns, RowEdges(ns, i, j - 1), Row(ns, i, j - 1), [Edge(ns[i].id, ns[j - 1].id, 2)], [(i, j - 1)]);
      } else {
        assert RowEdges(ns, i, j) == RowEdges(ns, i, j - 1) && Row(ns, i, j) == Row(ns, i, j - 1);
      }
    }
  }

  lemma {:induction false} RowsMatches(ns: seq<Node>, i: nat)
    requires i <= |ns|
    ensures Matches(ns, RowsEdges(ns, i), Rows(ns, i))
  {
    if i > 0 {
      RowsMatches(ns, i - 1);
      RowMatches(ns, i - 1, |ns|);
      MatchesAppend(ns, RowsEdges(ns, i - 1), Rows(ns, i - 1), RowEdges(ns, i - 1, |ns|), Row(ns, i - 1, |ns|));
    }
  }

  /** The nested loop of the component: for every `i < j` whose nodes share
      a group, push the edge from node `i` to node `j` of strength 2. The
      result is the edge of each same-group pair, in the pairs' order. */
  method BuildEdges(ns: seq<Node>) returns (edges: seq<Edge>)
    ensures |edges| == |Pairs(ns)|
    ensures forall k :: 0 <= k < |edges| ==> Pairs(ns)[k].0 < Pairs(ns)[k].1 < |ns|
    ensures forall k :: 0 <= k < |edges| ==> edges[k] == EdgeOf(ns, Pairs(ns)[k])
  {
    edges := [];
    var i := 0;
    while i < |ns|
      invariant 0 <= i <= |ns|
      invariant edges == RowsEdges(ns, i)
    {
      var j := i + 1;
      while j < |ns|
        invariant i + 1 <= j <= |ns|
        invariant edges == RowsEdges(ns, i) + RowEdges(ns, i, j)
      {
        if ns[i].group.Some? && ns[j].group.Some? && ns[i].group.value.id == ns[j].group.value.id {
          edges := edges + [Edge(ns[i].id, ns[j].id, 2)];
        }
        j := j + 1;
      }
      i := i + 1;
    }
    RowsMatches(ns, |ns|);
  }

  /** The edge set: a pair of indices is there exactly when it is ordered and
      its nodes share a group. */
  lemma PairsExactly(ns: seq<Node>, a: nat, b: nat)
    ensures (a, b) in Pairs(ns) <==> a < b < |ns| && SameGroup(ns[a], ns[b])
  {
    if a < b < |ns| && SameGroup(ns[a], ns[b]) {
      RowsComplete(ns, |ns|, a, b);
    }
    RowsOrdered(ns, |ns|);
  }

  /** No self-edges, no pair twice, and the lexicographic `(i, j)` order. */
  lemma PairsOrdered(ns: seq<Node>)
    ensures forall k :: 0 <= k < |Pairs(ns)| ==> Pairs(ns)[k].0 < Pairs(ns)[k].1
    ensures forall a, b :: 0 <= a < b < |Pairs(ns)| ==> Before(Pairs(ns)[a], Pairs(ns)[b]) && Pairs(ns)[a] != Pairs(ns)[b]
  {
    RowsOrdered(ns, |ns|);
  }

  /** A node without a group has no incident edge. */
  lemma UngroupedIsolated(ns: seq<Node>, n: nat)
    requires n < |ns| && ns[n].group.None?
    ensures forall k :: 0 <= k < |Pairs(ns)| ==> Pairs(ns)[k].0 != n && Pairs(ns)[k].1 != n
  {
    RowsOrdered(ns, |ns|);
  }

  // The number of edges, group by group.

  /** `k` choose 2: the number of pairs among `k` nodes. */
  function Choose2(k: nat): nat {
    if k == 0 then 0 else Choose2(k - 1) + (k - 1)
  }

  lemma {:induction false} Choose2Closed(k: nat)
    ensures 2 * Choose2(k) == k * (k - 1)
  {
    if k > 0 {
      Choose2Closed(k - 1);
    }
  }

  /** How many of the first `i` nodes belong to the group with id `g`. */
  function CountTo(ns: seq<Node>, g: nat, i: nat): nat
    requires i <= |ns|
  {
    if i == 0 then 0 else CountTo(ns, g, i - 1) + (if InGroup(ns[i - 1], g) then 1 else 0)
  }

  function Count(ns: seq<Node>, g: nat): nat {
    CountTo(ns, g, |ns|)
  }

  /** The group ids that occur, each once, in order of first occurrence. */
  function GroupIds(ns: seq<Node>): (r: seq<nat>)
    ensures forall a, b :: 0 <= a < b < |r| ==> r[a] != r[b]
  {
    if ns == [] then []
    else
      var init := GroupIds(ns[..|ns| - 1]);
      var last := ns[|ns| - 1];
      if last.group.Some? && last.group.value.id !in init then init + [last.group.value.id] else init
  }

  /** The sum of `Choose2(Count(ns, g))` over the ids `gs`. */
  function SumOver(ns: seq<Node>, gs: seq<nat>): nat {
    if gs == [] then 0 else SumOver(ns, gs[..|gs| - 1]) + Choose2(Count(ns, gs[|gs| - 1]))
  }

  /** Appending a node changes neither the earlier rows' tests nor the counts
      over the earlier nodes. */
  lemma {:induction false} RowExtend(ns: seq<Node>, x: Node, i: nat, j: nat)
    requires i < |ns| && j <= |ns|
    ensures Row(ns + [x], i, j) == Row(ns, i, j)
    decreases j
  {
    if j > i + 1 {
      RowExtend(ns, x, i, j - 1);
      assert (ns + [x])[j - 1] == ns[j - 1] && (ns + [x])[i] == ns[i];
    }
  }

  lemma {:induction false} CountToExtend(ns: seq<Node>, x: Node, g: nat, i: nat)
    requires i <= |ns|
    ensures CountTo(ns + [x], g, i) == CountTo(ns, g, i)
  {
    if i > 0 {
      CountToExtend(ns, x, g, i - 1);
      assert (ns + [x])[i - 1] == ns[i - 1];
    }
  }

  lemma CountExtend(ns: seq<Node>, x: Node, g: nat)
    ensures Count(ns + [x], g) == Count(ns, g) + (if InGroup(x, g) then 1 else 0)
  {
    CountToExtend(ns, x, g, |ns|);
    assert (ns + [x])[|ns|] == x;
  }

  /** The nodes among the first `i` that a new node `x` would link to. */
  function Hits(ns: seq<Node>, x: Node, i: nat): nat
    requires i <= |ns|
  {
    if x.group.None? then 0 else CountTo(ns, x.group.value.id, i)
  }

  /** Appending `x` lengthens row `i < |ns|` by one pair exactly when `x`
      shares node `i`'s group. */
  lemma {:induction false} RowsExtend(ns: seq<Node>, x: Node, i: nat)
    requires i <= |ns|
    ensures |Rows(ns + [x], i)| == |Rows(ns, i)| + Hits(ns, x, i)
  {
    if i > 0 {
      RowsExtend(ns, x, i - 1);
      RowLast(ns, x, i - 1);
      assert |Rows(ns + [x], i)| == |Rows(ns + [x], i - 1)| + |Row(ns + [x], i - 1, |ns| + 1)|;
    }
  }

  /** The row of node `i` after appending `x`: the old row, then `(i, |ns|)`
      if `x` shares node `i`'s group. */
  lemma RowLast(ns: seq<Node>, x: Node, i: nat)
    requires i < |ns|
    ensures |Row(ns + [x], i, |ns| + 1)| == |Row(ns, i, |ns|)| + (if x.group.Some? && InGroup(ns[i], x.group.value.id) then 1 else 0)
  {
    var m := ns + [x];
    assert m[i] == ns[i] && m[|ns|] == x;
    RowExtend(ns, x, i, |ns|);
    assert Row(m, i, |ns| + 1) == Row(m, i, |ns|) + (if SameGroup(m[i], m[|ns|]) then [(i, |ns|)] else []);
  }

  lemma PairsExtend(ns: seq<Node>, x: Node)
    ensures |Pairs(ns + [x])| == |Pairs(ns)| + Hits(ns, x, |ns|)
  {
    RowsExtend(ns, x, |ns|);
    var m := ns + [x];
    assert Row(m, |ns|, |m|) == [];
  }

  /** An id occurs in `GroupIds` exactly when some node carries it. */
  lemma {:induction false} GroupIdsOccur(ns: seq<Node>, g: nat)
    ensures g in GroupIds(ns) <==> Count(ns, g) > 0
  {
    if ns != [] {
      var init := ns[..|ns| - 1];
      var x := ns[|ns| - 1];
      assert ns == init + [x];
      GroupIdsOccur(init, g);
      CountExtend(init, x, g);
    }
  }

  /** Appending `x` adds `Count(ns, g)` to the term of its own group `g` only. */
  lemma {:induction false} SumOverExtend(ns: seq<Node>, x: Node, gs: seq<nat>)
    requires forall a, b :: 0 <= a < b < |gs| ==> gs[a] != gs[b]
    ensures SumOver(ns + [x], gs) ==
      SumOver(ns, gs) + (if x.group.Some? && x.group.value.id in gs then Count(ns, x.group.value.id) else 0)
  {
    if gs != [] {
      var init := gs[..|gs| - 1];
      var g := gs[|gs| - 1];
      assert gs == init + [g];
      SumOverExtend(ns, x, init);
      CountExtend(ns, x, g);
      assert x.group.Some? && x.group.value.id in gs <==>
        (x.group.Some? && x.group.value.id in init) || InGroup(x, g);
      if InGroup(x, g) {
        assert g !in init;
      }
    }
  }

  /** The number of edges is the sum over the groups present of
      `k * (k - 1) / 2`, `k` being the group's number of nodes. */
  lemma {:induction false} PairsCount(ns: seq<Node>)
    ensures |Pairs(ns)| == SumOver(ns, GroupIds(ns))
  {
    if ns != [] {
      var init := ns[..|ns| - 1];
      var x := ns[|ns| - 1];
      assert ns == init + [x];
      PairsCount(init);
      PairsExtend(init, x);
      var ids := GroupIds(init);
      SumOverExtend(init, x, ids);
      if x.group.Some? {
        var g := x.group.value.id;
        GroupIdsOccur(init, g);
        if g !in ids {
          assert GroupIds(ns) == ids + [g];
          CountExtend(init, x, g);
          assert SumOver(ns, ids + [g]) == SumOver(ns, ids) + Choose2(Count(ns, g));
        }
      }
    }
  }

  /** The same count with `Choose2` written out. */
  lemma EdgeCount(ns: seq<Node>, gs: seq<nat>)
    requires gs == GroupIds(ns)
    ensures forall k :: 0 <= k < |gs| ==> 2 * Choose2(Count(ns, gs[k])) == Count(ns, gs[k]) * (Count(ns, gs[k]) - 1)
    ensures |Pairs(ns)| == SumOver(ns, gs)
  {
    PairsCount(ns);
    forall k | 0 <= k < |gs|
      ensures 2 * Choose2(Count(ns, gs[k])) == Count(ns, gs[k]) * (Count(ns, gs[k]) - 1)
    {
      Choose2Closed(Count(ns, gs[k]));
    }
  }
}
