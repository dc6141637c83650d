/** The iterators of the in-memory graph: they walk a list of records that was made when they were
    created, and copy a record only when it is asked for. */
module GraphIterators {
  import opened Uuids
  import opened LinkGraph
  import opened InMemoryGraph
  import opened Scan

  class LinkIterator {
    const links: seq<LinkRecord>
    var curr: nat

    ghost predicate Valid()
      reads this
    {
      curr <= |links|
    }

    constructor (links: seq<LinkRecord>)
      ensures Valid() && this.links == links && curr == 0
    {
      this.links := links;
      curr := 0;
    }

    method Next() returns (more: bool)
      requires Valid()
      modifies this
      ensures Valid() && (more <==> old(curr) < |links|)
      ensures curr == old(curr) + if more then 1 else 0
    {
      if curr >= |links| {
        return false;
      }
      curr := curr + 1;
      return true;
    }

    /** A copy of the current link, with the data that the graph has for it now. */
    method Link() returns (link: LinkRecord)
      requires Valid() && 0 < curr
      ensures fresh(link) && link.Value() == links[curr - 1].Value()
    {
      var stored := links[curr - 1];
      link := new LinkRecord(stored.id, stored.url, stored.retrievedAt);
    }
  }

  class EdgeIterator {
    const edges: seq<EdgeRecord>
    var curr: nat

    ghost predicate Valid()
      reads this
    {
      curr <= |edges|
    }

    constructor (edges: seq<EdgeRecord>)
      ensures Valid() && this.edges == edges && curr == 0
    {
      this.edges := edges;
      curr := 0;
    }

    method Next() returns (more: bool)
      requires Valid()
      modifies this
      ensures Valid() && (more <==> old(curr) < |edges|)
      ensures curr == old(curr) + if more then 1 else 0
    {
      if curr >= |edges| {
        return false;
      }
      curr := curr + 1;
      return true;
    }

    /** A copy of the current edge; an edge that was removed in the meantime has its last data. */
    method Edge() returns (edge: EdgeRecord)
      requires Valid() && 0 < curr
      ensures fresh(edge) && edge.Value() == edges[curr - 1].Value()
    {
      var stored := edges[curr - 1];
      edge := new EdgeRecord(stored.id, stored.src, stored.dst, stored.updatedAt);
    }
  }

  /** The list has the links of the range, each once, with the data that the graph has for them. */
  ghost predicate AreLinks(s: Snapshot, ids: set<Uuid>, found: seq<Link>) {
    && (forall k :: 0 <= k < |found| ==>
          found[k].id in ids && found[k].id in s.links && found[k] == s.links[found[k].id])
    && (forall k, l :: 0 <= k < l < |found| ==> found[k].id != found[l].id)
    && (forall i :: i in ids ==> exists k :: 0 <= k < |found| && found[k].id == i)
  }

  ghost predicate AreEdges(s: Snapshot, ids: set<Uuid>, found: seq<Edge>) {
    && (forall k :: 0 <= k < |found| ==>
          found[k].id in ids && found[k].id in s.edges && found[k] == s.edges[found[k].id])
    && (forall k, l :: 0 <= k < l < |found| ==> found[k].id != found[l].id)
    && (forall e :: e in ids ==> exists k :: 0 <= k < |found| && found[k].id == e)
  }

  /** Going through the iterator gives the links of the range, each once, as the graph has them. */
  method ReadLinks(g: Graph, fromID: Uuid, toID: Uuid, before: nat) returns (found: seq<Link>)
    requires g.Valid()
    ensures AreLinks(g.Snap(), LinksIn(g.Snap(), fromID, toID, before), found)
  {
    hide Graph.Valid, Graph.Snap, LinkRecord.Value, LinksIn, AreLinks;
    var list := g.Links(fromID, toID, before);
    StillValid(g);
    ghost var values := AllLinks(g, LinksIn(g.Snap(), fromID, toID, before), list);
    var it := new LinkIterator(list);
    found := [];
    var more := it.Next();
    while more
      invariant fresh(it) && it.Valid() && it.links == list
      invariant if more then it.curr == |found| + 1 else |found| == |list|
      invariant |found| <= |list| && found == values[..|found|]
      invariant forall k :: 0 <= k < |list| ==> list[k].Value() == values[k]
      decreases |list| - |found|
    {
      var link := it.Link();
      found := found + [link.Value()];
      more := it.Next();
    }
    assert found == values;
    StillValid(g);
  }

  lemma AllLinks(g: Graph, ids: set<Uuid>, list: seq<LinkRecord>) returns (values: seq<Link>)
    requires g.Valid()
    requires forall k :: 0 <= k < |list| ==>
               list[k].id in g.links && list[k] == g.links[list[k].id] && list[k].id in ids
    requires forall k, l :: 0 <= k < l < |list| ==> list[k].id != list[l].id
    requires forall i :: i in ids ==> i in g.links && g.links[i] in list
    ensures |values| == |list| && forall k :: 0 <= k < |list| ==> list[k].Value() == values[k]
    ensures AreLinks(g.Snap(), ids, values)
  {
    hide Consistent;
    values := seq(|list|, k requires 0 <= k < |list| reads list => list[k].Value());
    forall i | i in ids ensures exists k :: 0 <= k < |values| && values[k].id == i {
      var k :| 0 <= k < |list| && list[k] == g.links[i];
      assert values[k].id == i;
    }
  }

  /** The same for the edges of the links in the range. */
  method ReadEdges(g: Graph, fromID: Uuid, toID: Uuid, before: nat) returns (found: seq<Edge>)
    requires g.Valid()
    ensures AreEdges(g.Snap(), EdgesIn(g.Snap(), fromID, toID, before), found)
  {
    hide Graph.Valid, Graph.Snap, EdgeRecord.Value, EdgesIn, AreEdges;
    var list := g.Edges(fromID, toID, before);
    StillValid(g);
    ghost var values := AllEdges(g, EdgesIn(g.Snap(), fromID, toID, before), list);
    var it := new EdgeIterator(list);
    found := [];
    var more := it.Next();
    while more
      invariant fresh(it) && it.Valid() && it.edges == list
      invariant if more then it.curr == |found| + 1 else |found| == |list|
      invariant |found| <= |list| && found == values[..|found|]
      invariant forall k :: 0 <= k < |list| ==> list[k].Value() == values[k]
      decreases |list| - |found|
    {
      var edge := it.Edge();
      found := found + [edge.Value()];
      more := it.Next();
    }
    assert found == values;
    StillValid(g);
  }

  lemma AllEdges(g: Graph, ids: set<Uuid>, list: seq<EdgeRecord>) returns (values: seq<Edge>)
    requires g.Valid()
    requires forall k :: 0 <= k < |list| ==>
               list[k].id in g.edges && list[k] == g.edges[list[k].id] && list[k].id in ids
    requires forall k, l :: 0 <= k < l < |list| ==> list[k].id != list[l].id
    requires forall i :: i in ids ==> i in g.edges && g.edges[i] in list
    ensures |values| == |list| && forall k :: 0 <= k < |list| ==> list[k].Value() == values[k]
    ensures AreEdges(g.Snap(), ids, values)
  {
    hide Consistent;
    values := seq(|list|, k requires 0 <= k < |list| reads list => list[k].Value());
    forall i | i in ids ensures exists k :: 0 <= k < |values| && values[k].id == i {
      var k :| 0 <= k < |list| && list[k] == g.edges[i];
      assert values[k].id == i;
    }
  }
}
