/** The in-memory link graph on mutable records: every operation does to the four maps and to the
    records in them exactly what it does to the graph as a value. */
module InMemoryGraph {
  import opened Options
  import opened Uuids
  import opened LinkGraph
  import opened Scan

  datatype Error = NotFound | UnknownEdgeLinks

  class LinkRecord {
    var id: Uuid
    var url: string
    var retrievedAt: nat

    constructor (id: Uuid, url: string, retrievedAt: nat)
      ensures Value() == Link(id, url, retrievedAt)
    {
      this.id := id;
      this.url := url;
      this.retrievedAt := retrievedAt;
    }

    function Value(): Link
      reads this
    {
      Link(id, url, retrievedAt)
    }

    method Assign(x: Link)
      modifies this
      ensures Value() == x
    {
      id, url, retrievedAt := x.id, x.url, x.retrievedAt;
    }
  }

  class EdgeRecord {
    var id: Uuid
    var src: Uuid
    var dst: Uuid
    var updatedAt: nat

    constructor (id: Uuid, src: Uuid, dst: Uuid, updatedAt: nat)
      ensures Value() == Edge(id, src, dst, updatedAt)
    {
      this.id := id;
      this.src := src;
      this.dst := dst;
      this.updatedAt := updatedAt;
    }

    function Value(): Edge
      reads this
    {
      Edge(id, src, dst, updatedAt)
    }

    method Assign(x: Edge)
      modifies this
      ensures Value() == x
    {
      id, src, dst, updatedAt := x.id, x.src, x.dst, x.updatedAt;
    }
  }

  class Graph {
    var links: map<Uuid, LinkRecord>
    var edges: map<Uuid, EdgeRecord>
    var linkFromURL: map<string, LinkRecord>
    var linkEdges: map<Uuid, seq<Uuid>>

    ghost function Repr(): set<object>
      reads this
    {
      {this} + links.Values + edges.Values + linkFromURL.Values
    }

    ghost function LinkValues(): map<Uuid, Link>
      reads this, links.Values
    {
      map i | i in links :: links[i].Value()
    }

    ghost function EdgeValues(): map<Uuid, Edge>
      reads this, edges.Values
    {
      map e | e in edges :: edges[e].Value()
    }

    ghost function Urls(): map<string, Uuid>
      reads this, linkFromURL.Values
    {
      map u | u in linkFromURL :: linkFromURL[u].id
    }

    /** The graph as a value. */
    ghost function Snap(): Snapshot
      reads Repr()
    {
      Snapshot(LinkValues(), EdgeValues(), Urls(), linkEdges)
    }

    /** Both link maps hold the same records, each under its own identifier and URL. */
    ghost predicate Indexed()
      reads Repr()
    {
      && (forall i :: i in links ==>
            links[i].id == i && links[i].url in linkFromURL && linkFromURL[links[i].url] == links[i])
      && (forall u :: u in linkFromURL ==>
            linkFromURL[u].url == u && linkFromURL[u].id in links && links[linkFromURL[u].id] == linkFromURL[u])
      && (forall e :: e in edges ==> edges[e].id == e)
    }

    ghost predicate Valid()
      reads Repr()
    {
      Indexed() && Consistent(Snap())
    }

    constructor ()
      ensures Valid() && Snap() == Snapshot(map[], map[], map[], map[]) && fresh(Repr())
    {
      links := map[];
      edges := map[];
      linkFromURL := map[];
      linkEdges := map[];
    }

    /** Copies data into a stored link, but keeps the most recent timestamp. */
    method Overwrite(existing: LinkRecord, data: Link)
      requires Indexed() && existing in links.Values && data.id == existing.id && data.url == existing.url
      modifies existing
      ensures Indexed() && existing.Value() == data.(retrievedAt := Later(old(existing.retrievedAt), data.retrievedAt))
      ensures LinkValues() == old(LinkValues())[existing.id := existing.Value()]
      ensures Urls() == old(Urls()) && EdgeValues() == old(EdgeValues())
    {
      var origTs := existing.retrievedAt;
      existing.Assign(data);
      if origTs > existing.retrievedAt {
        existing.retrievedAt := origTs;
      }
    }

    method Insert(data: Link) returns (lCopy: LinkRecord)
      requires Indexed() && data.id !in links && data.url !in linkFromURL
      modifies this`links, this`linkFromURL
      ensures fresh(lCopy) && lCopy.Value() == data
      ensures links == old(links)[data.id := lCopy] && linkFromURL == old(linkFromURL)[data.url := lCopy]
    {
      lCopy := new LinkRecord(data.id, data.url, data.retrievedAt);
      linkFromURL := linkFromURL[lCopy.url := lCopy];
      links := links[lCopy.id := lCopy];
    }

    twostate predicate AddedLink(new x: LinkRecord)
      reads Repr(), x
    {
      && old(Indexed()) && x.id !in old(links) && x.url !in old(linkFromURL) && x !in old(Repr())
      && links == old(links)[x.id := x] && linkFromURL == old(linkFromURL)[x.url := x]
      && edges == old(edges) && linkEdges == old(linkEdges)
      && (forall i :: i in old(links) ==> unchanged(links[i]))
      && (forall u :: u in old(linkFromURL) ==> unchanged(linkFromURL[u]))
      && (forall e :: e in edges ==> unchanged(edges[e]))
    }

    twostate lemma AddedLinkIndexed(new x: LinkRecord)
      requires AddedLink(x)
      ensures Indexed()
    {
    }

    twostate lemma AddedLinkView(new x: LinkRecord)
      requires AddedLink(x)
      ensures LinkValues() == old(LinkValues())[x.id := x.Value()]
    {
    }

    twostate lemma AddedUrlView(new x: LinkRecord)
      requires AddedLink(x)
      ensures Urls() == old(Urls())[x.url := x.id]
    {
      hide Indexed;
      assert linkFromURL.Keys == old(linkFromURL).Keys + {x.url};
      forall u | u in old(linkFromURL) ensures linkFromURL[u].id == old(linkFromURL[u].id) {
        assert unchanged(linkFromURL[u]);
      }
    }

    twostate lemma SameEdgeView(new x: LinkRecord)
      requires AddedLink(x)
      ensures EdgeValues() == old(EdgeValues())
    {
    }

    twostate lemma AddedLinkRepr(new x: LinkRecord)
      requires AddedLink(x)
      ensures Repr() <= old(Repr()) + {x}
    {
    }

    /** Adds a copy of the new link to the graph. */
    method AddLink(data: Link)
      requires Indexed() && data.id !in links && data.url !in linkFromURL
      modifies this`links, this`linkFromURL
      ensures Indexed() && fresh(Repr() - old(Repr()))
      ensures Snap() == old(Snap()).(links := old(Snap()).links[data.id := data],
                                     urls := old(Snap()).urls[data.url := data.id])
    {
      hide Indexed, LinkValues, EdgeValues, Urls;
      var lCopy := Insert(data);
      AddedLinkIndexed(lCopy);
      AddedLinkView(lCopy);
      AddedUrlView(lCopy);
      SameEdgeView(lCopy);
      AddedLinkRepr(lCopy);
    }

    lemma SnapUrls(url: string)
      requires Indexed()
      ensures url in linkFromURL <==> url in Snap().urls
      ensures url in linkFromURL ==>
                && linkFromURL[url] in links.Values && linkFromURL[url].url == url
                && linkFromURL[url].id == Snap().urls[url]
                && linkFromURL[url].id in Snap().links && Snap().links[linkFromURL[url].id] == linkFromURL[url].Value()
      ensures Snap().links.Keys == links.Keys
    {
    }

    /** Updates the link that has the URL. */
    method UpdateLink(link: LinkRecord)
      requires Indexed() && link !in Repr() && link.url in Snap().urls && Snap().urls[link.url] in Snap().links
      modifies Repr(), link
      ensures Indexed() && link !in Repr() && Repr() == old(Repr())
      ensures var s, i := old(Snap()), old(Snap()).urls[old(link.url)];
              && Snap() == s.(links := s.links[i := Link(i, old(link.url),
                                                         Later(s.links[i].retrievedAt, old(link.retrievedAt)))])
              && link.Value() == old(link.Value()).(id := i)
    {
      hide Indexed, LinkValues, EdgeValues, Urls;
      SnapUrls(link.url);
      var existing := linkFromURL[link.url];
      link.id := existing.id;
      StillIndexed(link);
      Overwrite(existing, link.Value());
    }

    method AddNewLink(link: LinkRecord, newId: Uuid)
      requires Indexed() && link !in Repr() && newId !in links && link.url !in linkFromURL
      modifies this`links, this`linkFromURL, link
      ensures Indexed() && link !in Repr() && fresh(Repr() - old(Repr()))
      ensures Snap() == old(Snap()).(links := old(Snap()).links[newId := link.Value()],
                                     urls := old(Snap()).urls[old(link.url) := newId])
      ensures link.Value() == old(link.Value()).(id := newId)
    {
      hide Indexed, LinkValues, EdgeValues, Urls;
      link.id := newId;
      StillIndexed(link);
      AddLink(link.Value());
    }

    /** Stores the link, or updates the one with its URL; `newId` is the identifier drawn for it. */
    method UpsertLink(link: LinkRecord, newId: Uuid)
      requires Valid() && link !in Repr() && FreshLink(Snap(), link.url, newId)
      modifies Repr(), link
      ensures Valid() && link !in Repr() && fresh(Repr() - old(Repr()))
      ensures Snap() == PutLink(old(Snap()), old(link.url), old(link.retrievedAt), newId)
      ensures LinkUpserted(old(Snap()), Snap(), old(link.url), old(link.retrievedAt), newId)
      ensures link.Value() == old(link.Value()).(id := LinkId(old(Snap()), old(link.url), newId))
    {
      hide Consistent, Indexed, LinkValues, EdgeValues, Urls, LinkUpserted;
      PutLinkIs(Snap(), link.url, link.retrievedAt, newId);
      PutLinkKeeps(Snap(), link.url, link.retrievedAt, newId);
      SnapUrls(link.url);
      if link.url in linkFromURL {
        UpdateLink(link);
      } else {
        AddNewLink(link, newId);
      }
    }

    twostate lemma StillIndexed(link: LinkRecord)
      requires old(Indexed()) && link !in Repr() && unchanged(this) && unchanged(Repr())
      ensures Indexed() && Snap() == old(Snap())
    {
    }

    /** A copy of the link, if there is one. */
    method FindLink(id: Uuid) returns (link: LinkRecord?, err: Option<Error>)
      requires Valid()
      ensures id in links ==> err == None && link != null && fresh(link) && link.Value() == Snap().links[id]
      ensures id !in links ==> err == Some(NotFound) && link == null
    {
      if id !in links {
        return null, Some(NotFound);
      }
      var existing := links[id];
      link := new LinkRecord(existing.id, existing.url, existing.retrievedAt);
      err := None;
    }

    /** Renews a stored edge. */
    method Touch(id: Uuid, now: nat)
      requires Indexed() && id in edges
      modifies edges[id]
      ensures Indexed() && LinkValues() == old(LinkValues()) && Urls() == old(Urls())
      ensures EdgeValues() == old(EdgeValues())[id := old(EdgeValues())[id].(updatedAt := now)]
    {
      edges[id].updatedAt := now;
    }

    twostate predicate AddedEdge(new x: EdgeRecord)
      reads Repr(), x
    {
      && old(Indexed()) && x.id !in old(edges) && x !in old(Repr())
      && edges == old(edges)[x.id := x] && links == old(links) && linkFromURL == old(linkFromURL)
      && (forall i :: i in links ==> unchanged(links[i]))
      && (forall u :: u in linkFromURL ==> unchanged(linkFromURL[u]))
      && (forall e :: e in old(edges) ==> unchanged(edges[e]))
    }

    twostate lemma AddedEdgeIndexed(new x: EdgeRecord)
      requires AddedEdge(x)
      ensures Indexed() && Repr() <= old(Repr()) + {x}
    {
    }

    twostate lemma AddedEdgeView(new x: EdgeRecord)
      requires AddedEdge(x)
      ensures EdgeValues() == old(EdgeValues())[x.id := x.Value()]
    {
    }

    twostate lemma SameLinkViews(new x: EdgeRecord)
      requires AddedEdge(x)
      ensures LinkValues() == old(LinkValues()) && Urls() == old(Urls())
    {
    }

    /** Adds a copy of the new edge to the graph and to the list of its source. */
    method AddEdge(data: Edge)
      requires Indexed() && data.id !in edges
      modifies this`edges, this`linkEdges
      ensures Indexed() && fresh(Repr() - old(Repr()))
      ensures Snap() == old(Snap()).(edges := old(Snap()).edges[data.id := data],
                                     out := old(Snap()).out[data.src := old(Snap()).Out(data.src) + [data.id]])
    {
      hide Indexed, LinkValues, EdgeValues, Urls;
      var eCopy := new EdgeRecord(data.id, data.src, data.dst, data.updatedAt);
      edges := edges[eCopy.id := eCopy];
      linkEdges := linkEdges[data.src := List(data.src) + [data.id]];
      AddedEdgeIndexed(eCopy);
      AddedEdgeView(eCopy);
      SameLinkViews(eCopy);
    }

    lemma SnapEdges(src: Uuid)
      requires Valid()
      ensures Snap().edges.Keys == edges.Keys && Snap().links.Keys == links.Keys && Snap().out == linkEdges
      ensures ListOk(Snap(), src) && Snap().Out(src) == List(src)
      ensures forall k :: 0 <= k < |List(src)| ==>
                && List(src)[k] in edges && List(src)[k] in Snap().edges
                && edges[List(src)[k]].Value() == Snap().edges[List(src)[k]] && edges[List(src)[k]].src == src
    {
      assert ListOk(Snap(), src);
    }

    /** The edge list of a link; a link without one has no edges. */
    function List(src: Uuid): seq<Uuid>
      reads this
    {
      if src in linkEdges then linkEdges[src] else []
    }

    /** Scans the list of the source for an edge to `dst`. */
    method FindInList(src: Uuid, dst: Uuid) returns (k: nat, list: seq<Uuid>)
      requires Valid()
      ensures ListOk(Snap(), src) && list == Snap().Out(src) && k == FindEdge(Snap(), list, dst)
    {
      hide Valid, Snap, List;
      SnapEdges(src);
      list := List(src);
      k := 0;
      while k < |list|
        invariant k <= |list| && forall i :: 0 <= i < k ==> Snap().edges[list[i]].dst != dst
      {
        var existing := edges[list[k]];
        if existing.src == src && existing.dst == dst {
          FindIs(Snap(), list, dst, k);
          return;
        }
        k := k + 1;
      }
      FindIs(Snap(), list, dst, k);
    }

    /** Adds an edge between stored links, or renews the one that is there. */
    method UpsertEdge(edge: EdgeRecord, now: nat, newId: Uuid) returns (err: Option<Error>)
      requires Valid() && edge !in Repr()
      requires (KnownLinks(Snap(), edge.src, edge.dst) ==> FreshEdge(Snap(), edge.src, edge.dst, newId))
      modifies Repr(), edge
      ensures Valid() && edge !in Repr() && fresh(Repr() - old(Repr())) && ListOk(old(Snap()), old(edge.src))
      ensures !KnownLinks(old(Snap()), old(edge.src), old(edge.dst)) ==>
                err == Some(UnknownEdgeLinks) && Snap() == old(Snap()) && edge.Value() == old(edge.Value())
      ensures KnownLinks(old(Snap()), old(edge.src), old(edge.dst)) ==>
                && err == None && Snap() == PutEdge(old(Snap()), old(edge.src), old(edge.dst), now, newId)
                && EdgeUpserted(old(Snap()), Snap(), old(edge.src), old(edge.dst), now, newId)
                && edge.id in Snap().edges && edge.Value() == Snap().edges[edge.id]
    {
      hide Consistent, Indexed, LinkValues, EdgeValues, Urls, FreshEdge, HasEdge, List, PutEdge, ListOk, FindEdge;
      hide EdgeUpserted;
      SnapEdges(edge.src);
      if edge.src !in links || edge.dst !in links {
        return Some(UnknownEdgeLinks);
      }
      PutEdgeCases(Snap(), edge.src, edge.dst, now, newId);
      var k, list := FindInList(edge.src, edge.dst);
      if k < |list| {
        RenewEdge(edge, list[k], now);
      } else {
        AddNewEdge(edge, now, newId);
      }
      return None;
    }

    /** Updates the timestamp of a stored edge and copies the stored data into `edge`. */
    method RenewEdge(edge: EdgeRecord, id: Uuid, now: nat)
      requires Indexed() && edge !in Repr() && id in edges && id in Snap().edges
      modifies edges[id], edge
      ensures Indexed() && edge !in Repr() && Repr() == old(Repr())
      ensures Snap() == old(Snap()).(edges := old(Snap()).edges[id := old(Snap()).edges[id].(updatedAt := now)])
      ensures edge.Value() == Snap().edges[id] && edge.id == id
    {
      hide Indexed, LinkValues, Urls;
      AtId(id);
      edge.Assign(edges[id].Value().(updatedAt := now));
      StillIndexedEdge(edge);
      Touch(id, now);
    }

    lemma AtId(id: Uuid)
      requires Indexed() && id in edges
      ensures edges[id].id == id && EdgeValues()[id] == edges[id].Value()
    {
    }

    method AddNewEdge(edge: EdgeRecord, now: nat, newId: Uuid)
      requires Indexed() && edge !in Repr() && newId !in edges
      modifies this`edges, this`linkEdges, edge
      ensures Indexed() && edge !in Repr() && fresh(Repr() - old(Repr()))
      ensures Snap() == old(Snap()).(edges := old(Snap()).edges[newId := edge.Value()],
                                     out := old(Snap()).out[edge.src := old(Snap()).Out(edge.src) + [newId]])
      ensures edge.Value() == old(edge.Value()).(id := newId, updatedAt := now)
    {
      hide Indexed, LinkValues, Urls, EdgeValues;
      edge.Assign(Edge(newId, edge.src, edge.dst, now));
      StillIndexedEdge(edge);
      AddEdge(edge.Value());
    }

    twostate lemma StillIndexedEdge(edge: EdgeRecord)
      requires old(Indexed()) && edge !in Repr() && unchanged(this) && unchanged(Repr())
      ensures Indexed() && Snap() == old(Snap())
    {
    }

    /** Takes the stale edges of a list out of the edge map; the others are returned. */
    method DropListed(ghost src: Uuid, list: seq<Uuid>, updatedBefore: nat)
      returns (freshEdges: seq<Uuid>, ghost stale: set<Uuid>)
      requires Valid() && ListOk(Snap(), src) && list == Snap().Out(src)
      modifies this`edges
      ensures edges == old(edges) - stale && freshEdges == FreshOnes(old(Snap()), list, updatedBefore)
      ensures forall e :: e in stale <==>
                e in list && e in old(Snap()).edges && old(Snap()).edges[e].updatedAt < updatedBefore
    {
      hide Valid, Snap, List, ListOk, FreshOnes;
      ghost var was := Snap();
      freshEdges := [];
      stale := {};
      SnapEdges(src);
      ListIsDistinct(was, src);
      FreshNone(was, updatedBefore);
      var i := 0;
      while i < |list|
        invariant i <= |list| && edges == old(edges) - stale
        invariant freshEdges == FreshOnes(was, list[..i], updatedBefore)
        invariant forall e :: e in stale <==> e in list[..i] && was.edges[e].updatedAt < updatedBefore
      {
        StillThere(list, i, stale);
        FreshNext(was, list, i, updatedBefore);
        var edge := edges[list[i]];
        assert list[..i + 1] == list[..i] + [list[i]];
        if edge.updatedAt < updatedBefore {
          edges := edges - {list[i]};
          stale := stale + {list[i]};
        } else {
          freshEdges := freshEdges + [list[i]];
        }
        i := i + 1;
      }
      assert list[..|list|] == list;
    }

    /** Removes the edges of a link that were last updated before the given time. */
    method RemoveStaleEdges(src: Uuid, updatedBefore: nat)
      requires Valid()
      modifies this`edges, this`linkEdges
      ensures Valid() && Repr() <= old(Repr()) && ListOk(old(Snap()), src)
      ensures Snap() == DropStale(old(Snap()), src, updatedBefore)
      ensures StaleRemoved(old(Snap()), Snap(), src, updatedBefore)
    {
      hide Consistent, LinkValues, EdgeValues, Urls, Indexed, StaleRemoved;
      DropStaleKeeps(Snap(), src, updatedBefore);
      DropStaleIs(Snap(), src, updatedBefore);
      ghost var was := Snap();
      SnapEdges(src);
      var freshEdges, stale := DropListed(src, List(src), updatedBefore);
      linkEdges := linkEdges[src := freshEdges];
      StaleAreListed(was, src, updatedBefore, stale);
      Swept(stale);
    }

    /** The records of the links in the range, in the order in which the map happens to be walked. */
    method Links(fromID: Uuid, toID: Uuid, retrievedBefore: nat) returns (list: seq<LinkRecord>)
      requires Valid()
      ensures forall k :: 0 <= k < |list| ==> list[k].id in links && list[k] == links[list[k].id]
      ensures forall k :: 0 <= k < |list| ==> list[k].id in LinksIn(Snap(), fromID, toID, retrievedBefore)
      ensures forall k, l :: 0 <= k < l < |list| ==> list[k].id != list[l].id
      ensures forall i :: i in LinksIn(Snap(), fromID, toID, retrievedBefore) ==> i in links && links[i] in list
    {
      hide Consistent, Within;
      list := [];
      var todo := links.Keys;
      while todo != {}
        invariant todo <= links.Keys
        invariant forall k :: 0 <= k < |list| ==>
                    && list[k].id in links && list[k] == links[list[k].id] && list[k].id !in todo
                    && list[k].id in LinksIn(Snap(), fromID, toID, retrievedBefore)
        invariant forall k, l :: 0 <= k < l < |list| ==> list[k].id != list[l].id
        invariant forall i :: i in LinksIn(Snap(), fromID, toID, retrievedBefore) && i !in todo ==>
                    i in links && links[i] in list
        decreases |todo|
      {
        var linkID :| linkID in todo;
        var link := links[linkID];
        if Within(linkID, fromID, toID) && link.retrievedAt < retrievedBefore {
          list := list + [link];
        }
        todo := todo - {linkID};
      }
    }

    /** The records of the edges whose source is in the range. */
    method Edges(fromID: Uuid, toID: Uuid, updatedBefore: nat) returns (list: seq<EdgeRecord>)
      requires Valid()
      ensures forall k :: 0 <= k < |list| ==> list[k].id in edges && list[k] == edges[list[k].id]
      ensures forall k :: 0 <= k < |list| ==> list[k].id in EdgesIn(Snap(), fromID, toID, updatedBefore)
      ensures forall k, l :: 0 <= k < l < |list| ==> list[k].id != list[l].id
      ensures forall e :: e in EdgesIn(Snap(), fromID, toID, updatedBefore) ==> e in edges && edges[e] in list
    {
      hide Within, Valid, Snap;
      list := [];
      ghost var ids: seq<Uuid> := [];
      var todo := links.Keys;
      ghost var done: set<Uuid> := {};
      while todo != {}
        invariant Valid() && Snap() == old(Snap()) && done == links.Keys - todo && todo <= links.Keys
        invariant Listed(list, ids)
        invariant forall e :: e in ids <==> FromDone(Snap(), done, fromID, toID, updatedBefore, e)
        decreases |todo|
      {
        var linkID :| linkID in todo;
        if Within(linkID, fromID, toID) {
          list, ids := AddOlder(linkID, updatedBefore, list, ids, done, fromID, toID);
        }
        todo := todo - {linkID};
        done := done + {linkID};
      }
      ValidSnap();
      SourcesThere(Snap());
      SnapEdges(NIL);
      ListedIds(list, ids);
    }

    lemma ListedIds(list: seq<EdgeRecord>, ids: seq<Uuid>)
      requires Valid() && Listed(list, ids)
      ensures |list| == |ids| && forall k :: 0 <= k < |list| ==> list[k].id == ids[k]
      ensures forall e :: e in ids ==> e in edges && edges[e] in list
    {
      hide Consistent;
      forall e | e in ids ensures e in edges && edges[e] in list {
        var k :| 0 <= k < |ids| && ids[k] == e;
        assert list[k] == edges[e];
      }
    }

    ghost predicate Listed(list: seq<EdgeRecord>, ids: seq<Uuid>)
      reads this
    {
      && |list| == |ids| && (forall k :: 0 <= k < |ids| ==> ids[k] in edges && list[k] == edges[ids[k]])
      && (forall k, l :: 0 <= k < l < |ids| ==> ids[k] != ids[l])
    }

    /** Appends the edges of one link that were updated before the given time. */
    method AddOlder(linkID: Uuid, updatedBefore: nat, list: seq<EdgeRecord>,
                    ghost ids: seq<Uuid>, ghost done: set<Uuid>, ghost fromID: Uuid, ghost toID: Uuid)
      returns (list': seq<EdgeRecord>, ghost ids': seq<Uuid>)
      requires Valid() && Listed(list, ids) && linkID !in done && Within(linkID, fromID, toID)
      requires forall e :: e in ids <==> FromDone(Snap(), done, fromID, toID, updatedBefore, e)
      ensures Valid() && Snap() == old(Snap()) && Listed(list', ids')
      ensures forall e :: e in ids' <==> FromDone(Snap(), done + {linkID}, fromID, toID, updatedBefore, e)
    {
      hide Valid, Within, Snap;
      SnapEdges(linkID);
      list', ids' := list, ids;
      var edgeIDs := List(linkID);
      for i := 0 to |edgeIDs|
        invariant Listed(list', ids')
        invariant forall e :: e in ids' <==>
                    e in ids || (e in edgeIDs[..i] && Snap().edges[e].updatedAt < updatedBefore)
      {
        var edge := edges[edgeIDs[i]];
        assert edgeIDs[..i + 1] == edgeIDs[..i] + [edgeIDs[i]];
        if edge.updatedAt < updatedBefore {
          assert edgeIDs[i] !in ids';
          list' := list' + [edge];
          ids' := ids' + [edgeIDs[i]];
        }
      }
      assert edgeIDs[..|edgeIDs|] == edgeIDs;
      ListIsAll(Snap(), linkID) by {
        ValidSnap();
      }
    }

    lemma ValidSnap()
      requires Valid()
      ensures Consistent(Snap())
    {
    }

    twostate lemma Swept(stale: set<Uuid>)
      requires old(Indexed()) && links == old(links) && linkFromURL == old(linkFromURL) && edges == old(edges) - stale
      requires unchanged(old(links.Values)) && unchanged(old(edges.Values)) && unchanged(old(linkFromURL.Values))
      ensures Indexed() && Repr() <= old(Repr())
      ensures LinkValues() == old(LinkValues()) && Urls() == old(Urls())
      ensures EdgeValues() == old(EdgeValues()) - stale
    {
    }
  }

  /** New objects leave a graph as it is. */
  twostate lemma StillValid(g: Graph)
    requires old(g.Valid()) && unchanged(g) && unchanged(old(g.Repr()))
    ensures g.Valid() && g.Snap() == old(g.Snap()) && g.Repr() == old(g.Repr())
  {
    hide Consistent, Graph.Indexed, Graph.LinkValues, Graph.EdgeValues, Graph.Urls;
  }

  /** The edge comes from one of the links that have been looked at. */
  ghost predicate FromDone(s: Snapshot, done: set<Uuid>, from: Uuid, to: Uuid, before: nat, e: Uuid) {
    e in s.edges && s.edges[e].src in done && Within(s.edges[e].src, from, to) && s.edges[e].updatedAt < before
  }

  lemma ListIsDistinct(s: Snapshot, src: Uuid)
    requires ListOk(s, src)
    ensures forall k, l :: 0 <= k < l < |s.Out(src)| ==> s.Out(src)[k] != s.Out(src)[l]
  {
  }

  lemma FreshNone(s: Snapshot, before: nat)
    ensures FreshOnes(s, [], before) == []
  {
  }

  lemma FreshNext(s: Snapshot, list: seq<Uuid>, i: nat, before: nat)
    requires i < |list| && forall k :: 0 <= k < |list| ==> list[k] in s.edges
    ensures FreshOnes(s, list[..i + 1], before)
         == FreshOnes(s, list[..i], before) + if s.edges[list[i]].updatedAt < before then [] else [list[i]]
  {
    assert list[..i + 1][..i] == list[..i];
  }

  /** What upserting an edge comes to, once the source's list has been searched. */
  lemma PutEdgeCases(s: Snapshot, src: Uuid, dst: Uuid, at: nat, newId: Uuid)
    requires Consistent(s) && KnownLinks(s, src, dst) && FreshEdge(s, src, dst, newId)
    ensures ListOk(s, src)
    ensures var k, list, t := FindEdge(s, s.Out(src), dst), s.Out(src), PutEdge(s, src, dst, at, newId);
            && k <= |list| && Consistent(t) && EdgeUpserted(s, t, src, dst, at, newId)
            && (k < |list| ==>
                  list[k] in s.edges && t == s.(edges := s.edges[list[k] := s.edges[list[k]].(updatedAt := at)]))
            && (k == |list| ==>
                  && newId !in s.edges
                  && t == s.(edges := s.edges[newId := Edge(newId, src, dst, at)], out := s.out[src := list + [newId]]))
  {
    hide Consistent, EdgeUpserted, HasEdge;
    PutEdgeKeeps(s, src, dst, at, newId);
    PutEdgeIs(s, src, dst, at, newId);
    FoundIffThere(s, src, dst);
  }

  lemma ListIsAll(s: Snapshot, src: Uuid)
    requires Consistent(s)
    ensures forall e :: e in s.Out(src) <==> e in s.edges && s.edges[e].src == src
  {
    assert ListOk(s, src);
    forall e | e in s.edges && s.edges[e].src == src ensures e in s.Out(src) {
      assert EdgeOk(s, e);
    }
  }

  lemma SourcesThere(s: Snapshot)
    requires Consistent(s)
    ensures forall e :: e in s.edges ==> s.edges[e].src in s.links
  {
    forall e | e in s.edges ensures s.edges[e].src in s.links {
      assert EdgeOk(s, e);
    }
  }

  lemma StillThere(list: seq<Uuid>, i: nat, stale: set<Uuid>)
    requires i < |list| && forall k, l :: 0 <= k < l < |list| ==> list[k] != list[l]
    requires forall e :: e in stale ==> e in list[..i]
    ensures list[i] !in stale
  {
  }

  lemma StaleAreListed(s: Snapshot, src: Uuid, before: nat, stale: set<Uuid>)
    requires Consistent(s)
    requires forall e :: e in s.Out(src) ==> e in s.edges
    requires forall e :: e in stale <==> e in s.Out(src) && s.edges[e].updatedAt < before
    ensures ListOk(s, src) && DropStale(s, src, before).edges == s.edges - stale
  {
    assert ListOk(s, src);
    forall e | Stale(s, src, before, e) ensures e in stale {
      assert EdgeOk(s, e);
    }
    forall e | e in stale ensures Stale(s, src, before, e) {
    }
  }

  lemma {:induction false} FindIs(s: Snapshot, list: seq<Uuid>, dst: Uuid, k: nat)
    requires forall i :: 0 <= i < |list| ==> list[i] in s.edges
    requires k <= |list| && (k < |list| ==> s.edges[list[k]].dst == dst)
    requires forall i :: 0 <= i < k ==> s.edges[list[i]].dst != dst
    ensures FindEdge(s, list, dst) == k
  {
  }
}
