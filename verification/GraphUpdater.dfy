/** The graph updater stage of the crawler, on the in-memory graph: loops that store the links of a
    page and the edges to them, and then drop the page's stale edges. */
module GraphUpdater {
  import opened Options
  import opened Uuids
  import opened LinkGraph
  import opened InMemoryGraph
  import Recrawl

  /** Upserts a new record for the link and returns the identifier that the graph gives it. */
  method StoreLink(g: Graph, id: Uuid, url: string, retrievedAt: nat, newId: Uuid) returns (linkId: Uuid)
    requires g.Valid() && FreshLink(g.Snap(), url, newId)
    modifies g.Repr()
    ensures g.Valid() && fresh(g.Repr() - old(g.Repr())) && LinksOk(old(g.Snap()))
    ensures g.Snap() == PutLink(old(g.Snap()), url, retrievedAt, newId) && linkId == LinkId(old(g.Snap()), url, newId)
  {
    hide Consistent, LinksOk, Graph.Valid, Graph.Snap, PutLink, LinkId, FreshLink;
    LinksAreOk(g);
    var link := new LinkRecord(id, url, retrievedAt);
    StillValid(g);
    g.UpsertLink(link, newId);
    linkId := link.id;
  }

  lemma LinksAreOk(g: Graph)
    requires g.Valid()
    ensures LinksOk(g.Snap())
  {
  }

  method StoreEdge(g: Graph, src: Uuid, dst: Uuid, at: nat, newId: Uuid) returns (err: Option<Error>)
    requires g.Valid() && KnownLinks(g.Snap(), src, dst) && FreshEdge(g.Snap(), src, dst, newId)
    modifies g.Repr()
    ensures g.Valid() && fresh(g.Repr() - old(g.Repr())) && ListOk(old(g.Snap()), src)
    ensures err == None && g.Snap() == PutEdge(old(g.Snap()), src, dst, at, newId)
  {
    hide Consistent, Graph.Indexed, Graph.Snap, PutEdge, ListOk, FreshEdge, KnownLinks;
    var edge := new EdgeRecord(NIL, src, dst, Recrawl.ZERO_TIME);
    StillValid(g);
    err := g.UpsertEdge(edge, at, newId);
  }

  /** `linkId` is the identifier in the payload; the graph replaces it by the one it has for the URL. */
  method Process(g: Graph, linkId: Uuid, page: Recrawl.Page) returns (err: Option<Error>)
    requires g.Valid() && Recrawl.FreshPage(g.Snap(), page)
    modifies g.Repr()
    ensures g.Valid() && fresh(g.Repr() - old(g.Repr()))
    ensures err == None && Consistent(old(g.Snap())) && g.Snap() == Recrawl.Process(old(g.Snap()), page)
  {
    hide Consistent, Graph.Indexed, Graph.Snap, DropStale, ListOk, LinkId, Recrawl.Linked, Recrawl.FreshPage;
    var src;
    src, err := LinkPage(g, linkId, page);
    g.RemoveStaleEdges(src, page.mark);
  }

  /** Stores the page, then the links on it with their edges. */
  method LinkPage(g: Graph, linkId: Uuid, page: Recrawl.Page) returns (src: Uuid, err: Option<Error>)
    requires g.Valid() && Recrawl.FreshPage(g.Snap(), page)
    modifies g.Repr()
    ensures g.Valid() && fresh(g.Repr() - old(g.Repr()))
    ensures err == None && Consistent(old(g.Snap())) && g.Snap() == Recrawl.Linked(old(g.Snap()), page)
    ensures src == LinkId(old(g.Snap()), page.url, page.newId)
  {
    hide Consistent, Graph.Indexed, Graph.Snap, PutLink, LinkId, LinksLast, Recrawl.FreshMentions, Recrawl.FreshVisits;
    hide Recrawl.Mention, Recrawl.Follow;
    Recrawl.PutLinkDoes(g.Snap(), page.url, page.retrievedAt, page.newId);
    src := StorePage(g, linkId, page);
    err := FollowAll(g, src, page.links);
  }

  /** Stores the page and the links on it that must not be followed. */
  method StorePage(g: Graph, linkId: Uuid, page: Recrawl.Page) returns (src: Uuid)
    requires g.Valid() && FreshLink(g.Snap(), page.url, page.newId) && LinksOk(g.Snap())
    requires Consistent(PutLink(g.Snap(), page.url, page.retrievedAt, page.newId))
    requires Recrawl.FreshMentions(PutLink(g.Snap(), page.url, page.retrievedAt, page.newId), page.noFollow)
    modifies g.Repr()
    ensures g.Valid() && fresh(g.Repr() - old(g.Repr())) && src == LinkId(old(g.Snap()), page.url, page.newId)
    ensures src in g.Snap().links
    ensures g.Snap() == Recrawl.Mention(PutLink(old(g.Snap()), page.url, page.retrievedAt, page.newId), page.noFollow)
  {
    hide Consistent, LinksOk, Graph.Indexed, Graph.Snap, PutLink, LinkId, FreshLink, Recrawl.FreshMentions;
    hide Recrawl.Mention;
    Stored(g.Snap(), page.url, page.retrievedAt, page.newId);
    src := StoreLink(g, linkId, page.url, page.retrievedAt, page.newId);
    MentionAll(g, page.noFollow, src);
  }

  lemma Stored(s: Snapshot, url: string, retrievedAt: nat, newId: Uuid)
    requires LinksOk(s)
    ensures LinkId(s, url, newId) in PutLink(s, url, retrievedAt, newId).links
  {
  }

  /** Stores a link that must not be followed. */
  method MentionLink(g: Graph, visit: Recrawl.Visit, ghost src: Uuid)
    requires g.Valid() && FreshLink(g.Snap(), visit.url, visit.linkId) && src in g.Snap().links
    modifies g.Repr()
    ensures g.Valid() && fresh(g.Repr() - old(g.Repr())) && src in g.Snap().links && LinksOk(old(g.Snap()))
    ensures g.Snap() == PutLink(old(g.Snap()), visit.url, Recrawl.ZERO_TIME, visit.linkId)
  {
    hide Consistent, LinksOk, Graph.Indexed, Graph.Snap, PutLink, LinkId, FreshLink;
    PutLinkStays(g.Snap(), visit.url, Recrawl.ZERO_TIME, visit.linkId, src);
    var _ := StoreLink(g, NIL, visit.url, Recrawl.ZERO_TIME, visit.linkId);
  }

  lemma PutLinkStays(s: Snapshot, url: string, retrievedAt: nat, newId: Uuid, i: Uuid)
    requires Consistent(s) && FreshLink(s, url, newId) && i in s.links
    ensures LinksOk(s) && i in PutLink(s, url, retrievedAt, newId).links
  {
  }

  /** Stores the links that must not be followed. */
  method MentionAll(g: Graph, visits: seq<Recrawl.Visit>, ghost src: Uuid)
    requires g.Valid() && Recrawl.FreshMentions(g.Snap(), visits) && src in g.Snap().links
    modifies g.Repr()
    ensures g.Valid() && fresh(g.Repr() - old(g.Repr())) && src in g.Snap().links
    ensures old(Consistent(g.Snap())) && g.Snap() == Recrawl.Mention(old(g.Snap()), visits)
  {
    hide Consistent, Graph.Indexed, Graph.Snap, PutLink, FreshLink, LinksLast, LinksOk, LinkId;
    hide Recrawl.Mention, Recrawl.FreshMentions;
    assert visits[0..] == visits;
    for i := 0 to |visits|
      invariant g.Valid() && fresh(g.Repr() - old(g.Repr())) && src in g.Snap().links
      invariant Recrawl.FreshMentions(g.Snap(), visits[i..])
      invariant Recrawl.Mention(g.Snap(), visits[i..]) == old(Recrawl.Mention(g.Snap(), visits))
    {
      MentionFirst(g.Snap(), visits, i);
      MentionLink(g, visits[i], src);
    }
    assert visits[|visits|..] == [];
    MentionNone(g.Snap());
  }

  lemma MentionFirst(s: Snapshot, visits: seq<Recrawl.Visit>, i: nat)
    requires Consistent(s) && i < |visits| && Recrawl.FreshMentions(s, visits[i..])
    ensures FreshLink(s, visits[i].url, visits[i].linkId) && LinksOk(s)
    ensures var t := PutLink(s, visits[i].url, Recrawl.ZERO_TIME, visits[i].linkId);
            && Consistent(t) && Recrawl.FreshMentions(t, visits[i + 1..])
            && Recrawl.Mention(s, visits[i..]) == Recrawl.Mention(t, visits[i + 1..])
  {
    hide Consistent, PutLink, FreshLink, LinksLast, LinksOk;
    assert visits[i..][0] == visits[i] && visits[i..][1..] == visits[i + 1..];
    Recrawl.PutLinkDoes(s, visits[i].url, Recrawl.ZERO_TIME, visits[i].linkId);
  }

  lemma MentionNone(s: Snapshot)
    requires Consistent(s)
    ensures Recrawl.FreshMentions(s, []) && Recrawl.Mention(s, []) == s
  {
    hide Consistent;
  }

  /** Stores the links that may be followed, and an edge to each. */
  method FollowAll(g: Graph, src: Uuid, visits: seq<Recrawl.Visit>) returns (err: Option<Error>)
    requires g.Valid() && src in g.Snap().links && Recrawl.FreshVisits(g.Snap(), src, visits)
    modifies g.Repr()
    ensures g.Valid() && fresh(g.Repr() - old(g.Repr()))
    ensures err == None && old(Consistent(g.Snap())) && g.Snap() == Recrawl.Follow(old(g.Snap()), src, visits)
  {
    hide Consistent, Graph.Indexed, Graph.Snap, PutLink, Recrawl.FollowOne, Recrawl.FreshVisit;
    err := None;
    for i := 0 to |visits|
      invariant g.Valid() && fresh(g.Repr() - old(g.Repr())) && src in g.Snap().links && err == None
      invariant Recrawl.FreshVisits(g.Snap(), src, visits[i..])
      invariant Recrawl.Follow(g.Snap(), src, visits[i..]) == old(Recrawl.Follow(g.Snap(), src, visits))
    {
      assert visits[i..][0] == visits[i] && visits[i..][1..] == visits[i + 1..];
      err := FollowLink(g, src, visits[i]);
    }
  }

  method FollowLink(g: Graph, src: Uuid, visit: Recrawl.Visit) returns (err: Option<Error>)
    requires g.Valid() && src in g.Snap().links && Recrawl.FreshVisit(g.Snap(), src, visit)
    modifies g.Repr()
    ensures g.Valid() && fresh(g.Repr() - old(g.Repr()))
    ensures err == None && old(Consistent(g.Snap())) && g.Snap() == Recrawl.FollowOne(old(g.Snap()), src, visit)
  {
    hide Consistent, Graph.Indexed, Graph.Snap, PutLink, PutEdge, ListOk, FreshEdge;
    Recrawl.PutLinkDoes(g.Snap(), visit.url, Recrawl.ZERO_TIME, visit.linkId);
    var dst := StoreLink(g, NIL, visit.url, Recrawl.ZERO_TIME, visit.linkId);
    err := StoreEdge(g, src, dst, visit.at, visit.edgeId);
  }
}
