/** What the graph updater does to the link graph when a page is crawled, possibly again. */
module Recrawl {
  import opened Uuids
  import opened LinkGraph
  import Scan

  /** A link found on the page, with what drawing identifiers and reading the clock give while it is
      processed. */
  datatype Visit = Visit(url: string, linkId: Uuid, edgeId: Uuid, at: nat)

  /** The time of a link that has never been retrieved: earlier than any other. */
  const ZERO_TIME: nat := 0

  // ---------------------------------------------------------------- the steps of the updater

  /** Links not to be followed are stored, but get no edge. */
  ghost predicate FreshMentions(s: Snapshot, visits: seq<Visit>)
    requires Consistent(s)
    decreases |visits|
  {
    visits != [] ==>
      && FreshLink(s, visits[0].url, visits[0].linkId)
      && (PutLinkKeeps(s, visits[0].url, ZERO_TIME, visits[0].linkId);
          FreshMentions(PutLink(s, visits[0].url, ZERO_TIME, visits[0].linkId), visits[1..]))
  }

  ghost function Mention(s: Snapshot, visits: seq<Visit>): (t: Snapshot)
    requires Consistent(s) && FreshMentions(s, visits)
    ensures Consistent(t) && LinksLast(s, t) && t.edges == s.edges && t.out == s.out
    ensures forall v :: v in visits ==> v.url in t.urls
    decreases |visits|
  {
    if visits == [] then
      LinksLastRefl(s);
      s
    else
      PutLinkKeeps(s, visits[0].url, ZERO_TIME, visits[0].linkId);
      ApplyLinksLast(s, UpsertLink(visits[0].url, ZERO_TIME, visits[0].linkId));
      var m := PutLink(s, visits[0].url, ZERO_TIME, visits[0].linkId);
      var t := Mention(m, visits[1..]);
      LinksLastTrans(s, m, t);
      t
  }

  /** The link is stored and the edge to it is added or renewed. */
  ghost predicate FreshVisit(s: Snapshot, src: Uuid, v: Visit)
    requires Consistent(s)
  {
    && FreshLink(s, v.url, v.linkId)
    && FreshEdge(PutLink(s, v.url, ZERO_TIME, v.linkId), src, LinkId(s, v.url, v.linkId), v.edgeId)
  }

  ghost function FollowOne(s: Snapshot, src: Uuid, v: Visit): (t: Snapshot)
    requires Consistent(s) && src in s.links && FreshVisit(s, src, v)
    ensures Consistent(t) && src in t.links
  {
    var m := PutLink(s, v.url, ZERO_TIME, v.linkId);
    PutLinkKeeps(s, v.url, ZERO_TIME, v.linkId);
    PutEdgeKeeps(m, src, LinkId(s, v.url, v.linkId), v.at, v.edgeId);
    PutEdge(m, src, LinkId(s, v.url, v.linkId), v.at, v.edgeId)
  }

  ghost predicate FreshVisits(s: Snapshot, src: Uuid, visits: seq<Visit>)
    requires Consistent(s) && src in s.links
    decreases |visits|
  {
    visits != [] ==> FreshVisit(s, src, visits[0]) && FreshVisits(FollowOne(s, src, visits[0]), src, visits[1..])
  }

  ghost function Follow(s: Snapshot, src: Uuid, visits: seq<Visit>): (t: Snapshot)
    requires Consistent(s) && src in s.links && FreshVisits(s, src, visits)
    ensures Consistent(t) && src in t.links
    decreases |visits|
  {
    if visits == [] then s else Follow(FollowOne(s, src, visits[0]), src, visits[1..])
  }

  /** A crawled page: its URL, when it was retrieved, the links that must not and those that may be
      followed, and the clock reading between the two. */
  datatype Page = Page(url: string, newId: Uuid, retrievedAt: nat, noFollow: seq<Visit>, mark: nat, links: seq<Visit>)

  ghost predicate FreshPage(s: Snapshot, p: Page)
    requires Consistent(s)
  {
    && FreshLink(s, p.url, p.newId)
    && (PutLinkDoes(s, p.url, p.retrievedAt, p.newId);
        var a := PutLink(s, p.url, p.retrievedAt, p.newId);
        && FreshMentions(a, p.noFollow)
        && FreshVisits(Mention(a, p.noFollow), LinkId(s, p.url, p.newId), p.links))
  }

  /** Everything the updater does but for removing stale edges. */
  ghost function Linked(s: Snapshot, p: Page): (t: Snapshot)
    requires Consistent(s) && FreshPage(s, p)
    ensures Consistent(t)
  {
    PutLinkDoes(s, p.url, p.retrievedAt, p.newId);
    Follow(Mention(PutLink(s, p.url, p.retrievedAt, p.newId), p.noFollow), LinkId(s, p.url, p.newId), p.links)
  }

  ghost function Process(s: Snapshot, p: Page): (t: Snapshot)
    requires Consistent(s) && FreshPage(s, p)
    ensures Consistent(t)
  {
    DropStaleKeeps(Linked(s, p), LinkId(s, p.url, p.newId), p.mark);
    DropStale(Linked(s, p), LinkId(s, p.url, p.newId), p.mark)
  }

  // ---------------------------------------------------------------- what following a link does

  /** Some edge from `src` to `dst` is at least as new as the mark. */
  ghost predicate New(s: Snapshot, src: Uuid, dst: Uuid, mark: nat) {
    exists e :: e in s.edges && s.edges[e].src == src && s.edges[e].dst == dst && mark <= s.edges[e].updatedAt
  }

  /** The edges of `s` are still there; only edges of `src` may have changed, by being renewed. */
  ghost predicate EdgesLast(s: Snapshot, t: Snapshot, src: Uuid, mark: nat) {
    forall e :: e in s.edges ==>
      && e in t.edges && t.edges[e].src == s.edges[e].src && t.edges[e].dst == s.edges[e].dst
      && (t.edges[e] == s.edges[e] || (s.edges[e].src == src && mark <= t.edges[e].updatedAt))
  }

  ghost predicate IsTarget(t: Snapshot, visits: seq<Visit>, dst: Uuid) {
    exists k :: 0 <= k < |visits| && visits[k].url in t.urls && t.urls[visits[k].url] == dst
  }

  /** The edge leads to a visited link, and has the time of a visit to it. */
  ghost predicate Visited(t: Snapshot, visits: seq<Visit>, e: Edge) {
    exists k :: 0 <= k < |visits| && visits[k].url in t.urls && t.urls[visits[k].url] == e.dst
                && visits[k].at == e.updatedAt
  }

  /** An edge that `s` does not have in this form leads from `src` to one of the visited links. */
  ghost predicate OnlyTargets(s: Snapshot, t: Snapshot, src: Uuid, visits: seq<Visit>) {
    forall e :: e in t.edges ==>
      (e in s.edges && t.edges[e] == s.edges[e]) || (t.edges[e].src == src && Visited(t, visits, t.edges[e]))
  }

  /** Some edge from `src` leads to `dst` that has the time of a visit. */
  ghost predicate Renewed(t: Snapshot, src: Uuid, visits: seq<Visit>, dst: Uuid) {
    exists e :: e in t.edges && t.edges[e].src == src && t.edges[e].dst == dst && Visited(t, visits, t.edges[e])
  }

  lemma FollowOneDoes(s: Snapshot, src: Uuid, v: Visit, mark: nat)
    requires Consistent(s) && src in s.links && FreshVisit(s, src, v) && mark <= v.at
    ensures var t := FollowOne(s, src, v);
            && LinksLast(s, t) && EdgesLast(s, t, src, mark)
            && v.url in t.urls && New(t, src, t.urls[v.url], mark) && Renewed(t, src, [v], t.urls[v.url])
            && forall e :: e in t.edges ==>
                 || (e in s.edges && t.edges[e] == s.edges[e])
                 || (t.edges[e].src == src && t.edges[e].dst == t.urls[v.url] && t.edges[e].updatedAt == v.at)
  {
    var dst := LinkId(s, v.url, v.linkId);
    var m := PutLink(s, v.url, ZERO_TIME, v.linkId);
    PutLinkKeeps(s, v.url, ZERO_TIME, v.linkId);
    ApplyLinksLast(s, UpsertLink(v.url, ZERO_TIME, v.linkId));
    PutEdgeDoes(m, src, dst, v.at, v.edgeId, mark);
    assert [v][0] == v;
  }

  lemma PutEdgeDoes(s: Snapshot, src: Uuid, dst: Uuid, at: nat, newId: Uuid, mark: nat)
    requires Consistent(s) && KnownLinks(s, src, dst) && FreshEdge(s, src, dst, newId) && mark <= at
    ensures ListOk(s, src)
    ensures var t := PutEdge(s, src, dst, at, newId);
            && t.links == s.links && t.urls == s.urls
            && EdgesLast(s, t, src, mark) && New(t, src, dst, mark)
            && (exists e ::
                  e in t.edges && t.edges[e].src == src && t.edges[e].dst == dst && t.edges[e].updatedAt == at)
            && forall e :: e in t.edges ==>
                 || (e in s.edges && t.edges[e] == s.edges[e])
                 || (t.edges[e].src == src && t.edges[e].dst == dst && t.edges[e].updatedAt == at)
  {
    FoundIffThere(s, src, dst);
    var t := PutEdge(s, src, dst, at, newId);
    var k := FindEdge(s, s.Out(src), dst);
    if k < |s.Out(src)| {
      var e := s.Out(src)[k];
      assert e in t.edges && t.edges[e].updatedAt == at;
    } else {
      assert newId in t.edges && t.edges[newId].updatedAt == at;
    }
  }

  lemma NewLasts(s: Snapshot, t: Snapshot, src: Uuid, dst: Uuid, mark: nat)
    requires New(s, src, dst, mark) && EdgesLast(s, t, src, mark)
    ensures New(t, src, dst, mark)
  {
    var e :| e in s.edges && s.edges[e].src == src && s.edges[e].dst == dst && mark <= s.edges[e].updatedAt;
    assert e in t.edges;
  }

  /** After the loop over the links of the page, its edges lead to those links or are old ones. */
  lemma {:induction false} FollowDoes(s: Snapshot, src: Uuid, visits: seq<Visit>, mark: nat)
    requires Consistent(s) && src in s.links && FreshVisits(s, src, visits)
    requires forall v :: v in visits ==> mark <= v.at
    ensures var t := Follow(s, src, visits);
            && LinksLast(s, t) && EdgesLast(s, t, src, mark) && OnlyTargets(s, t, src, visits)
            && forall v :: v in visits ==>
                 v.url in t.urls && New(t, src, t.urls[v.url], mark) && Renewed(t, src, visits, t.urls[v.url])
    decreases |visits|
  {
    hide Consistent, New, Renewed, FreshVisit, FollowOne, LinksLast;
    if visits == [] {
      LinksLastRefl(s);
    } else {
      var v, m, t := visits[0], FollowOne(s, src, visits[0]), Follow(s, src, visits);
      FollowOneDoes(s, src, v, mark);
      FollowDoes(m, src, visits[1..], mark);
      LinksLastTrans(s, m, t);
      EdgesLastTrans(s, m, t, src, mark);
      UrlLasts(m, t, v.url);
      NewLasts(m, t, src, m.urls[v.url], mark);
      TargetsTrans(s, m, t, src, visits);
      RenewedLasts(m, t, src, visits, m.urls[v.url], mark);
      forall w | w in visits
        ensures w.url in t.urls && New(t, src, t.urls[w.url], mark) && Renewed(t, src, visits, t.urls[w.url])
      {
        assert w == v || w in visits[1..];
        if w in visits[1..] {
          RenewedMore(t, src, visits, t.urls[w.url]);
        }
      }
    }
  }

  lemma VisitedMore(t: Snapshot, visits: seq<Visit>, e: Edge)
    requires visits != [] && Visited(t, visits[1..], e)
    ensures Visited(t, visits, e)
  {
    var k :| 0 <= k < |visits| - 1 && visits[1..][k].url in t.urls && t.urls[visits[1..][k].url] == e.dst
             && visits[1..][k].at == e.updatedAt;
    assert visits[k + 1] == visits[1..][k];
  }

  lemma RenewedMore(t: Snapshot, src: Uuid, visits: seq<Visit>, dst: Uuid)
    requires visits != [] && Renewed(t, src, visits[1..], dst)
    ensures Renewed(t, src, visits, dst)
  {
    var e :| e in t.edges && t.edges[e].src == src && t.edges[e].dst == dst && Visited(t, visits[1..], t.edges[e]);
    VisitedMore(t, visits, t.edges[e]);
  }

  /** The edge of the first visit keeps its time or gets that of a later visit. */
  lemma RenewedLasts(m: Snapshot, t: Snapshot, src: Uuid, visits: seq<Visit>, dst: Uuid, mark: nat)
    requires visits != [] && Renewed(m, src, [visits[0]], dst) && OnlyTargets(m, t, src, visits[1..])
    requires EdgesLast(m, t, src, mark) && LinksLast(m, t)
    ensures Renewed(t, src, visits, dst)
  {
    var e :| e in m.edges && m.edges[e].src == src && m.edges[e].dst == dst && Visited(m, [visits[0]], m.edges[e]);
    if t.edges[e] == m.edges[e] {
      assert visits[0].url in t.urls && t.urls[visits[0].url] == dst;
      assert Visited(t, visits, t.edges[e]);
    } else {
      VisitedMore(t, visits, t.edges[e]);
    }
  }

  lemma UrlLasts(s: Snapshot, t: Snapshot, url: string)
    requires LinksLast(s, t) && url in s.urls
    ensures url in t.urls && t.urls[url] == s.urls[url]
  {
  }

  lemma LinkLasts(s: Snapshot, t: Snapshot, id: Uuid)
    requires LinksLast(s, t) && id in s.links
    ensures id in t.links
  {
  }

  lemma EdgesLastTrans(s: Snapshot, m: Snapshot, t: Snapshot, src: Uuid, mark: nat)
    requires EdgesLast(s, m, src, mark) && EdgesLast(m, t, src, mark)
    ensures EdgesLast(s, t, src, mark)
  {
  }

  lemma TargetsTrans(s: Snapshot, m: Snapshot, t: Snapshot, src: Uuid, visits: seq<Visit>)
    requires visits != [] && visits[0].url in m.urls && visits[0].url in t.urls
    requires t.urls[visits[0].url] == m.urls[visits[0].url]
    requires forall e :: e in m.edges ==>
               || (e in s.edges && m.edges[e] == s.edges[e])
               || (m.edges[e].src == src && m.edges[e].dst == m.urls[visits[0].url]
                   && m.edges[e].updatedAt == visits[0].at)
    requires OnlyTargets(m, t, src, visits[1..])
    ensures OnlyTargets(s, t, src, visits)
  {
    forall e | e in t.edges
      ensures (e in s.edges && t.edges[e] == s.edges[e])
              || (t.edges[e].src == src && Visited(t, visits, t.edges[e]))
    {
      if e in m.edges && t.edges[e] == m.edges[e] {
        if !(e in s.edges && m.edges[e] == s.edges[e]) {
          assert visits[0].url in t.urls && t.urls[visits[0].url] == t.edges[e].dst;
        }
      } else {
        var k :| 0 <= k < |visits| - 1 && visits[1..][k].url in t.urls && t.urls[visits[1..][k].url] == t.edges[e].dst
                 && visits[1..][k].at == t.edges[e].updatedAt;
        assert visits[k + 1] == visits[1..][k];
      }
    }
  }

  // ---------------------------------------------------------------- crawling a page

  lemma PutLinkDoes(s: Snapshot, url: string, retrievedAt: nat, newId: Uuid)
    requires Consistent(s) && FreshLink(s, url, newId)
    ensures LinksOk(s)
    ensures var t := PutLink(s, url, retrievedAt, newId);
            && Consistent(t) && LinksLast(s, t) && t.edges == s.edges
            && url in t.urls && t.urls[url] == LinkId(s, url, newId) && t.urls[url] in t.links
  {
    PutLinkKeeps(s, url, retrievedAt, newId);
    ApplyLinksLast(s, UpsertLink(url, retrievedAt, newId));
  }

  lemma LinkedDoes(s: Snapshot, p: Page)
    requires Consistent(s) && FreshPage(s, p) && forall v :: v in p.links ==> p.mark <= v.at
    ensures var t, src := Linked(s, p), LinkId(s, p.url, p.newId);
            && LinksLast(s, t) && EdgesLast(s, t, src, p.mark) && OnlyTargets(s, t, src, p.links)
            && forall v :: v in p.links ==>
                 v.url in t.urls && New(t, src, t.urls[v.url], p.mark) && Renewed(t, src, p.links, t.urls[v.url])
  {
    hide Consistent, New, Renewed, FreshVisits, FreshMentions, LinksLast, PutLink, LinkId, IsTarget;
    var src := LinkId(s, p.url, p.newId);
    PutLinkDoes(s, p.url, p.retrievedAt, p.newId);
    var a := PutLink(s, p.url, p.retrievedAt, p.newId);
    var b := Mention(a, p.noFollow);
    LinkLasts(a, b, src);
    FollowDoes(b, src, p.links, p.mark);
    LinksLastTrans(s, a, b);
    LinksLastTrans(s, b, Linked(s, p));
  }

  /** A link target of the page was linked at or after the mark before it was crawled again: a clock
      that does not advance between two crawls is what lets an old edge survive. */
  ghost predicate Lingering(s: Snapshot, p: Page, dst: Uuid)
    requires Consistent(s)
  {
    New(s, LinkId(s, p.url, p.newId), dst, p.mark)
  }

  /** The page's edges afterwards: to the links on it, and to lingering older targets. */
  lemma TargetsAfter(s: Snapshot, p: Page, dst: Uuid)
    requires Consistent(s) && FreshPage(s, p) && forall v :: v in p.links ==> p.mark <= v.at
    ensures HasEdge(Process(s, p), LinkId(s, p.url, p.newId), dst)
       <==> IsTarget(Process(s, p), p.links, dst) || Lingering(s, p, dst)
  {
    hide Consistent, FreshPage, Linked, FreshOnes, LinkId, LinksLast;
    var src, l, t := LinkId(s, p.url, p.newId), Linked(s, p), Process(s, p);
    LinkedDoes(s, p);
    assert l.urls == t.urls;
    assert New(l, src, dst, p.mark) <==> HasEdge(t, src, dst) by {
      SweptTargets(l, src, dst, p.mark);
    }
    assert New(l, src, dst, p.mark) <==> IsTarget(l, p.links, dst) || New(s, src, dst, p.mark) by {
      NewTargets(s, l, src, dst, p.mark, p.links);
    }
  }

  lemma SweptTargets(l: Snapshot, src: Uuid, dst: Uuid, mark: nat)
    requires Consistent(l)
    ensures ListOk(l, src) && (New(l, src, dst, mark) <==> HasEdge(DropStale(l, src, mark), src, dst))
  {
    assert ListOk(l, src);
    var t := DropStale(l, src, mark);
    if e :| e in l.edges && l.edges[e].src == src && l.edges[e].dst == dst && mark <= l.edges[e].updatedAt {
      assert e in t.edges;
    }
    if e :| e in t.edges && t.edges[e].src == src && t.edges[e].dst == dst {
      assert e in l.edges && !Stale(l, src, mark, e);
    }
  }

  lemma NewTargets(s: Snapshot, l: Snapshot, src: Uuid, dst: Uuid, mark: nat, visits: seq<Visit>)
    requires EdgesLast(s, l, src, mark) && OnlyTargets(s, l, src, visits)
    requires forall v :: v in visits ==> v.url in l.urls && New(l, src, l.urls[v.url], mark)
    ensures New(l, src, dst, mark) <==> IsTarget(l, visits, dst) || New(s, src, dst, mark)
  {
    if New(s, src, dst, mark) {
      NewLasts(s, l, src, dst, mark);
    }
    if IsTarget(l, visits, dst) {
      var k :| 0 <= k < |visits| && visits[k].url in l.urls && l.urls[visits[k].url] == dst;
      assert visits[k] in visits;
    }
  }

  /** An edge of the page that is not older than the mark before the page is crawled. */
  ghost predicate Survivor(s: Snapshot, p: Page, e: Uuid) {
    e in s.edges && s.edges[e].src == LinkId(s, p.url, p.newId) && p.mark <= s.edges[e].updatedAt
  }

  /** A link with this URL is on the page. */
  ghost predicate Listed(p: Page, url: string) {
    exists k :: 0 <= k < |p.links| && p.links[k].url == url
  }

  /** The edge leads to a stored link whose URL is on the page. */
  ghost predicate LeadsToListed(s: Snapshot, p: Page, e: Uuid) {
    e in s.edges && s.edges[e].dst in s.links && Listed(p, s.links[s.edges[e].dst].url)
  }

  /** The page links to precisely the links on it. */
  ghost predicate Exact(s: Snapshot, p: Page)
    requires Consistent(s) && FreshPage(s, p)
  {
    forall dst :: HasEdge(Process(s, p), LinkId(s, p.url, p.newId), dst) <==> IsTarget(Process(s, p), p.links, dst)
  }

  /** Recrawling is exact if and only if every edge of the page that is not older than the mark leads to
      a link whose URL is on the page. */
  lemma RecrawlExactIff(s: Snapshot, p: Page)
    requires Consistent(s) && FreshPage(s, p) && forall v :: v in p.links ==> p.mark <= v.at
    ensures Exact(s, p) <==> forall e :: Survivor(s, p, e) ==> LeadsToListed(s, p, e)
  {
    hide Consistent, FreshPage, Process, HasEdge, IsTarget, Lingering, Survivor;
    if Exact(s, p) {
      forall e | Survivor(s, p, e) ensures LeadsToListed(s, p, e) {
        SurvivorLingers(s, p, e);
        TargetsAfter(s, p, s.edges[e].dst);
        TargetByUrl(s, p, s.edges[e].dst);
      }
    }
    if forall e :: Survivor(s, p, e) ==> LeadsToListed(s, p, e) {
      forall dst
        ensures HasEdge(Process(s, p), LinkId(s, p.url, p.newId), dst) <==> IsTarget(Process(s, p), p.links, dst)
      {
        TargetsAfter(s, p, dst);
        if Lingering(s, p, dst) {
          var e := LingerersSurvive(s, p, dst);
          TargetByUrl(s, p, dst);
        }
      }
    }
  }

  lemma SurvivorLingers(s: Snapshot, p: Page, e: Uuid)
    requires Consistent(s) && Survivor(s, p, e)
    ensures e in s.edges && s.edges[e].dst in s.links && Lingering(s, p, s.edges[e].dst)
  {
    assert EdgeOk(s, e);
  }

  lemma LingerersSurvive(s: Snapshot, p: Page, dst: Uuid) returns (e: Uuid)
    requires Consistent(s) && Lingering(s, p, dst)
    ensures Survivor(s, p, e) && e in s.edges && s.edges[e].dst == dst && dst in s.links
  {
    e :| e in s.edges && s.edges[e].src == LinkId(s, p.url, p.newId) && s.edges[e].dst == dst
         && p.mark <= s.edges[e].updatedAt;
    assert EdgeOk(s, e);
  }

  /** A link stored before the crawl is on the page if its URL is. */
  lemma TargetByUrl(s: Snapshot, p: Page, dst: Uuid)
    requires Consistent(s) && FreshPage(s, p) && (forall v :: v in p.links ==> p.mark <= v.at) && dst in s.links
    ensures IsTarget(Process(s, p), p.links, dst) <==> Listed(p, s.links[dst].url)
  {
    hide FreshPage, Process, EdgeOk, ListOk;
    OthersSurvive(s, p);
    var t := Process(s, p);
    assert dst in t.links && t.links[dst].url == s.links[dst].url && s.urls[s.links[dst].url] == dst;
    if k :| 0 <= k < |p.links| && p.links[k].url == s.links[dst].url {
      assert p.links[k].url in t.urls && t.urls[p.links[k].url] == dst;
    }
  }

  /** In particular when the mark is later than all older edges of the page; a target that is only
      mentioned, not to be followed, then has no edge. */
  lemma RecrawlExact(s: Snapshot, p: Page, dst: Uuid)
    requires Consistent(s) && FreshPage(s, p) && forall v :: v in p.links ==> p.mark <= v.at
    requires forall e :: e in s.edges && s.edges[e].src == LinkId(s, p.url, p.newId) ==> s.edges[e].updatedAt < p.mark
    ensures HasEdge(Process(s, p), LinkId(s, p.url, p.newId), dst) <==> IsTarget(Process(s, p), p.links, dst)
  {
    hide Consistent, FreshPage, Process;
    TargetsAfter(s, p, dst);
  }

  /** Crawling a page leaves the edges of all other pages as they are and loses no link. */
  lemma OthersSurvive(s: Snapshot, p: Page)
    requires Consistent(s) && FreshPage(s, p) && forall v :: v in p.links ==> p.mark <= v.at
    ensures var t, src := Process(s, p), LinkId(s, p.url, p.newId);
            && LinksLast(s, t)
            && (forall e :: e in s.edges && s.edges[e].src != src ==> e in t.edges && t.edges[e] == s.edges[e])
            && (forall e :: e in t.edges && t.edges[e].src != src ==> e in s.edges && t.edges[e] == s.edges[e])
            && (forall v :: v in p.noFollow || v in p.links ==> v.url in t.urls)
  {
    hide Consistent, FreshPage, FreshOnes, New, IsTarget;
    LinkedDoes(s, p);
    LinkedUrls(s, p);
  }

  lemma LinkedUrls(s: Snapshot, p: Page)
    requires Consistent(s) && FreshPage(s, p) && forall v :: v in p.links ==> p.mark <= v.at
    ensures forall v :: v in p.noFollow || v in p.links ==> v.url in Linked(s, p).urls
  {
    hide Consistent, New, FreshVisits, FreshMentions, PutLink, LinkId, IsTarget;
    PutLinkDoes(s, p.url, p.retrievedAt, p.newId);
    var b := Mention(PutLink(s, p.url, p.retrievedAt, p.newId), p.noFollow);
    FollowDoes(b, LinkId(s, p.url, p.newId), p.links, p.mark);
  }

  // ---------------------------------------------------------------- when links were retrieved

  ghost predicate OnPage(visits: seq<Visit>, url: string) {
    exists k :: 0 <= k < |visits| && visits[k].url == url
  }

  /** Links that were there are as they were; new ones are visited ones that were never retrieved. */
  ghost predicate OnlyFound(s: Snapshot, t: Snapshot, visits: seq<Visit>) {
    && (forall i :: i in s.links ==> i in t.links && t.links[i] == s.links[i])
    && (forall i :: i in t.links && i !in s.links ==> t.links[i].retrievedAt == 0 && OnPage(visits, t.links[i].url))
    && (forall u :: u in s.urls ==> u in t.urls && t.urls[u] == s.urls[u])
    && (forall u :: u in t.urls && u !in s.urls ==> OnPage(visits, u) && t.urls[u] !in s.links)
  }

  lemma OnlyFoundRefl(s: Snapshot, visits: seq<Visit>)
    ensures OnlyFound(s, s, visits)
  {
  }

  lemma OnPageOf(a: seq<Visit>, b: seq<Visit>, url: string)
    ensures OnPage(a + b, url) <==> OnPage(a, url) || OnPage(b, url)
  {
    if k :| 0 <= k < |a| && a[k].url == url {
      assert (a + b)[k] == a[k];
    }
    if k :| 0 <= k < |b| && b[k].url == url {
      assert (a + b)[|a| + k] == b[k];
    }
  }

  lemma OnlyFoundTrans(s: Snapshot, m: Snapshot, t: Snapshot, a: seq<Visit>, b: seq<Visit>)
    requires OnlyFound(s, m, a) && OnlyFound(m, t, b)
    ensures OnlyFound(s, t, a + b)
  {
    hide OnPage;
    forall u ensures OnPage(a + b, u) <==> OnPage(a, u) || OnPage(b, u) {
      OnPageOf(a, b, u);
    }
  }

  lemma FoundOne(s: Snapshot, v: Visit)
    requires Consistent(s) && FreshLink(s, v.url, v.linkId)
    ensures LinksOk(s) && OnlyFound(s, PutLink(s, v.url, ZERO_TIME, v.linkId), [v])
  {
    hide EdgeOk, ListOk, Parallel;
    assert [v][0] == v;
  }

  lemma {:induction false} MentionFinds(s: Snapshot, visits: seq<Visit>)
    requires Consistent(s) && FreshMentions(s, visits)
    ensures OnlyFound(s, Mention(s, visits), visits)
    decreases |visits|
  {
    hide Consistent, OnlyFound, PutLink, FreshLink, LinksLast;
    if visits == [] {
      OnlyFoundRefl(s, visits);
    } else {
      FoundOne(s, visits[0]);
      PutLinkDoes(s, visits[0].url, ZERO_TIME, visits[0].linkId);
      var m := PutLink(s, visits[0].url, ZERO_TIME, visits[0].linkId);
      MentionFinds(m, visits[1..]);
      OnlyFoundTrans(s, m, Mention(s, visits), [visits[0]], visits[1..]);
      assert [visits[0]] + visits[1..] == visits;
    }
  }

  lemma FollowOneFinds(s: Snapshot, src: Uuid, v: Visit)
    requires Consistent(s) && src in s.links && FreshVisit(s, src, v)
    ensures OnlyFound(s, FollowOne(s, src, v), [v])
  {
    hide EdgeOk, Parallel, OnPage;
    FoundOne(s, v);
  }

  lemma {:induction false} FollowFinds(s: Snapshot, src: Uuid, visits: seq<Visit>)
    requires Consistent(s) && src in s.links && FreshVisits(s, src, visits)
    ensures OnlyFound(s, Follow(s, src, visits), visits)
    decreases |visits|
  {
    hide Consistent, OnlyFound, FollowOne, FreshVisit;
    if visits == [] {
      OnlyFoundRefl(s, visits);
    } else {
      FollowOneFinds(s, src, visits[0]);
      FollowFinds(FollowOne(s, src, visits[0]), src, visits[1..]);
      OnlyFoundTrans(s, FollowOne(s, src, visits[0]), Follow(s, src, visits), [visits[0]], visits[1..]);
      assert [visits[0]] + visits[1..] == visits;
    }
  }

  /** When the links were retrieved after a page has been crawled: the page itself at the later of its
      old time and the given one, or at the given one if it is new; every other link that was known,
      when it was before. There are no new links but the page and those on it. */
  lemma RetrievalTimes(s: Snapshot, p: Page)
    requires Consistent(s) && FreshPage(s, p)
    ensures var t := Process(s, p);
            && p.url in t.urls && t.urls[p.url] in t.links
            && var own := t.links[t.urls[p.url]];
               && own.url == p.url
               && (if p.url in s.urls
                   then && t.urls[p.url] == s.urls[p.url] && s.urls[p.url] in s.links
                        && own.retrievedAt >= s.links[s.urls[p.url]].retrievedAt && own.retrievedAt >= p.retrievedAt
                        && (own.retrievedAt == s.links[s.urls[p.url]].retrievedAt || own.retrievedAt == p.retrievedAt)
                   else own.retrievedAt == p.retrievedAt)
    ensures forall i :: i in s.links && s.links[i].url != p.url ==>
              i in Process(s, p).links && Process(s, p).links[i] == s.links[i]
    ensures forall i :: i in Process(s, p).links && i !in s.links && Process(s, p).links[i].url != p.url ==>
              && Process(s, p).links[i].retrievedAt == 0
              && OnPage(p.noFollow + p.links, Process(s, p).links[i].url)
  {
    hide EdgeOk, ListOk, Parallel, FreshOnes, OnPage, FreshMentions, FreshVisits, Mention, Follow, Consistent;
    PutLinkIs(s, p.url, p.retrievedAt, p.newId);
    PutLinkDoes(s, p.url, p.retrievedAt, p.newId);
    var a := PutLink(s, p.url, p.retrievedAt, p.newId);
    var b := Mention(a, p.noFollow);
    MentionFinds(a, p.noFollow);
    FollowFinds(b, LinkId(s, p.url, p.newId), p.links);
    OnlyFoundTrans(a, b, Linked(s, p), p.noFollow, p.links);
  }

  /** A link that is found for the first time, whether or not it is to be followed, is found by every
      scan for links to be crawled whose range has it. */
  lemma FoundIsScanned(s: Snapshot, p: Page, v: Visit, from: Uuid, to: Uuid, before: nat)
    requires Consistent(s) && FreshPage(s, p) && (v in p.noFollow || v in p.links)
    requires v.url !in s.urls && v.url != p.url && 0 < before
    ensures v.url in Process(s, p).urls
    ensures var i := Process(s, p).urls[v.url];
            Number(from) <= Number(i) < Number(to) ==> i in Scan.LinksIn(Process(s, p), from, to, before)
  {
    hide Consistent, FreshPage, Process, OnPage, Number;
    var t := Process(s, p);
    StoredUrls(s, p);
    RetrievalTimes(s, p);
    NewIds(s, p, v.url);
    Scan.LinksInIff(t, from, to, before, t.urls[v.url]);
  }

  lemma StoredUrls(s: Snapshot, p: Page)
    requires Consistent(s) && FreshPage(s, p)
    ensures forall v :: v in p.noFollow || v in p.links ==> v.url in Process(s, p).urls
  {
    hide Consistent, New, Renewed, FreshVisits, FreshMentions, PutLink, LinkId, IsTarget, FreshOnes;
    PutLinkDoes(s, p.url, p.retrievedAt, p.newId);
    var b := Mention(PutLink(s, p.url, p.retrievedAt, p.newId), p.noFollow);
    FollowDoes(b, LinkId(s, p.url, p.newId), p.links, 0);
  }

  lemma NewIds(s: Snapshot, p: Page, url: string)
    requires Consistent(s) && FreshPage(s, p) && url in Process(s, p).urls && url !in s.urls
    ensures var t := Process(s, p);
            && t.urls[url] in t.links && t.links[t.urls[url]].url == url && t.urls[url] !in s.links
  {
    hide EdgeOk, ListOk, Parallel, FreshPage, Process;
    RetrievalTimes(s, p);
  }

  lemma SameUrls(l: Snapshot, t: Snapshot, visits: seq<Visit>, e: Edge)
    requires l.urls == t.urls
    ensures Visited(l, visits, e) == Visited(t, visits, e)
  {
  }

  lemma VisitedIsNew(l: Snapshot, p: Page, e: Uuid)
    requires forall v :: v in p.links ==> p.mark <= v.at
    requires e in l.edges && Visited(l, p.links, l.edges[e])
    ensures p.mark <= l.edges[e].updatedAt
  {
    var k :| 0 <= k < |p.links| && p.links[k].url in l.urls && l.urls[p.links[k].url] == l.edges[e].dst
             && p.links[k].at == l.edges[e].updatedAt;
    assert p.links[k] in p.links;
  }

  /** When the page's links were linked: the edge to a link on the page has the time of a visit to it,
      and every other edge of the page is an old one that is not older than the mark. */
  lemma LinkTimes(s: Snapshot, p: Page)
    requires Consistent(s) && FreshPage(s, p) && forall v :: v in p.links ==> p.mark <= v.at
    ensures var t, src := Process(s, p), LinkId(s, p.url, p.newId);
            && (forall v :: v in p.links ==> v.url in t.urls && Renewed(t, src, p.links, t.urls[v.url]))
            && (forall e :: e in t.edges && t.edges[e].src == src ==>
                  Visited(t, p.links, t.edges[e]) || (Survivor(s, p, e) && t.edges[e] == s.edges[e]))
  {
    hide Consistent, New, FreshPage, Linked, FreshOnes, LinkId, IsTarget, Visited;
    LinkedDoes(s, p);
    var l, t, src := Linked(s, p), Process(s, p), LinkId(s, p.url, p.newId);
    forall v | v in p.links ensures v.url in t.urls && Renewed(t, src, p.links, t.urls[v.url]) {
      var e :| e in l.edges && l.edges[e].src == src && l.edges[e].dst == l.urls[v.url]
               && Visited(l, p.links, l.edges[e]);
      VisitedIsNew(l, p, e);
      SameUrls(l, t, p.links, l.edges[e]);
      assert e in t.edges && t.edges[e] == l.edges[e];
    }
    forall e | e in t.edges && Visited(l, p.links, t.edges[e]) ensures Visited(t, p.links, t.edges[e]) {
      SameUrls(l, t, p.links, t.edges[e]);
    }
  }

  // ---------------------------------------------------------------- an inexact recrawl

  const PAGE: Uuid := NIL
  const OTHER: Uuid := [1, 0, 0, 0, 0, 0, 0, 0, 0, 0, 0, 0, 0, 0, 0, 0]

  /** A page with one edge, last updated at time 5. */
  ghost function OneEdge(): Snapshot {
    Snapshot(map[PAGE := Link(PAGE, "a", 5), OTHER := Link(OTHER, "b", 0)],
             map[OTHER := Edge(OTHER, PAGE, OTHER, 5)],
             map["a" := PAGE, "b" := OTHER],
             map[PAGE := [OTHER]])
  }

  /** The page is crawled again while the clock still reads 5, and no longer has any link. */
  ghost function SameTime(): Page {
    Page("a", PAGE, 5, [], 5, [])
  }

  lemma OneEdgeConsistent()
    ensures Consistent(OneEdge())
  {
    var s := OneEdge();
    assert PAGE[0] != OTHER[0];
    assert "a"[0] != "b"[0];
    assert forall e :: e in s.edges ==> e == OTHER;
    forall src ensures ListOk(s, src) {
      assert s.Out(src) == if src == PAGE then [OTHER] else [];
    }
    assert s.Out(PAGE)[0] == OTHER;
  }

  /** The edge stays, although the page does not link there any more: its time equals the mark. */
  lemma InexactRecrawl()
    ensures Consistent(OneEdge()) && FreshPage(OneEdge(), SameTime())
    ensures !Exact(OneEdge(), SameTime()) && HasEdge(Process(OneEdge(), SameTime()), PAGE, OTHER)
    ensures !IsTarget(Process(OneEdge(), SameTime()), SameTime().links, OTHER)
  {
    hide Consistent, Process;
    var s, p := OneEdge(), SameTime();
    OneEdgeConsistent();
    assert "a" in s.urls && LinkId(s, p.url, p.newId) == PAGE by {
      assert "a"[0] != "b"[0];
    }
    assert Survivor(s, p, OTHER);
    SurvivorLingers(s, p, OTHER);
    TargetsAfter(s, p, OTHER);
  }
}
