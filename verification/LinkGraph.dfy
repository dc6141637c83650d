/** The link graph as a value: what its operations do to the stored links and edges, and what they
    keep. Times are clock readings; identifiers drawn at random are arguments, and "fresh" means what
    the retry loops of the program make sure of: not in use yet. */
module LinkGraph {
  import opened Uuids

  datatype Link = Link(id: Uuid, url: string, retrievedAt: nat)

  datatype Edge = Edge(id: Uuid, src: Uuid, dst: Uuid, updatedAt: nat)

  /** The four maps of the graph. */
  datatype Snapshot = Snapshot(
    links: map<Uuid, Link>,
    edges: map<Uuid, Edge>,
    urls: map<string, Uuid>,
    out: map<Uuid, seq<Uuid>>)
  {
    /** The edge list of a link; a link without one has no edges. */
    ghost function Out(src: Uuid): seq<Uuid> {
      if src in out then out[src] else []
    }
  }

  ghost predicate LinksOk(s: Snapshot) {
    && (forall u :: u in s.urls ==> s.urls[u] in s.links && s.links[s.urls[u]].url == u)
    && (forall i :: i in s.links ==> s.links[i].id == i && s.links[i].url in s.urls && s.urls[s.links[i].url] == i)
  }

  /** The edge is listed exactly under its own source, and its endpoints exist. */
  ghost predicate EdgeOk(s: Snapshot, e: Uuid)
    requires e in s.edges
  {
    && s.edges[e].id == e && s.edges[e].src in s.links && s.edges[e].dst in s.links
    && e in s.Out(s.edges[e].src)
  }

  ghost predicate ListOk(s: Snapshot, src: Uuid) {
    && (forall k :: 0 <= k < |s.Out(src)| ==> s.Out(src)[k] in s.edges && s.edges[s.Out(src)[k]].src == src)
    && (forall k, l :: 0 <= k < l < |s.Out(src)| ==> s.Out(src)[k] != s.Out(src)[l])
  }

  ghost predicate Parallel(s: Snapshot, e: Uuid, f: Uuid)
    requires e in s.edges && f in s.edges
  {
    s.edges[e].src == s.edges[f].src && s.edges[e].dst == s.edges[f].dst
  }

  /** Links and URLs name the same links one-to-one; every edge is listed once, by its source and by
      nobody else; its endpoints are stored; and no two edges run in parallel. */
  ghost predicate Consistent(s: Snapshot) {
    && LinksOk(s)
    && (forall e {:trigger EdgeOk(s, e)} :: e in s.edges ==> EdgeOk(s, e))
    && (forall src {:trigger ListOk(s, src)} :: ListOk(s, src))
    && (forall e, f :: e in s.edges && f in s.edges && Parallel(s, e, f) ==> e == f)
  }

  // ---------------------------------------------------------------- the operations

  function Later(a: nat, b: nat): nat { if a > b then a else b }

  /** The identifier that the link with this URL has after being upserted. */
  ghost function LinkId(s: Snapshot, url: string, newId: Uuid): Uuid {
    if url in s.urls then s.urls[url] else newId
  }

  ghost predicate FreshLink(s: Snapshot, url: string, newId: Uuid) {
    url !in s.urls ==> newId !in s.links
  }

  /** A known URL keeps its identifier and the later of the two times; a new one is added. */
  ghost function PutLink(s: Snapshot, url: string, retrievedAt: nat, newId: Uuid): Snapshot
    requires LinksOk(s)
  {
    if url in s.urls then
      var id := s.urls[url];
      s.(links := s.links[id := Link(id, url, Later(s.links[id].retrievedAt, retrievedAt))])
    else
      s.(links := s.links[newId := Link(newId, url, retrievedAt)], urls := s.urls[url := newId])
  }

  /** The position of the first edge to `dst` in a list of edges. */
  ghost function FindEdge(s: Snapshot, list: seq<Uuid>, dst: Uuid): (k: nat)
    requires forall i :: 0 <= i < |list| ==> list[i] in s.edges
    ensures k <= |list|
    ensures k < |list| ==> s.edges[list[k]].dst == dst
    ensures forall i :: 0 <= i < k ==> s.edges[list[i]].dst != dst
  {
    if list == [] || s.edges[list[0]].dst == dst then 0 else 1 + FindEdge(s, list[1..], dst)
  }

  ghost predicate HasEdge(s: Snapshot, src: Uuid, dst: Uuid) {
    exists e :: e in s.edges && s.edges[e].src == src && s.edges[e].dst == dst
  }

  ghost predicate FreshEdge(s: Snapshot, src: Uuid, dst: Uuid, newId: Uuid) {
    !HasEdge(s, src, dst) ==> newId !in s.edges
  }

  ghost predicate KnownLinks(s: Snapshot, src: Uuid, dst: Uuid) {
    src in s.links && dst in s.links
  }

  /** A known edge gets a new time; a new one is appended to the list of its source. */
  ghost function PutEdge(s: Snapshot, src: Uuid, dst: Uuid, at: nat, newId: Uuid): Snapshot
    requires ListOk(s, src)
  {
    var k := FindEdge(s, s.Out(src), dst);
    if k < |s.Out(src)| then
      var e := s.Out(src)[k];
      s.(edges := s.edges[e := s.edges[e].(updatedAt := at)])
    else
      s.(edges := s.edges[newId := Edge(newId, src, dst, at)], out := s.out[src := s.Out(src) + [newId]])
  }

  /** The edges of the list that are not stale. */
  ghost function FreshOnes(s: Snapshot, list: seq<Uuid>, before: nat): seq<Uuid>
    requires forall i :: 0 <= i < |list| ==> list[i] in s.edges
  {
    if list == [] then []
    else FreshOnes(s, list[..|list| - 1], before)
         + if s.edges[list[|list| - 1]].updatedAt < before then [] else [list[|list| - 1]]
  }

  ghost predicate Stale(s: Snapshot, src: Uuid, before: nat, e: Uuid) {
    e in s.edges && s.edges[e].src == src && s.edges[e].updatedAt < before
  }

  /** The stale edges of a link are gone; its list may become, or be created, empty. */
  ghost function DropStale(s: Snapshot, src: Uuid, before: nat): Snapshot
    requires ListOk(s, src)
  {
    s.(edges := map e | e in s.edges && !Stale(s, src, before, e) :: s.edges[e],
       out := s.out[src := FreshOnes(s, s.Out(src), before)])
  }

  // ---------------------------------------------------------------- what a list of edges says

  /** In a consistent graph the search through the source's list finds an edge exactly if there is one. */
  lemma FoundIffThere(s: Snapshot, src: Uuid, dst: Uuid)
    requires Consistent(s)
    ensures ListOk(s, src) && (FindEdge(s, s.Out(src), dst) < |s.Out(src)| <==> HasEdge(s, src, dst))
  {
    assert ListOk(s, src);
    var list := s.Out(src);
    var k := FindEdge(s, list, dst);
    if k < |list| {
      assert s.edges[list[k]].src == src && s.edges[list[k]].dst == dst;
    }
    if e :| e in s.edges && s.edges[e].src == src && s.edges[e].dst == dst {
      assert EdgeOk(s, e);
      var i :| 0 <= i < |list| && list[i] == e;
    }
  }

  lemma {:induction false} FreshOnesAre(s: Snapshot, list: seq<Uuid>, before: nat)
    requires forall i :: 0 <= i < |list| ==> list[i] in s.edges
    requires forall i, j :: 0 <= i < j < |list| ==> list[i] != list[j]
    ensures forall e :: e in FreshOnes(s, list, before) <==> e in list && s.edges[e].updatedAt >= before
    ensures forall i, j :: 0 <= i < j < |FreshOnes(s, list, before)| ==>
              FreshOnes(s, list, before)[i] != FreshOnes(s, list, before)[j]
  {
    if list != [] {
      FreshOnesAre(s, list[..|list| - 1], before);
      assert list == list[..|list| - 1] + [list[|list| - 1]];
    }
  }

  // ---------------------------------------------------------------- the invariant is kept

  lemma PutLinkKeeps(s: Snapshot, url: string, retrievedAt: nat, newId: Uuid)
    requires Consistent(s) && FreshLink(s, url, newId)
    ensures Consistent(PutLink(s, url, retrievedAt, newId))
  {
    var t := PutLink(s, url, retrievedAt, newId);
    forall e | e in t.edges ensures EdgeOk(t, e) {
      assert EdgeOk(s, e);
    }
    forall src ensures ListOk(t, src) {
      assert ListOk(s, src) && t.Out(src) == s.Out(src);
    }
    assert forall e, f :: e in s.edges && f in s.edges && Parallel(s, e, f) ==> Parallel(t, e, f);
    forall e, f | e in t.edges && f in t.edges && Parallel(t, e, f) ensures e == f {
      assert Parallel(s, e, f);
    }
  }

  lemma TouchKeeps(s: Snapshot, e: Uuid, at: nat)
    requires Consistent(s) && e in s.edges
    ensures Consistent(s.(edges := s.edges[e := s.edges[e].(updatedAt := at)]))
  {
    var t := s.(edges := s.edges[e := s.edges[e].(updatedAt := at)]);
    forall f | f in t.edges ensures EdgeOk(t, f) {
      assert EdgeOk(s, f);
    }
    forall src ensures ListOk(t, src) {
      assert ListOk(s, src) && t.Out(src) == s.Out(src);
    }
    forall f, g | f in t.edges && g in t.edges && Parallel(t, f, g) ensures f == g {
      assert Parallel(s, f, g);
    }
  }

  lemma AddEdgeLists(s: Snapshot, src: Uuid, dst: Uuid, at: nat, newId: Uuid, x: Uuid)
    requires ListOk(s, x) && newId !in s.edges
    ensures ListOk(s.(edges := s.edges[newId := Edge(newId, src, dst, at)],
                      out := s.out[src := s.Out(src) + [newId]]), x)
  {
    var t := s.(edges := s.edges[newId := Edge(newId, src, dst, at)], out := s.out[src := s.Out(src) + [newId]]);
    assert t.Out(x) == if x == src then s.Out(x) + [newId] else s.Out(x);
  }

  lemma AddEdgeKeeps(s: Snapshot, src: Uuid, dst: Uuid, at: nat, newId: Uuid)
    requires Consistent(s) && KnownLinks(s, src, dst) && !HasEdge(s, src, dst) && newId !in s.edges
    ensures Consistent(s.(edges := s.edges[newId := Edge(newId, src, dst, at)],
                          out := s.out[src := s.Out(src) + [newId]]))
  {
    var t := s.(edges := s.edges[newId := Edge(newId, src, dst, at)], out := s.out[src := s.Out(src) + [newId]]);
    forall f | f in t.edges ensures EdgeOk(t, f) {
      if f == newId {
        assert t.Out(src)[|s.Out(src)|] == newId;
      } else {
        assert EdgeOk(s, f);
        assert t.Out(t.edges[f].src)[..|s.Out(t.edges[f].src)|] == s.Out(s.edges[f].src);
      }
    }
    forall x ensures ListOk(t, x) {
      AddEdgeLists(s, src, dst, at, newId, x);
    }
    forall f, g | f in t.edges && g in t.edges && Parallel(t, f, g) ensures f == g {
      if f != newId && g != newId {
        assert Parallel(s, f, g);
      }
    }
  }

  lemma PutEdgeKeeps(s: Snapshot, src: Uuid, dst: Uuid, at: nat, newId: Uuid)
    requires Consistent(s) && KnownLinks(s, src, dst) && FreshEdge(s, src, dst, newId)
    ensures ListOk(s, src) && Consistent(PutEdge(s, src, dst, at, newId))
  {
    hide Consistent;
    FoundIffThere(s, src, dst);
    if HasEdge(s, src, dst) {
      var e := s.Out(src)[FindEdge(s, s.Out(src), dst)];
      TouchKeeps(s, e, at);
    } else {
      AddEdgeKeeps(s, src, dst, at, newId);
    }
  }

  lemma DropStaleLists(s: Snapshot, src: Uuid, before: nat, x: Uuid)
    requires Consistent(s)
    ensures ListOk(s, src) && ListOk(DropStale(s, src, before), x)
  {
    assert ListOk(s, src) && ListOk(s, x);
    FreshOnesAre(s, s.Out(src), before);
    var t := DropStale(s, src, before);
    assert t.Out(x) == if x == src then FreshOnes(s, s.Out(x), before) else s.Out(x);
    forall k | 0 <= k < |t.Out(x)| ensures t.Out(x)[k] in t.edges && t.edges[t.Out(x)[k]].src == x {
      var e := t.Out(x)[k];
      assert e in s.Out(x);
      var i :| 0 <= i < |s.Out(x)| && s.Out(x)[i] == e;
      assert x == src ==> e in FreshOnes(s, s.Out(src), before);
    }
  }

  lemma DropStaleKeeps(s: Snapshot, src: Uuid, before: nat)
    requires Consistent(s)
    ensures ListOk(s, src) && Consistent(DropStale(s, src, before))
  {
    assert ListOk(s, src);
    FreshOnesAre(s, s.Out(src), before);
    var t := DropStale(s, src, before);
    forall e | e in t.edges ensures EdgeOk(t, e) {
      assert EdgeOk(s, e);
      assert s.edges[e].src == src ==> e in FreshOnes(s, s.Out(src), before);
    }
    forall x ensures ListOk(t, x) {
      DropStaleLists(s, src, before, x);
    }
    forall e, f | e in t.edges && f in t.edges && Parallel(t, e, f) ensures e == f {
      assert Parallel(s, e, f);
    }
  }

  // ---------------------------------------------------------------- what callers are promised

  /** Upserting a link, seen from before and after: the link of that URL keeps its identifier and has
      the later of its old time and the given one; a new URL is stored with the given time under the
      new identifier; every other link, and all edges, stay as they were. */
  ghost predicate LinkUpserted(s: Snapshot, t: Snapshot, url: string, at: nat, newId: Uuid) {
    && t.edges == s.edges && t.out == s.out
    && url in t.urls && t.urls[url] in t.links
    && LinkIs(s, t, t.urls[url], url, at, newId)
  }

  ghost predicate LinkIs(s: Snapshot, t: Snapshot, i: Uuid, url: string, at: nat, newId: Uuid)
    requires i in t.links
  {
    && t.links[i].id == i && t.links[i].url == url
    && (if url in s.urls
        then && i == s.urls[url] && i in s.links
             && t.links[i].retrievedAt >= s.links[i].retrievedAt && t.links[i].retrievedAt >= at
             && (t.links[i].retrievedAt == s.links[i].retrievedAt || t.links[i].retrievedAt == at)
        else i == newId && i !in s.links && t.links[i].retrievedAt == at)
    && (forall j :: j in t.links <==> j in s.links || j == i)
    && (forall j :: j in s.links && j != i ==> t.links[j] == s.links[j])
    && (forall u :: u in t.urls <==> u in s.urls || u == url)
    && (forall u :: u in s.urls ==> t.urls[u] == s.urls[u])
  }

  /** Upserting an edge between known links: the edge between them has exactly the given time, it is
      the one there was or a new one at the end of its source's list, and nothing else changes. */
  ghost predicate EdgeUpserted(s: Snapshot, t: Snapshot, src: Uuid, dst: Uuid, at: nat, newId: Uuid) {
    && t.links == s.links && t.urls == s.urls
    && exists e :: e in t.edges && EdgeIs(s, t, e, src, dst, at, newId)
  }

  ghost predicate EdgeIs(s: Snapshot, t: Snapshot, e: Uuid, src: Uuid, dst: Uuid, at: nat, newId: Uuid)
    requires e in t.edges
  {
    && t.edges[e].id == e && t.edges[e].src == src && t.edges[e].dst == dst && t.edges[e].updatedAt == at
    && (forall f :: f in t.edges <==> f in s.edges || f == e)
    && (forall f :: f in s.edges && f != e ==> t.edges[f] == s.edges[f])
    && (if exists f :: f in s.edges && s.edges[f].src == src && s.edges[f].dst == dst
        then e in s.edges && s.edges[e].src == src && s.edges[e].dst == dst && t.out == s.out
        else e == newId && e !in s.edges && t.Out(src) == s.Out(src) + [e])
    && (forall x :: x != src ==> t.Out(x) == s.Out(x))
  }

  /** The list `t` has the elements of `s` that are kept, in the order they have there. */
  ghost predicate Sublist(s: seq<Uuid>, t: seq<Uuid>, kept: set<Uuid>) {
    && (forall e :: e in t <==> e in s && e in kept)
    && forall k, l, i, j :: 0 <= k < l < |t| && 0 <= i < |s| && 0 <= j < |s| && s[i] == t[k] && s[j] == t[l] ==> i < j
  }

  /** Sweeping a link: exactly its edges with an earlier time are gone, from the graph and from its
      list, and nothing else changes. */
  ghost predicate StaleRemoved(s: Snapshot, t: Snapshot, src: Uuid, before: nat) {
    && t.links == s.links && t.urls == s.urls
    && (forall e :: e in t.edges <==> e in s.edges && (s.edges[e].src != src || before <= s.edges[e].updatedAt))
    && (forall e :: e in t.edges ==> t.edges[e] == s.edges[e])
    && Sublist(s.Out(src), t.Out(src), t.edges.Keys)
    && (forall x :: x != src ==> t.Out(x) == s.Out(x))
  }

  lemma PutLinkIs(s: Snapshot, url: string, at: nat, newId: Uuid)
    requires Consistent(s) && FreshLink(s, url, newId)
    ensures LinksOk(s) && LinkUpserted(s, PutLink(s, url, at, newId), url, at, newId)
  {
    hide EdgeOk, ListOk, Parallel;
  }

  lemma PutEdgeIs(s: Snapshot, src: Uuid, dst: Uuid, at: nat, newId: Uuid)
    requires Consistent(s) && KnownLinks(s, src, dst) && FreshEdge(s, src, dst, newId)
    ensures ListOk(s, src) && EdgeUpserted(s, PutEdge(s, src, dst, at, newId), src, dst, at, newId)
  {
    FoundIffThere(s, src, dst);
    var t := PutEdge(s, src, dst, at, newId);
    var k := FindEdge(s, s.Out(src), dst);
    if k < |s.Out(src)| {
      var e := s.Out(src)[k];
      assert EdgeOk(s, e);
      assert EdgeIs(s, t, e, src, dst, at, newId);
    } else {
      assert EdgeIs(s, t, newId, src, dst, at, newId);
    }
  }

  lemma {:induction false} FreshOnesOrder(s: Snapshot, list: seq<Uuid>, before: nat, kept: set<Uuid>)
    requires forall i :: 0 <= i < |list| ==> list[i] in s.edges
    requires forall i, j :: 0 <= i < j < |list| ==> list[i] != list[j]
    requires forall e :: e in list ==> (e in kept <==> before <= s.edges[e].updatedAt)
    ensures Sublist(list, FreshOnes(s, list, before), kept)
  {
    if list != [] {
      var front, last := list[..|list| - 1], list[|list| - 1];
      FreshOnesOrder(s, front, before, kept);
      assert list == front + [last];
      var a, b := FreshOnes(s, front, before), FreshOnes(s, list, before);
      forall k, l, i, j | 0 <= k < l < |b| && 0 <= i < |list| && 0 <= j < |list| && list[i] == b[k] && list[j] == b[l]
        ensures i < j
      {
        assert b[k] == a[k] && a[k] in front;
        if l < |a| {
          assert b[l] == a[l] && a[l] in front;
        }
      }
    }
  }

  lemma DropStaleIs(s: Snapshot, src: Uuid, before: nat)
    requires Consistent(s)
    ensures ListOk(s, src) && StaleRemoved(s, DropStale(s, src, before), src, before)
  {
    assert ListOk(s, src);
    var t := DropStale(s, src, before);
    forall e | e in s.Out(src) ensures e in t.edges.Keys <==> before <= s.edges[e].updatedAt {
    }
    FreshOnesOrder(s, s.Out(src), before, t.edges.Keys);
  }

  // ---------------------------------------------------------------- any sequence of operations

  datatype Op =
    | UpsertLink(url: string, retrievedAt: nat, newId: Uuid)
    | UpsertEdge(src: Uuid, dst: Uuid, at: nat, newId: Uuid)
    | RemoveStaleEdges(src: Uuid, before: nat)

  /** The identifiers drawn for the operation are not in use yet. */
  ghost predicate Fresh(s: Snapshot, op: Op) {
    match op
    case UpsertLink(url, _, newId) => FreshLink(s, url, newId)
    case UpsertEdge(src, dst, _, newId) => FreshEdge(s, src, dst, newId)
    case RemoveStaleEdges(_, _) => true
  }

  /** An edge between unknown links is refused and changes nothing. */
  ghost function Apply(s: Snapshot, op: Op): Snapshot
    requires Consistent(s)
  {
    assert op.UpsertEdge? || op.RemoveStaleEdges? ==> ListOk(s, op.src);
    match op
    case UpsertLink(url, retrievedAt, newId) => PutLink(s, url, retrievedAt, newId)
    case UpsertEdge(src, dst, at, newId) => if KnownLinks(s, src, dst) then PutEdge(s, src, dst, at, newId) else s
    case RemoveStaleEdges(src, before) => DropStale(s, src, before)
  }

  lemma ApplyKeeps(s: Snapshot, op: Op)
    requires Consistent(s) && Fresh(s, op)
    ensures Consistent(Apply(s, op))
  {
    hide Consistent, PutLink, PutEdge, DropStale, FreshLink, FreshEdge;
    match op
    case UpsertLink(url, retrievedAt, newId) => PutLinkKeeps(s, url, retrievedAt, newId);
    case UpsertEdge(src, dst, at, newId) =>
      if KnownLinks(s, src, dst) {
        PutEdgeKeeps(s, src, dst, at, newId);
      }
    case RemoveStaleEdges(src, before) => DropStaleKeeps(s, src, before);
  }

  /** Links stay, with their identifiers, and are never retrieved earlier than before. */
  ghost predicate LinksLast(s: Snapshot, t: Snapshot) {
    && (forall u :: u in s.urls ==> u in t.urls && t.urls[u] == s.urls[u])
    && (forall i :: i in s.links ==>
          i in t.links && t.links[i].url == s.links[i].url && s.links[i].retrievedAt <= t.links[i].retrievedAt)
  }

  lemma ApplyLinksLast(s: Snapshot, op: Op)
    requires Consistent(s) && Fresh(s, op)
    ensures LinksLast(s, Apply(s, op))
  {
    hide ListOk, EdgeOk, FreshEdge, FindEdge, FreshOnes;
  }

  ghost predicate Reaches(trail: seq<Snapshot>, ops: seq<Op>) {
    && |trail| == |ops| + 1 && trail[0] == Snapshot(map[], map[], map[], map[])
    && forall k :: 0 <= k < |ops| ==>
         Consistent(trail[k]) && Fresh(trail[k], ops[k]) && trail[k + 1] == Apply(trail[k], ops[k])
  }

  /** Whatever is done to a new graph, it is consistent at every point, and from any point to any
      later one no link is lost, no identifier changes and no retrieval time decreases. */
  lemma {:induction false} EveryHistory(trail: seq<Snapshot>, ops: seq<Op>, m: nat, n: nat)
    requires Reaches(trail, ops) && m <= n <= |ops|
    ensures Consistent(trail[n]) && LinksLast(trail[m], trail[n])
    decreases n
  {
    hide Apply, Fresh, LinksLast;
    if n == 0 {
      NewGraph();
      LinksLastRefl(trail[0]);
    } else {
      ApplyKeeps(trail[n - 1], ops[n - 1]);
      if m == n {
        LinksLastRefl(trail[n]);
      } else {
        EveryHistory(trail, ops, m, n - 1);
        ApplyLinksLast(trail[n - 1], ops[n - 1]);
        LinksLastTrans(trail[m], trail[n - 1], trail[n]);
      }
    }
  }

  lemma NewGraph()
    ensures Consistent(Snapshot(map[], map[], map[], map[]))
  {
  }

  lemma LinksLastRefl(s: Snapshot)
    ensures LinksLast(s, s)
  {
  }

  lemma LinksLastTrans(s: Snapshot, t: Snapshot, u: Snapshot)
    requires LinksLast(s, t) && LinksLast(t, u)
    ensures LinksLast(s, u)
  {
  }
}
