/** Scanning the links and edges of a graph by ranges of identifiers. */
module Scan {
  import opened Uuids
  import opened LinkGraph
  import Partition

  /** Identifiers are compared as strings; the upper bound is exclusive. */
  predicate Within(id: Uuid, from: Uuid, to: Uuid) {
    !Before(String(id), String(from)) && Before(String(id), String(to))
  }

  lemma WithinIsNumeric(id: Uuid, from: Uuid, to: Uuid)
    ensures Within(id, from, to) <==> Number(from) <= Number(id) < Number(to)
  {
    hide Before, String;
    StringOrder(id, from);
    StringOrder(id, to);
  }

  /** The links in the range that were retrieved before the given time. */
  ghost function LinksIn(s: Snapshot, from: Uuid, to: Uuid, before: nat): set<Uuid> {
    set i | i in s.links && Within(i, from, to) && s.links[i].retrievedAt < before
  }

  /** The edges from the range that were updated before the given time. */
  ghost function EdgesIn(s: Snapshot, from: Uuid, to: Uuid, before: nat): set<Uuid> {
    set e | e in s.edges && Within(s.edges[e].src, from, to) && s.edges[e].updatedAt < before
  }

  /** Which links a scan finds: the bounds are numbers, the lower one included, and the time is earlier. */
  lemma LinksInIff(s: Snapshot, from: Uuid, to: Uuid, before: nat, i: Uuid)
    ensures i in LinksIn(s, from, to, before) <==>
              i in s.links && Number(from) <= Number(i) < Number(to) && s.links[i].retrievedAt < before
  {
    hide Within, Number;
    WithinIsNumeric(i, from, to);
  }

  lemma EdgesInIff(s: Snapshot, from: Uuid, to: Uuid, before: nat, e: Uuid)
    ensures e in EdgesIn(s, from, to, before) <==>
              && e in s.edges && Number(from) <= Number(s.edges[e].src) < Number(to)
              && s.edges[e].updatedAt < before
  {
    hide Within, Number;
    if e in s.edges {
      WithinIsNumeric(s.edges[e].src, from, to);
    }
  }

  /** The partition that the identifier belongs to. */
  ghost function Home(r: Partition.Range, id: Uuid): (k: int)
    requires r.NonDecreasing() && r.rangeSplits != []
    ensures -1 <= k < |r.rangeSplits|
  {
    if r.Lo(0) <= Number(id) < r.Hi(|r.rangeSplits| - 1) then Partition.Locate(r, Number(id), 0) else -1
  }

  /** An identifier of the whole range is within one partition, the others are within none. */
  lemma WithinHome(r: Partition.Range, k: nat, id: Uuid)
    requires r.NonDecreasing() && k < |r.rangeSplits|
    ensures Within(id, r.PartitionExtents(k).value.0, r.PartitionExtents(k).value.1) <==> k == Home(r, id)
    ensures Within(id, r.Extents().0, r.Extents().1) <==> Home(r, id) != -1
  {
    hide Within;
    WithinIsNumeric(id, r.PartitionExtents(k).value.0, r.PartitionExtents(k).value.1);
    WithinIsNumeric(id, r.Extents().0, r.Extents().1);
    Partition.OnePartition(r, Number(id), k);
  }

  /** Every link that a scan of the whole range finds is found by the scan of exactly one partition,
      and a partition finds nothing else; so too for edges, which go with their source. */
  lemma PartitionedScan(s: Snapshot, r: Partition.Range, before: nat, k: nat)
    requires r.NonDecreasing() && k < |r.rangeSplits|
    ensures var from, to := r.PartitionExtents(k).value.0, r.PartitionExtents(k).value.1;
            var all := (r.Extents().0, r.Extents().1);
            && LinksIn(s, from, to, before) == (set i | i in LinksIn(s, all.0, all.1, before) && Home(r, i) == k)
            && EdgesIn(s, from, to, before)
               == (set e | e in EdgesIn(s, all.0, all.1, before) && Home(r, s.edges[e].src) == k)
    ensures forall i :: i in LinksIn(s, r.Extents().0, r.Extents().1, before) ==> 0 <= Home(r, i) < |r.rangeSplits|
    ensures forall e :: e in EdgesIn(s, r.Extents().0, r.Extents().1, before) ==>
              0 <= Home(r, s.edges[e].src) < |r.rangeSplits|
  {
    hide Within, Home, Partition.Range.NonDecreasing;
    forall id: Uuid
      ensures Within(id, r.PartitionExtents(k).value.0, r.PartitionExtents(k).value.1) <==> k == Home(r, id)
                    ensures Within(id, r.Extents().0, r.Extents().1) <==> Home(r, id) != -1
    {
      WithinHome(r, k, id);
    }
  }

  /** This holds for the partitions of the full range, however many there are. */
  lemma FullRangeScan(s: Snapshot, r: Partition.Range, n: nat, before: nat, k: nat)
    requires 1 <= n <= 256 && Partition.IsFullSplit(r, n) && k < n
    ensures r.NonDecreasing() && k < |r.rangeSplits|
    ensures LinksIn(s, r.PartitionExtents(k).value.0, r.PartitionExtents(k).value.1, before)
         == set i | i in LinksIn(s, NIL, Partition.MAX, before) && Home(r, i) == k
    ensures EdgesIn(s, r.PartitionExtents(k).value.0, r.PartitionExtents(k).value.1, before)
         == set e | e in EdgesIn(s, NIL, Partition.MAX, before) && Home(r, s.edges[e].src) == k
  {
    hide Within, Home, Number, LinksIn, EdgesIn;
    Partition.FullRangeTiles(r, n, k);
    PartitionedScan(s, r, before, k);
  }
}
