/** Splitting the UUID space into partitions. */
module Partition {
  import opened Options
  import opened Uuids

  datatype Error = EmptyRange | NoPartitions | SplitNotUuid | BadIndex

  datatype Result<T> = Ok(value: T) | Err(error: Error)

  /** `rangeSplits[i]` is the exclusive upper bound of partition i. */
  datatype Range = Range(start: Uuid, rangeSplits: seq<Uuid>) {
    /** The range as a whole. */
    function Extents(): (Uuid, Uuid)
      requires rangeSplits != []
    {
      (start, rangeSplits[|rangeSplits| - 1])
    }

    function PartitionExtents(partition: int): Result<(Uuid, Uuid)> {
      if partition < 0 || partition >= |rangeSplits| then Err(BadIndex)
      else if partition == 0 then Ok((start, rangeSplits[0]))
      else Ok((rangeSplits[partition - 1], rangeSplits[partition]))
    }

    /** The inclusive lower and the exclusive upper bound of a partition, as numbers. */
    function Lo(k: nat): nat
      requires k < |rangeSplits|
    {
      Number(PartitionExtents(k).value.0)
    }

    function Hi(k: nat): nat
      requires k < |rangeSplits|
    {
      Number(PartitionExtents(k).value.1)
    }

    /** Every partition is non-empty; they meet end to end by construction. */
    ghost predicate Increasing() {
      forall k: nat :: k < |rangeSplits| ==> Lo(k) < Hi(k)
    }

    /** No partition ends before it starts. */
    ghost predicate NonDecreasing() {
      forall k: nat :: k < |rangeSplits| ==> Lo(k) <= Hi(k)
    }

    ghost predicate Contains(k: nat, x: nat) {
      k < |rangeSplits| && Lo(k) <= x < Hi(k)
    }

    ghost predicate InRange(x: nat) {
      rangeSplits != [] && Lo(0) <= x < Hi(|rangeSplits| - 1)
    }

    ghost predicate InSome(x: nat) {
      exists k: nat :: Contains(k, x)
    }

    /** The partitions tile the range: every value of the range is in exactly one of them, every other
        value in none. */
    ghost predicate Tiles() {
      && (forall x: nat :: InRange(x) <==> InSome(x))
      && (forall x: nat, k: nat, l: nat :: Contains(k, x) && Contains(l, x) ==> k == l)
    }
  }

  /** An index outside the partitions is an error; the partitions begin where the range does, meet end
      to end, and end where the range does. */
  lemma ExtentsMeet(r: Range, k: int)
    ensures k < 0 || |r.rangeSplits| <= k <==> r.PartitionExtents(k) == Err(BadIndex)
    ensures 0 <= k < |r.rangeSplits| ==> r.PartitionExtents(k).Ok?
    ensures r.rangeSplits != [] ==>
              && r.PartitionExtents(0).value.0 == r.Extents().0
              && r.PartitionExtents(|r.rangeSplits| - 1).value.1 == r.Extents().1
    ensures 0 < k < |r.rangeSplits| ==> r.PartitionExtents(k).value.0 == r.PartitionExtents(k - 1).value.1
  {
  }

  const MAX: Uuid := [255, 255, 255, 255, 255, 255, 255, 255, 255, 255, 255, 255, 255, 255, 255, 255]

  /** A UUID is read from exactly 16 bytes. */
  function FromBytes(b: seq<Byte>): Option<Uuid> {
    if |b| == 16 then
      var u: Uuid := b;
      Some(u)
    else None
  }

  /** (end - start + 1) / n */
  function PartSize(start: Uuid, end: Uuid, n: nat): nat
    requires 1 <= n && Number(start) < Number(end)
  {
    (Number(end) - Number(start) + 1) / n
  }

  function Times(x: nat, k: nat): nat { x * k }

  lemma SplitsBelow(start: Uuid, end: Uuid, n: nat, k: nat)
    requires Number(start) < Number(end) && 1 <= k < n
    ensures Times(PartSize(start, end, n), k) <= Number(end) - Number(start) + 1 - PartSize(start, end, n)
    ensures Times(PartSize(start, end, n), k) < Pow256(16)
  {
    hide Number, Pow256;
    QuotientTimes(Number(end) - Number(start) + 1, n, k);
    NumberBound(end);
    PowPositive(16);
  }

  lemma QuotientTimes(all: nat, n: nat, k: nat)
    requires 1 <= k < n
    ensures Times(all / n, k) <= all - all / n
    ensures all / n == 0 ==> Times(all / n, k) == 0
  {
    var q := all / n;
    assert n * q <= all;
    MulUp(k + 1, n, q);
    assert (k + 1) * q == Times(q, k) + q;
  }

  /** The k-th multiple of the partition size reads back as a UUID exactly if it has 16 bytes. */
  lemma SplitReads(start: Uuid, end: Uuid, n: nat, k: nat)
    requires Number(start) < Number(end) && 1 <= k < n
    ensures var x := Times(PartSize(start, end, n), k);
            && (FromBytes(MinBytes(x)).Some? <==> Pow256(15) <= x)
            && (FromBytes(MinBytes(x)).Some? ==> Number(FromBytes(MinBytes(x)).value) == x)
  {
    hide Times, PartSize;
    var x := Times(PartSize(start, end, n), k);
    SplitsBelow(start, end, n, k);
    MinBytesLength(x, 15);
    MinBytesLength(x, 16);
  }

  /** Splits [start, end) - as long as every split has the 16 bytes of a UUID. The splits are multiples
      of the partition size; `start` is not added to them. */
  method NewRange(start: Uuid, end: Uuid, numPartitions: int) returns (r: Result<Range>)
    ensures Number(end) <= Number(start) ==> r == Err(EmptyRange)
    ensures Number(start) < Number(end) && numPartitions <= 0 ==> r == Err(NoPartitions)
    ensures Number(start) < Number(end) && 1 <= numPartitions ==>
              if numPartitions == 1 || Pow256(15) <= PartSize(start, end, numPartitions)
              then r.Ok? && IsSplit(r.value, start, end, numPartitions)
              else r == Err(SplitNotUuid)
  {
    hide Number, Pow256, PartSize, Times, Less, FromBytes, MinBytes;
    LessIsNumeric(start, end);
    if !Less(start, end) {
      return Err(EmptyRange);
    } else if numPartitions <= 0 {
      return Err(NoPartitions);
    }
    var partSize := PartSize(start, end, numPartitions);
    var ranges := new Uuid[numPartitions];
    for partition := 0 to numPartitions - 1
      invariant partition == 0 || Pow256(15) <= partSize
      invariant forall p :: 0 <= p < partition ==> Number(ranges[p]) == Times(partSize, p + 1)
    {
      var to := FromBytes(MinBytes(Times(partSize, partition + 1)));
      SplitReads(start, end, numPartitions, partition + 1);
      Multiples(partSize, partition + 1);
      if to == None {
        return Err(SplitNotUuid);
      }
      ranges[partition] := to.value;
    }
    ranges[numPartitions - 1] := end;
    return Ok(Range(start, ranges[..]));
  }

  lemma Multiples(x: nat, k: nat)
    requires 1 <= k
    ensures x <= Times(x, k) && Times(x, 1) == x
  {
  }

  ghost predicate IsSplit(r: Range, start: Uuid, end: Uuid, n: nat)
    requires 1 <= n && Number(start) < Number(end)
  {
    && r.start == start && |r.rangeSplits| == n && r.rangeSplits[n - 1] == end
    && forall p :: 0 <= p < n - 1 ==> Number(r.rangeSplits[p]) == Times(PartSize(start, end, n), p + 1)
  }

  /** The bounds between partitions are multiples of one size: the largest of which `n` fit into the
      range with its end included. */
  lemma SplitIs(r: Range, start: Uuid, end: Uuid, n: nat) returns (size: nat)
    requires 1 <= n && Number(start) < Number(end) && IsSplit(r, start, end, n)
    ensures size * n <= Number(end) - Number(start) + 1 < (size + 1) * n
    ensures forall k: nat :: k + 1 < n ==> Number(r.rangeSplits[k]) == size * (k + 1)
  {
    hide Number;
    size := PartSize(start, end, n);
  }

  // ---------------------------------------------------------------- when the partitions tile the range

  /** The partitions of a successful split tile the range if and only if there is only one or the start
      is at most the partition size. */
  lemma TilesIff(r: Range, start: Uuid, end: Uuid, n: nat)
    requires 1 <= n && Number(start) < Number(end) && IsSplit(r, start, end, n)
    requires n == 1 || Pow256(15) <= PartSize(start, end, n)
    ensures r.Tiles() <==> n == 1 || Number(start) <= PartSize(start, end, n)
  {
    hide Number, PartSize, Pow256, Range.Tiles;
    if n == 1 {
      assert r.NonDecreasing();
      NonDecreasingTiles(r);
    } else {
      SizeAtLeastTwo(start, end, n);
      FirstSplit(r, start, end, n);
      if Number(start) <= PartSize(start, end, n) {
        forall k: nat | k < n ensures r.Lo(k) <= r.Hi(k) {
          SplitsIncrease(r, start, end, n, k);
        }
        NonDecreasingTiles(r);
      } else {
        SplitsIncrease(r, start, end, n, 1);
        BelowStart(r);
      }
    }
  }

  /** None of the partitions of a successful split is empty if and only if there is only one or the start
      lies strictly below the partition size. */
  lemma IncreasingIff(r: Range, start: Uuid, end: Uuid, n: nat)
    requires 1 <= n && Number(start) < Number(end) && IsSplit(r, start, end, n)
    requires n == 1 || Pow256(15) <= PartSize(start, end, n)
    ensures r.Increasing() <==> n == 1 || Number(start) < PartSize(start, end, n)
  {
    hide Number, PartSize, Pow256;
    if n == 1 {
      assert r.Lo(0) < r.Hi(0);
    } else {
      SizeAtLeastTwo(start, end, n);
      FirstSplit(r, start, end, n);
      if Number(start) < PartSize(start, end, n) {
        forall k: nat | k < n ensures r.Lo(k) < r.Hi(k) {
          SplitsIncrease(r, start, end, n, k);
        }
      }
      assert r.Increasing() ==> r.Lo(0) < r.Hi(0);
    }
  }

  lemma SizeAtLeastTwo(start: Uuid, end: Uuid, n: nat)
    requires 1 <= n && Number(start) < Number(end) && Pow256(15) <= PartSize(start, end, n)
    ensures 2 <= PartSize(start, end, n)
  {
    hide Number, PartSize;
    PowPositive(14);
    PowStep(14);
  }

  lemma FirstSplit(r: Range, start: Uuid, end: Uuid, n: nat)
    requires 2 <= n && Number(start) < Number(end) && IsSplit(r, start, end, n)
    ensures r.Lo(0) == Number(start) && r.Hi(0) == r.Lo(1) == PartSize(start, end, n)
  {
    hide Number, PartSize;
    Multiples(PartSize(start, end, n), 1);
  }

  /** If the first partition ends before the start of the range, the next one reaches below it. */
  lemma BelowStart(r: Range)
    requires 2 <= |r.rangeSplits| && r.Hi(0) < r.Lo(0) && r.Lo(1) < r.Hi(1)
    ensures !r.Tiles() && r.Contains(1, r.Lo(1)) && r.Lo(1) < r.Lo(0)
  {
    hide Number;
    assert r.Contains(1, r.Lo(1));
    assert r.InSome(r.Lo(1)) && !r.InRange(r.Lo(1));
  }

  lemma NonDecreasingTiles(r: Range)
    requires r.rangeSplits != [] && r.NonDecreasing()
    ensures r.Tiles()
  {
    hide Number, Range.PartitionExtents, Range.NonDecreasing, Range.Lo, Range.Hi;
    forall x: nat ensures r.InRange(x) <==> r.InSome(x) {
      if r.InRange(x) {
        assert r.Contains(Locate(r, x, 0), x);
      }
      if k: nat :| r.Contains(k, x) {
        OnePartition(r, x, k);
      }
    }
    forall x: nat, k: nat, l: nat | r.Contains(k, x) && r.Contains(l, x) ensures k == l {
      OnePartition(r, x, k);
      OnePartition(r, x, l);
    }
  }

  lemma SplitsIncrease(r: Range, start: Uuid, end: Uuid, n: nat, k: nat)
    requires 2 <= n && Number(start) < Number(end) && IsSplit(r, start, end, n) && k < n
    requires 2 <= PartSize(start, end, n)
    ensures 0 < k ==> r.Lo(k) < r.Hi(k)
    ensures k == 0 ==> r.Lo(k) == Number(start) && r.Hi(k) == PartSize(start, end, n)
  {
    hide Number, PartSize;
    var size := PartSize(start, end, n);
    Multiples(size, 1);
    if k == n - 1 {
      SplitsBelow(start, end, n, k);
    } else if 0 < k {
      assert Times(size, k + 1) == Times(size, k) + size;
    }
  }

  /** A range that starts in the middle of the space is accepted, but not tiled: its first partition
      ends before it starts, and its second reaches down below the start of the range. */
  lemma OffsetRangeDoesNotTile(r: Range)
    requires IsHalf(r)
    ensures Number(HALF) < Number(MAX) && Pow256(15) <= PartSize(HALF, MAX, 2)
    ensures r.Hi(0) < r.Lo(0) && r.Lo(1) < Number(r.start) && !r.Tiles()
  {
    hide Number, Pow256, Range.Tiles;
    HalfNumbers();
    PowPositive(15);
    PowStep(15);
    FirstSplit(r, HALF, MAX, 2);
    TilesIff(r, HALF, MAX, 2);
  }

  const HALF: Uuid := [128, 0, 0, 0, 0, 0, 0, 0, 0, 0, 0, 0, 0, 0, 0, 0]

  ghost predicate IsHalf(r: Range) {
    Number(HALF) < Number(MAX) && IsSplit(r, HALF, MAX, 2)
  }

  lemma HalfNumbers()
    ensures Number(HALF) == 128 * Pow256(15) && Number(MAX) == Pow256(16) - 1
  {
    NumberSplit(HALF);
    NumberOfZeros(HALF[1..]);
    NumberOfOnes(MAX);
  }

  lemma {:induction false} NumberOfZeros(s: seq<Byte>)
    requires forall i :: 0 <= i < |s| ==> s[i] == 0
    ensures Number(s) == 0
  {
    if s != [] {
      NumberOfZeros(s[..|s| - 1]);
    }
  }

  lemma {:induction false} NumberOfOnes(s: seq<Byte>)
    requires forall i :: 0 <= i < |s| ==> s[i] == 255
    ensures Number(s) == Pow256(|s|) - 1
  {
    if s != [] {
      NumberOfOnes(s[..|s| - 1]);
    }
  }

  lemma FullNumbers()
    ensures Number(NIL) == 0 && Number(MAX) == Pow256(16) - 1 && 1 < Pow256(16)
  {
    NumberOfZeros(NIL);
    NumberOfOnes(MAX);
    PowPositive(15);
  }

  // ---------------------------------------------------------------- the full range

  /** All UUIDs but the last, split into at most 256 partitions: more do not fit, because the splits
      would have a leading zero byte. */
  method NewFullRange(numPartitions: int) returns (r: Result<Range>)
    ensures r.Ok? <==> 1 <= numPartitions <= 256
    ensures r.Ok? ==> IsFullSplit(r.value, numPartitions)
    ensures !r.Ok? ==> r.error == if numPartitions <= 0 then NoPartitions else SplitNotUuid
  {
    hide Number, Pow256;
    FullNumbers();
    if 1 <= numPartitions {
      FullSize(numPartitions);
    }
    r := NewRange(NIL, MAX, numPartitions);
  }

  ghost predicate IsFullSplit(r: Range, n: nat)
    requires 1 <= n
  {
    Number(NIL) < Number(MAX) && IsSplit(r, NIL, MAX, n)
  }

  lemma FullSize(n: nat)
    requires 1 <= n && Number(NIL) == 0 && Number(MAX) == Pow256(16) - 1 && 1 < Pow256(16)
    ensures PartSize(NIL, MAX, n) == Pow256(16) / n
    ensures n == 1 || Pow256(15) <= PartSize(NIL, MAX, n) <==> n <= 256
  {
    hide Number, Pow256;
    PowPositive(15);
    PowStep(15);
    assert PartSize(NIL, MAX, n) == Pow256(16) / n;
    QuotientBound(Pow256(15), n);
  }

  lemma PowStep(k: nat)
    ensures Pow256(k + 1) == 256 * Pow256(k)
  {
  }

  lemma QuotientBound(p: nat, n: nat)
    requires 1 <= p && 1 <= n
    ensures p <= (256 * p) / n <==> n <= 256
  {
    var q := (256 * p) / n;
    assert n * q <= 256 * p < n * (q + 1);
    if n <= 256 {
      MulUp(n, 256, p);
      if q < p {
        MulUp(q + 1, p, n);
      }
    } else {
      MulUp(257, n, p);
      if p <= q {
        MulUp(p, q, n);
      }
    }
  }

  lemma MulUp(x: nat, y: nat, z: nat)
    requires x <= y
    ensures x * z <= y * z && z * x <= z * y
  {
  }

  lemma IncreasingIsNonDecreasing(r: Range)
    ensures r.Increasing() ==> r.NonDecreasing()
  {
  }

  /** The extents of the full range are increasing, meet end to end from 0 to 2^128 - 1, and all but
      the last have the size of 2^128 divided by n; the last takes what is left. */
  lemma FullRangeTiles(r: Range, n: nat, k: nat)
    requires 1 <= n <= 256 && IsFullSplit(r, n) && k < n
    ensures r.Increasing() && r.NonDecreasing()
    ensures r.Lo(0) == 0 && r.Hi(n - 1) == Pow256(16) - 1 && (k < n - 1 ==> r.Hi(k) == r.Lo(k + 1))
    ensures r.Hi(k) - r.Lo(k) == if k < n - 1 then Pow256(16) / n else Pow256(16) / n + Pow256(16) % n - 1
  {
    hide Number, Pow256, Range.Increasing, Range.NonDecreasing;
    IncreasingIsNonDecreasing(r);
    PowStep(15);
    FullNumbers();
    FullSize(n);
    PowPositive(15);
    IncreasingIff(r, NIL, MAX, n);
    var size := Pow256(16) / n;
    assert Times(size, k + 1) == Times(size, k) + size && Times(size, 0) == 0;
    assert Pow256(16) == Times(size, n) + Pow256(16) % n;
  }

  // ---------------------------------------------------------------- one partition for every value

  /** The partition in which a value of the range lies. */
  function Locate(r: Range, x: nat, k: nat): (p: nat)
    requires k < |r.rangeSplits| && r.Lo(k) <= x < r.Hi(|r.rangeSplits| - 1)
    ensures k <= p < |r.rangeSplits| && r.Lo(p) <= x < r.Hi(p)
    decreases |r.rangeSplits| - k
  {
    if x < r.Hi(k) then k else Locate(r, x, k + 1)
  }

  lemma {:induction false} LaterIsHigher(r: Range, k: nat, l: nat)
    requires r.NonDecreasing() && k <= l < |r.rangeSplits|
    ensures r.Lo(k) <= r.Lo(l) && r.Hi(k) <= r.Hi(l) && (k < l ==> r.Hi(k) <= r.Lo(l))
    decreases l - k
  {
    if k < l {
      LaterIsHigher(r, k, l - 1);
      assert r.Lo(l - 1) <= r.Hi(l - 1) == r.Lo(l) <= r.Hi(l);
    }
  }

  /** A value is in exactly one partition if it is in the range, and in none otherwise. */
  lemma OnePartition(r: Range, x: nat, k: nat)
    requires r.NonDecreasing() && k < |r.rangeSplits|
    ensures r.Lo(k) <= x < r.Hi(k) <==>
            r.Lo(0) <= x < r.Hi(|r.rangeSplits| - 1) && k == Locate(r, x, 0)
  {
    hide Number, Range.PartitionExtents;
    if r.Lo(k) <= x < r.Hi(k) {
      LaterIsHigher(r, 0, k);
      LaterIsHigher(r, k, |r.rangeSplits| - 1);
      var p := Locate(r, x, 0);
      if p < k {
        LaterIsHigher(r, p, k);
      } else {
        LaterIsHigher(r, k, p);
      }
    }
  }
}
