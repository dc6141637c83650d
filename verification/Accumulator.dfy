/** The accumulators with their compare-and-swap loops, as a caller sees them that nobody interferes
    with: then the first swap works. */
module Accumulator {

  /** A global sum, with the part of it already reported by Delta. */
  class Float64Accumulator {
    var prevSum: real
    var curSum: real

    constructor ()
      ensures curSum == 0.0 && prevSum == 0.0
    {
      prevSum := 0.0;
      curSum := 0.0;
    }

    function Get(): real
      reads this
    {
      curSum
    }

    method SwapCur(expected: real, v: real) returns (swapped: bool)
      modifies this`curSum
      ensures swapped <==> old(curSum) == expected
      ensures curSum == if swapped then v else old(curSum)
    {
      swapped := curSum == expected;
      if swapped {
        curSum := v;
      }
    }

    method SwapPrev(expected: real, v: real) returns (swapped: bool)
      modifies this`prevSum
      ensures swapped <==> old(prevSum) == expected
      ensures prevSum == if swapped then v else old(prevSum)
    {
      swapped := prevSum == expected;
      if swapped {
        prevSum := v;
      }
    }

    /** Swaps both sums, and tries again unless both swaps have worked. */
    method Set(v: real)
      modifies this
      ensures curSum == v && prevSum == v
    {
      var swappedCur, swappedPrev := false, false;
      while !(swappedCur && swappedPrev)
        invariant swappedCur && swappedPrev ==> curSum == v && prevSum == v
        decreases !(swappedCur && swappedPrev)
      {
        var oldCur := curSum;
        var oldPrev := prevSum;
        swappedCur := SwapCur(oldCur, v);
        swappedPrev := SwapPrev(oldPrev, v);
      }
    }

    method Aggregate(v: real)
      modifies this`curSum
      ensures curSum == old(curSum) + v
    {
      var swapped := false;
      while !swapped
        invariant curSum == old(curSum) + if swapped then v else 0.0
        decreases !swapped
      {
        var oldV := curSum;
        swapped := SwapCur(oldV, oldV + v);
      }
    }

    /** What was added since the last call of Delta or Set. */
    method Delta() returns (change: real)
      modifies this`prevSum
      ensures change == curSum - old(prevSum) && prevSum == curSum
    {
      change := 0.0;
      var swapped := false;
      while !swapped
        invariant swapped ==> change == curSum - old(prevSum) && prevSum == curSum
        invariant !swapped ==> prevSum == old(prevSum)
        decreases !swapped
      {
        var oldPrev := prevSum;
        change := curSum - oldPrev;
        swapped := SwapPrev(oldPrev, curSum);
      }
    }
  }

  /** The same for whole numbers; its Aggregate is a single atomic addition. */
  class IntAccumulator {
    var prevSum: int
    var curSum: int

    constructor ()
      ensures curSum == 0 && prevSum == 0
    {
      prevSum := 0;
      curSum := 0;
    }

    function Get(): int
      reads this
    {
      curSum
    }

    method SwapCur(expected: int, v: int) returns (swapped: bool)
      modifies this`curSum
      ensures swapped <==> old(curSum) == expected
      ensures curSum == if swapped then v else old(curSum)
    {
      swapped := curSum == expected;
      if swapped {
        curSum := v;
      }
    }

    method SwapPrev(expected: int, v: int) returns (swapped: bool)
      modifies this`prevSum
      ensures swapped <==> old(prevSum) == expected
      ensures prevSum == if swapped then v else old(prevSum)
    {
      swapped := prevSum == expected;
      if swapped {
        prevSum := v;
      }
    }

    /** Swaps both sums, and tries again unless both swaps have worked. */
    method Set(v: int)
      modifies this
      ensures curSum == v && prevSum == v
    {
      var swappedCur, swappedPrev := false, false;
      while !(swappedCur && swappedPrev)
        invariant swappedCur && swappedPrev ==> curSum == v && prevSum == v
        decreases !(swappedCur && swappedPrev)
      {
        var oldCur := curSum;
        var oldPrev := prevSum;
        swappedCur := SwapCur(oldCur, v);
        swappedPrev := SwapPrev(oldPrev, v);
      }
    }

    method Aggregate(v: int)
      modifies this`curSum
      ensures curSum == old(curSum) + v
    {
      curSum := curSum + v;
    }

    /** What was added since the last call of Delta or Set. */
    method Delta() returns (change: int)
      modifies this`prevSum
      ensures change == curSum - old(prevSum) && prevSum == curSum
    {
      change := 0;
      var swapped := false;
      while !swapped
        invariant swapped ==> change == curSum - old(prevSum) && prevSum == curSum
        invariant !swapped ==> prevSum == old(prevSum)
        decreases !swapped
      {
        var oldPrev := prevSum;
        change := curSum - oldPrev;
        swapped := SwapPrev(oldPrev, curSum);
      }
    }
  }
}
