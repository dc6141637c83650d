/** The lock-free accumulators under any number of concurrent callers, one load or one
    compare-and-swap at a time. */
module AccumulatorMachine {
  import opened Sums

  /** Where a caller stands in its retry loop. `seen` counts the compare-and-swaps that had
      succeeded on the word when the caller loaded it; the program cannot read it. */
  datatype Caller =
    | Idle
    | Adding(v: real)                                  // Aggregate(v), about to load curSum
    | AddLoaded(v: real, cur: real, seen: nat)
    | Reporting                                        // Delta(), about to load curSum
    | CurLoaded(cur: real)
    | BothLoaded(cur: real, prev: real, seen: nat)

  datatype State = State(cur: real, prev: real, callers: map<nat, Caller>, curSwaps: nat, prevSwaps: nat)

  /** The books kept beside a run: everything handed to Aggregate, everything that has reached the
      sum, and everything returned by Delta. */
  datatype Ledger = Ledger(requested: real, added: real, reported: real)

  datatype Label =
    | CallAggregate(t: nat, v: real)
    | CallDelta(t: nat)
    | Load(t: nat)
    | Swap(t: nat)          // the compare-and-swap succeeds and the call returns
    | Retry(t: nat)         // the compare-and-swap fails and the loop starts over

  ghost predicate Enabled(s: State, l: Label) {
    && l.t in s.callers
    && var c := s.callers[l.t];
       match l
       case CallAggregate(_, _) => c == Idle
       case CallDelta(_) => c == Idle
       case Load(_) => c.Adding? || c.Reporting? || c.CurLoaded?
       case Swap(_) => (c.AddLoaded? && s.cur == c.cur) || (c.BothLoaded? && s.prev == c.prev)
       case Retry(_) => (c.AddLoaded? && s.cur != c.cur) || (c.BothLoaded? && s.prev != c.prev)
  }

  ghost function Become(s: State, t: nat, c: Caller): State {
    s.(callers := s.callers[t := c])
  }

  ghost function Apply(s: State, l: Label): State
    requires Enabled(s, l)
  {
    var c := s.callers[l.t];
    match l
    case CallAggregate(t, v) => Become(s, t, Adding(v))
    case CallDelta(t) => Become(s, t, Reporting)
    case Load(t) =>
      (match c
       case Adding(v) => Become(s, t, AddLoaded(v, s.cur, s.curSwaps))
       case CurLoaded(cur) => Become(s, t, BothLoaded(cur, s.prev, s.prevSwaps))
       case _ => Become(s, t, CurLoaded(s.cur)))
    case Swap(t) =>
      (match c
       case AddLoaded(v, cur, _) => Become(s, t, Idle).(cur := cur + v, curSwaps := s.curSwaps + 1)
       case BothLoaded(cur, _, _) => Become(s, t, Idle).(prev := cur, prevSwaps := s.prevSwaps + 1)
       case _ => s)
    case Retry(t) => Become(s, t, if c.AddLoaded? then Adding(c.v) else Reporting)
  }

  ghost function Book(s: State, l: Label, b: Ledger): Ledger
    requires Enabled(s, l)
  {
    match l
    case CallAggregate(_, v) => b.(requested := b.requested + v)
    case Swap(t) =>
      if s.callers[t].AddLoaded? then b.(added := b.added + s.callers[t].v)
      else b.(reported := b.reported + (s.callers[t].cur - s.callers[t].prev))
    case _ => b
  }

  datatype Run = Run(states: seq<State>, labels: seq<Label>, books: seq<Ledger>) {
    ghost predicate Valid() {
      && |states| == |books| == |labels| + 1
      && books[0] == Ledger(0.0, 0.0, 0.0)
      && (forall t :: t in states[0].callers ==> states[0].callers[t] == Idle)
      && forall i :: 0 <= i < |labels| ==>
           Enabled(states[i], labels[i]) && states[i + 1] == Apply(states[i], labels[i])
           && books[i + 1] == Book(states[i], labels[i], books[i])
    }
  }

  /** The value that a caller in the middle of Aggregate still has to add. */
  ghost function Outstanding(c: Caller): real {
    match c
    case Adding(v) => v
    case AddLoaded(v, _, _) => v
    case _ => 0.0
  }

  ghost function AllOutstanding(s: State): map<nat, real> {
    map t | t in s.callers :: Outstanding(s.callers[t])
  }

  /** A caller whose loaded word has not been swapped since still sees its current value. */
  ghost predicate Fresh(s: State, c: Caller) {
    && (c.AddLoaded? ==> c.seen <= s.curSwaps && (c.seen == s.curSwaps ==> c.cur == s.cur))
    && (c.BothLoaded? ==> c.seen <= s.prevSwaps && (c.seen == s.prevSwaps ==> c.prev == s.prev))
  }

  ghost predicate Balanced(s0: State, s: State, b: Ledger) {
    && s.cur == s0.cur + b.added
    && s.prev == s0.prev + b.reported
    && b.requested == b.added + Total(AllOutstanding(s))
    && forall t :: t in s.callers ==> Fresh(s, s.callers[t])
  }

  lemma BalancedStep(s0: State, s: State, l: Label, b: Ledger)
    requires Balanced(s0, s, b) && Enabled(s, l)
    ensures Balanced(s0, Apply(s, l), Book(s, l, b))
  {
    hide Total;
    var t := Apply(s, l);
    assert Fresh(s, s.callers[l.t]);
    TotalUpdate(AllOutstanding(s), l.t, Outstanding(t.callers[l.t]));
    assert AllOutstanding(t) == AllOutstanding(s)[l.t := Outstanding(t.callers[l.t])];
  }

  /** In every interleaving: the sum is its start plus what the completed Aggregates added, the
      Delta results add up to the change of prevSum, and what is still missing from the sum is
      exactly what the callers inside Aggregate hold. */
  lemma {:induction false} LedgerHolds(r: Run, n: nat)
    requires r.Valid() && n <= |r.labels|
    ensures Balanced(r.states[0], r.states[n], r.books[n])
  {
    if n == 0 {
      var s := r.states[0];
      TotalConst(AllOutstanding(s), 0.0);
      MulOne(|AllOutstanding(s)| as real);
    } else {
      LedgerHolds(r, n - 1);
      BalancedStep(r.states[0], r.states[n - 1], r.labels[n - 1], r.books[n - 1]);
    }
  }

  /** Once every call has returned, nothing handed to Aggregate is lost or counted twice, and the
      next Delta reports exactly what no Delta has reported yet. */
  lemma Quiescent(r: Run, n: nat)
    requires r.Valid() && n <= |r.labels|
    requires forall t :: t in r.states[n].callers ==> r.states[n].callers[t] == Idle
    ensures var s0, s, b := r.states[0], r.states[n], r.books[n];
            && s.cur == s0.cur + b.requested
            && b.reported + (s.cur - s.prev) == b.requested + (s0.cur - s0.prev)
  {
    LedgerHolds(r, n);
    TotalConst(AllOutstanding(r.states[n]), 0.0);
    MulOne(|AllOutstanding(r.states[n])| as real);
  }

  /** A compare-and-swap fails only if another caller's has succeeded since this one loaded: some
      operation always makes progress. */
  lemma FailureMeansProgress(r: Run, n: nat, t: nat)
    requires r.Valid() && n <= |r.labels| && Enabled(r.states[n], Retry(t))
    ensures var s, c := r.states[n], r.states[n].callers[t];
            && (c.AddLoaded? ==> c.seen < s.curSwaps)
            && (c.BothLoaded? ==> c.seen < s.prevSwaps)
  {
    LedgerHolds(r, n);
    assert Fresh(r.states[n], r.states[n].callers[t]);
  }

  /** The sum of all values that Aggregate was called with. */
  ghost function Called(labels: seq<Label>): real {
    if labels == [] then 0.0
    else
      var last := labels[|labels| - 1];
      Called(labels[..|labels| - 1]) + if last.CallAggregate? then last.v else 0.0
  }

  lemma {:induction false} RequestedIsCalled(r: Run, n: nat)
    requires r.Valid() && n <= |r.labels|
    ensures r.books[n].requested == Called(r.labels[..n])
  {
    if 0 < n {
      RequestedIsCalled(r, n - 1);
      assert r.labels[..n][..n - 1] == r.labels[..n - 1];
    }
  }

  /** Once every call has returned, the sum has grown by exactly the values that Aggregate was called
      with, in whatever order and with however many retries. */
  lemma SumOfCalls(r: Run, n: nat)
    requires r.Valid() && n <= |r.labels|
    requires forall t :: t in r.states[n].callers ==> r.states[n].callers[t] == Idle
    ensures r.states[n].cur == r.states[0].cur + Called(r.labels[..n])
  {
    Quiescent(r, n);
    RequestedIsCalled(r, n);
  }
}
