/** A pipeline that consists of FIFO stages only delivers in the order of the source. */
module FifoOrder {
  import opened Options
  import opened Pipeline
  import opened Flow

  ghost predicate AllFifo(t: Topology) {
    forall i :: 0 <= i < |t.stages| ==> t.stages[i] == Stage(Direct, 1)
  }

  /** The composition of the processors from stage `i` on: the one result or none. */
  ghost function Through(t: Topology, i: nat, p: Payload): seq<Payload>
    decreases |t.stages| - i
  {
    if |t.stages| <= i then [p]
    else match t.proc(i, 0, p)
         case None => []
         case Some(q) => Through(t, i + 1, q)
  }

  ghost function AllThrough(t: Topology, items: seq<Payload>): seq<Payload> {
    if items == [] then [] else Through(t, 0, items[0]) + AllThrough(t, items[1..])
  }

  // ---------------------------------------------------------------- the line of payloads

  /** The process at position `k` of the line: the source, the stages in turn, the sink. */
  ghost function Place(t: Topology, k: nat): Pid
    requires k <= |t.stages| + 1
  {
    if k == 0 then Source else if k <= |t.stages| then Work(k - 1, 0) else Sink
  }

  /** What will come of the payload that the process at position `k` holds, if any. */
  ghost function Due(t: Topology, k: nat, x: Proc): seq<Payload>
    requires k <= |t.stages| + 1
  {
    match x
    case Busy(p) => if 0 < k then Through(t, k - 1, p) else []
    case Giving(gifts) => if gifts != [] then Through(t, k, gifts[0].1) else []
    case _ => []
  }

  /** What can still come of the payloads that have not got past position `k`, in the order of
      delivery: nothing gets past a process that has exited. */
  ghost function Line(t: Topology, s: State, k: nat): seq<Payload>
    requires Shaped(t, s) && AllFifo(t) && k <= |t.stages| + 1
  {
    PlaceExists(t, k);
    var x := s.procs[Place(t, k)];
    if x == Exited then [] else Due(t, k, x) + if k == 0 then AllThrough(t, s.items) else Line(t, s, k - 1)
  }

  lemma PlaceExists(t: Topology, k: nat)
    requires AllFifo(t) && k <= |t.stages| + 1
    ensures t.Exists(Place(t, k))
  {
  }

  ghost predicate Single(s: State) {
    forall pid :: pid in s.procs && s.procs[pid].Giving? ==> |s.procs[pid].gifts| == 1
  }

  ghost function Whole(t: Topology, s: State): seq<Payload>
    requires Shaped(t, s) && AllFifo(t)
  {
    s.delivered + Line(t, s, |t.stages| + 1)
  }

  lemma {:induction false} LineAbove(t: Topology, s: State, u: State, from: nat, k: nat)
    requires Shaped(t, s) && Shaped(t, u) && AllFifo(t) && from <= k <= |t.stages| + 1
    requires Line(t, s, from) == Line(t, u, from)
    requires forall j :: from < j <= k ==> SameDue(t, s, u, j)
    ensures Line(t, s, k) == Line(t, u, k)
    decreases k - from
  {
    hide Due, Shaped, Through, Place;
    if from < k {
      LineAbove(t, s, u, from, k - 1);
      assert SameDue(t, s, u, k);
    }
  }

  ghost predicate SameDue(t: Topology, s: State, u: State, k: nat)
    requires Shaped(t, s) && Shaped(t, u) && AllFifo(t) && k <= |t.stages| + 1
  {
    PlaceExists(t, k);
    var x, y := s.procs[Place(t, k)], u.procs[Place(t, k)];
    Due(t, k, x) == Due(t, k, y) && (x == Exited <==> y == Exited)
  }

  lemma SameElsewhere(t: Topology, s: State, a: Action, u: State, k: nat)
    requires Step(t, s, a, u) && Shaped(t, u) && AllFifo(t) && k <= |t.stages| + 1
    requires Place(t, k) !in Moves(t, s, a)
    ensures SameDue(t, s, u, k)
  {
    hide Moves, Shared, Due, Place;
    PlaceExists(t, k);
    Frame(t, s, a, u);
  }

  // ---------------------------------------------------------------- the steps

  /** In a line of FIFO stages a send goes from one position to the next. */
  lemma NextInLine(t: Topology, s: State, pid: Pid, to: Pid)
    requires Inv(t, s) && AllFifo(t) && Enabled(t, s, Pass(pid, to))
    ensures exists k: nat :: k <= |t.stages| && pid == Place(t, k) && to == Place(t, k + 1)
  {
    hide ErrorsOk, ChanOk, ExitOk;
    assert ProcOk(t, s, pid);
    var k: nat := if pid == Source then 0 else pid.i + 1;
    assert pid == Place(t, k);
    assert to == Place(t, k + 1);
  }

  lemma PassWhole(t: Topology, s: State, pid: Pid, to: Pid, u: State)
    requires Inv(t, s) && AllFifo(t) && Single(s) && Step(t, s, Pass(pid, to), u)
    ensures Shaped(t, u) && Whole(t, u) == Whole(t, s)
  {
    hide Inv, Through, Shaped, AllThrough, Topology.Input, Due, Shared, SameDue;
    Frame(t, s, Pass(pid, to), u);
    NextInLine(t, s, pid, to);
    SameShared(t, s, Pass(pid, to), u);
    var k: nat :| k <= |t.stages| && pid == Place(t, k) && to == Place(t, k + 1);
    PassLine(t, s, k, u);
    forall j | k + 1 < j <= |t.stages| + 1 ensures SameDue(t, s, u, j) {
      SameElsewhere(t, s, Pass(pid, to), u, j);
    }
    LineAbove(t, s, u, k + 1, |t.stages| + 1);
  }

  /** What a send from one position to the next does to the two processes. */
  lemma PassMoves(t: Topology, s: State, k: nat, u: State)
    requires Shaped(t, s) && Shaped(t, u) && AllFifo(t) && Single(s) && k <= |t.stages|
    requires Step(t, s, Pass(Place(t, k), Place(t, k + 1)), u)
    ensures IsGiving(s, Place(t, k)) && At(s, Place(t, k + 1), Reading) && u.items == s.items
    ensures At(u, Place(t, k), Reading) && At(u, Place(t, k + 1), Busy(s.procs[Place(t, k)].gifts[0].1))
  {
    hide Topology.Input, Topology.Writer, Topology.IsChan, Topology.Output, Completed, Quit;
  }

  /** What has not got past the process before position `k`. */
  ghost function Behind(t: Topology, s: State, k: nat): seq<Payload>
    requires Shaped(t, s) && AllFifo(t) && k <= |t.stages| + 1
  {
    if k == 0 then AllThrough(t, s.items) else Line(t, s, k - 1)
  }

  lemma LineAt(t: Topology, s: State, k: nat, x: Proc)
    requires Shaped(t, s) && AllFifo(t) && k <= |t.stages| + 1 && At(s, Place(t, k), x) && x != Exited
    ensures Line(t, s, k) == Due(t, k, x) + Behind(t, s, k)
  {
    hide Shaped, Due, AllThrough;
  }

  lemma PassLine(t: Topology, s: State, k: nat, u: State)
    requires Shaped(t, s) && Shaped(t, u) && AllFifo(t) && Single(s) && k <= |t.stages|
    requires Step(t, s, Pass(Place(t, k), Place(t, k + 1)), u)
    ensures Line(t, u, k + 1) == Line(t, s, k + 1)
  {
    hide Step, Shaped, Through, AllThrough, Line, Place;
    PassMoves(t, s, k, u);
    if 0 < k {
      SameBelow(t, s, k - 1, u);
    }
    var gifts, rest := s.procs[Place(t, k)].gifts, Behind(t, s, k);
    var y := Through(t, k, gifts[0].1);
    LineAt(t, s, k, Giving(gifts));
    LineAt(t, s, k + 1, Reading);
    LineAt(t, u, k, Reading);
    LineAt(t, u, k + 1, Busy(gifts[0].1));
    assert [] + (y + rest) == y + rest == y + ([] + rest);
  }

  lemma {:induction false} SameBelow(t: Topology, s: State, k: nat, u: State)
    requires Shaped(t, s) && Shaped(t, u) && AllFifo(t) && k < |t.stages|
    requires Step(t, s, Pass(Place(t, k + 1), Place(t, k + 2)), u)
    ensures Line(t, u, k) == Line(t, s, k)
  {
    hide Through, AllThrough, Due, Topology.Input;
    var a := Pass(Place(t, k + 1), Place(t, k + 2));
    forall j | 0 <= j <= k ensures SameDue(t, s, u, j) {
      SameElsewhere(t, s, a, u, j);
    }
    assert SameDue(t, s, u, 0);
    assert Line(t, s, 0) == Line(t, u, 0);
    LineAbove(t, s, u, 0, k);
  }

  lemma SupplyWhole(t: Topology, s: State, u: State)
    requires AllFifo(t) && Step(t, s, Supply, u)
    ensures Shaped(t, u) && Whole(t, u) == Whole(t, s)
  {
    hide Through, Shaped;
    Frame(t, s, Supply, u);
    assert Line(t, u, 0) == Line(t, s, 0);
    forall j | 0 < j <= |t.stages| + 1 ensures SameDue(t, s, u, j) {
      SameElsewhere(t, s, Supply, u, j);
    }
    LineAbove(t, s, u, 0, |t.stages| + 1);
  }

  lemma SinkEffect(t: Topology, s: State, u: State)
    requires AllFifo(t) && Step(t, s, Complete(Sink), u)
    ensures Shaped(t, s) && Shaped(t, u) && IsBusy(s, Sink) && u.procs[Sink] == Reading
    ensures u.delivered == s.delivered + [s.procs[Sink].p] && u.items == s.items
    ensures Due(t, |t.stages| + 1, s.procs[Sink]) == [s.procs[Sink].p] && Due(t, |t.stages| + 1, u.procs[Sink]) == []
    ensures forall j: nat :: j <= |t.stages| ==> SameDue(t, s, u, j)
  {
    Frame(t, s, Complete(Sink), u);
    forall j: nat | j <= |t.stages| ensures SameDue(t, s, u, j) {
      SameElsewhere(t, s, Complete(Sink), u, j);
    }
  }

  lemma SinkWhole(t: Topology, s: State, u: State)
    requires AllFifo(t) && Step(t, s, Complete(Sink), u)
    ensures Shaped(t, u) && Whole(t, u) == Whole(t, s)
  {
    hide Shaped, Step, Due, AllThrough;
    SinkEffect(t, s, u);
    var n := |t.stages|;
    assert SameDue(t, s, u, 0);
    assert Line(t, s, 0) == Line(t, u, 0);
    LineAbove(t, s, u, 0, n);
    var p, rest := s.procs[Sink].p, Line(t, s, n);
    assert Line(t, s, n + 1) == [p] + rest;
    assert Line(t, u, n + 1) == [] + rest;
    assert s.delivered + ([p] + rest) == (s.delivered + [p]) + rest;
  }

  lemma SameShared(t: Topology, s: State, a: Action, u: State)
    requires Step(t, s, a, u) && !a.Supply? && a != Complete(Sink)
    ensures u.items == s.items && u.delivered == s.delivered
  {
    hide Moves;
  }

  ghost predicate Exits(a: Action) {
    a.Exhaust? || a.SeeClosed? || a.SeeDone? || a.Fail?
  }

  /** All other steps leave every process with what it is due to deliver. */
  lemma OtherWhole(t: Topology, s: State, a: Action, u: State)
    requires AllFifo(t) && Step(t, s, a, u) && !Exits(a)
    requires !a.Pass? && !a.Supply? && a != Complete(Sink)
    ensures Shaped(t, u) && Whole(t, u) == Whole(t, s)
  {
    hide Shaped;
    Frame(t, s, a, u);
    forall j | 0 <= j <= |t.stages| + 1 ensures SameDue(t, s, u, j) {
      DueStays(t, s, a, u, j);
    }
    SameShared(t, s, a, u);
    assert SameDue(t, s, u, 0);
    assert Line(t, s, 0) == Line(t, u, 0);
    LineAbove(t, s, u, 0, |t.stages| + 1);
  }

  lemma DueStays(t: Topology, s: State, a: Action, u: State, k: nat)
    requires Shaped(t, u) && AllFifo(t) && Step(t, s, a, u) && k <= |t.stages| + 1
    requires !a.Pass? && !a.Supply? && a != Complete(Sink) && !Exits(a)
    ensures SameDue(t, s, u, k)
  {
    hide Shared;
    PlaceExists(t, k);
    if Place(t, k) !in Moves(t, s, a) {
      SameElsewhere(t, s, a, u, k);
    } else {
      Frame(t, s, a, u);
    }
  }

  // ---------------------------------------------------------------- a process exits

  ghost function Leaver(a: Action): Pid
    requires Exits(a)
  {
    if a.Exhaust? then Source else a.pid
  }

  lemma ExitMoves(t: Topology, s: State, a: Action, u: State, k: nat)
    requires AllFifo(t) && Step(t, s, a, u) && Exits(a) && k <= |t.stages| + 1 && Leaver(a) == Place(t, k)
    ensures Shaped(t, s) && Shaped(t, u) && At(u, Place(t, k), Exited)
    ensures forall j :: k < j <= |t.stages| + 1 ==> SameDue(t, s, u, j)
  {
    hide Shared, Due, SameDue, Through, Topology.Input, Topology.IsChan, Topology.Writer;
    Frame(t, s, a, u);
    PlaceExists(t, k);
    forall j | k < j <= |t.stages| + 1 ensures SameDue(t, s, u, j) {
      SameElsewhere(t, s, a, u, j);
    }
  }

  /** A process that exits cuts off what it holds and all that is behind it. */
  lemma ExitWhole(t: Topology, s: State, a: Action, u: State, k: nat)
    requires AllFifo(t) && Step(t, s, a, u) && Exits(a) && k <= |t.stages| + 1 && Leaver(a) == Place(t, k)
    ensures Shaped(t, s) && Shaped(t, u) && Whole(t, u) <= Whole(t, s)
    ensures Line(t, s, k) == [] ==> Whole(t, u) == Whole(t, s)
  {
    hide Step, Shaped, SameDue, Due, Through, AllThrough, Place, Leaver;
    ExitMoves(t, s, a, u, k);
    SameShared(t, s, a, u);
    assert Line(t, u, k) == [];
    LinePrefix(t, s, u, k, |t.stages| + 1);
    if Line(t, s, k) == [] {
      LineAbove(t, s, u, k, |t.stages| + 1);
    }
  }

  lemma {:induction false} LinePrefix(t: Topology, s: State, u: State, from: nat, k: nat)
    requires Shaped(t, s) && Shaped(t, u) && AllFifo(t) && from <= k <= |t.stages| + 1
    requires Line(t, u, from) <= Line(t, s, from)
    requires forall j :: from < j <= k ==> SameDue(t, s, u, j)
    ensures Line(t, u, k) <= Line(t, s, k)
    decreases k - from
  {
    hide Due, Shaped, Through, Place;
    if from < k {
      LinePrefix(t, s, u, from, k - 1);
      assert SameDue(t, s, u, k);
    }
  }

  lemma PlaceOf(t: Topology, pid: Pid)
    requires AllFifo(t) && t.Exists(pid)
    ensures exists k: nat :: k <= |t.stages| + 1 && pid == Place(t, k)
  {
    var k: nat := if pid == Source then 0 else if pid == Sink then |t.stages| + 1 else pid.i + 1;
    assert pid == Place(t, k);
  }

  /** A process whose input is closed, and a source that is exhausted, have nothing left to come. */
  lemma NothingCut(t: Topology, s: State, a: Action, k: nat)
    requires Inv(t, s) && AllFifo(t) && Enabled(t, s, a) && k <= |t.stages| + 1
    requires (a.SeeClosed? && a.pid == Place(t, k)) || (a.Exhaust? && s.items == [] && k == 0)
    ensures Line(t, s, k) == []
  {
    hide ErrorsOk, ProcOk, Through;
    NothingThrough(t);
    PlaceExists(t, k);
    if a.SeeClosed? {
      var c := t.Input(Place(t, k));
      assert c == StageCh(k - 1);
      assert ChanOk(t, s, c);
      PlaceExists(t, k - 1);
      assert t.Writer(Place(t, k - 1), c);
      assert Line(t, s, k - 1) == [];
    }
  }

  lemma SingleStep(t: Topology, s: State, a: Action, u: State)
    requires AllFifo(t) && Single(s) && Step(t, s, a, u)
    ensures Single(u)
  {
    hide Shared, Topology.Input, Topology.IsChan, Topology.Writer;
    Frame(t, s, a, u);
  }

  lemma LeaverThere(t: Topology, s: State, a: Action, u: State)
    requires Step(t, s, a, u) && Exits(a)
    ensures Enabled(t, s, a) && t.Exists(Leaver(a))
  {
    hide Topology.Input, Topology.IsSlot;
  }

  /** No step adds to what is delivered in the end; an undisturbed one takes nothing away either. */
  lemma WholeStep(t: Topology, s: State, a: Action, u: State)
    requires Inv(t, s) && AllFifo(t) && Single(s) && Step(t, s, a, u)
    ensures Shaped(t, u) && Single(u) && Whole(t, u) <= Whole(t, s)
    ensures !u.done && u.emitted == [] ==> Whole(t, u) == Whole(t, s)
  {
    hide Step, Whole, Single, Inv, Shaped;
    SingleStep(t, s, a, u);
    if a.Pass? {
      PassWhole(t, s, a.pid, a.to, u);
    } else if a.Supply? {
      SupplyWhole(t, s, u);
    } else if a == Complete(Sink) {
      SinkWhole(t, s, u);
    } else if !Exits(a) {
      OtherWhole(t, s, a, u);
    } else {
      LeaverThere(t, s, a, u);
      PlaceOf(t, Leaver(a));
      var k: nat :| k <= |t.stages| + 1 && Leaver(a) == Place(t, k);
      ExitWhole(t, s, a, u, k);
      if !u.done && u.emitted == [] {
        Undisturbed(t, s, a, u);
        NothingCut(t, s, a, k);
      }
    }
  }

  // ---------------------------------------------------------------- whole runs

  lemma {:induction false} RunWhole(t: Topology, r: Run, n: nat)
    requires r.Valid(t) && AllFifo(t) && n <= |r.actions|
    ensures Shaped(t, r.states[n]) && Shaped(t, r.states[0]) && Single(r.states[n])
    ensures Whole(t, r.states[n]) <= Whole(t, r.states[0]) == AllThrough(t, r.states[0].items)
    ensures !r.states[n].done && r.states[n].emitted == [] ==> Whole(t, r.states[n]) == Whole(t, r.states[0])
  {
    hide Step, Whole, Shaped, Initial, AllThrough;
    RunInv(t, r, n);
    RunInv(t, r, 0);
    if n == 0 {
      StartWhole(t, r.states[0]);
    } else {
      var s, a, u := r.states[n - 1], r.actions[n - 1], r.states[n];
      assert Step(t, s, a, u);
      RunInv(t, r, n - 1);
      RunWhole(t, r, n - 1);
      WholeStep(t, s, a, u);
      if !u.done && u.emitted == [] {
        Undisturbed(t, s, a, u);
      }
    }
  }

  lemma StartWhole(t: Topology, s: State)
    requires Initial(t, s) && AllFifo(t)
    ensures Single(s) && Whole(t, s) == AllThrough(t, s.items)
  {
    hide Through, AllThrough;
    IdleLine(t, s, |t.stages| + 1);
    assert [] + AllThrough(t, s.items) == AllThrough(t, s.items);
  }

  lemma {:induction false} IdleLine(t: Topology, s: State, k: nat)
    requires Shaped(t, s) && AllFifo(t) && k <= |t.stages| + 1
    requires forall pid :: pid in s.procs ==> s.procs[pid] == Reading
    ensures Line(t, s, k) == AllThrough(t, s.items)
  {
    hide AllThrough, Through;
    PlaceExists(t, k);
    if 0 < k {
      IdleLine(t, s, k - 1);
    }
  }

  /** Whatever goes wrong in a pipeline of FIFO stages, at every point of every run the sink has
      consumed a prefix of the composed filter and map of the source: nothing out of order, nothing
      twice, nothing after something that was lost. */
  lemma DeliversPrefix(t: Topology, r: Run, n: nat)
    requires r.Valid(t) && AllFifo(t) && n <= |r.actions|
    ensures r.states[n].delivered <= AllThrough(t, r.states[0].items)
  {
    hide Step, Line, AllThrough, Shaped, Initial;
    RunWhole(t, r, n);
    assert r.states[n].delivered <= Whole(t, r.states[n]);
  }

  /** If it ends without an error and is not cancelled, the sink has consumed all of it. */
  lemma DeliversInOrder(t: Topology, r: Run, n: nat)
    requires r.Valid(t) && AllFifo(t) && n <= |r.actions| && r.states[n].returned
    requires !r.states[n].done && r.states[n].emitted == []
    ensures r.states[n].delivered == AllThrough(t, r.states[0].items)
  {
    hide Step, AllThrough, Initial, Due;
    RunWhole(t, r, n);
    ReturnedCleanly(t, r, n);
    PlaceExists(t, |t.stages| + 1);
    assert Line(t, r.states[n], |t.stages| + 1) == [];
    assert r.states[n].delivered + [] == r.states[n].delivered;
  }

  lemma NothingThrough(t: Topology)
    ensures AllThrough(t, []) == []
  {
  }
}
