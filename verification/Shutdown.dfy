/** The pipeline always shuts down: no reachable state is stuck before Process returns, and no run
    goes on for ever. Sources, processors and sinks are assumed to return. */
module Shutdown {
  import opened Options
  import opened Sums
  import opened Pipeline

  // ---------------------------------------------------------------- nothing blocks for ever

  /** Payloads move from lower to higher ranks. */
  function Rank(t: Topology, pid: Pid): nat {
    match pid
    case Source => 0
    case Split(i) => 2 * i + 1
    case Work(i, _) => 2 * i + 2
    case Sink => 2 * |t.stages| + 1
  }

  /** Some goroutine other than the caller's environment can take a step. */
  ghost predicate CanStep(t: Topology, s: State) {
    exists a: Action :: a != Cancel && Enabled(t, s, a)
  }

  /** A process that takes payloads from the channel. */
  function Reader(t: Topology, c: Chan): Pid
    requires t.IsChan(c)
  {
    match c
    case StageCh(i) => if i == |t.stages| then Sink else if t.stages[i].kind == Direct then Work(i, 0) else Split(i)
    case InCh(i, j) => Work(i, j)
  }

  lemma ReaderReads(t: Topology, pid: Pid, c: Chan)
    requires t.Valid() && t.IsChan(c) && t.Exists(pid) && t.Writer(pid, c)
    ensures t.Exists(Reader(t, c)) && Reader(t, c) != Source && t.Input(Reader(t, c)) == c
    ensures Rank(t, pid) < Rank(t, Reader(t, c)) <= 2 * |t.stages| + 1
  {
  }

  /** A blocked send can be undone by cancellation, or leads to a process further on that can act. */
  lemma {:induction false} GivingCanStep(t: Topology, s: State, pid: Pid)
    requires Inv(t, s) && s.errCh == [] && pid in s.procs && s.procs[pid].Giving?
    ensures CanStep(t, s)
    decreases 2 * |t.stages| + 1 - Rank(t, pid)
  {
    hide ErrorsOk, Topology.Writer, Topology.IsChan;
    assert ProcOk(t, s, pid);
    var c := s.procs[pid].gifts[0].0;
    if s.done {
      assert Enabled(t, s, SeeDone(pid));
    } else {
      assert ChanOk(t, s, c);
      ReaderReads(t, pid, c);
      var r := Reader(t, c);
      assert ProcOk(t, s, r);
      match s.procs[r]
      case Reading => assert Enabled(t, s, Pass(pid, r));
      case Busy(_) => assert Enabled(t, s, Complete(r));
      case Giving(_) => GivingCanStep(t, s, r);
      case Exited =>
    }
  }

  ghost predicate Quiet(s: State) {
    s.errCh == [] && forall pid :: pid in s.procs ==> s.procs[pid] == Reading || s.procs[pid] == Exited
  }

  lemma WriterRank(t: Topology, pid: Pid, w: Pid)
    requires t.Exists(pid) && t.Exists(w) && pid != Source && t.Writer(w, t.Input(pid))
    ensures Rank(t, w) < Rank(t, pid)
  {
  }

  /** If nothing is on its way, the first process that still reads can go on to exit. */
  lemma {:induction false} ReadingCanStep(t: Topology, s: State, pid: Pid)
    requires Inv(t, s) && Quiet(s) && pid in s.procs && s.procs[pid] == Reading
    ensures CanStep(t, s)
    decreases Rank(t, pid)
  {
    hide ErrorsOk, Topology.Writer, Topology.IsChan, ProcOk, ChanOk;
    if pid == Source {
      assert Enabled(t, s, if s.items == [] then Exhaust(None) else Supply);
    } else {
      var c := t.Input(pid);
      if c !in s.open {
        assert Enabled(t, s, SeeClosed(pid));
      } else if w :| w in s.procs && t.Writer(w, c) && s.procs[w] != Exited {
        WriterRank(t, pid, w);
        ReadingCanStep(t, s, w);
      } else {
        assert Enabled(t, s, Close(c));
      }
    }
  }

  lemma AllExitedCanStep(t: Topology, s: State)
    requires Inv(t, s) && s.errCh == [] && !s.returned && forall pid :: pid in s.procs ==> s.procs[pid] == Exited
    ensures CanStep(t, s)
  {
    hide ErrorsOk, ProcOk, ChanOk;
    if c :| c in s.open {
      assert Enabled(t, s, Close(c));
    } else if s.errOpen {
      assert Enabled(t, s, CloseErrors);
    } else {
      assert Enabled(t, s, Return);
    }
  }

  /** Until Process has returned, some step is possible in every reachable state: for every order of
      a normal end, stage errors, sink errors, source errors and cancellation. */
  lemma NoDeadlock(t: Topology, r: Run, n: nat)
    requires r.Valid(t) && n <= |r.actions| && !r.states[n].returned
    ensures CanStep(t, r.states[n])
  {
    hide Step, Initial, Inv;
    RunInv(t, r, n);
    InvCanStep(t, r.states[n]);
  }

  lemma InvCanStep(t: Topology, s: State)
    requires Inv(t, s) && !s.returned
    ensures CanStep(t, s)
  {
    hide ErrorsOk, ChanOk, CanStep;
    if s.errCh != [] {
      Witness(t, s, CollectError);
    } else if pid :| pid in s.procs && s.procs[pid].Giving? {
      GivingCanStep(t, s, pid);
    } else if pid :| pid in s.procs && s.procs[pid].Busy? {
      assert ProcOk(t, s, pid);
      Witness(t, s, Complete(pid));
    } else if pid :| pid in s.procs && s.procs[pid] == Reading {
      ReadingCanStep(t, s, pid);
    } else {
      AllExitedCanStep(t, s);
    }
  }

  lemma Witness(t: Topology, s: State, a: Action)
    requires a != Cancel && Enabled(t, s, a)
    ensures CanStep(t, s)
  {
  }

  // ---------------------------------------------------------------- nothing goes on for ever

  /** How many steps a payload entering stage `i` can still cause, at most. */
  ghost function StageLoad(t: Topology, i: nat): (n: nat)
    ensures 3 <= n
    decreases |t.stages| - i
  {
    if |t.stages| <= i then 3
    else
      var worker := 3 + StageLoad(t, i + 1);
      match t.stages[i].kind
      case Direct => worker
      case Dynamic => 1 + worker
      case Broadcast => Times(t.stages[i].width, worker) + 3
  }

  ghost function Times(n: nat, x: nat): nat { n * x }

  ghost function Load(t: Topology, c: Chan): nat {
    match c
    case StageCh(i) => StageLoad(t, i)
    case InCh(i, _) => 3 + StageLoad(t, i + 1)
  }

  ghost function GiftLoad(t: Topology, gifts: seq<(Chan, Payload)>): nat {
    if gifts == [] then 0 else Load(t, gifts[0].0) + GiftLoad(t, gifts[1..])
  }

  ghost function Potential(t: Topology, pid: Pid, x: Proc): nat {
    match x
    case Reading => 2
    case Busy(_) => if pid.Work? then 4 + StageLoad(t, pid.i + 1) else 4
    case Giving(gifts) => 2 + GiftLoad(t, gifts)
    case Exited => 0
  }

  lemma TimesStep(n: nat, x: nat)
    ensures Times(0, x) == 0 && (0 < n ==> Times(n, x) == Times(n - 1, x) + x)
  {
  }

  lemma OneGift(t: Topology, c: Chan, p: Payload)
    ensures GiftLoad(t, [(c, p)]) == Load(t, c)
  {
    hide Load;
    assert [(c, p)][1..] == [];
  }

  lemma {:induction false} SameLoad(t: Topology, gifts: seq<(Chan, Payload)>, x: nat)
    requires forall k :: 0 <= k < |gifts| ==> Load(t, gifts[k].0) == x
    ensures GiftLoad(t, gifts) == Times(|gifts|, x)
  {
    hide Load, Times;
    TimesStep(|gifts|, x);
    if gifts != [] {
      SameLoad(t, gifts[1..], x);
    }
  }

  /** Taking a payload off a channel leaves less work than offering it. */
  lemma TakenLoad(t: Topology, to: Pid, p: Payload)
    requires t.Valid() && t.Exists(to) && to != Source
    ensures Potential(t, to, Taken(t, to, p)) - 2 < Load(t, t.Input(to))
  {
    hide StageLoad, GiftLoad, Times;
    if to.Work? || to.Split? {
      StageLoadIs(t, to.i);
    }
    if to.Split? {
      SameLoad(t, t.Copies(to.i, p), 3 + StageLoad(t, to.i + 1));
      TimesStep(1, 3 + StageLoad(t, to.i + 1));
    } else if to == Sink {
      StageLoadEnd(t);
    }
  }

  lemma StageLoadIs(t: Topology, i: nat)
    requires i < |t.stages|
    ensures var worker := 3 + StageLoad(t, i + 1);
            StageLoad(t, i) == match t.stages[i].kind
                               case Direct => worker
                               case Dynamic => 1 + worker
                               case Broadcast => Times(t.stages[i].width, worker) + 3
  {
  }

  lemma StageLoadEnd(t: Topology)
    ensures StageLoad(t, |t.stages|) == 3
  {
  }

  ghost function Potentials(t: Topology, procs: map<Pid, Proc>): (m: map<Pid, real>)
    ensures m.Keys == procs.Keys
  {
    map pid | pid in procs :: Potential(t, pid, procs[pid]) as real
  }

  ghost function OneIf(b: bool): nat { if b then 1 else 0 }

  /** The number of steps left before Process returns, at most. */
  ghost function StepsLeft(t: Topology, s: State): real {
    Total(Potentials(t, s.procs)) + SharedLeft(t, s) as real
  }

  ghost function SharedLeft(t: Topology, s: State): nat {
    Times(|s.items|, 1 + StageLoad(t, 0)) + |s.open| + |s.errCh|
    + OneIf(s.errOpen) + OneIf(!s.returned) + OneIf(!s.done)
  }

  lemma PotentialOne(t: Topology, procs: map<Pid, Proc>, pid: Pid, x: Proc)
    requires pid in procs
    ensures Total(Potentials(t, procs + map[pid := x]))
         == Total(Potentials(t, procs)) - Potential(t, pid, procs[pid]) as real + Potential(t, pid, x) as real
  {
    hide Potential, Total;
    assert Potentials(t, procs + map[pid := x]) == Potentials(t, procs)[pid := Potential(t, pid, x) as real];
    TotalUpdate(Potentials(t, procs), pid, Potential(t, pid, x) as real);
  }

  lemma PotentialTwo(t: Topology, procs: map<Pid, Proc>, pid: Pid, x: Proc, to: Pid, y: Proc)
    requires pid in procs && to in procs && pid != to
    ensures Total(Potentials(t, procs + map[pid := x, to := y]))
         == Total(Potentials(t, procs)) - Potential(t, pid, procs[pid]) as real + Potential(t, pid, x) as real
            - Potential(t, to, procs[to]) as real + Potential(t, to, y) as real
  {
    hide Potential, Total, Potentials;
    PotentialOne(t, procs, pid, x);
    PotentialOne(t, procs + map[pid := x], to, y);
    assert procs + map[pid := x] + map[to := y] == procs + map[pid := x, to := y];
  }

  lemma PassLeft(t: Topology, s: State, pid: Pid, to: Pid, u: State)
    requires Step(t, s, Pass(pid, to), u)
    ensures StepsLeft(t, u) <= StepsLeft(t, s) - 1.0
  {
    hide Total, Potentials, StageLoad, Taken, Topology.Input;
    var gifts := s.procs[pid].gifts;
    PotentialTwo(t, s.procs, pid, Rest(gifts), to, Taken(t, to, gifts[0].1));
    TakenLoad(t, to, gifts[0].1);
    RestLoad(t, pid, gifts);
  }

  lemma RestLoad(t: Topology, pid: Pid, gifts: seq<(Chan, Payload)>)
    requires gifts != []
    ensures Potential(t, pid, Rest(gifts)) == Potential(t, pid, Giving(gifts)) - Load(t, gifts[0].0)
  {
    hide Load;
    if |gifts| == 1 {
      assert gifts[1..] == [];
      assert GiftLoad(t, gifts[1..]) == 0;
    }
  }

  ghost predicate Emits(a: Action) {
    a.Fail? || (a.Exhaust? && a.err.Some?)
  }

  /** A process that moves on by itself loses more than it adds to the error channel. */
  lemma MoverLoad(t: Topology, s: State, a: Action, pid: Pid)
    requires Enabled(t, s, a) && Acts(a, pid) && !a.Supply?
    ensures pid in Moves(t, s, a)
    ensures Potential(t, pid, Moves(t, s, a)[pid]) <= Potential(t, pid, s.procs[pid]) - 1 - OneIf(Emits(a))
  {
    hide StageLoad, Topology.Input, GiftLoad;
    if Moves(t, s, a)[pid].Giving? {
      OneGift(t, Moves(t, s, a)[pid].gifts[0].0, Moves(t, s, a)[pid].gifts[0].1);
    }
    if s.procs[pid].Giving? {
      GiftLoadPositive(t, s.procs[pid].gifts);
    }
  }

  lemma GiftLoadPositive(t: Topology, gifts: seq<(Chan, Payload)>)
    requires gifts != []
    ensures 3 <= GiftLoad(t, gifts)
  {
    hide StageLoad;
  }

  lemma SupplyLoad(t: Topology, s: State)
    requires Enabled(t, s, Supply)
    ensures Potential(t, Source, Moves(t, s, Supply)[Source]) == Potential(t, Source, s.procs[Source]) + StageLoad(t, 0)
  {
    hide StageLoad, GiftLoad;
    OneGift(t, StageCh(0), s.items[0]);
  }

  lemma SharedAfter(t: Topology, s: State, a: Action, u: State, pid: Pid)
    requires Step(t, s, a, u) && Acts(a, pid)
    ensures SharedLeft(t, u) <= SharedLeft(t, s) + OneIf(Emits(a)) - if a.Supply? then 1 + StageLoad(t, 0) else 0
  {
    hide StageLoad, Times, Moves;
    TimesStep(|s.items|, 1 + StageLoad(t, 0));
  }

  lemma MovesOne(t: Topology, s: State, a: Action, u: State, pid: Pid)
    requires Step(t, s, a, u) && Acts(a, pid)
    ensures pid in s.procs && pid in Moves(t, s, a) && u.procs == s.procs + map[pid := Moves(t, s, a)[pid]]
  {
    hide Shared;
    assert Moves(t, s, a) == map[pid := Moves(t, s, a)[pid]];
  }

  /** One process moves on by itself. */
  lemma MoveLeft(t: Topology, s: State, a: Action, u: State, pid: Pid)
    requires Step(t, s, a, u) && Acts(a, pid)
    ensures StepsLeft(t, u) <= StepsLeft(t, s) - 1.0
  {
    hide Total, Potentials, Potential, StageLoad, SharedLeft, Moves, Shared;
    MovesOne(t, s, a, u, pid);
    PotentialOne(t, s.procs, pid, Moves(t, s, a)[pid]);
    SharedAfter(t, s, a, u, pid);
    if a.Supply? {
      SupplyLoad(t, s);
    } else {
      MoverLoad(t, s, a, pid);
    }
  }

  ghost predicate Acts(a: Action, pid: Pid) {
    match a
    case Supply => pid == Source
    case Exhaust(_) => pid == Source
    case Complete(x) => pid == x
    case Fail(x, _) => pid == x
    case SeeClosed(x) => pid == x
    case SeeDone(x) => pid == x
    case _ => false
  }

  lemma SharedLeftStep(t: Topology, s: State, a: Action, u: State)
    requires Step(t, s, a, u) && (a.Close? || a.CloseErrors? || a.CollectError? || a.Return? || a.Cancel?)
    ensures StepsLeft(t, u) <= StepsLeft(t, s) - 1.0
  {
    hide Total, Potentials, StageLoad;
    assert u.procs == s.procs;
  }

  /** Every step leaves fewer steps to take. */
  lemma StepsDecrease(t: Topology, s: State, a: Action, u: State)
    requires Step(t, s, a, u)
    ensures StepsLeft(t, u) <= StepsLeft(t, s) - 1.0
  {
    hide Step, StepsLeft;
    match a
    case Pass(pid, to) => PassLeft(t, s, pid, to, u);
    case Supply => MoveLeft(t, s, a, u, Source);
    case Exhaust(_) => MoveLeft(t, s, a, u, Source);
    case Complete(pid) => MoveLeft(t, s, a, u, pid);
    case Fail(pid, _) => MoveLeft(t, s, a, u, pid);
    case SeeClosed(pid) => MoveLeft(t, s, a, u, pid);
    case SeeDone(pid) => MoveLeft(t, s, a, u, pid);
    case _ => SharedLeftStep(t, s, a, u);
  }

  lemma StepsLeftNonNegative(t: Topology, s: State)
    ensures 0.0 <= StepsLeft(t, s)
  {
    var zero := map pid | pid in s.procs :: 0.0;
    TotalConst(zero, 0.0);
    MulOne(|zero| as real);
    TotalMono(zero, Potentials(t, s.procs));
  }

  /** No run is longer than the bound computed from its first state, so with no reachable state
      stuck before Process returns, Process always returns. */
  lemma {:induction false} RunsEnd(t: Topology, r: Run, n: nat)
    requires r.Valid(t) && n <= |r.actions|
    ensures n as real <= StepsLeft(t, r.states[0]) - StepsLeft(t, r.states[n]) <= StepsLeft(t, r.states[0])
  {
    hide Step, Initial, StepsLeft;
    StepsLeftNonNegative(t, r.states[n]);
    if 0 < n {
      RunsEnd(t, r, n - 1);
      assert Step(t, r.states[n - 1], r.actions[n - 1], r.states[n]);
      StepsDecrease(t, r.states[n - 1], r.actions[n - 1], r.states[n]);
    }
  }
}
