/** What the executor's methods do, in terms of the calculator machine: its actions with their effects
    spelled out, and how a run of the executor ends. */
module ExecutorSpec {
  import opened Ids
  import opened Sums
  import opened PageRank
  import opened FixedPoint
  import opened Calculator
  import opened Schedule
  import opened Options
  import Supersteps
  import Bsp

  datatype Error = UnknownEdgeSource | InvalidMessageDestination | ContextExpired

  /** No vertex but `id` has gone from one phase to another. */
  ghost predicate OthersStay(m: Machine, t: Machine, id: Id) {
    && t.bsp.vertices.Keys == m.bsp.vertices.Keys
    && forall v :: v in m.bsp.vertices && v != id ==> t.bsp.vertices[v].phase == m.bsp.vertices[v].phase
  }

  lemma SameStays(m: Machine, t: Machine, id: Id)
    requires t.bsp == m.bsp
    ensures OthersStay(m, t, id)
  {
  }

  lemma PutStays(m: Machine, t: Machine, v: Id, id: Id)
    requires v in m.bsp.vertices && t.bsp.vertices.Keys == m.bsp.vertices.Keys
    requires t.bsp == Bsp.Put(m.bsp, v, t.bsp.vertices[v])
    requires v == id || t.bsp.vertices[v].phase == m.bsp.vertices[v].phase
    ensures OthersStay(m, t, id)
  {
  }

  lemma StaysRefl(m: Machine, id: Id)
    ensures OthersStay(m, m, id)
  {
  }

  lemma StaysTrans(m: Machine, t: Machine, u: Machine, id: Id)
    requires OthersStay(m, t, id) && OthersStay(t, u, id)
    ensures OthersStay(m, u, id)
  {
  }

  lemma WithQueueKeeps(x: Bsp.Vertex<real>, s: nat, q: seq<real>)
    ensures x.WithQueue(s, q).phase == x.phase
  {
  }

  // ---------------------------------------------------------------- edges that lead nowhere

  /** The compute function of `v` fails in superstep `s`: it sends from superstep 1 on. */
  ghost predicate Misses(w: Web, s: nat, v: Id) {
    1 <= s && v in w.out && exists k :: 0 <= k < |w.out[v]| && w.out[v][k] !in w.ids
  }

  ghost function ErrorOf(w: Web, s: nat, v: Id): Option<Error> {
    if Misses(w, s, v) then Some(InvalidMessageDestination) else None
  }

  ghost function PhaseAfter(w: Web, s: nat, v: Id): Bsp.Phase {
    if Misses(w, s, v) then Bsp.Failed else Bsp.Done
  }

  /** Superstep `s` fails, if it is reached. */
  ghost predicate Fails(w: Web, s: nat) {
    1 <= s && !w.Closed()
  }

  lemma MissesIs(w: Web, s: nat, v: Id)
    requires v in w.out
    ensures Misses(w, s, v) <==> 1 <= s && exists k :: 0 <= k < |w.out[v]| && w.out[v][k] !in w.ids
  {
  }

  lemma NoMissesYet(w: Web, v: Id)
    ensures !Misses(w, 0, v)
  {
  }

  lemma MissesOpen(w: Web, s: nat, v: Id)
    requires v in w.ids && Misses(w, s, v)
    ensures !w.Closed()
  {
  }

  lemma FailsOpen(w: Web, s: nat)
    requires Fails(w, s)
    ensures !w.Closed()
  {
  }

  /** A superstep fails exactly if some vertex does. */
  lemma SomeMisses(w: Web, s: nat)
    requires w.out.Keys == w.ids
    ensures Fails(w, s) <==> exists v :: v in w.ids && Misses(w, s, v)
  {
    if Fails(w, s) {
      var u, v :| u in w.ids && v in w.out[u] && v !in w.ids;
      var k :| 0 <= k < |w.out[u]| && w.out[u][k] == v;
      assert Misses(w, s, u);
    }
  }

  /** The vertices in `todo` are still waiting; all others are done or have failed. */
  ghost predicate Remaining(w: Web, m: Machine, todo: set<Id>) {
    forall v :: v in m.bsp.vertices ==>
      m.bsp.vertices[v].phase == if v in todo then Bsp.Waiting else PhaseAfter(w, m.bsp.superstep, v)
  }

  lemma RemainingStart(w: Web, m: Machine)
    requires m.bsp.Everywhere(Bsp.Waiting)
    ensures Remaining(w, m, m.bsp.vertices.Keys)
  {
  }

  lemma RemainingAt(w: Web, m: Machine, todo: set<Id>, id: Id)
    requires Remaining(w, m, todo) && id in m.bsp.vertices && id in todo
    ensures m.bsp.vertices[id].phase == Bsp.Waiting
  {
  }

  lemma RemainingStep(w: Web, m: Machine, t: Machine, todo: set<Id>, id: Id)
    requires Remaining(w, m, todo) && OthersStay(m, t, id) && t.bsp.superstep == m.bsp.superstep
    requires id in t.bsp.vertices && t.bsp.vertices[id].phase == PhaseAfter(w, t.bsp.superstep, id)
    ensures Remaining(w, t, todo - {id})
  {
    hide Misses;
  }

  lemma NoneRemaining(w: Web, m: Machine)
    requires Remaining(w, m, {}) && w.Closed() && m.bsp.vertices.Keys == w.ids
    ensures m.bsp.Everywhere(Bsp.Done)
  {
  }

  /** The machine before the superstep counter was advanced. */
  ghost function Earlier(m: Machine): Machine
    requires 0 < m.bsp.superstep
  {
    m.(bsp := m.bsp.(superstep := m.bsp.superstep - 1))
  }

  ghost function Woken(s: Bsp.State<real>): Bsp.State<real> {
    s.(vertices := map v | v in s.vertices :: s.vertices[v].(phase := Bsp.Waiting))
  }

  lemma WokenWaits(s: Bsp.State<real>)
    ensures Woken(s).Everywhere(Bsp.Waiting)
  {
  }

  lemma WokenStart(w: Web, d: real, m: Machine, t: Machine)
    requires Start(w, m)
    requires t == m.(bsp := Woken(m.bsp),
                     acc := m.acc.With(SumOfDifferences, 0.0).With(ResidualOutput(m.bsp.superstep), 0.0))
    ensures t == m && t.pageCount == 0 && (w.Closed() ==> Inv(w, d, t))
  {
    hide Inv;
    assert Woken(m.bsp).vertices == m.bsp.vertices;
    if w.Closed() {
      StartInv(w, d, m);
    }
  }

  lemma WokenNext(w: Web, d: real, eps: real, m: Machine, t: Machine)
    requires 0 < m.bsp.superstep
    requires Inv(w, d, Earlier(m)) && Earlier(m).bsp.Everywhere(Bsp.Done) && Earlier(m).KeepRunning(eps)
    requires t == m.(bsp := Woken(m.bsp),
                     acc := m.acc.With(SumOfDifferences, 0.0).With(ResidualOutput(m.bsp.superstep), 0.0))
    ensures Step(w, d, eps, Earlier(m), NextSuperstep, t) && Inv(w, d, t) && t.bsp.Everywhere(Bsp.Waiting)
  {
    hide SharedOk, VertexOk;
    var p := Earlier(m);
    assert Enabled(w, eps, p, NextSuperstep);
    assert t.bsp == Bsp.NextSuperstep(p.bsp);
    assert t == Perform(w, d, eps, p, NextSuperstep);
    InvStep(w, d, eps, p, NextSuperstep, t);
  }

  /** What a finished superstep has computed. */
  lemma AfterSuperstep(w: Web, d: real, eps: real, m: Machine)
    requires Inv(w, d, m) && m.bsp.Everywhere(Bsp.Done)
    ensures w.Closed() && Iterated(w, d, m.value, m.bsp.superstep + 1)
    ensures m.KeepRunning(eps) <==> !StopsAt(w, d, eps, m.bsp.superstep)
  {
    hide Sad, ScoresAt, SharedOk, VertexOk;
    if 1 <= m.bsp.superstep {
      Supersteps.DoneScores(w, d, m);
    }
    if 2 <= m.bsp.superstep {
      Supersteps.DoneSad(w, d, m);
    }
  }

  /** On a closed web, after `steps` supersteps the scores are those of the iteration, once it has begun. */
  ghost predicate Iterated(w: Web, d: real, scores: Scores, steps: nat) {
    w.Closed() && 2 <= steps ==> scores == ScoresAt(w, d, steps - 1)
  }

  lemma OnlyClosedIterates(w: Web, d: real, scores: Scores, steps: nat)
    ensures !w.Closed() ==> Iterated(w, d, scores, steps)
  {
  }

  // ---------------------------------------------------------------- how a run ends

  /** Superstep `s` meets the stop condition. */
  ghost predicate StopsAt(w: Web, d: real, eps: real, s: nat) {
    w.Closed() && Stops(w, d, eps, s)
  }

  lemma NoStopAtZero(w: Web, d: real, eps: real)
    ensures !StopsAt(w, d, eps, 0)
  {
  }

  /** None of the first `steps` supersteps meets the stop condition. */
  ghost predicate GoesOn(w: Web, d: real, eps: real, steps: nat) {
    forall s: nat :: s < steps ==> !StopsAt(w, d, eps, s)
  }

  /** None of the first `steps` supersteps fails, and neither step limit nor expiry come earlier. */
  ghost predicate Completed(w: Web, maxSteps: int, expiresAt: Option<nat>, steps: nat) {
    && (forall s: nat :: s < steps ==> !Fails(w, s))
    && (0 <= maxSteps ==> steps <= maxSteps) && (expiresAt.Some? ==> steps <= expiresAt.value)
  }

  ghost predicate Reached(w: Web, d: real, eps: real, maxSteps: int, expiresAt: Option<nat>, steps: nat) {
    Completed(w, maxSteps, expiresAt, steps) && GoesOn(w, d, eps, steps)
  }

  /** How many supersteps a run completes and how it ends: with the first one that meets the stop
      condition, with the step limit, when the context expires, or in a superstep that fails. */
  ghost predicate RanFor(w: Web, d: real, eps: real, maxSteps: int, expiresAt: Option<nat>, err: Option<Error>,
                         steps: nat)
  {
    && Completed(w, maxSteps, expiresAt, steps)
    && (0 < steps ==> GoesOn(w, d, eps, steps - 1))
    && match err
       case None => (steps == maxSteps && GoesOn(w, d, eps, steps)) || (0 < steps && StopsAt(w, d, eps, steps - 1))
       case Some(ContextExpired) => steps != maxSteps && expiresAt == Some(steps) && GoesOn(w, d, eps, steps)
       case Some(InvalidMessageDestination) =>
         steps != maxSteps && expiresAt != Some(steps) && GoesOn(w, d, eps, steps) && Fails(w, steps)
       case Some(UnknownEdgeSource) => false
  }

  /** The links, the parameters and the moment of expiry leave one outcome only. */
  lemma RanForIsUnique(w: Web, d: real, eps: real, maxSteps: int, expiresAt: Option<nat>,
                       err1: Option<Error>, steps1: nat, err2: Option<Error>, steps2: nat)
    requires RanFor(w, d, eps, maxSteps, expiresAt, err1, steps1)
    requires RanFor(w, d, eps, maxSteps, expiresAt, err2, steps2)
    ensures steps1 == steps2 && err1 == err2
  {
    hide StopsAt, Fails;
  }

  /** There is something that ends the run. */
  ghost predicate Ends(w: Web, d: real, eps: real, maxSteps: int, expiresAt: Option<nat>) {
    0 <= maxSteps || expiresAt.Some? || !w.Closed() || exists s: nat :: StopsAt(w, d, eps, s)
  }

  /** The run ends before or in superstep `bound`. */
  ghost predicate EndBy(w: Web, d: real, eps: real, maxSteps: int, expiresAt: Option<nat>, bound: nat) {
    maxSteps == bound || expiresAt == Some(bound) || (bound == 1 && !w.Closed()) || StopsAt(w, d, eps, bound)
  }

  lemma EndsBy(w: Web, d: real, eps: real, maxSteps: int, expiresAt: Option<nat>) returns (bound: nat)
    requires Ends(w, d, eps, maxSteps, expiresAt)
    ensures EndBy(w, d, eps, maxSteps, expiresAt, bound)
  {
    hide StopsAt;
    if 0 <= maxSteps {
      bound := maxSteps;
    } else if expiresAt.Some? {
      bound := expiresAt.value;
    } else if !w.Closed() {
      bound := 1;
    } else {
      bound :| StopsAt(w, d, eps, bound);
    }
  }

  lemma WithinBound(w: Web, d: real, eps: real, maxSteps: int, expiresAt: Option<nat>, bound: nat, steps: nat)
    requires EndBy(w, d, eps, maxSteps, expiresAt, bound) && Reached(w, d, eps, maxSteps, expiresAt, steps)
    ensures steps <= bound
  {
    hide StopsAt;
    assert 1 < steps ==> !Fails(w, 1);
  }

  /** Where the superstep counter stands after `steps` supersteps: a run that is stopped returns
      before it is increased. */
  ghost function CounterAfter(w: Web, d: real, eps: real, steps: nat): nat {
    if 0 < steps && StopsAt(w, d, eps, steps - 1) then steps - 1 else steps
  }

  lemma NothingYet(w: Web, d: real, eps: real, maxSteps: int, expiresAt: Option<nat>)
    ensures Reached(w, d, eps, maxSteps, expiresAt, 0)
  {
  }

  lemma LimitNow(w: Web, d: real, eps: real, maxSteps: int, expiresAt: Option<nat>, steps: nat)
    requires Reached(w, d, eps, maxSteps, expiresAt, steps) && steps == maxSteps
    ensures RanFor(w, d, eps, maxSteps, expiresAt, None, steps) && CounterAfter(w, d, eps, steps) == steps
  {
    hide StopsAt, Fails;
  }

  lemma ExpiresNow(w: Web, d: real, eps: real, maxSteps: int, expiresAt: Option<nat>, steps: nat)
    requires Reached(w, d, eps, maxSteps, expiresAt, steps) && steps != maxSteps && expiresAt == Some(steps)
    ensures RanFor(w, d, eps, maxSteps, expiresAt, Some(ContextExpired), steps)
    ensures CounterAfter(w, d, eps, steps) == steps
  {
    hide StopsAt, Fails;
  }

  lemma FailsNow(w: Web, d: real, eps: real, maxSteps: int, expiresAt: Option<nat>, steps: nat)
    requires Reached(w, d, eps, maxSteps, expiresAt, steps) && steps != maxSteps && expiresAt != Some(steps)
    requires Fails(w, steps)
    ensures RanFor(w, d, eps, maxSteps, expiresAt, Some(InvalidMessageDestination), steps)
    ensures CounterAfter(w, d, eps, steps) == steps
  {
    hide StopsAt, Fails;
  }

  lemma StopsNow(w: Web, d: real, eps: real, maxSteps: int, expiresAt: Option<nat>, steps: nat)
    requires Reached(w, d, eps, maxSteps, expiresAt, steps) && steps != maxSteps && expiresAt != Some(steps)
    requires !Fails(w, steps) && StopsAt(w, d, eps, steps)
    ensures RanFor(w, d, eps, maxSteps, expiresAt, None, steps + 1) && CounterAfter(w, d, eps, steps + 1) == steps
  {
    hide StopsAt, Fails;
  }

  lemma OneMore(w: Web, d: real, eps: real, maxSteps: int, expiresAt: Option<nat>, steps: nat)
    requires Reached(w, d, eps, maxSteps, expiresAt, steps) && steps != maxSteps && expiresAt != Some(steps)
    requires !Fails(w, steps) && !StopsAt(w, d, eps, steps)
    ensures Reached(w, d, eps, maxSteps, expiresAt, steps + 1)
  {
    hide StopsAt, Fails;
  }

  /** A superstep that fails leaves no iterate: the web is not closed. */
  lemma Superseded(w: Web, d: real, scores: Scores, s: nat)
    requires Fails(w, s)
    ensures Iterated(w, d, scores, s)
  {
  }

  /** The outcome of a run that has got to superstep `s`. */
  lemma {:induction false} OutcomeFrom(w: Web, d: real, eps: real, maxSteps: int, expiresAt: Option<nat>,
                                       bound: nat, s: nat)
    returns (err: Option<Error>, steps: nat)
    requires EndBy(w, d, eps, maxSteps, expiresAt, bound) && Reached(w, d, eps, maxSteps, expiresAt, s)
    ensures RanFor(w, d, eps, maxSteps, expiresAt, err, steps)
    decreases bound - s
  {
    hide StopsAt, Fails, Reached, RanFor, EndBy;
    WithinBound(w, d, eps, maxSteps, expiresAt, bound, s);
    if s == maxSteps {
      LimitNow(w, d, eps, maxSteps, expiresAt, s);
      err, steps := None, s;
    } else if expiresAt == Some(s) {
      ExpiresNow(w, d, eps, maxSteps, expiresAt, s);
      err, steps := Some(ContextExpired), s;
    } else if Fails(w, s) {
      FailsNow(w, d, eps, maxSteps, expiresAt, s);
      err, steps := Some(InvalidMessageDestination), s;
    } else if StopsAt(w, d, eps, s) {
      StopsNow(w, d, eps, maxSteps, expiresAt, s);
      err, steps := None, s + 1;
    } else {
      OneMore(w, d, eps, maxSteps, expiresAt, s);
      WithinBound(w, d, eps, maxSteps, expiresAt, bound, s + 1);
      err, steps := OutcomeFrom(w, d, eps, maxSteps, expiresAt, bound, s + 1);
    }
  }

  /** A run has an outcome if and only if there is something that ends it. */
  lemma OutcomeIff(w: Web, d: real, eps: real, maxSteps: int, expiresAt: Option<nat>)
    ensures Ends(w, d, eps, maxSteps, expiresAt) <==>
            exists err: Option<Error>, steps: nat :: RanFor(w, d, eps, maxSteps, expiresAt, err, steps)
  {
    hide StopsAt;
    if Ends(w, d, eps, maxSteps, expiresAt) {
      var bound := EndsBy(w, d, eps, maxSteps, expiresAt);
      NothingYet(w, d, eps, maxSteps, expiresAt);
      var err, steps := OutcomeFrom(w, d, eps, maxSteps, expiresAt, bound, 0);
    }
  }

  /** With d < 1 every run ends. */
  lemma DampedEnds(w: Web, d: real, eps: real, maxSteps: int, expiresAt: Option<nat>)
    requires 0.0 < d < 1.0 && 0.0 < eps
    ensures Ends(w, d, eps, maxSteps, expiresAt)
  {
    hide Stops;
    if w.Closed() {
      StopsByLimit(w, d, eps);
      assert StopsAt(w, d, eps, StopLimit(d, eps));
    }
  }

  /** A run without step limit that ends without an error leaves scores close to the PageRank vector. */
  lemma CompletionIsClose(w: Web, d: real, eps: real, maxSteps: int, expiresAt: Option<nat>, steps: nat, scores: Scores)
    requires 0.0 < d < 1.0 && maxSteps < 0
    requires RanFor(w, d, eps, maxSteps, expiresAt, None, steps) && Iterated(w, d, scores, steps)
    ensures w.Closed() && scores.Keys == w.ids && L1(scores, Ranks(w, d)) <= Mul(d / (1.0 - d), eps)
  {
    hide L1, Ranks, ScoresAt, Sad, Mul;
    StopError(w, d, eps, steps - 1, Ranks(w, d));
  }

  // ---------------------------------------------------------------- the machine's actions, spelled out

  lemma ReadAfterPut(s: Bsp.State<real>, v: Id, q: seq<real>)
    requires v in s.vertices
    ensures Bsp.Put(s, v, s.vertices[v].WithQueue(s.superstep, q)).ReadQueue(v) == q
  {
  }

  lemma BeginForm(w: Web, d: real, m: Machine, v: Id)
    requires Inv(w, d, m) && v in w.ids && m.bsp.vertices[v].phase == Bsp.Waiting
    ensures w.Closed() && m.Shaped(w) && Enabled(w, 0.0, m, Begin(v))
    ensures Perform(w, d, 0.0, m, Begin(v))
         == m.(bsp := m.bsp.(vertices := m.bsp.vertices[
                        v := m.bsp.vertices[v].(phase := Bsp.Computing, active := true)]),
               pc := m.pc[v := Started])
  {
    hide WriteOk, SharedOk, Mul, ScoresAt, Inbox, Teleport, QueueSum;
    assert VertexOk(w, d, m, v);
  }

  lemma Running(w: Web, d: real, m: Machine, v: Id)
    requires Inv(w, d, m) && v in w.ids && m.pc[v] != Idle
    ensures w.Closed() && m.Shaped(w) && Bsp.Runs(m.bsp, v)
    ensures 1 <= m.bsp.superstep ==> m.pageCount == |w.ids| != 0
  {
    hide WriteOk, Mul, ScoresAt, Inbox, Teleport, QueueSum, Residual, Changes;
    assert VertexOk(w, d, m, v);
  }

  lemma CountForm(w: Web, d: real, m: Machine, v: Id)
    requires Inv(w, d, m) && v in w.ids && m.pc[v] == Started && m.bsp.superstep == 0
    ensures w.Closed() && m.Shaped(w) && Enabled(w, 0.0, m, CountPage(v))
    ensures Perform(w, d, 0.0, m, CountPage(v)) == m.(pc := m.pc[v := Returned], pageCount := m.pageCount + 1)
  {
    hide Inv;
    Running(w, d, m, v);
  }

  lemma InitializeForm(w: Web, d: real, m: Machine, v: Id)
    requires Inv(w, d, m) && v in w.ids && m.pc[v] == Started && 1 <= m.bsp.superstep
    ensures w.Closed() && m.Shaped(w) && m.pageCount != 0 && Enabled(w, 0.0, m, Calculator.Initialize(v))
    ensures Perform(w, d, 0.0, m, Calculator.Initialize(v))
         == m.(pc := m.pc[v := FirstPc(m.bsp.superstep,
                                       PerPage(if m.bsp.superstep == 1 then 1.0 else 1.0 - d, m.pageCount))])
  {
    hide Inv;
    Running(w, d, m, v);
  }

  lemma TakeForm(w: Web, d: real, m: Machine, v: Id)
    requires Inv(w, d, m) && v in w.ids && m.pc[v].Summing? && m.bsp.ReadQueue(v) != []
    ensures w.Closed() && m.Shaped(w)
    ensures var q := m.bsp.ReadQueue(v);
            var i: nat := |q| - 1;
            && Enabled(w, 0.0, m, Calculator.TakeMessage(v, i))
            && Perform(w, d, 0.0, m, Calculator.TakeMessage(v, i))
               == m.(bsp := Bsp.Put(m.bsp, v, m.bsp.vertices[v].WithQueue(m.bsp.superstep, q[..i])),
                     pc := m.pc[v := Summing(m.pc[v].sum + Mul(d, q[i]))])
  {
    hide Inv, Mul;
    Running(w, d, m, v);
    var q := m.bsp.ReadQueue(v);
    assert q[..|q| - 1] + q[|q|..] == q[..|q| - 1];
  }

  lemma AddResidualForm(w: Web, d: real, m: Machine, v: Id)
    requires Inv(w, d, m) && v in w.ids && m.pc[v].Summing? && m.bsp.ReadQueue(v) == []
    ensures w.Closed() && m.Shaped(w) && Enabled(w, 0.0, m, Calculator.AddResidual(v))
    ensures Perform(w, d, 0.0, m, Calculator.AddResidual(v))
         == m.(pc := m.pc[v := Scored(m.pc[v].sum + Mul(d, m.acc.At(ResidualInput(m.bsp.superstep))))])
  {
    hide Inv, Mul;
    Running(w, d, m, v);
  }

  lemma RecordForm(w: Web, d: real, m: Machine, v: Id)
    requires Inv(w, d, m) && v in w.ids && m.pc[v].Scored?
    ensures w.Closed() && m.Shaped(w) && Enabled(w, 0.0, m, Record(v))
    ensures Perform(w, d, 0.0, m, Record(v))
         == m.(pc := m.pc[v := Recorded(m.pc[v].score)],
               acc := m.acc.With(SumOfDifferences, m.acc.At(SumOfDifferences) + Abs(m.value[v] - m.pc[v].score)))
  {
    hide Inv, Abs;
    Running(w, d, m, v);
  }

  lemma SetForm(w: Web, d: real, m: Machine, v: Id)
    requires Inv(w, d, m) && v in w.ids && m.pc[v].Recorded?
    ensures w.Closed() && m.Shaped(w) && Enabled(w, 0.0, m, SetScore(v))
    ensures Perform(w, d, 0.0, m, SetScore(v))
         == m.(pc := m.pc[v := Sending(m.pc[v].score, 0)], value := m.value[v := m.pc[v].score])
  {
    hide Inv;
    Running(w, d, m, v);
  }

  lemma DeadEndForm(w: Web, d: real, m: Machine, v: Id)
    requires Inv(w, d, m) && v in w.ids && m.pc[v].Sending? && w.out[v] == [] && 1 <= m.bsp.superstep
    ensures w.Closed() && m.Shaped(w) && m.pageCount != 0 && Enabled(w, 0.0, m, DeadEnd(v))
    ensures Perform(w, d, 0.0, m, DeadEnd(v))
         == m.(pc := m.pc[v := Returned],
               acc := m.acc.With(ResidualOutput(m.bsp.superstep),
                                 m.acc.At(ResidualOutput(m.bsp.superstep)) + PerPage(m.pc[v].score, m.pageCount)))
  {
    hide Inv;
    Running(w, d, m, v);
  }

  lemma SendForm(w: Web, d: real, m: Machine, v: Id)
    requires Inv(w, d, m) && v in w.ids && m.pc[v].Sending? && m.pc[v].sent < |w.out[v]|
    ensures w.Closed() && m.Shaped(w) && w.out[v][m.pc[v].sent] in w.ids && Enabled(w, 0.0, m, SendNext(v))
    ensures var dst := w.out[v][m.pc[v].sent];
            Perform(w, d, 0.0, m, SendNext(v))
            == m.(bsp := Bsp.Put(m.bsp, dst, m.bsp.vertices[dst].WithQueue(m.bsp.superstep + 1,
                           m.bsp.WriteQueue(dst) + [m.pc[v].score / |w.out[v]| as real])),
                  pc := m.pc[v := Sending(m.pc[v].score, m.pc[v].sent + 1)])
  {
    hide Inv, Bsp.Vertex.WithQueue;
    Running(w, d, m, v);
  }

  /** Serving an edge: the message is queued at its end, and the sender has one more to its account. */
  lemma ServeForm(w: Web, d: real, m: Machine, t: Machine, v: Id)
    requires m.Shaped(w) && w.out.Keys == w.ids && v in w.ids && m.pc[v].Sending? && m.pc[v].sent < |w.out[v]|
    requires w.out[v][m.pc[v].sent] in w.ids
    requires var dst := w.out[v][m.pc[v].sent];
             t == m.(bsp := Bsp.Put(m.bsp, dst, m.bsp.vertices[dst].WithQueue(m.bsp.superstep + 1,
                              m.bsp.WriteQueue(dst) + [m.pc[v].score / |w.out[v]| as real])),
                     pc := m.pc[v := Sending(m.pc[v].score, m.pc[v].sent + 1)])
    ensures OthersStay(m, t, v)
    ensures w.Closed() && Inv(w, d, m) ==> Step(w, d, 0.0, m, SendNext(v), t) && Inv(w, d, t)
  {
    hide Inv, Enabled, Perform, Bsp.Vertex.WithQueue, Bsp.State.WriteQueue;
    var dst := w.out[v][m.pc[v].sent];
    WithQueueKeeps(m.bsp.vertices[dst], m.bsp.superstep + 1,
                   m.bsp.WriteQueue(dst) + [m.pc[v].score / |w.out[v]| as real]);
    PutStays(m, t, dst, v);
    if w.Closed() && Inv(w, d, m) {
      SendForm(w, d, m, v);
      InvStep(w, d, 0.0, m, SendNext(v), t);
    }
  }

  lemma AllSentForm(w: Web, d: real, m: Machine, v: Id)
    requires Inv(w, d, m) && v in w.ids && m.pc[v].Sending? && m.pc[v].sent == |w.out[v]| && w.out[v] != []
    ensures w.Closed() && m.Shaped(w) && Enabled(w, 0.0, m, AllSent(v))
    ensures Perform(w, d, 0.0, m, AllSent(v)) == m.(pc := m.pc[v := Returned])
  {
    hide Inv;
    Running(w, d, m, v);
  }

  lemma EndForm(w: Web, d: real, m: Machine, v: Id)
    requires Inv(w, d, m) && v in w.ids && m.pc[v] == Returned
    ensures w.Closed() && m.Shaped(w) && Enabled(w, 0.0, m, End(v))
    ensures Perform(w, d, 0.0, m, End(v))
         == m.(bsp := Bsp.Put(m.bsp, v, m.bsp.vertices[v].WithQueue(m.bsp.superstep, []).(phase := Bsp.Done)),
               pc := m.pc[v := Idle])
  {
    hide Inv, Bsp.Vertex.WithQueue;
    Running(w, d, m, v);
  }
}
