/** What whole runs of the PageRank calculator compute, over every schedule. */
module Supersteps {
  import opened Ids
  import opened Sums
  import opened PageRank
  import opened Calculator
  import opened FixedPoint
  import opened Schedule
  import Bsp

  /** A run of an executor, from any initial vertex values and queue contents. */
  datatype Run = Run(states: seq<Machine>, actions: seq<Action>) {
    ghost predicate Valid(w: Web, d: real, eps: real) {
      && |states| == |actions| + 1
      && Start(w, states[0])
      && forall i :: 0 <= i < |actions| ==> Step(w, d, eps, states[i], actions[i], states[i + 1])
    }

    ghost function Last(): Machine
      requires |states| > 0
    {
      states[|states| - 1]
    }
  }

  lemma {:induction false} RunInv(w: Web, d: real, eps: real, r: Run, n: nat)
    requires w.Closed() && r.Valid(w, d, eps) && n <= |r.actions|
    ensures Inv(w, d, r.states[n])
  {
    hide Inv, Start, Step;
    if n == 0 {
      StartInv(w, d, r.states[0]);
    } else {
      RunInv(w, d, eps, r, n - 1);
      assert Step(w, d, eps, r.states[n - 1], r.actions[n - 1], r.states[n]);
      InvStep(w, d, eps, r.states[n - 1], r.actions[n - 1], r.states[n]);
    }
  }

  // ---------------------------------------------------------------- one superstep, one iteration

  lemma DoneScores(w: Web, d: real, m: Machine)
    requires Inv(w, d, m) && m.bsp.Everywhere(Bsp.Done) && 1 <= m.bsp.superstep
    ensures m.value == ScoresAt(w, d, m.bsp.superstep)
  {
    hide SharedOk, WriteOk, Mul, ScoresAt, Inbox, Teleport, QueueSum;
    forall v | v in w.ids ensures m.value[v] == ScoresAt(w, d, m.bsp.superstep)[v] {
      assert VertexOk(w, d, m, v);
    }
  }

  lemma ChangesOfAll(w: Web, d: real, s: nat)
    requires w.Closed() && 2 <= s
    ensures Changes(w, d, s, w.ids) == Sad(w, d, s)
  {
    hide ScoresAt, Total;
    var x, y := ScoresAt(w, d, s - 1), ScoresAt(w, d, s);
    assert Diff(y, x) == map u | u in w.ids :: Abs(x[u] - y[u]);
  }

  lemma DoneSad(w: Web, d: real, m: Machine)
    requires Inv(w, d, m) && m.bsp.Everywhere(Bsp.Done) && 2 <= m.bsp.superstep
    ensures m.acc.At(SumOfDifferences) == Sad(w, d, m.bsp.superstep)
  {
    hide VertexOk, Changes, Sad, Recorders, Returners, ScoresAt, Residual;
    IdleWhenDone(w, d, m);
    AllServed(w, m);
    ChangesOfAll(w, d, m.bsp.superstep);
  }

  /** Every schedule of every superstep computes exactly one PageRank iteration, and the sum of
      differences it accumulates is the distance between the two iterates. */
  lemma SuperstepIsIteration(w: Web, d: real, eps: real, r: Run)
    requires w.Closed() && r.Valid(w, d, eps) && r.Last().bsp.Everywhere(Bsp.Done)
    ensures var m := r.Last();
            && (1 <= m.bsp.superstep ==> m.value == ScoresAt(w, d, m.bsp.superstep))
            && (2 <= m.bsp.superstep ==> m.acc.At(SumOfDifferences) == Sad(w, d, m.bsp.superstep))
  {
    hide Sad, ScoresAt, Step, Start, SharedOk, VertexOk;
    var m := r.Last();
    RunInv(w, d, eps, r, |r.actions|);
    if 1 <= m.bsp.superstep {
      DoneScores(w, d, m);
    }
    if 2 <= m.bsp.superstep {
      DoneSad(w, d, m);
    }
  }

  /** Neither the order in which vertices are processed and messages are taken, nor the values and
      queues that an earlier run left behind, have any influence on the scores. */
  lemma ScheduleIndependence(w: Web, d: real, eps: real, r1: Run, r2: Run)
    requires w.Closed() && r1.Valid(w, d, eps) && r2.Valid(w, d, eps)
    requires r1.Last().bsp.Everywhere(Bsp.Done) && r2.Last().bsp.Everywhere(Bsp.Done)
    requires r1.Last().bsp.superstep == r2.Last().bsp.superstep >= 1
    ensures r1.Last().value == r2.Last().value
  {
    hide Step, Start, ScoresAt, Sad;
    SuperstepIsIteration(w, d, eps, r1);
    SuperstepIsIteration(w, d, eps, r2);
  }

  /** Scores add up to one and stay within their bounds at the end of every superstep. */
  lemma ScoresAreDistribution(w: Web, d: real, eps: real, r: Run, v: Id)
    requires w.Closed() && r.Valid(w, d, eps) && 0.0 < d <= 1.0 && v in w.ids
    requires r.Last().bsp.Everywhere(Bsp.Done) && 1 <= r.Last().bsp.superstep
    ensures Total(r.Last().value) == 1.0
    ensures v in r.Last().value && (1.0 - d) / |w.ids| as real <= r.Last().value[v] <= 1.0
  {
    hide Step, Start, ScoresAt, Sad;
    SuperstepIsIteration(w, d, eps, r);
    MassConservation(w, d, r.Last().bsp.superstep);
    ScoreBounds(w, d, r.Last().bsp.superstep, v);
  }

  // ---------------------------------------------------------------- when a run stops

  /** The executor goes on after a superstep exactly when the PageRank iteration has not yet
      stopped; so two runs on the same web stop after the same superstep. */
  lemma StopDecision(w: Web, d: real, eps: real, r: Run)
    requires w.Closed() && r.Valid(w, d, eps) && r.Last().bsp.Everywhere(Bsp.Done)
    ensures r.Last().KeepRunning(eps) <==> !Stops(w, d, eps, r.Last().bsp.superstep)
  {
    hide Sad, ScoresAt, Step, Start;
    SuperstepIsIteration(w, d, eps, r);
    RunInv(w, d, eps, r, |r.actions|);
  }

  /** When all vertices are done, the next superstep can start if and only if this was one of the first
      two or the scores have moved by at least the threshold; a change equal to it goes on. */
  lemma GoesOnIff(w: Web, d: real, eps: real, r: Run)
    requires w.Closed() && r.Valid(w, d, eps) && r.Last().bsp.Everywhere(Bsp.Done)
    ensures var s := r.Last().bsp.superstep;
            Enabled(w, eps, r.Last(), NextSuperstep) <==>
              s <= 1 || eps <= L1(ScoresAt(w, d, s), ScoresAt(w, d, s - 1))
  {
    hide Step, Start, ScoresAt, L1, VertexOk, SharedOk, Enabled;
    SuperstepIsIteration(w, d, eps, r);
    RunInv(w, d, eps, r, |r.actions|);
    CanAdvance(w, d, eps, r.Last());
  }

  lemma CanAdvance(w: Web, d: real, eps: real, m: Machine)
    requires Inv(w, d, m) && m.bsp.Everywhere(Bsp.Done)
    ensures Enabled(w, eps, m, NextSuperstep) <==> m.KeepRunning(eps)
  {
    hide VertexOk, SharedOk;
  }

  /** No superstep is started once an earlier one has met the stop condition. */
  lemma {:induction false} NotStoppedBefore(w: Web, d: real, eps: real, r: Run, n: nat, s: nat)
    requires w.Closed() && r.Valid(w, d, eps) && n <= |r.actions| && s < r.states[n].bsp.superstep
    ensures !Stops(w, d, eps, s)
    decreases n
  {
    hide Step, Start, Stops, Calculator.Machine.KeepRunning;
    if 0 < n {
      assert Step(w, d, eps, r.states[n - 1], r.actions[n - 1], r.states[n]);
      SuperstepMoves(w, d, eps, r.states[n - 1], r.actions[n - 1], r.states[n]);
      if s < r.states[n - 1].bsp.superstep {
        NotStoppedBefore(w, d, eps, r, n - 1, s);
      } else {
        var prefix := Run(r.states[..n], r.actions[..n - 1]);
        assert prefix.Valid(w, d, eps) by {
          forall i | 0 <= i < |prefix.actions|
            ensures Step(w, d, eps, prefix.states[i], prefix.actions[i], prefix.states[i + 1])
          {
            assert Step(w, d, eps, r.states[i], r.actions[i], r.states[i + 1]);
          }
        }
        assert prefix.Last() == r.states[n - 1];
        StopDecision(w, d, eps, prefix);
      }
    } else {
      StartsAtZero(w, r.states[0]);
    }
  }

  lemma StartsAtZero(w: Web, m: Machine)
    requires Start(w, m)
    ensures m.bsp.superstep == 0
  {
  }

  lemma SuperstepMoves(w: Web, d: real, eps: real, m: Machine, a: Action, t: Machine)
    requires Step(w, d, eps, m, a, t)
    ensures if a == NextSuperstep
            then t.bsp.superstep == m.bsp.superstep + 1 && m.KeepRunning(eps) && m.bsp.Everywhere(Bsp.Done)
            else t.bsp.superstep == m.bsp.superstep
  {
    hide PcAfter, Mul, Abs;
  }

  /** With d < 1 no run, however it is scheduled, gets past the first superstep s >= 2 with
      2 d^(s-2) below the threshold. */
  lemma NeverPastLimit(w: Web, d: real, eps: real, r: Run, n: nat)
    requires w.Closed() && 0.0 < d < 1.0 && 0.0 < eps && r.Valid(w, d, eps) && n <= |r.actions|
    ensures r.states[n].bsp.superstep <= StopLimit(d, eps)
  {
    hide Step, Start, Stops, StopLimit;
    if StopLimit(d, eps) < r.states[n].bsp.superstep {
      StopsByLimit(w, d, eps);
      assert r.Valid(w, d, eps);
      NotStoppedBefore(w, d, eps, r, n, StopLimit(d, eps));
    }
  }

  /** When a run has stopped, its scores are close to the PageRank vector. */
  lemma StoppedScoresAreClose(w: Web, d: real, eps: real, r: Run)
    requires w.Closed() && 0.0 < d < 1.0 && r.Valid(w, d, eps)
    requires r.Last().bsp.Everywhere(Bsp.Done) && !r.Last().KeepRunning(eps)
    ensures r.Last().value.Keys == w.ids && L1(r.Last().value, Ranks(w, d)) <= Mul(d / (1.0 - d), eps)
  {
    hide Step, Start, ScoresAt, Sad, L1, Next, Mul, Ranks;
    SuperstepIsIteration(w, d, eps, r);
    StopDecision(w, d, eps, r);
    StopError(w, d, eps, r.Last().bsp.superstep, Ranks(w, d));
  }

  // ---------------------------------------------------------------- every run gets to its end

  /** The action that a vertex which is not done can take next. */
  ghost function NextAction(w: Web, m: Machine, v: Id): Action
    requires w.Closed() && m.Shaped(w) && v in w.ids
  {
    match m.pc[v]
    case Idle => Begin(v)
    case Started => if m.bsp.superstep == 0 then CountPage(v) else Initialize(v)
    case Summing(_) => if m.bsp.ReadQueue(v) == [] then AddResidual(v) else TakeMessage(v, 0)
    case Scored(_) => Record(v)
    case Recorded(_) => SetScore(v)
    case Sending(_, sent) =>
      if w.out[v] == [] then DeadEnd(v) else if sent < |w.out[v]| then SendNext(v) else AllSent(v)
    case Returned => End(v)
  }

  lemma VertexCanAct(w: Web, d: real, eps: real, m: Machine, v: Id)
    requires Inv(w, d, m) && v in w.ids && m.bsp.vertices[v].phase != Bsp.Done
    ensures Enabled(w, eps, m, NextAction(w, m, v))
  {
    hide WriteOk, SharedOk, Mul, ScoresAt, Inbox, Teleport, QueueSum;
    assert VertexOk(w, d, m, v);
    if 1 <= m.bsp.superstep {
      CountedPages(w, d, m, v);
    }
  }

  lemma CountedPages(w: Web, d: real, m: Machine, v: Id)
    requires Inv(w, d, m) && v in w.ids && 1 <= m.bsp.superstep
    ensures m.pageCount != 0
  {
    hide VertexOk, ScoresAt, Residual, Changes;
  }

  /** Nothing ever blocks: any vertex that is not done can take an action, so a superstep can
      always be finished, and then either the next one can start or the run has stopped. */
  lemma NoDeadlock(w: Web, d: real, eps: real, m: Machine)
    requires Inv(w, d, m)
    ensures forall v :: v in w.ids && m.bsp.vertices[v].phase != Bsp.Done ==> Enabled(w, eps, m, NextAction(w, m, v))
    ensures m.bsp.Everywhere(Bsp.Done) && m.KeepRunning(eps) ==> Enabled(w, eps, m, NextSuperstep)
  {
    hide SharedOk, VertexOk;
    forall v | v in w.ids && m.bsp.vertices[v].phase != Bsp.Done
      ensures Enabled(w, eps, m, NextAction(w, m, v))
    {
      VertexCanAct(w, d, eps, m, v);
    }
  }

  /** The work that a vertex still causes in the current superstep: an action of its own counts one,
      and an edge to be served another one for the message that will have to be read. */
  ghost function VertexWork(w: Web, m: Machine, v: Id): (n: int)
    requires w.Closed() && m.Shaped(w) && v in w.ids
  {
    var unread := |m.bsp.ReadQueue(v)|;
    var edges := 2 * |w.out[v]|;
    match m.pc[v]
    case Idle => if m.bsp.vertices[v].phase == Bsp.Done then 0 else unread + edges + 10
    case Started => unread + edges + 9
    case Summing(_) => unread + edges + 8
    case Scored(_) => edges + 7
    case Recorded(_) => edges + 6
    case Sending(_, sent) => edges - 2 * sent + 4
    case Returned => 2
  }

  ghost function Works(w: Web, m: Machine): (f: map<Id, real>)
    requires w.Closed() && m.Shaped(w)
    ensures f.Keys == w.ids
  {
    map v | v in w.ids :: VertexWork(w, m, v) as real
  }

  /** The messages written for the next superstep. */
  ghost function Written(w: Web, m: Machine): (f: map<Id, real>)
    requires m.Shaped(w)
    ensures f.Keys == w.ids
  {
    map v | v in w.ids :: |m.bsp.WriteQueue(v)| as real
  }

  /** The number of actions left in the current superstep, at most, and of messages left for the next. */
  ghost function WorkLeft(w: Web, m: Machine): real
    requires w.Closed() && m.Shaped(w)
  {
    Total(Works(w, m)) + Total(Written(w, m))
  }

  lemma ActorWork(w: Web, d: real, eps: real, m: Machine, a: Action, t: Machine)
    requires Step(w, d, eps, m, a, t) && a != NextSuperstep && a.v in w.ids
    requires w.Closed() && m.Shaped(w) && t.Shaped(w) && (m.pc[a.v].Sending? ==> m.pc[a.v].sent <= |w.out[a.v]|)
    ensures VertexWork(w, t, a.v) <= VertexWork(w, m, a.v) - if a.SendNext? then 2 else 1
  {
    hide Web.Closed, Mul, Teleport, QueueSum, Step, Bsp.Vertex.Queue, Bsp.State.ReadQueue;
    Actor(w, d, eps, m, a, t);
    ActorPc(w, d, eps, m, a, t);
  }

  lemma BystanderWork(w: Web, d: real, eps: real, m: Machine, a: Action, t: Machine, v: Id)
    requires Step(w, d, eps, m, a, t) && a != NextSuperstep && v in w.ids && v != a.v
    requires w.Closed() && m.Shaped(w) && t.Shaped(w)
    ensures VertexWork(w, t, v) == VertexWork(w, m, v)
  {
    hide Step, Bsp.State.ReadQueue;
    Bystander(w, d, eps, m, a, t, v);
  }

  lemma SentSoFar(w: Web, d: real, m: Machine, v: Id)
    requires Inv(w, d, m) && v in w.ids && m.pc[v].Sending?
    ensures m.pc[v].sent <= |w.out[v]|
  {
    hide WriteOk, SharedOk, ScoreOk;
    assert VertexOk(w, d, m, v);
  }

  lemma OwnWorkDecreases(w: Web, d: real, eps: real, m: Machine, a: Action, t: Machine)
    requires Inv(w, d, m) && Step(w, d, eps, m, a, t) && a != NextSuperstep && t.Shaped(w) && a.v in w.ids
    ensures Total(Works(w, t)) <= Total(Works(w, m)) - if a.SendNext? then 2.0 else 1.0
  {
    hide VertexOk, SharedOk, Step, VertexWork;
    if m.pc[a.v].Sending? {
      SentSoFar(w, d, m, a.v);
    }
    ActorWork(w, d, eps, m, a, t);
    forall v | v in w.ids && v != a.v ensures Works(w, t)[v] == Works(w, m)[v] {
      BystanderWork(w, d, eps, m, a, t, v);
    }
    assert Works(w, t) == Works(w, m)[a.v := Works(w, t)[a.v]];
    TotalUpdate(Works(w, m), a.v, Works(w, t)[a.v]);
  }

  /** A send writes one message, no other action writes any. */
  lemma WrittenGrows(w: Web, d: real, eps: real, m: Machine, a: Action, t: Machine)
    requires Step(w, d, eps, m, a, t) && a != NextSuperstep && m.Shaped(w) && t.Shaped(w)
    ensures Total(Written(w, t)) == Total(Written(w, m)) + if a.SendNext? then 1.0 else 0.0
  {
    hide Step, Written, Receiver;
    forall v | v in w.ids
      ensures Written(w, t)[v] == Written(w, m)[v] + if a.SendNext? && Receiver(w, m, a) == v then 1.0 else 0.0
    {
      WrittenAt(w, d, eps, m, a, t, v);
    }
    if a.SendNext? {
      ReceiverThere(w, d, eps, m, a, t);
      var dst := Receiver(w, m, a);
      assert Written(w, t) == Written(w, m)[dst := Written(w, m)[dst] + 1.0];
      TotalUpdate(Written(w, m), dst, Written(w, m)[dst] + 1.0);
    } else {
      assert Written(w, t) == Written(w, m);
    }
  }

  lemma WrittenAt(w: Web, d: real, eps: real, m: Machine, a: Action, t: Machine, v: Id)
    requires Step(w, d, eps, m, a, t) && a != NextSuperstep && m.Shaped(w) && t.Shaped(w) && v in w.ids
    ensures Written(w, t)[v] == Written(w, m)[v] + if a.SendNext? && Receiver(w, m, a) == v then 1.0 else 0.0
  {
    hide Step, Bsp.State.WriteQueue;
    Within(w, d, eps, m, a, t);
    SentScore(w, d, eps, m, a, t, v);
  }

  /** The end of the edge that is served. */
  ghost function Receiver(w: Web, m: Machine, a: Action): Id
    requires m.Shaped(w) && a.SendNext?
  {
    if a.v in w.ids && a.v in w.out && m.pc[a.v].Sending? && m.pc[a.v].sent < |w.out[a.v]|
    then w.out[a.v][m.pc[a.v].sent] else a.v
  }

  lemma ReceiverThere(w: Web, d: real, eps: real, m: Machine, a: Action, t: Machine)
    requires Step(w, d, eps, m, a, t) && a.SendNext? && m.Shaped(w)
    ensures Receiver(w, m, a) in w.ids
  {
    hide Perform, Bsp.Enabled;
  }

  /** Every action within a superstep uses up at least one of the finitely many that are left, so
      under every schedule a superstep ends. */
  lemma WorkDecreases(w: Web, d: real, eps: real, m: Machine, a: Action, t: Machine)
    requires Inv(w, d, m) && Step(w, d, eps, m, a, t) && a != NextSuperstep
    ensures t.Shaped(w) && 0.0 <= WorkLeft(w, t) <= WorkLeft(w, m) - 1.0
  {
    hide VertexOk, SharedOk, Step, Works, Written;
    InvStep(w, d, eps, m, a, t);
    Within(w, d, eps, m, a, t);
    OwnWorkDecreases(w, d, eps, m, a, t);
    WrittenGrows(w, d, eps, m, a, t);
    WorkNonNegative(w, d, t);
  }

  lemma WorkNonNegative(w: Web, d: real, m: Machine)
    requires Inv(w, d, m)
    ensures 0.0 <= WorkLeft(w, m)
  {
    hide WriteOk, SharedOk, Mul, ScoresAt, Inbox, Teleport, QueueSum;
    forall v | v in w.ids ensures 0.0 <= Works(w, m)[v] {
      assert VertexOk(w, d, m, v);
    }
    NonNegativeTotal(Works(w, m));
    NonNegativeTotal(Written(w, m));
  }

  lemma NonNegativeTotal(f: map<Id, real>)
    requires forall v :: v in f ==> 0.0 <= f[v]
    ensures 0.0 <= Total(f)
  {
    hide Total;
    var zero := map v | v in f :: 0.0;
    TotalConst(zero, 0.0);
    MulOne(|zero| as real);
    TotalMono(zero, f);
  }

  // ---------------------------------------------------------------- every run ends

  /** The work of a vertex in a superstep, but for the messages that wait for it. */
  ghost function Chores(w: Web): (f: map<Id, real>)
    requires w.Closed()
    ensures f.Keys == w.ids
  {
    map v | v in w.ids :: 2.0 * |w.out[v]| as real + 10.0
  }

  /** The work of a superstep, but for the messages left by the one before: at most ten actions for a
      vertex, two for an edge, and one to start the superstep. */
  ghost function Quota(w: Web): real
    requires w.Closed()
  {
    Total(Chores(w)) + 1.0
  }

  lemma WaitingWork(w: Web, m: Machine, unread: map<Id, real>)
    requires w.Closed() && m.Shaped(w) && m.bsp.Everywhere(Bsp.Waiting) && unread.Keys == w.ids
    requires forall v :: v in w.ids ==> m.pc[v] == Idle && unread[v] == |m.bsp.ReadQueue(v)| as real
    ensures Total(Works(w, m)) == Total(unread) + Quota(w) - 1.0
  {
    hide Total, Bsp.State.ReadQueue;
    TotalAdd(unread, Chores(w), Works(w, m));
  }

  /** What is written in one superstep is all that the next one has to do beyond its quota. */
  lemma WorkAdvances(w: Web, d: real, eps: real, m: Machine, t: Machine)
    requires Inv(w, d, m) && Step(w, d, eps, m, NextSuperstep, t)
    ensures t.Shaped(w) && WorkLeft(w, t) == WorkLeft(w, m) + Quota(w) - 1.0
  {
    hide Total, Step, VertexOk, SharedOk, Quota, Bsp.State.ReadQueue, Bsp.State.WriteQueue;
    DoneEverywhere(w, d, eps, m, t);
    IdleWhenDone(w, d, m);
    AdvanceEffects(w, d, eps, m, t);
    forall v | v in w.ids
      ensures Written(w, t)[v] == 0.0 == Works(w, m)[v] && Written(w, m)[v] == |t.bsp.ReadQueue(v)| as real
    {
      AdvanceQueues(w, d, eps, m, t, v);
    }
    WaitingWork(w, t, Written(w, m));
    TotalConst(Written(w, t), 0.0);
    TotalConst(Works(w, m), 0.0);
    MulOne(|w.ids| as real);
    MulOne(|Works(w, m)| as real);
    MulOne(|Written(w, t)| as real);
  }

  /** The messages that an earlier run left behind. */
  ghost function Leftovers(w: Web, m: Machine): real
    requires m.Shaped(w)
  {
    Total(map v | v in w.ids :: |m.bsp.vertices[v].even| as real)
      + Total(map v | v in w.ids :: |m.bsp.vertices[v].odd| as real)
  }

  lemma WorkAtStart(w: Web, m: Machine)
    requires w.Closed() && Start(w, m)
    ensures WorkLeft(w, m) == Leftovers(w, m) + Quota(w) - 1.0
  {
    hide Total, Quota;
    var even := map v | v in w.ids :: |m.bsp.vertices[v].even| as real;
    var odd := map v | v in w.ids :: |m.bsp.vertices[v].odd| as real;
    WaitingWork(w, m, even);
    assert Written(w, m) == odd;
  }

  /** The work that is left in a run that gets no further than superstep `last`. */
  ghost function RunWork(w: Web, m: Machine, last: nat): real
    requires w.Closed() && m.Shaped(w)
  {
    WorkLeft(w, m) + Mul(Quota(w), (last - m.bsp.superstep) as real)
  }

  lemma RunWorkDecreases(w: Web, d: real, eps: real, m: Machine, a: Action, t: Machine, last: nat)
    requires Inv(w, d, m) && Step(w, d, eps, m, a, t)
    ensures t.Shaped(w) && RunWork(w, t, last) <= RunWork(w, m, last) - 1.0
  {
    hide VertexOk, SharedOk, Step, WorkLeft, Mul, Quota;
    SuperstepMoves(w, d, eps, m, a, t);
    if a == NextSuperstep {
      WorkAdvances(w, d, eps, m, t);
      MulAdd(Quota(w), (last - t.bsp.superstep) as real, 1.0);
      MulOne(Quota(w));
      assert (last - m.bsp.superstep) as real == (last - t.bsp.superstep) as real + 1.0;
    } else {
      WorkDecreases(w, d, eps, m, a, t);
    }
  }

  lemma {:induction false} RunWorkUsed(w: Web, d: real, eps: real, r: Run, n: nat, last: nat)
    requires w.Closed() && r.Valid(w, d, eps) && n <= |r.actions|
    ensures r.states[n].Shaped(w) && r.states[0].Shaped(w)
    ensures n as real + RunWork(w, r.states[n], last) <= RunWork(w, r.states[0], last)
  {
    hide Step, Start, RunWork, SharedOk, VertexOk;
    RunInv(w, d, eps, r, n);
    if 0 < n {
      RunInv(w, d, eps, r, n - 1);
      RunWorkUsed(w, d, eps, r, n - 1, last);
      assert Step(w, d, eps, r.states[n - 1], r.actions[n - 1], r.states[n]);
      RunWorkDecreases(w, d, eps, r.states[n - 1], r.actions[n - 1], r.states[n], last);
    }
  }

  /** If some superstep `last` meets the stop condition, every run ends, however it is scheduled: it
      has no more actions than `last + 1` supersteps have, and the reading of what was left behind. */
  lemma RunsEnd(w: Web, d: real, eps: real, r: Run, last: nat)
    requires w.Closed() && r.Valid(w, d, eps) && Stops(w, d, eps, last)
    ensures r.states[0].Shaped(w)
    ensures |r.actions| as real <= Leftovers(w, r.states[0]) + Mul(Quota(w), last as real + 1.0)
  {
    hide Step, Stops, WorkLeft, Quota, Mul, VertexOk, SharedOk, Leftovers;
    var n, m, start := |r.actions|, r.Last(), r.states[0];
    RunInv(w, d, eps, r, n);
    RunInv(w, d, eps, r, 0);
    RunWorkUsed(w, d, eps, r, n, last);
    if last < m.bsp.superstep {
      NotStoppedBefore(w, d, eps, r, n, last);
    }
    WorkNonNegative(w, d, m);
    QuotaPositive(w);
    MulNonNegative(Quota(w), (last - m.bsp.superstep) as real);
    WorkAtStart(w, start);
    MulAdd(Quota(w), last as real, 1.0);
    MulOne(Quota(w));
  }

  lemma QuotaPositive(w: Web)
    requires w.Closed()
    ensures 1.0 <= Quota(w)
  {
    hide Total;
    NonNegativeTotal(Chores(w));
  }

  /** With d < 1 this bounds every run. */
  lemma DampedRunsEnd(w: Web, d: real, eps: real, r: Run)
    requires w.Closed() && r.Valid(w, d, eps) && 0.0 < d < 1.0 && 0.0 < eps
    ensures r.states[0].Shaped(w)
    ensures |r.actions| as real <= Leftovers(w, r.states[0]) + Mul(Quota(w), StopLimit(d, eps) as real + 1.0)
  {
    hide Step, Stops, Start, StopLimit, Quota, Mul, Leftovers;
    StopsByLimit(w, d, eps);
    RunsEnd(w, d, eps, r, StopLimit(d, eps));
  }

  // ---------------------------------------------------------------- the engine underneath

  /** Seen through the engine, the run is a run of the bulk synchronous parallel machine; on a
      graph whose queues have not been used, message isolation therefore applies to it. */
  lemma RunsOnEngine(w: Web, d: real, eps: real, r: Run)
    requires r.Valid(w, d, eps)
    requires forall v :: v in w.ids ==> r.states[0].bsp.vertices[v].even == [] && r.states[0].bsp.vertices[v].odd == []
    ensures Bsp.Run(seq(|r.states|, i requires 0 <= i < |r.states| => r.states[i].bsp),
                    seq(|r.actions|, i requires 0 <= i < |r.actions| => Effect(w, r.states[i], r.actions[i]))).Valid()
  {
    hide Effect, Bsp.Enabled, Bsp.Apply;
    forall i | 0 <= i < |r.actions|
      ensures Bsp.Step(r.states[i].bsp, Effect(w, r.states[i], r.actions[i]), r.states[i + 1].bsp)
    {
      assert Step(w, d, eps, r.states[i], r.actions[i], r.states[i + 1]);
      EngineStep(w, d, eps, r.states[i], r.actions[i], r.states[i + 1]);
    }
  }
}
