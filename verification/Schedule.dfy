/** Every interleaving of a PageRank superstep computes the same thing: one iteration of the
    PageRank map. The invariant below says, for every point between two atomic actions, how far
    each vertex has come and what the queues and accumulators hold because of it. */
module Schedule {
  import opened Ids
  import opened Sums
  import opened PageRank
  import opened Calculator
  import Bsp

  // ---------------------------------------------------------------- progress of a superstep

  ghost predicate HasReturned(vx: Bsp.Vertex<real>, pc: Pc) {
    pc == Returned || vx.phase == Bsp.Done
  }

  ghost predicate HasStored(vx: Bsp.Vertex<real>, pc: Pc) {
    pc.Sending? || HasReturned(vx, pc)
  }

  ghost predicate HasRecorded(vx: Bsp.Vertex<real>, pc: Pc) {
    pc.Recorded? || HasStored(vx, pc)
  }

  ghost function EdgesServed(w: Web, m: Machine, u: Id): nat
    requires w.Closed() && m.Shaped(w) && u in w.ids
  {
    if m.pc[u].Sending? then m.pc[u].sent
    else if HasReturned(m.bsp.vertices[u], m.pc[u]) then |w.out[u]| else 0
  }

  ghost function Served(w: Web, m: Machine): (f: map<Id, nat>)
    requires w.Closed() && m.Shaped(w)
    ensures f.Keys == w.ids
  {
    map u | u in w.ids :: EdgesServed(w, m, u)
  }

  ghost function Returners(w: Web, m: Machine): (r: set<Id>)
    requires w.Closed() && m.Shaped(w)
    ensures r <= w.ids
  {
    set u | u in w.ids && HasReturned(m.bsp.vertices[u], m.pc[u])
  }

  ghost function Recorders(w: Web, m: Machine): (r: set<Id>)
    requires w.Closed() && m.Shaped(w)
    ensures r <= w.ids
  {
    set u | u in w.ids && HasRecorded(m.bsp.vertices[u], m.pc[u])
  }

  /** The part of the sum of differences that the vertices in `from` contribute. */
  ghost function Changes(w: Web, d: real, s: nat, from: set<Id>): real
    requires w.Closed() && 2 <= s && from <= w.ids
  {
    Total(map u | u in from :: Abs(ScoresAt(w, d, s - 1)[u] - ScoresAt(w, d, s)[u]))
  }

  /** The messages due to `v` in superstep `s`: a share of every neighbour's score. */
  ghost function Inbox(w: Web, d: real, s: nat, v: Id): real
    requires w.Closed() && 2 <= s
  {
    Delivered(w, ScoresAt(w, d, s - 1), Degrees(w), w.ids, v)
  }

  // ---------------------------------------------------------------- the invariant

  /** Scheduling state and program counter fit together. */
  ghost predicate PhaseOk(w: Web, s: nat, v: Id, vx: Bsp.Vertex<real>, pc: Pc)
    requires w.Closed() && v in w.ids
  {
    && vx.active && vx.phase != Bsp.Failed
    && (vx.phase == Bsp.Computing <==> pc != Idle)
    && (vx.phase == Bsp.Done ==> vx.Queue(s) == [])
    && (s == 0 ==> pc == Idle || pc == Started || pc == Returned)
    && (pc.Summing? ==> 2 <= s)
    && (pc.Sending? ==> pc.sent <= |w.out[v]|)
  }

  /** The vertex value, the score being computed and the messages still to be read fit together. */
  ghost predicate ScoreOk(w: Web, d: real, s: nat, v: Id, vx: Bsp.Vertex<real>, val: real, pc: Pc)
    requires w.Closed() && v in w.ids
  {
    && (1 <= s && HasStored(vx, pc) ==> val == ScoresAt(w, d, s)[v])
    && (1 <= s && (pc.Scored? || pc.Recorded? || pc.Sending?) ==> pc.score == ScoresAt(w, d, s)[v])
    && (2 <= s && !HasStored(vx, pc) ==> val == ScoresAt(w, d, s - 1)[v])
    && (2 <= s && (vx.phase == Bsp.Waiting || pc == Started) ==> QueueSum(vx.Queue(s)) == Inbox(w, d, s, v))
    && (pc.Summing? && 2 <= s ==>
          pc.sum + Mul(d, QueueSum(vx.Queue(s))) == Teleport(w, d) + Mul(d, Inbox(w, d, s, v)))
  }

  ghost predicate LocalOk(w: Web, d: real, s: nat, v: Id, vx: Bsp.Vertex<real>, val: real, pc: Pc)
    requires w.Closed() && v in w.ids
  {
    PhaseOk(w, s, v, vx, pc) && ScoreOk(w, d, s, v, vx, val, pc)
  }

  ghost predicate WriteOk(w: Web, d: real, m: Machine, v: Id)
    requires w.Closed() && m.Shaped(w) && v in w.ids
  {
    1 <= m.bsp.superstep ==>
      QueueSum(m.bsp.WriteQueue(v)) == Delivered(w, ScoresAt(w, d, m.bsp.superstep), Served(w, m), w.ids, v)
  }

  /** What the four accumulators hold once `returned` have finished and `recorded` have reported. */
  ghost predicate Totals(w: Web, d: real, s: nat, pages: nat, output: real, input: real, sad: real,
                         returned: set<Id>, recorded: set<Id>)
    requires w.Closed() && returned <= w.ids && recorded <= w.ids
  {
    && pages == (if s == 0 then |returned| else |w.ids|)
    && (1 <= s ==> output == Residual(w, ScoresAt(w, d, s), returned))
    && (2 <= s ==> input == Residual(w, ScoresAt(w, d, s - 1), w.ids))
    && (2 <= s ==> sad == Changes(w, d, s, recorded))
  }

  ghost predicate SharedOk(w: Web, d: real, m: Machine)
    requires w.Closed() && m.Shaped(w)
  {
    Totals(w, d, m.bsp.superstep, m.pageCount, m.acc.At(ResidualOutput(m.bsp.superstep)),
           m.acc.At(ResidualInput(m.bsp.superstep)),
           m.acc.At(SumOfDifferences), Returners(w, m), Recorders(w, m))
  }

  ghost predicate VertexOk(w: Web, d: real, m: Machine, v: Id)
    requires w.Closed() && m.Shaped(w) && v in w.ids
  {
    LocalOk(w, d, m.bsp.superstep, v, m.bsp.vertices[v], m.value[v], m.pc[v]) && WriteOk(w, d, m, v)
  }

  ghost predicate Inv(w: Web, d: real, m: Machine) {
    && w.Closed() && m.Shaped(w)
    && SharedOk(w, d, m)
    && forall v {:trigger VertexOk(w, d, m, v)} :: v in w.ids ==> VertexOk(w, d, m, v)
  }

  // ---------------------------------------------------------------- the start

  lemma StartInv(w: Web, d: real, m: Machine)
    requires w.Closed() && Start(w, m)
    ensures Inv(w, d, m)
  {
    assert Returners(w, m) == {};
  }

  // ---------------------------------------------------------------- a vertex on its own

  /** Within a superstep an action touches the local state of its own vertex only. */
  lemma Bystander(w: Web, d: real, eps: real, m: Machine, a: Action, t: Machine, v: Id)
    requires Step(w, d, eps, m, a, t) && a != NextSuperstep && v in w.ids && v != a.v
    ensures t.Shaped(w) && t.bsp.superstep == m.bsp.superstep
    ensures t.value[v] == m.value[v] && t.pc[v] == m.pc[v]
    ensures t.bsp.vertices[v].phase == m.bsp.vertices[v].phase && t.bsp.vertices[v].active == m.bsp.vertices[v].active
    ensures t.bsp.ReadQueue(v) == m.bsp.ReadQueue(v)
  {
    hide Bsp.Enabled, Bsp.Apply, Mul, Abs, PcAfter;
    Bsp.ReadSideIsPrivate(m.bsp, Effect(w, m, a), t.bsp, v);
    StepShapes(w, d, eps, m, a, t);
  }

  lemma Within(w: Web, d: real, eps: real, m: Machine, a: Action, t: Machine)
    requires Step(w, d, eps, m, a, t) && a != NextSuperstep
    ensures w.Closed() && m.Shaped(w) && t.Shaped(w) && t.bsp.superstep == m.bsp.superstep && a.v in w.ids
  {
    hide Perform, Bsp.Enabled, Bsp.Apply;
    StepShapes(w, d, eps, m, a, t);
  }

  lemma ActorMoves(w: Web, d: real, eps: real, m: Machine, a: Action, t: Machine)
    requires Step(w, d, eps, m, a, t) && a != NextSuperstep
    ensures w.Closed() && m.Shaped(w) && t.Shaped(w) && a.v in w.ids
    ensures Ready(w, m, a) && t.pc[a.v] == PcAfter(w, d, m, a)
    ensures t.value[a.v] == if a.SetScore? then m.pc[a.v].score else m.value[a.v]
  {
    hide PcAfter, Bsp.Enabled, Bsp.Apply, Effect, Abs, Accumulators.With, PerPage;
    StepShapes(w, d, eps, m, a, t);
  }

  /** How the acting vertex's program counter moves. */
  lemma ActorPc(w: Web, d: real, eps: real, m: Machine, a: Action, t: Machine)
    requires Step(w, d, eps, m, a, t) && a != NextSuperstep
    ensures w.Closed() && m.Shaped(w) && t.Shaped(w) && a.v in w.ids
    ensures a.Begin? ==> m.pc[a.v] == Idle && t.pc[a.v] == Started
    ensures a.CountPage? ==> m.bsp.superstep == 0 && m.pc[a.v] == Started && t.pc[a.v] == Returned
    ensures a.Initialize? ==>
              && 1 <= m.bsp.superstep && m.pc[a.v] == Started && m.pageCount != 0
              && t.pc[a.v] == if m.bsp.superstep == 1 then Scored(PerPage(1.0, m.pageCount))
                              else Summing(PerPage(1.0 - d, m.pageCount))
    ensures a.TakeMessage? ==>
              && m.pc[a.v].Summing? && a.i < |m.bsp.ReadQueue(a.v)|
              && t.pc[a.v] == Summing(m.pc[a.v].sum + Mul(d, m.bsp.ReadQueue(a.v)[a.i]))
    ensures a.AddResidual? ==>
              && m.pc[a.v].Summing? && m.bsp.ReadQueue(a.v) == []
              && t.pc[a.v] == Scored(m.pc[a.v].sum + Mul(d, m.acc.At(ResidualInput(m.bsp.superstep))))
    ensures a.Record? ==> m.pc[a.v].Scored? && t.pc[a.v] == Recorded(m.pc[a.v].score)
    ensures a.SetScore? ==> m.pc[a.v].Recorded? && t.pc[a.v] == Sending(m.pc[a.v].score, 0)
    ensures a.DeadEnd? ==> m.pc[a.v].Sending? && w.out[a.v] == [] && t.pc[a.v] == Returned
    ensures a.SendNext? ==> m.pc[a.v].Sending? && m.pc[a.v].sent < |w.out[a.v]|
                            && t.pc[a.v] == Sending(m.pc[a.v].score, m.pc[a.v].sent + 1)
    ensures a.AllSent? ==> m.pc[a.v].Sending? && w.out[a.v] != [] && m.pc[a.v].sent == |w.out[a.v]|
                           && t.pc[a.v] == Returned
    ensures a.End? ==> m.pc[a.v] == Returned && t.pc[a.v] == Idle
    ensures t.value[a.v] == if a.SetScore? then m.pc[a.v].score else m.value[a.v]
  {
    hide Step, Mul, Bsp.Enabled, PerPage, QueueSum, ResidualOutput, Bsp.Vertex.Queue;
    ActorMoves(w, d, eps, m, a, t);
  }

  lemma StepShapes(w: Web, d: real, eps: real, m: Machine, a: Action, t: Machine)
    requires Step(w, d, eps, m, a, t)
    ensures t.Shaped(w) && (a != NextSuperstep ==> t.bsp.superstep == m.bsp.superstep && a.v in w.ids)
  {
    hide PcAfter, Mul, Abs, Bsp.Enabled, Bsp.Apply, PerPage, Accumulators.With, Accumulators.At;
    hide ResidualOutput, ResidualInput, FirstPc;
    Bsp.StepKeepsVertices(m.bsp, Effect(w, m, a), t.bsp);
  }

  /** Every step of the calculator is a step of the engine. */
  lemma EngineStep(w: Web, d: real, eps: real, m: Machine, a: Action, t: Machine)
    requires Step(w, d, eps, m, a, t)
    ensures Bsp.Step(m.bsp, Effect(w, m, a), t.bsp)
  {
    hide PcAfter, Mul, Abs, Effect, Bsp.Enabled, Bsp.Apply;
  }

  /** What the engine's step does to the vertex whose step it is. */
  lemma EngineActor(s: Bsp.State<real>, l: Bsp.Label<real>, t: Bsp.State<real>)
    requires Bsp.Step(s, l, t) && (l.Claim? || l.Pop? || l.Send? || l.Internal? || l.Finish?)
    ensures l.v in s.vertices && l.v in t.vertices && t.superstep == s.superstep
    ensures t.vertices[l.v].active == (s.vertices[l.v].active || l.Claim?)
    ensures s.vertices[l.v].phase == (if l.Claim? then Bsp.Waiting else Bsp.Computing)
    ensures t.vertices[l.v].phase == (if l.Finish? then Bsp.Done else Bsp.Computing)
    ensures l.Pop? ==> l.i < |s.ReadQueue(l.v)|
    ensures t.ReadQueue(l.v)
         == if l.Finish? then []
            else if l.Pop? then s.ReadQueue(l.v)[..l.i] + s.ReadQueue(l.v)[l.i + 1..]
            else s.ReadQueue(l.v)
  {
  }

  lemma LabelOf(w: Web, eps: real, m: Machine, a: Action)
    requires Enabled(w, eps, m, a) && a != NextSuperstep
    ensures var l := Effect(w, m, a);
            && l != Bsp.Advance && l.v == a.v && (l.Claim? || l.Pop? || l.Send? || l.Internal? || l.Finish?)
            && (l.Claim? <==> a.Begin?) && (l.Finish? <==> a.End?)
            && (l.Pop? <==> a.TakeMessage?) && (l.Pop? ==> l.i == a.i)
  {
    hide Bsp.Enabled;
  }

  /** What the acting vertex's own scheduling state goes through. */
  lemma Actor(w: Web, d: real, eps: real, m: Machine, a: Action, t: Machine)
    requires Step(w, d, eps, m, a, t) && a != NextSuperstep
    ensures t.Shaped(w) && t.bsp.superstep == m.bsp.superstep && a.v in w.ids
    ensures t.bsp.vertices[a.v].active == (m.bsp.vertices[a.v].active || a.Begin?)
    ensures m.bsp.vertices[a.v].phase == (if a.Begin? then Bsp.Waiting else Bsp.Computing)
    ensures t.bsp.vertices[a.v].phase == (if a.End? then Bsp.Done else Bsp.Computing)
    ensures t.bsp.ReadQueue(a.v)
         == if a.End? then []
            else if a.TakeMessage? then m.bsp.ReadQueue(a.v)[..a.i] + m.bsp.ReadQueue(a.v)[a.i + 1..]
            else m.bsp.ReadQueue(a.v)
  {
    hide Perform, Ready, Effect, Bsp.Step, Bsp.Enabled, Bsp.State.ReadQueue;
    StepShapes(w, d, eps, m, a, t);
    EngineStep(w, d, eps, m, a, t);
    LabelOf(w, eps, m, a);
    EngineActor(m.bsp, Effect(w, m, a), t.bsp);
  }

  lemma BystanderLocal(w: Web, d: real, eps: real, m: Machine, a: Action, t: Machine, v: Id)
    requires Step(w, d, eps, m, a, t) && a != NextSuperstep && v in w.ids && v != a.v
    requires LocalOk(w, d, m.bsp.superstep, v, m.bsp.vertices[v], m.value[v], m.pc[v])
    ensures t.Shaped(w) && LocalOk(w, d, t.bsp.superstep, v, t.bsp.vertices[v], t.value[v], t.pc[v])
  {
    hide Mul, ScoresAt, Inbox, QueueSum, Teleport, Step, Bsp.Vertex.Queue;
    Bystander(w, d, eps, m, a, t, v);
    Within(w, d, eps, m, a, t);
    ReadQueues(m, t, v);
  }

  lemma ReadQueues(m: Machine, t: Machine, v: Id)
    requires v in m.bsp.vertices && v in t.bsp.vertices
    ensures m.bsp.ReadQueue(v) == m.bsp.vertices[v].Queue(m.bsp.superstep)
    ensures t.bsp.ReadQueue(v) == t.bsp.vertices[v].Queue(t.bsp.superstep)
  {
  }

  lemma ActorPhase(w: Web, d: real, eps: real, m: Machine, a: Action, t: Machine)
    requires Step(w, d, eps, m, a, t) && a != NextSuperstep && a.v in w.ids
    requires w.Closed() && m.Shaped(w) && PhaseOk(w, m.bsp.superstep, a.v, m.bsp.vertices[a.v], m.pc[a.v])
    ensures t.Shaped(w) && PhaseOk(w, t.bsp.superstep, a.v, t.bsp.vertices[a.v], t.pc[a.v])
  {
    hide Mul, PerPage, Bsp.Vertex.Queue, Step;
    Within(w, d, eps, m, a, t);
    Actor(w, d, eps, m, a, t);
    ActorPc(w, d, eps, m, a, t);
    ReadQueues(m, t, a.v);
  }

  /** The actions that read what all vertices share. */
  ghost predicate Reads(a: Action) {
    a.Initialize? || a.AddResidual?
  }

  lemma ReaderScore(w: Web, d: real, eps: real, m: Machine, a: Action, t: Machine)
    requires Step(w, d, eps, m, a, t) && a != NextSuperstep && a.v in w.ids && Reads(a)
    requires LocalOk(w, d, m.bsp.superstep, a.v, m.bsp.vertices[a.v], m.value[a.v], m.pc[a.v]) && SharedOk(w, d, m)
    ensures t.Shaped(w) && ScoreOk(w, d, t.bsp.superstep, a.v, t.bsp.vertices[a.v], t.value[a.v], t.pc[a.v])
  {
    hide Web.Closed, ResidualInput, Mul, ScoresAt, Inbox, QueueSum, Teleport, Bsp.Vertex.Queue, SharedOk, Step, PerPage;
    Within(w, d, eps, m, a, t);
    Actor(w, d, eps, m, a, t);
    ActorPc(w, d, eps, m, a, t);
    ReadQueues(m, t, a.v);
    if a.Initialize? {
      InitializeOk(w, d, m, a.v);
    } else if a.AddResidual? {
      AddResidualOk(w, d, m, a.v);
    }
  }

  lemma TakerScore(w: Web, d: real, eps: real, m: Machine, a: Action, t: Machine)
    requires Step(w, d, eps, m, a, t) && a.TakeMessage? && a.v in w.ids
    requires LocalOk(w, d, m.bsp.superstep, a.v, m.bsp.vertices[a.v], m.value[a.v], m.pc[a.v])
    ensures t.Shaped(w) && ScoreOk(w, d, t.bsp.superstep, a.v, t.bsp.vertices[a.v], t.value[a.v], t.pc[a.v])
  {
    hide Web.Closed, Mul, ScoresAt, Inbox, QueueSum, Teleport, Bsp.Vertex.Queue, Step;
    Actor(w, d, eps, m, a, t);
    ActorPc(w, d, eps, m, a, t);
    ReadQueues(m, t, a.v);
    TakeOk(w, d, m, t, a);
  }

  lemma OtherScore(w: Web, d: real, eps: real, m: Machine, a: Action, t: Machine)
    requires Step(w, d, eps, m, a, t) && a != NextSuperstep && a.v in w.ids && !Reads(a) && !a.TakeMessage?
    requires LocalOk(w, d, m.bsp.superstep, a.v, m.bsp.vertices[a.v], m.value[a.v], m.pc[a.v])
    ensures t.Shaped(w) && ScoreOk(w, d, t.bsp.superstep, a.v, t.bsp.vertices[a.v], t.value[a.v], t.pc[a.v])
  {
    hide Mul, ScoresAt, Inbox, QueueSum, Teleport, Bsp.Vertex.Queue, Step, PerPage;
    Within(w, d, eps, m, a, t);
    Actor(w, d, eps, m, a, t);
    ActorPc(w, d, eps, m, a, t);
    ReadQueues(m, t, a.v);
  }

  lemma ActorLocal(w: Web, d: real, eps: real, m: Machine, a: Action, t: Machine)
    requires Step(w, d, eps, m, a, t) && a != NextSuperstep && a.v in w.ids
    requires LocalOk(w, d, m.bsp.superstep, a.v, m.bsp.vertices[a.v], m.value[a.v], m.pc[a.v]) && SharedOk(w, d, m)
    ensures t.Shaped(w) && LocalOk(w, d, t.bsp.superstep, a.v, t.bsp.vertices[a.v], t.value[a.v], t.pc[a.v])
  {
    hide PhaseOk, ScoreOk, SharedOk, Step, Machine.Shaped;
    Within(w, d, eps, m, a, t);
    ActorPhase(w, d, eps, m, a, t);
    if Reads(a) {
      ReaderScore(w, d, eps, m, a, t);
    } else if a.TakeMessage? {
      TakerScore(w, d, eps, m, a, t);
    } else {
      OtherScore(w, d, eps, m, a, t);
    }
  }

  lemma InitializeOk(w: Web, d: real, m: Machine, v: Id)
    requires w.Closed() && m.Shaped(w) && SharedOk(w, d, m) && v in w.ids && 1 <= m.bsp.superstep
    ensures m.pageCount == |w.ids| != 0 && PerPage(1.0 - d, m.pageCount) == Teleport(w, d)
    ensures m.bsp.superstep == 1 ==> PerPage(1.0, m.pageCount) == ScoresAt(w, d, 1)[v]
  {
  }

  lemma TakeOk(w: Web, d: real, m: Machine, t: Machine, a: Action)
    requires a.TakeMessage? && a.v in m.bsp.vertices && a.v in t.bsp.vertices && a.i < |m.bsp.ReadQueue(a.v)|
    requires t.bsp.ReadQueue(a.v) == m.bsp.ReadQueue(a.v)[..a.i] + m.bsp.ReadQueue(a.v)[a.i + 1..]
    ensures Mul(d, m.bsp.ReadQueue(a.v)[a.i]) + Mul(d, QueueSum(t.bsp.ReadQueue(a.v)))
         == Mul(d, QueueSum(m.bsp.ReadQueue(a.v)))
  {
    hide Mul;
    QueueSumRemove(m.bsp.ReadQueue(a.v), a.i);
    MulAdd(d, m.bsp.ReadQueue(a.v)[a.i], QueueSum(t.bsp.ReadQueue(a.v)));
  }

  lemma AddResidualOk(w: Web, d: real, m: Machine, v: Id)
    requires w.Closed() && m.Shaped(w) && SharedOk(w, d, m) && v in w.ids && 2 <= m.bsp.superstep
    ensures ScoresAt(w, d, m.bsp.superstep)[v]
         == Teleport(w, d) + Mul(d, Inbox(w, d, m.bsp.superstep, v)) + Mul(d, m.acc.At(ResidualInput(m.bsp.superstep)))
    ensures Mul(d, QueueSum([])) == 0.0
  {
    hide Mul, ScoresAt, Residual, Delivered, Changes;
    TargetSplits(w, d, m.bsp.superstep, v);
    MulOne(d);
  }

  // ---------------------------------------------------------------- queues being filled

  /** The acting vertex's own contribution to the three measures of progress. */
  lemma ActorProgress(w: Web, d: real, eps: real, m: Machine, a: Action, t: Machine)
    requires Step(w, d, eps, m, a, t) && a != NextSuperstep && a.v in w.ids
    requires LocalOk(w, d, m.bsp.superstep, a.v, m.bsp.vertices[a.v], m.value[a.v], m.pc[a.v])
    ensures w.Closed() && m.Shaped(w) && t.Shaped(w)
    ensures !a.CountPage? ==> EdgesServed(w, t, a.v) == EdgesServed(w, m, a.v) + if a.SendNext? then 1 else 0
    ensures a.SendNext? ==> m.pc[a.v].Sending? && EdgesServed(w, m, a.v) == m.pc[a.v].sent < |w.out[a.v]|
    ensures HasReturned(t.bsp.vertices[a.v], t.pc[a.v])
        <==> HasReturned(m.bsp.vertices[a.v], m.pc[a.v]) || a.CountPage? || a.DeadEnd? || a.AllSent?
    ensures a.CountPage? || a.DeadEnd? || a.AllSent? ==> !HasReturned(m.bsp.vertices[a.v], m.pc[a.v])
    ensures HasRecorded(t.bsp.vertices[a.v], t.pc[a.v])
        <==> HasRecorded(m.bsp.vertices[a.v], m.pc[a.v]) || a.Record? || a.CountPage?
    ensures a.Record? ==> !HasRecorded(m.bsp.vertices[a.v], m.pc[a.v])
  {
    hide Mul, Abs, ScoresAt, Inbox, QueueSum, Teleport, Step, Bsp.Vertex.Queue;
    Actor(w, d, eps, m, a, t);
    ActorPc(w, d, eps, m, a, t);
  }

  lemma BystanderProgress(w: Web, d: real, eps: real, m: Machine, a: Action, t: Machine, v: Id)
    requires Step(w, d, eps, m, a, t) && a != NextSuperstep && v in w.ids && v != a.v
    ensures w.Closed() && m.Shaped(w) && t.Shaped(w)
    ensures EdgesServed(w, t, v) == EdgesServed(w, m, v)
    ensures HasReturned(t.bsp.vertices[v], t.pc[v]) == HasReturned(m.bsp.vertices[v], m.pc[v])
    ensures HasRecorded(t.bsp.vertices[v], t.pc[v]) == HasRecorded(m.bsp.vertices[v], m.pc[v])
  {
    hide Step;
    Within(w, d, eps, m, a, t);
    Bystander(w, d, eps, m, a, t, v);
  }

  lemma ServedUpdate(w: Web, m: Machine, t: Machine, v: Id)
    requires w.Closed() && m.Shaped(w) && t.Shaped(w) && v in w.ids
    requires forall u :: u in w.ids && u != v ==> EdgesServed(w, t, u) == EdgesServed(w, m, u)
    ensures Served(w, t) == Served(w, m)[v := EdgesServed(w, t, v)]
  {
    hide Web.Closed, EdgesServed;
  }

  lemma ServedStep(w: Web, d: real, eps: real, m: Machine, a: Action, t: Machine)
    requires Step(w, d, eps, m, a, t) && a != NextSuperstep && a.v in w.ids
    requires LocalOk(w, d, m.bsp.superstep, a.v, m.bsp.vertices[a.v], m.value[a.v], m.pc[a.v])
    ensures w.Closed() && m.Shaped(w) && t.Shaped(w)
    ensures !a.CountPage? ==>
              Served(w, t) == if a.SendNext? then Served(w, m)[a.v := Served(w, m)[a.v] + 1] else Served(w, m)
    ensures a.SendNext? ==> m.pc[a.v].Sending? && Served(w, m)[a.v] == m.pc[a.v].sent < |w.out[a.v]|
  {
    hide Step, LocalOk, EdgesServed, HasReturned, HasRecorded, Web.Closed;
    ActorProgress(w, d, eps, m, a, t);
    forall v | v in w.ids && v != a.v ensures EdgesServed(w, t, v) == EdgesServed(w, m, v) {
      BystanderProgress(w, d, eps, m, a, t, v);
    }
    ServedUpdate(w, m, t, a.v);
  }

  lemma SentScore(w: Web, d: real, eps: real, m: Machine, a: Action, t: Machine, v: Id)
    requires Step(w, d, eps, m, a, t) && a != NextSuperstep && v in w.ids
    ensures t.Shaped(w)
    ensures !a.SendNext? ==> t.bsp.WriteQueue(v) == m.bsp.WriteQueue(v)
    ensures a.SendNext? ==>
              && a.v in w.ids && m.pc[a.v].Sending? && m.pc[a.v].sent < |w.out[a.v]|
              && t.bsp.WriteQueue(v) == m.bsp.WriteQueue(v)
                 + if w.out[a.v][m.pc[a.v].sent] == v then [m.pc[a.v].score / |w.out[a.v]| as real] else []
  {
    hide PcAfter, Mul, Abs, Bsp.Enabled, Bsp.Apply;
    StepShapes(w, d, eps, m, a, t);
    Bsp.WriteSideGrows(m.bsp, Effect(w, m, a), t.bsp, v);
  }

  lemma WriteStep(w: Web, d: real, eps: real, m: Machine, a: Action, t: Machine, v: Id)
    requires Step(w, d, eps, m, a, t) && a != NextSuperstep && a.v in w.ids && v in w.ids
    requires LocalOk(w, d, m.bsp.superstep, a.v, m.bsp.vertices[a.v], m.value[a.v], m.pc[a.v]) && WriteOk(w, d, m, v)
    ensures t.Shaped(w) && WriteOk(w, d, t, v)
  {
    hide Mul, LocalOk, ScoresAt, Inbox, QueueSum, Teleport, Step, Served, Delivered, Bsp.Vertex.Queue;
    hide Bsp.State.WriteQueue;
    Within(w, d, eps, m, a, t);
    ActorScores(w, d, m, a);
    ActorPc(w, d, eps, m, a, t);
    ServedStep(w, d, eps, m, a, t);
    SentScore(w, d, eps, m, a, t, v);
    if a.SendNext? && 1 <= m.bsp.superstep {
      var y := ScoresAt(w, d, m.bsp.superstep);
      DeliveredOneMore(w, y, Served(w, m), a.v, v);
      QueueSumAppend(m.bsp.WriteQueue(v), y[a.v] / |w.out[a.v]| as real);
      assert m.bsp.WriteQueue(v) + [] == m.bsp.WriteQueue(v);
    }
  }

  // ---------------------------------------------------------------- accumulators being filled

  lemma ReturnersStep(w: Web, d: real, eps: real, m: Machine, a: Action, t: Machine)
    requires Step(w, d, eps, m, a, t) && a != NextSuperstep && a.v in w.ids
    requires LocalOk(w, d, m.bsp.superstep, a.v, m.bsp.vertices[a.v], m.value[a.v], m.pc[a.v])
    ensures w.Closed() && m.Shaped(w) && t.Shaped(w)
    ensures Returners(w, t)
         == if a.CountPage? || a.DeadEnd? || a.AllSent? then Returners(w, m) + {a.v} else Returners(w, m)
    ensures a.CountPage? || a.DeadEnd? || a.AllSent? ==> a.v !in Returners(w, m)
  {
    hide Step, LocalOk, HasReturned, HasRecorded, EdgesServed, Web.Closed;
    ActorProgress(w, d, eps, m, a, t);
    forall v | v in w.ids && v != a.v ensures v in Returners(w, t) <==> v in Returners(w, m) {
      BystanderProgress(w, d, eps, m, a, t, v);
    }
  }

  lemma RecordersStep(w: Web, d: real, eps: real, m: Machine, a: Action, t: Machine)
    requires Step(w, d, eps, m, a, t) && a != NextSuperstep && a.v in w.ids
    requires LocalOk(w, d, m.bsp.superstep, a.v, m.bsp.vertices[a.v], m.value[a.v], m.pc[a.v])
    ensures w.Closed() && m.Shaped(w) && t.Shaped(w)
    ensures Recorders(w, t) == if a.Record? || a.CountPage? then Recorders(w, m) + {a.v} else Recorders(w, m)
    ensures a.Record? ==> a.v !in Recorders(w, m)
  {
    hide Step, LocalOk, HasReturned, HasRecorded, EdgesServed, Web.Closed;
    ActorProgress(w, d, eps, m, a, t);
    forall v | v in w.ids && v != a.v ensures v in Recorders(w, t) <==> v in Recorders(w, m) {
      BystanderProgress(w, d, eps, m, a, t, v);
    }
  }

  lemma ChangesAdd(w: Web, d: real, s: nat, from: set<Id>, v: Id)
    requires w.Closed() && 2 <= s && from <= w.ids && v in w.ids && v !in from
    ensures Changes(w, d, s, from + {v})
         == Changes(w, d, s, from) + Abs(ScoresAt(w, d, s - 1)[v] - ScoresAt(w, d, s)[v])
  {
    hide ScoresAt, Abs, Total;
    var more := map u | u in from + {v} :: Abs(ScoresAt(w, d, s - 1)[u] - ScoresAt(w, d, s)[u]);
    TotalRemove(more, v);
    assert more - {v} == map u | u in from :: Abs(ScoresAt(w, d, s - 1)[u] - ScoresAt(w, d, s)[u]);
  }

  /** What an action does to the accumulators. */
  lemma AccumulatorStep(w: Web, d: real, eps: real, m: Machine, a: Action, t: Machine)
    requires Step(w, d, eps, m, a, t) && a != NextSuperstep
    ensures t.Shaped(w) && a.v in w.ids
    ensures t.pageCount == m.pageCount + if a.CountPage? then 1 else 0
    ensures a.CountPage? ==> m.bsp.superstep == 0 && m.pc[a.v] == Started
    ensures a.DeadEnd? ==> m.pc[a.v].Sending? && w.out[a.v] == [] && m.pageCount != 0
    ensures a.AllSent? ==> m.pc[a.v].Sending? && w.out[a.v] != []
    ensures a.Record? ==> m.pc[a.v].Scored?
    ensures var s := m.bsp.superstep;
            && t.acc.At(ResidualInput(s)) == m.acc.At(ResidualInput(s))
            && t.acc.At(ResidualOutput(s))
               == m.acc.At(ResidualOutput(s)) + (if a.DeadEnd? then PerPage(m.pc[a.v].score, m.pageCount) else 0.0)
            && t.acc.At(SumOfDifferences)
               == m.acc.At(SumOfDifferences) + if a.Record? then Abs(m.value[a.v] - m.pc[a.v].score) else 0.0
  {
    hide PcAfter, Effect, Mul, Abs, Bsp.Enabled, Bsp.Apply;
    StepShapes(w, d, eps, m, a, t);
  }

  lemma SharedStep(w: Web, d: real, eps: real, m: Machine, a: Action, t: Machine)
    requires Step(w, d, eps, m, a, t) && a != NextSuperstep && a.v in w.ids
    requires LocalOk(w, d, m.bsp.superstep, a.v, m.bsp.vertices[a.v], m.value[a.v], m.pc[a.v]) && SharedOk(w, d, m)
    ensures t.Shaped(w) && SharedOk(w, d, t)
  {
    hide Totals, Step, LocalOk, ScoresAt, Returners, Recorders, ResidualInput, ResidualOutput, Web.Closed;
    hide Machine.Shaped, Accumulators.At;
    AccumulatorStep(w, d, eps, m, a, t);
    ReturnersStep(w, d, eps, m, a, t);
    RecordersStep(w, d, eps, m, a, t);
    Within(w, d, eps, m, a, t);
    ActorScores(w, d, m, a);
    var s := m.bsp.superstep;
    if a.CountPage? || a.DeadEnd? || a.AllSent? {
      TotalsReturn(w, d, s, m.pageCount, m.acc.At(ResidualOutput(s)), m.acc.At(ResidualInput(s)),
                   m.acc.At(SumOfDifferences), Returners(w, m), Recorders(w, m), a.v);
    } else if a.Record? && 2 <= s {
      TotalsRecord(w, d, s, m.pageCount, m.acc.At(ResidualOutput(s)), m.acc.At(ResidualInput(s)),
                   m.acc.At(SumOfDifferences), Returners(w, m), Recorders(w, m), a.v);
    }
    TotalsEarly(w, d, s, m.pageCount, m.acc.At(ResidualOutput(s)), m.acc.At(ResidualInput(s)),
                m.acc.At(SumOfDifferences), t.acc.At(SumOfDifferences),
                Returners(w, t), Recorders(w, m), Recorders(w, t));
  }

  lemma TotalsReturn(w: Web, d: real, s: nat, pages: nat, output: real, input: real, sad: real,
                     returned: set<Id>, recorded: set<Id>, v: Id)
    requires w.Closed() && returned <= w.ids && recorded <= w.ids && v in w.ids && v !in returned
    requires Totals(w, d, s, pages, output, input, sad, returned, recorded)
    ensures s == 0 ==> Totals(w, d, s, pages + 1, output, input, sad, returned + {v}, recorded)
    ensures 1 <= s && w.out[v] != [] ==> Totals(w, d, s, pages, output, input, sad, returned + {v}, recorded)
    ensures 1 <= s && w.out[v] == [] ==>
              pages != 0
              && Totals(w, d, s, pages, output + PerPage(ScoresAt(w, d, s)[v], pages), input, sad,
                        returned + {v}, recorded)
  {
    hide ScoresAt, Residual, Changes;
    if 1 <= s {
      ResidualRemove(w, ScoresAt(w, d, s), returned + {v}, v);
      assert returned + {v} - {v} == returned;
    }
  }

  lemma TotalsRecord(w: Web, d: real, s: nat, pages: nat, output: real, input: real, sad: real,
                     returned: set<Id>, recorded: set<Id>, v: Id)
    requires w.Closed() && returned <= w.ids && recorded <= w.ids && v in w.ids && v !in recorded && 2 <= s
    requires Totals(w, d, s, pages, output, input, sad, returned, recorded)
    ensures Totals(w, d, s, pages, output, input,
                   sad + Abs(ScoresAt(w, d, s - 1)[v] - ScoresAt(w, d, s)[v]), returned, recorded + {v})
  {
    hide ScoresAt, Residual, Changes, Abs;
    ChangesAdd(w, d, s, recorded, v);
  }

  /** In supersteps 0 and 1 nothing is claimed about the sum of differences. */
  lemma TotalsEarly(w: Web, d: real, s: nat, pages: nat, output: real, input: real, sad: real,
                    sad': real, returned: set<Id>, recorded: set<Id>, recorded': set<Id>)
    requires w.Closed() && returned <= w.ids && recorded <= w.ids && recorded' <= w.ids
    ensures s < 2 ==> forall p, o, i ::
              Totals(w, d, s, p, o, i, sad, returned, recorded) == Totals(w, d, s, p, o, i, sad', returned, recorded')
  {
  }

  /** The scores that the acting vertex is about to publish. */
  lemma ActorScores(w: Web, d: real, m: Machine, a: Action)
    requires w.Closed() && m.Shaped(w) && a != NextSuperstep && a.v in w.ids
    requires LocalOk(w, d, m.bsp.superstep, a.v, m.bsp.vertices[a.v], m.value[a.v], m.pc[a.v])
    ensures var s, pc := m.bsp.superstep, m.pc[a.v];
            && (s == 0 ==> !pc.Sending? && !pc.Scored?)
            && (1 <= s && (pc.Sending? || pc.Scored?) ==> pc.score == ScoresAt(w, d, s)[a.v])
            && (2 <= s && pc.Scored? ==> m.value[a.v] == ScoresAt(w, d, s - 1)[a.v])
  {
    hide Mul, Inbox, QueueSum, Teleport, ScoresAt;
  }

  // ---------------------------------------------------------------- the barrier

  lemma AllServed(w: Web, m: Machine)
    requires w.Closed() && m.Shaped(w) && m.bsp.Everywhere(Bsp.Done)
    requires forall v :: v in w.ids ==> m.pc[v] == Idle
    ensures Served(w, m) == Degrees(w) && Returners(w, m) == w.ids && Recorders(w, m) == w.ids
  {
  }

  lemma NoneServed(w: Web, m: Machine)
    requires w.Closed() && m.Shaped(w) && m.bsp.Everywhere(Bsp.Waiting)
    requires forall v :: v in w.ids ==> m.pc[v] == Idle
    ensures (forall v :: v in w.ids ==> Served(w, m)[v] == 0) && Returners(w, m) == {} && Recorders(w, m) == {}
  {
  }

  lemma IdleWhenDone(w: Web, d: real, m: Machine)
    requires Inv(w, d, m) && m.bsp.Everywhere(Bsp.Done)
    ensures forall v :: v in w.ids ==> m.pc[v] == Idle && m.bsp.ReadQueue(v) == []
  {
    hide SharedOk, WriteOk, Mul, ScoresAt, Inbox, Teleport, QueueSum;
    forall v | v in w.ids ensures m.pc[v] == Idle && m.bsp.ReadQueue(v) == [] {
      assert VertexOk(w, d, m, v);
    }
  }

  lemma DoneEverywhere(w: Web, d: real, eps: real, m: Machine, t: Machine)
    requires Step(w, d, eps, m, NextSuperstep, t)
    ensures m.bsp.Everywhere(Bsp.Done)
  {
    hide Perform;
  }

  lemma AdvanceEffects(w: Web, d: real, eps: real, m: Machine, t: Machine)
    requires Step(w, d, eps, m, NextSuperstep, t)
    ensures t.Shaped(w) && m.bsp.Everywhere(Bsp.Done) && t.bsp.Everywhere(Bsp.Waiting)
    ensures t.bsp.superstep == m.bsp.superstep + 1
    ensures t.value == m.value && t.pc == m.pc && t.pageCount == m.pageCount
    ensures t.acc.At(SumOfDifferences) == t.acc.At(ResidualOutput(t.bsp.superstep)) == 0.0
    ensures t.acc.At(ResidualInput(t.bsp.superstep)) == m.acc.At(ResidualOutput(m.bsp.superstep))
  {
    hide PcAfter, Mul, Abs;
  }

  /** The queue that was written is the one that is read next, and the other way round. */
  lemma AdvanceQueues(w: Web, d: real, eps: real, m: Machine, t: Machine, v: Id)
    requires Step(w, d, eps, m, NextSuperstep, t) && v in w.ids
    ensures t.Shaped(w) && m.Shaped(w) && t.bsp.vertices[v].active == m.bsp.vertices[v].active
    ensures t.bsp.ReadQueue(v) == m.bsp.WriteQueue(v) && t.bsp.WriteQueue(v) == m.bsp.ReadQueue(v)
  {
    hide PcAfter, Mul, Abs;
  }

  lemma AdvanceShared(w: Web, d: real, eps: real, m: Machine, t: Machine)
    requires Step(w, d, eps, m, NextSuperstep, t)
    requires w.Closed() && m.Shaped(w) && SharedOk(w, d, m)
    requires forall v :: v in w.ids ==> m.pc[v] == Idle
    ensures t.Shaped(w) && SharedOk(w, d, t)
  {
    hide Totals, Step, Returners, Recorders, ScoresAt, ResidualInput, ResidualOutput;
    AdvanceEffects(w, d, eps, m, t);
    AllServed(w, m);
    NoneServed(w, t);
    TotalsAdvance(w, d, m.bsp.superstep, m.pageCount, m.acc.At(ResidualOutput(m.bsp.superstep)),
                  m.acc.At(ResidualInput(m.bsp.superstep)), m.acc.At(SumOfDifferences), w.ids);
  }

  lemma TotalsAdvance(w: Web, d: real, s: nat, pages: nat, output: real, input: real, sad: real, recorded: set<Id>)
    requires w.Closed() && recorded <= w.ids && Totals(w, d, s, pages, output, input, sad, w.ids, recorded)
    ensures Totals(w, d, s + 1, pages, 0.0, output, 0.0, {}, {})
  {
    hide ScoresAt, Residual, Changes;
    NoSums(w, d, s + 1);
  }

  lemma NoSums(w: Web, d: real, s: nat)
    requires w.Closed() && 1 <= s
    ensures Residual(w, ScoresAt(w, d, s), {}) == 0.0
    ensures 2 <= s ==> Changes(w, d, s, {}) == 0.0
  {
    hide ScoresAt;
    assert ResidualTerms(w, ScoresAt(w, d, s), {}) == map[];
  }

  /** A vertex that has finished one superstep is ready for the next. */
  lemma IdleAgain(w: Web, d: real, s: nat, v: Id, x: Bsp.Vertex<real>, y: Bsp.Vertex<real>, val: real)
    requires w.Closed() && v in w.ids && LocalOk(w, d, s, v, x, val, Idle)
    requires x.phase == Bsp.Done && y.phase == Bsp.Waiting && y.active == x.active
    requires 1 <= s ==> QueueSum(y.Queue(s + 1)) == Inbox(w, d, s + 1, v)
    ensures LocalOk(w, d, s + 1, v, y, val, Idle)
  {
    hide Web.Closed, Mul, ScoresAt, Inbox, QueueSum, Teleport, Bsp.Vertex.Queue;
  }

  lemma WrittenInbox(w: Web, d: real, m: Machine, v: Id)
    requires w.Closed() && m.Shaped(w) && v in w.ids && WriteOk(w, d, m, v) && 1 <= m.bsp.superstep
    requires Served(w, m) == Degrees(w)
    ensures QueueSum(m.bsp.WriteQueue(v)) == Inbox(w, d, m.bsp.superstep + 1, v)
  {
    hide Web.Closed, Machine.Shaped, ScoresAt, Delivered, QueueSum, Served, Degrees, Bsp.Vertex.Queue;
  }

  lemma AdvanceLocal(w: Web, d: real, eps: real, m: Machine, t: Machine, v: Id)
    requires Step(w, d, eps, m, NextSuperstep, t) && v in w.ids
    requires w.Closed() && m.Shaped(w) && VertexOk(w, d, m, v) && m.pc[v] == Idle && Served(w, m) == Degrees(w)
    ensures t.Shaped(w) && LocalOk(w, d, t.bsp.superstep, v, t.bsp.vertices[v], t.value[v], t.pc[v])
  {
    hide LocalOk, WriteOk, Web.Closed, Inbox, Step, QueueSum, Served, Degrees, Bsp.Vertex.Queue, Accumulators.At;
    AdvanceEffects(w, d, eps, m, t);
    AdvanceQueues(w, d, eps, m, t, v);
    ReadQueues(m, t, v);
    if 1 <= m.bsp.superstep {
      WrittenInbox(w, d, m, v);
    }
    IdleAgain(w, d, m.bsp.superstep, v, m.bsp.vertices[v], t.bsp.vertices[v], m.value[v]);
  }

  lemma AdvanceVertex(w: Web, d: real, eps: real, m: Machine, t: Machine, v: Id)
    requires Step(w, d, eps, m, NextSuperstep, t) && v in w.ids
    requires w.Closed() && m.Shaped(w) && VertexOk(w, d, m, v)
    requires forall u :: u in w.ids ==> m.pc[u] == Idle
    requires m.bsp.ReadQueue(v) == []
    ensures t.Shaped(w) && VertexOk(w, d, t, v)
  {
    hide Step, LocalOk, WriteOk, Served, Bsp.Vertex.Queue;
    DoneEverywhere(w, d, eps, m, t);
    AllServed(w, m);
    AdvanceLocal(w, d, eps, m, t, v);
    AdvanceWrite(w, d, eps, m, t, v);
  }

  lemma AdvanceWrite(w: Web, d: real, eps: real, m: Machine, t: Machine, v: Id)
    requires Step(w, d, eps, m, NextSuperstep, t) && v in w.ids
    requires w.Closed() && m.Shaped(w) && m.bsp.ReadQueue(v) == []
    requires forall u :: u in w.ids ==> m.pc[u] == Idle
    ensures t.Shaped(w) && WriteOk(w, d, t, v)
  {
    hide Mul, Abs, ScoresAt, Step, Delivered, QueueSum, Teleport, Served, Bsp.Vertex.Queue;
    AdvanceEffects(w, d, eps, m, t);
    AdvanceQueues(w, d, eps, m, t, v);
    NoneServed(w, t);
    NothingDelivered(w, ScoresAt(w, d, t.bsp.superstep), Served(w, t), w.ids, v);
    NoMessages();
  }

  lemma NoMessages()
    ensures QueueSum([]) == 0.0
  {
  }

  // ---------------------------------------------------------------- every action keeps the invariant

  lemma InvStep(w: Web, d: real, eps: real, m: Machine, a: Action, t: Machine)
    requires Inv(w, d, m) && Step(w, d, eps, m, a, t)
    ensures Inv(w, d, t)
  {
    hide LocalOk, WriteOk, SharedOk, Step;
    StepShapes(w, d, eps, m, a, t);
    if a == NextSuperstep {
      DoneEverywhere(w, d, eps, m, t);
      IdleWhenDone(w, d, m);
      AdvanceShared(w, d, eps, m, t);
      forall v | v in w.ids ensures VertexOk(w, d, t, v) {
        assert VertexOk(w, d, m, v);
        AdvanceVertex(w, d, eps, m, t, v);
      }
    } else {
      assert VertexOk(w, d, m, a.v);
      SharedStep(w, d, eps, m, a, t);
      forall v | v in w.ids ensures VertexOk(w, d, t, v) {
        assert VertexOk(w, d, m, v);
        WriteStep(w, d, eps, m, a, t, v);
        if v == a.v {
          ActorLocal(w, d, eps, m, a, t);
        } else {
          BystanderLocal(w, d, eps, m, a, t, v);
        }
      }
    }
  }
}
