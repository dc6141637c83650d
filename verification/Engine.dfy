/** The bulk synchronous parallel engine run by the worker pool: which vertices are computed is no
    longer a parameter of a superstep. A worker that has received a vertex looks at the vertex's
    activity and at its queue at that moment, while the other workers are computing and sending. */
module Engine {
  import opened Ids
  import opened Options
  import Bsp
  import Pool = WorkerPool

  datatype System<M, E> = System(pool: Pool.Pool<E>, bsp: Bsp.State<M>)

  datatype Action<M, E> =
    | Begin                                   // the caller starts a superstep
    | Receive(w: nat, v: Id)
    | Start(w: nat)                           // the worker looks at its vertex
    | Act(w: nat, step: Bsp.Label<M>)        // its compute function acts
    | Return(w: nat, failure: Option<E>)      // and returns
    | Decrement(w: nat)
    | Signal(w: nat)
    | Collect
    | Advance                                 // the executor goes on to the next superstep

  /** The vertex is active or has messages to read. */
  ghost predicate HasTurn<M>(s: Bsp.State<M>, v: Id) {
    v in s.vertices && (s.vertices[v].active || s.ReadQueue(v) != [])
  }

  ghost function Runnable<M>(s: Bsp.State<M>): set<Id> {
    set v | v in s.vertices && HasTurn(s, v)
  }

  /** An action of the compute function. */
  ghost predicate IsInner<M>(l: Bsp.Label<M>) {
    l.Pop? || l.Send? || l.Freeze? || l.Internal?
  }

  /** The action of the pool. */
  ghost function PoolAction<M, E>(s: System<M, E>, a: Action<M, E>): Pool.Action<E>
    requires !a.Act? && !a.Advance?
  {
    match a
    case Begin => Pool.Begin(s.bsp.vertices.Keys, Runnable(s.bsp))
    case Receive(w, v) => Pool.Receive(w, v)
    case Start(w) => Pool.Start(w)
    case Return(w, failure) => Pool.Return(w, failure)
    case Decrement(w) => Pool.Decrement(w)
    case Signal(w) => Pool.Signal(w)
    case Collect => Pool.Collect
  }

  ghost predicate PoolEnabled<M, E>(s: System<M, E>, a: Action<M, E>) {
    match a
    case Act(w, step) =>
      w < |s.pool.workers| && s.pool.workers[w].Computing? && IsInner(step) && step.v == s.pool.workers[w].v
    case Advance => Pool.Between(s.pool)
    case _ => Pool.Enabled(s.pool, PoolAction(s, a)) && (a.Begin? ==> s.bsp.Everywhere(Bsp.Waiting))
  }

  ghost function PoolAfter<M, E>(s: System<M, E>, a: Action<M, E>): Pool.Pool<E>
    requires PoolEnabled(s, a)
  {
    match a
    case Act(_, _) => s.pool
    case Advance => s.pool
    case Start(w) => Pool.Started(s.pool, w, HasTurn(s.bsp, s.pool.workers[w].v))
    case _ => Pool.Apply(s.pool, PoolAction(s, a))
  }

  /** The step of the engine, if the action is one. */
  ghost function LabelOf<M, E>(s: System<M, E>, a: Action<M, E>): Option<Bsp.Label<M>>
    requires PoolEnabled(s, a)
  {
    match a
    case Start(w) =>
      var v := s.pool.workers[w].v;
      Some(if HasTurn(s.bsp, v) then Bsp.Claim(v) else Bsp.Skip(v))
    case Act(_, step) => Some(step)
    case Return(w, None) => Some(Bsp.Finish(s.pool.workers[w].v))
    case Return(w, Some(_)) => Some(Bsp.Fail(s.pool.workers[w].v))
    case Advance => Some(Bsp.Advance)
    case _ => None
  }

  ghost predicate Enabled<M, E>(s: System<M, E>, a: Action<M, E>) {
    PoolEnabled(s, a) && (LabelOf(s, a).Some? ==> Bsp.Enabled(s.bsp, LabelOf(s, a).value))
  }

  ghost predicate Step<M, E>(s: System<M, E>, a: Action<M, E>, t: System<M, E>) {
    && Enabled(s, a)
    && t.pool == PoolAfter(s, a)
    && t.bsp == match LabelOf(s, a)
                case None => s.bsp
                case Some(l) => Bsp.Apply(s.bsp, l)
  }

  ghost predicate Initial<M, E>(s: System<M, E>) {
    Pool.Initial(s.pool) && s.bsp.superstep == 0 && s.bsp.Everywhere(Bsp.Waiting)
  }

  // ---------------------------------------------------------------- the invariant

  ghost predicate Working(workers: seq<Pool.Worker>, v: Id) {
    exists i :: 0 <= i < |workers| && workers[i] == Pool.Computing(v)
  }

  /** A vertex waits until a worker has looked at it, is computing while a worker computes it, and
      until then keeps the turn it had when the superstep began. */
  ghost predicate VertexOk<M, E>(s: System<M, E>, v: Id)
    requires v in s.bsp.vertices
  {
    && (s.bsp.vertices[v].phase == Bsp.Waiting <==> v !in s.pool.history.begun)
    && (s.bsp.vertices[v].phase == Bsp.Computing <==> Working(s.pool.workers, v))
    && (v !in s.pool.history.begun ==> (v in s.pool.history.runnable <==> HasTurn(s.bsp, v)))
  }

  ghost predicate SomeFailed<M>(s: Bsp.State<M>) {
    exists v :: v in s.vertices && s.vertices[v].phase == Bsp.Failed
  }

  ghost predicate Linked<M, E>(s: System<M, E>) {
    && s.pool.history.vertices == s.bsp.vertices.Keys
    && (s.pool.history.errors != [] <==> SomeFailed(s.bsp))
    && forall v {:trigger VertexOk(s, v)} :: v in s.bsp.vertices ==> VertexOk(s, v)
  }

  ghost predicate Inv<M, E>(s: System<M, E>) {
    && Pool.Inv(s.pool)
    && if Pool.Between(s.pool) && s.bsp.Everywhere(Bsp.Waiting) then true
       else !s.pool.caller.Idle? && Linked(s)
  }

  // ---------------------------------------------------------------- a worker's look at its vertex

  /** The vertex that a worker is about to look at has the turn it had when the superstep began. */
  lemma TurnStands<M, E>(s: System<M, E>, w: nat)
    requires Inv(s) && w < |s.pool.workers| && s.pool.workers[w].Claimed?
    ensures var v := s.pool.workers[w].v;
            && v in s.bsp.vertices && s.bsp.vertices[v].phase == Bsp.Waiting
            && (HasTurn(s.bsp, v) <==> v in s.pool.history.runnable)
            && Linked(s)
  {
    hide HasTurn, Working, Pool.SignalOk, Pool.ReturnOk, Pool.Covered, Pool.Distinct, SomeFailed;
    assert Pool.HeldOk(s.pool, s.pool.workers[w]);
    assert VertexOk(s, s.pool.workers[w].v);
  }

  /** What the pool does is a step of the pool, in which the worker's look at the queue is the
      decision that was taken at the start of the superstep. */
  lemma PoolSteps<M, E>(s: System<M, E>, a: Action<M, E>, t: System<M, E>)
    requires Inv(s) && Step(s, a, t)
    ensures if a.Act? || a.Advance? then t.pool == s.pool else Pool.Step(s.pool, PoolAction(s, a), t.pool)
  {
    hide Pool.Started, Bsp.Enabled, Bsp.Apply, Pool.Inv, Linked, Inv, HasTurn, Runnable;
    if a.Start? {
      TurnStands(s, a.w);
    }
  }

  /** What the engine does is a step of the engine or nothing. */
  lemma EngineSteps<M, E>(s: System<M, E>, a: Action<M, E>, t: System<M, E>)
    requires Step(s, a, t)
    ensures if LabelOf(s, a).None? then t.bsp == s.bsp else Bsp.Step(s.bsp, LabelOf(s, a).value, t.bsp)
  {
    hide PoolEnabled, PoolAfter, LabelOf, Bsp.Enabled, Bsp.Apply;
  }

  // ---------------------------------------------------------------- every action keeps the invariant

  /** Replacing one worker concerns the vertices that it computes only. */
  lemma WorkingFrame(workers: seq<Pool.Worker>, w: nat, x: Pool.Worker, v: Id)
    requires w < |workers| && workers[w] != Pool.Computing(v) && x != Pool.Computing(v)
    ensures Working(workers[w := x], v) <==> Working(workers, v)
  {
    if Working(workers, v) {
      var i :| 0 <= i < |workers| && workers[i] == Pool.Computing(v);
      assert workers[w := x][i] == Pool.Computing(v);
    }
  }

  /** No two workers compute the same vertex, so it is computed no longer when one of them stops. */
  lemma WorkingEnds(workers: seq<Pool.Worker>, w: nat, x: Pool.Worker, v: Id)
    requires w < |workers| && workers[w] == Pool.Computing(v) && x != Pool.Computing(v) && Pool.Distinct(workers)
    ensures !Working(workers[w := x], v)
  {
  }

  /** The pool's part of an action that is not the start of a superstep. */
  lemma PoolMoves<M, E>(s: System<M, E>, a: Action<M, E>, t: System<M, E>)
    requires Inv(s) && Step(s, a, t) && !a.Begin?
    ensures t.pool.history.vertices == s.pool.history.vertices && t.pool.history.runnable == s.pool.history.runnable
    ensures t.pool.history.begun
         == s.pool.history.begun + if a.Start? && a.w < |s.pool.workers| && s.pool.workers[a.w].Claimed?
                                   then {s.pool.workers[a.w].v} else {}
    ensures t.pool.history.errors
         == s.pool.history.errors + if a.Return? && a.failure.Some? then [a.failure.value] else []
  {
    hide Inv, Linked, Pool.Inv, HasTurn, Bsp.Enabled, Bsp.Apply;
  }

  /** What a compute function does leaves all phases, and the turns of those not being computed. */
  lemma InnerMoves<M>(s: Bsp.State<M>, l: Bsp.Label<M>, t: Bsp.State<M>, v: Id)
    requires Bsp.Step(s, l, t) && IsInner(l) && v in s.vertices
    ensures t.vertices.Keys == s.vertices.Keys && t.vertices[v].phase == s.vertices[v].phase
    ensures s.vertices[v].phase != Bsp.Computing ==> (HasTurn(t, v) <==> HasTurn(s, v))
  {
    if l.v != v || l.Send? {
      Bsp.ReadSideIsPrivate(s, l, t, v);
    }
  }

  ghost predicate IsOuter<M>(l: Bsp.Label<M>) {
    l.Claim? || l.Skip? || l.Finish? || l.Fail?
  }

  ghost function PhaseTo<M>(l: Bsp.Label<M>): Bsp.Phase {
    if l.Claim? then Bsp.Computing else if l.Fail? then Bsp.Failed else Bsp.Done
  }

  /** Claiming, skipping and finishing concern their own vertex. */
  lemma OuterMoves<M>(s: Bsp.State<M>, l: Bsp.Label<M>, t: Bsp.State<M>, v: Id)
    requires Bsp.Step(s, l, t) && IsOuter(l) && v in s.vertices
    ensures t.vertices.Keys == s.vertices.Keys && l.v in s.vertices
    ensures t.vertices[v].phase == if l.v == v then PhaseTo(l) else s.vertices[v].phase
    ensures s.vertices[l.v].phase == if l.Claim? || l.Skip? then Bsp.Waiting else Bsp.Computing
    ensures l.v != v ==> (HasTurn(t, v) <==> HasTurn(s, v))
  {
  }

  lemma QuietVertex<M, E>(s: System<M, E>, a: Action<M, E>, t: System<M, E>, v: Id)
    requires Inv(s) && Step(s, a, t) && v in s.bsp.vertices && VertexOk(s, v)
    requires a.Receive? || a.Decrement? || a.Signal? || a.Collect?
    ensures t.bsp == s.bsp && VertexOk(t, v)
  {
    hide Inv, Working, HasTurn, Bsp.Enabled, Bsp.Apply;
    PoolMoves(s, a, t);
    if !a.Collect? {
      WorkingFrame(s.pool.workers, a.w, t.pool.workers[a.w], v);
      assert t.pool.workers == s.pool.workers[a.w := t.pool.workers[a.w]];
    }
  }

  lemma ActVertex<M, E>(s: System<M, E>, a: Action<M, E>, t: System<M, E>, v: Id)
    requires Inv(s) && Step(s, a, t) && v in s.bsp.vertices && VertexOk(s, v) && a.Act?
    ensures t.bsp.vertices.Keys == s.bsp.vertices.Keys && VertexOk(t, v)
    ensures t.bsp.vertices[v].phase == s.bsp.vertices[v].phase
  {
    hide Inv, Working, HasTurn, Bsp.Enabled, Bsp.Apply;
    PoolMoves(s, a, t);
    InnerMoves(s.bsp, a.step, t.bsp, v);
  }

  lemma StartVertex<M, E>(s: System<M, E>, a: Action<M, E>, t: System<M, E>, v: Id)
    requires Inv(s) && Step(s, a, t) && v in s.bsp.vertices && VertexOk(s, v) && a.Start?
    ensures t.bsp.vertices.Keys == s.bsp.vertices.Keys && VertexOk(t, v)
    ensures t.bsp.vertices[v].phase == Bsp.Failed <==> s.bsp.vertices[v].phase == Bsp.Failed
  {
    hide Inv, HasTurn, Bsp.Enabled, Bsp.Apply, Working;
    var u := s.pool.workers[a.w].v;
    TurnStands(s, a.w);
    PoolMoves(s, a, t);
    OuterMoves(s.bsp, LabelOf(s, a).value, t.bsp, v);
    assert t.pool.workers == s.pool.workers[a.w := t.pool.workers[a.w]];
    if u != v || !HasTurn(s.bsp, u) {
      WorkingFrame(s.pool.workers, a.w, t.pool.workers[a.w], v);
    } else {
      WorkingAt(t.pool.workers, a.w, v);
    }
  }

  lemma WorkingAt(workers: seq<Pool.Worker>, w: nat, v: Id)
    requires w < |workers| && workers[w] == Pool.Computing(v)
    ensures Working(workers, v)
  {
  }

  /** The vertex that a worker computes. */
  lemma Computed<M, E>(s: System<M, E>, w: nat)
    requires Inv(s) && w < |s.pool.workers| && s.pool.workers[w].Computing?
    ensures s.pool.workers[w].v in s.pool.history.begun && Pool.Distinct(s.pool.workers) && Linked(s)
    ensures s.pool.workers[w].v in s.bsp.vertices
  {
    hide HasTurn, Working, Pool.SignalOk, Pool.ReturnOk, Pool.Covered, Pool.Distinct, SomeFailed;
    assert Pool.HeldOk(s.pool, s.pool.workers[w]);
  }

  lemma ReturnVertex<M, E>(s: System<M, E>, a: Action<M, E>, t: System<M, E>, v: Id)
    requires Inv(s) && Step(s, a, t) && v in s.bsp.vertices && VertexOk(s, v) && a.Return?
    ensures t.bsp.vertices.Keys == s.bsp.vertices.Keys && VertexOk(t, v)
    ensures a.w < |s.pool.workers| && s.pool.workers[a.w].Computing?
    ensures t.bsp.vertices[v].phase == Bsp.Failed <==>
            s.bsp.vertices[v].phase == Bsp.Failed || (a.failure.Some? && v == s.pool.workers[a.w].v)
  {
    hide Inv, HasTurn, Bsp.Enabled, Bsp.Apply, Working, Pool.Distinct;
    var u := s.pool.workers[a.w].v;
    Computed(s, a.w);
    PoolMoves(s, a, t);
    OuterMoves(s.bsp, LabelOf(s, a).value, t.bsp, v);
    assert t.pool.workers == s.pool.workers[a.w := t.pool.workers[a.w]];
    if u != v {
      WorkingFrame(s.pool.workers, a.w, t.pool.workers[a.w], v);
    } else {
      WorkingEnds(s.pool.workers, a.w, t.pool.workers[a.w], v);
    }
  }

  lemma VertexStep<M, E>(s: System<M, E>, a: Action<M, E>, t: System<M, E>, v: Id)
    requires Inv(s) && Step(s, a, t) && v in s.bsp.vertices && VertexOk(s, v) && !a.Begin? && !a.Advance?
    ensures t.bsp.vertices.Keys == s.bsp.vertices.Keys && VertexOk(t, v)
    ensures a.Return? ==> a.w < |s.pool.workers| && s.pool.workers[a.w].Computing?
    ensures t.bsp.vertices[v].phase == Bsp.Failed <==>
            s.bsp.vertices[v].phase == Bsp.Failed || (a.Return? && a.failure.Some? && v == s.pool.workers[a.w].v)
  {
    hide Inv, Step, VertexOk;
    if a.Start? {
      StartVertex(s, a, t, v);
    } else if a.Return? {
      ReturnVertex(s, a, t, v);
    } else if a.Act? {
      ActVertex(s, a, t, v);
    } else {
      QuietVertex(s, a, t, v);
    }
  }

  lemma SameKeys<M, E>(s: System<M, E>, a: Action<M, E>, t: System<M, E>)
    requires Step(s, a, t)
    ensures t.bsp.vertices.Keys == s.bsp.vertices.Keys
  {
    hide PoolEnabled, PoolAfter, LabelOf, Bsp.Enabled, Bsp.Apply;
    EngineSteps(s, a, t);
    if LabelOf(s, a).Some? {
      Bsp.StepKeepsVertices(s.bsp, LabelOf(s, a).value, t.bsp);
    }
  }

  lemma LinkedStep<M, E>(s: System<M, E>, a: Action<M, E>, t: System<M, E>)
    requires Inv(s) && Linked(s) && Step(s, a, t) && !a.Begin? && !a.Advance?
    ensures Linked(t)
  {
    hide Inv, Step, VertexOk;
    PoolMoves(s, a, t);
    SameKeys(s, a, t);
    forall v | v in s.bsp.vertices
      ensures VertexOk(t, v)
      ensures a.Return? ==> a.w < |s.pool.workers| && s.pool.workers[a.w].Computing?
      ensures t.bsp.vertices[v].phase == Bsp.Failed <==>
              s.bsp.vertices[v].phase == Bsp.Failed || (a.Return? && a.failure.Some? && v == s.pool.workers[a.w].v)
    {
      assert VertexOk(s, v);
      VertexStep(s, a, t, v);
    }
    if a.Return? {
      ReturnComputed(s, a, t);
    }
  }

  lemma ReturnComputed<M, E>(s: System<M, E>, a: Action<M, E>, t: System<M, E>)
    requires Inv(s) && Step(s, a, t) && a.Return?
    ensures a.w < |s.pool.workers| && s.pool.workers[a.w].Computing? && s.pool.workers[a.w].v in s.bsp.vertices
  {
    hide Inv, Linked, Bsp.Enabled, Bsp.Apply;
    Computed(s, a.w);
  }

  lemma BeginLinks<M, E>(s: System<M, E>, a: Action<M, E>, t: System<M, E>)
    requires Inv(s) && Step(s, a, t) && a.Begin?
    ensures Linked(t)
  {
    hide HasTurn, Pool.SignalOk, Pool.ReturnOk, Pool.Placed, Pool.Counted;
    assert Pool.AllPolling(t.pool);
    forall v | v in t.bsp.vertices ensures VertexOk(t, v) {
    }
  }

  /** Every action keeps the invariant. */
  lemma InvStep<M, E>(s: System<M, E>, a: Action<M, E>, t: System<M, E>)
    requires Inv(s) && Step(s, a, t)
    ensures Inv(t)
  {
    hide Step, Linked, Pool.Inv, VertexOk;
    PoolSteps(s, a, t);
    PoolInv(s, a, t);
    if a.Begin? {
      BeginLinks(s, a, t);
      BeginCalls(s, a, t);
    } else if a.Advance? {
      Advanced(s, a, t);
    } else {
      Within(s, a, t);
      LinkedStep(s, a, t);
    }
  }

  lemma PoolInv<M, E>(s: System<M, E>, a: Action<M, E>, t: System<M, E>)
    requires Inv(s) && Step(s, a, t)
    ensures Pool.Inv(t.pool)
  {
    hide Step, Linked, Pool.Inv, VertexOk, Pool.Step, Bsp.State.Everywhere;
    PoolSteps(s, a, t);
    if !a.Act? && !a.Advance? {
      Pool.InvStep(s.pool, PoolAction(s, a), t.pool);
    }
  }

  lemma BeginCalls<M, E>(s: System<M, E>, a: Action<M, E>, t: System<M, E>)
    requires Step(s, a, t) && a.Begin?
    ensures !t.pool.caller.Idle?
  {
    hide HasTurn, Runnable;
  }

  lemma Advanced<M, E>(s: System<M, E>, a: Action<M, E>, t: System<M, E>)
    requires Step(s, a, t) && a.Advance?
    ensures Pool.Between(t.pool) && t.bsp.Everywhere(Bsp.Waiting)
  {
  }

  /** A worker acts between the start of a superstep and its end only. */
  lemma Within<M, E>(s: System<M, E>, a: Action<M, E>, t: System<M, E>)
    requires Inv(s) && Step(s, a, t) && !a.Begin? && !a.Advance?
    ensures !Pool.Between(s.pool) && Linked(s) && !t.pool.caller.Idle?
  {
    hide Linked, HasTurn, Bsp.Enabled, Bsp.Apply, Pool.SignalOk, Pool.ReturnOk, Pool.Placed, Pool.Counted;
  }

  // ---------------------------------------------------------------- whole runs

  datatype Run<M, E> = Run(states: seq<System<M, E>>, actions: seq<Action<M, E>>) {
    ghost predicate Valid() {
      && |states| == |actions| + 1 && Initial(states[0])
      && forall i :: 0 <= i < |actions| ==> Step(states[i], actions[i], states[i + 1])
    }
  }

  lemma StepOf<M, E>(r: Run<M, E>, i: nat)
    requires r.Valid() && i < |r.actions|
    ensures |r.states| == |r.actions| + 1 && Step(r.states[i], r.actions[i], r.states[i + 1])
  {
    hide Step;
  }

  lemma {:induction false} RunInv<M, E>(r: Run<M, E>, n: nat)
    requires r.Valid() && n <= |r.actions|
    ensures Inv(r.states[n])
  {
    if n == 0 {
      hide Step, Linked, Pool.Inv;
      Pool.InitialInv(r.states[0].pool);
    } else {
      hide Inv, Step, Initial, Run.Valid;
      RunInv(r, n - 1);
      StepOf(r, n - 1);
      InvStep(r.states[n - 1], r.actions[n - 1], r.states[n]);
    }
  }

  /** The superstep that action `b` has started is still the current one before action `n`. */
  ghost predicate SameSuperstep<M, E>(r: Run<M, E>, b: nat, n: nat)
    requires r.Valid() && n <= |r.actions|
  {
    b < n && r.actions[b].Begin? && forall i :: b < i < n ==> !r.actions[i].Begin? && !r.actions[i].Advance?
  }

  lemma {:induction false} HistoryStands<M, E>(r: Run<M, E>, b: nat, n: nat)
    requires r.Valid() && n <= |r.actions| && SameSuperstep(r, b, n)
    ensures r.states[n].pool.history.vertices == r.states[b].bsp.vertices.Keys
    ensures r.states[n].pool.history.runnable == Runnable(r.states[b].bsp)
    ensures Linked(r.states[n])
    decreases n
  {
    hide Inv, Initial, Run.Valid, Linked, Runnable, Pool.Inv;
    RunInv(r, n - 1);
    StepOf(r, n - 1);
    if n - 1 == b {
      BeginLinks(r.states[b], r.actions[b], r.states[n]);
    } else {
      HistoryStands(r, b, n - 1);
      PoolMoves(r.states[n - 1], r.actions[n - 1], r.states[n]);
      LinkedStep(r.states[n - 1], r.actions[n - 1], r.states[n]);
    }
  }

  /** However the workers run, and whatever is sent in the meantime: at the moment a worker looks at
      a vertex, it finds it active or with messages exactly if the superstep began with it so. */
  lemma LookIsTimeless<M, E>(r: Run<M, E>, b: nat, n: nat)
    requires r.Valid() && n < |r.actions| && SameSuperstep(r, b, n) && r.actions[n].Start?
    ensures var w := r.actions[n].w;
            && w < |r.states[n].pool.workers| && r.states[n].pool.workers[w].Claimed?
            && (HasTurn(r.states[n].bsp, r.states[n].pool.workers[w].v)
                <==> HasTurn(r.states[b].bsp, r.states[n].pool.workers[w].v))
  {
    hide Inv, VertexOk, SomeFailed, HasTurn, Initial, Bsp.Enabled, Bsp.Apply, Run.Valid;
    RunInv(r, n);
    StepOf(r, n);
    HistoryStands(r, b, n);
    TurnStands(r.states[n], r.actions[n].w);
  }

  /** The barrier: when a superstep returns, in whatever order the workers ran, exactly the vertices
      that were active or had messages to read when it began have been computed, each once; they are
      what is reported as active. Nobody is computing any longer, and there is an error if and only
      if some vertex has failed, so the next superstep can begin if and only if there is none. */
  lemma Barrier<M, E>(r: Run<M, E>, b: nat, n: nat)
    requires r.Valid() && n <= |r.actions| && SameSuperstep(r, b, n) && r.states[n].pool.caller.Returned?
    ensures var start, s := r.states[b].bsp, r.states[n];
            && s.pool.history.computed == multiset(Runnable(start))
            && s.pool.history.skipped == multiset(start.vertices.Keys - Runnable(start))
            && s.pool.caller.active == |Runnable(start)|
            && (forall v :: v in s.bsp.vertices ==> s.bsp.vertices[v].phase in {Bsp.Done, Bsp.Failed})
            && (s.pool.caller.err.Some? <==> SomeFailed(s.bsp))
            && (Enabled(s, Advance) <==> s.pool.caller.err == None)
  {
    hide Inv, Step, VertexOk, SomeFailed, Initial, Run.Valid, Runnable, Pool.Inv, HasTurn;
    RunInv(r, n);
    StepOf(r, b);
    HistoryStands(r, b, n);
    ReturnedPool(r.states[n]);
    Pool.ReturnedFacts(r.states[n].pool);
    forall v | v in r.states[n].bsp.vertices ensures r.states[n].bsp.vertices[v].phase in {Bsp.Done, Bsp.Failed} {
      assert VertexOk(r.states[n], v);
      Settled(r.states[n], v);
    }
    NextIff(r.states[n]);
  }

  /** The counter can be advanced if no vertex has failed. */
  lemma NextIff<M, E>(s: System<M, E>)
    requires s.pool.caller.Returned?
    requires forall v :: v in s.bsp.vertices ==> s.bsp.vertices[v].phase in {Bsp.Done, Bsp.Failed}
    ensures Enabled(s, Advance) <==> !SomeFailed(s.bsp)
  {
  }

  lemma ReturnedPool<M, E>(s: System<M, E>)
    requires Inv(s)
    ensures Pool.Inv(s.pool)
  {
    hide Pool.Inv, Linked;
  }

  lemma Settled<M, E>(s: System<M, E>, v: Id)
    requires v in s.bsp.vertices && VertexOk(s, v) && v in s.pool.history.begun && Pool.AllPolling(s.pool)
    ensures s.bsp.vertices[v].phase in {Bsp.Done, Bsp.Failed}
  {
    hide HasTurn;
  }

  /** In the middle of a superstep something can always go on, given that compute functions return. */
  lemma NoDeadlock<M, E>(r: Run<M, E>, n: nat)
    requires r.Valid() && n <= |r.actions| && !Pool.Between(r.states[n].pool)
    ensures exists a: Action<M, E> :: Enabled(r.states[n], a)
  {
    hide Step, Initial, Linked, Enabled, Pool.Inv, Pool.Between, Bsp.State.Everywhere;
    RunInv(r, n);
    var s := r.states[n];
    ReturnedPool(s);
    if i :| 0 <= i < |s.pool.workers| && s.pool.workers[i] != Pool.Polling {
      var a := GoesOn(s, i);
    } else {
      var a := CallerGoesOn(s);
    }
  }

  lemma GoesOn<M, E>(s: System<M, E>, w: nat) returns (a: Action<M, E>)
    requires Inv(s) && w < |s.pool.workers| && s.pool.workers[w] != Pool.Polling
    ensures Enabled(s, a)
  {
    hide Inv, Linked, HasTurn, Pool.Inv;
    match s.pool.workers[w]
    case Claimed(v) =>
      TurnStands(s, w);
      LookEnabled(s.bsp, v);
      a := Start(w);
    case Computing(v) =>
      Computed(s, w);
      StillRuns(s, w);
      a := Return(w, None);
    case Decrementing(v) =>
      a := Decrement(w);
    case Signalling =>
      SignalWaits(s, w);
      a := Signal(w);
  }

  lemma LookEnabled<M>(s: Bsp.State<M>, v: Id)
    requires v in s.vertices && s.vertices[v].phase == Bsp.Waiting
    ensures Bsp.Enabled(s, if HasTurn(s, v) then Bsp.Claim(v) else Bsp.Skip(v))
  {
  }

  lemma StillRuns<M, E>(s: System<M, E>, w: nat)
    requires Linked(s) && w < |s.pool.workers| && s.pool.workers[w].Computing? && s.pool.workers[w].v in s.bsp.vertices
    ensures Bsp.Runs(s.bsp, s.pool.workers[w].v)
  {
    hide HasTurn;
    assert VertexOk(s, s.pool.workers[w].v);
    WorkingAt(s.pool.workers, w, s.pool.workers[w].v);
  }

  lemma SignalWaits<M, E>(s: System<M, E>, w: nat)
    requires Inv(s) && w < |s.pool.workers| && s.pool.workers[w].Signalling?
    ensures s.pool.caller.Waiting?
  {
    hide Linked, Pool.CallerOk, Pool.ReturnOk, Pool.Placed, Pool.Counted;
  }

  lemma CallerGoesOn<M, E>(s: System<M, E>) returns (a: Action<M, E>)
    requires Inv(s) && !Pool.Between(s.pool) && Pool.AllPolling(s.pool)
    ensures Enabled(s, a)
  {
    hide Inv, Linked, Pool.Inv, Pool.Between;
    ReturnedPool(s);
    Pool.AllPollingCanReceive(s.pool);
    var b: Pool.Action<E> :| Pool.Enabled(s.pool, b);
    a := if b.Collect? then Collect else if b.Receive? then Receive(b.w, b.v) else Advance;
  }

  // ---------------------------------------------------------------- seen through the engine

  /** The engine's part of the first `n` actions. */
  ghost function EngineRun<M, E>(r: Run<M, E>, n: nat): (e: Bsp.Run<M>)
    requires r.Valid() && n <= |r.actions|
    ensures e.Shaped()
  {
    if n == 0 then Bsp.Run([r.states[0].bsp], [])
    else
      StepOf(r, n - 1);
      var e := EngineRun(r, n - 1);
      match LabelOf(r.states[n - 1], r.actions[n - 1])
      case None => e
      case Some(l) => Bsp.Run(e.states + [r.states[n].bsp], e.labels + [l])
  }

  ghost predicate Unused<M>(s: Bsp.State<M>) {
    forall v :: v in s.vertices ==> s.vertices[v].even == [] && s.vertices[v].odd == []
  }

  /** The engine's part of a run is a run of the engine. */
  lemma {:induction false} RunsEngine<M, E>(r: Run<M, E>, n: nat)
    requires r.Valid() && n <= |r.actions| && Unused(r.states[0].bsp)
    ensures var e := EngineRun(r, n);
            e.Valid() && e.states[0] == r.states[0].bsp && e.states[|e.labels|] == r.states[n].bsp
  {
    hide Bsp.Step, Step, LabelOf;
    if 0 < n {
      RunsEngine(r, n - 1);
      StepOf(r, n - 1);
      EngineSteps(r.states[n - 1], r.actions[n - 1], r.states[n]);
      EngineExtends(r, n);
    }
  }

  lemma EngineExtends<M, E>(r: Run<M, E>, n: nat)
    requires r.Valid() && 0 < n <= |r.actions| && EngineRun(r, n - 1).Valid()
    requires EngineRun(r, n - 1).states[|EngineRun(r, n - 1).labels|] == r.states[n - 1].bsp
    ensures EngineRun(r, n).Valid() && EngineRun(r, n).states[0] == EngineRun(r, n - 1).states[0]
    ensures EngineRun(r, n).states[|EngineRun(r, n).labels|] == r.states[n].bsp
  {
    hide Bsp.Step, Step, LabelOf;
    StepOf(r, n - 1);
    EngineSteps(r.states[n - 1], r.actions[n - 1], r.states[n]);
  }

  lemma SameVertices<M>(e: Bsp.Run<M>, n: nat)
    requires e.Valid() && n <= |e.labels|
    ensures e.states[n].vertices.Keys == e.states[0].vertices.Keys
  {
    hide Bsp.Step;
    if 0 < n {
      SameVertices(e, n - 1);
      assert Bsp.Step(e.states[n - 1], e.labels[n - 1], e.states[n]);
      Bsp.StepKeepsVertices(e.states[n - 1], e.labels[n - 1], e.states[n]);
    }
  }

  /** On a graph whose queues have never been used, the vertices that a superstep computes are those
      that are active and those to which something was sent in the superstep before. */
  lemma TurnIsDue<M, E>(r: Run<M, E>, b: nat, v: Id)
    requires r.Valid() && b < |r.actions| && r.actions[b].Begin? && Unused(r.states[0].bsp)
    requires v in r.states[b].bsp.vertices
    ensures var e, s := EngineRun(r, b), r.states[b].bsp;
            && e.Shaped()
            && (v in Runnable(s) <==> s.vertices[v].active || e.DueTo(|e.labels|, s.superstep, v) != multiset{})
  {
    hide Initial, EngineRun, Bsp.Apply, Bsp.Step, Bsp.Run.DueTo, Run.Valid;
    RunsEngine(r, b);
    StepOf(r, b);
    var e := EngineRun(r, b);
    SameVertices(e, |e.labels|);
    Bsp.TurnIsDecided(e, |e.labels|, v);
  }

  // ---------------------------------------------------------------- seen through the actions

  /** In action `i` a worker begins to compute `v`. */
  ghost predicate Computes<M, E>(r: Run<M, E>, i: nat, v: Id) {
    && i < |r.actions| && |r.states| == |r.actions| + 1 && r.actions[i].Start?
    && Computing(r.states[i], r.actions[i].w, r.states[i + 1], v)
  }

  ghost predicate Computing<M, E>(s: System<M, E>, w: nat, t: System<M, E>, v: Id) {
    && w < |s.pool.workers| && w < |t.pool.workers|
    && s.pool.workers[w] == Pool.Claimed(v) && t.pool.workers[w] == Pool.Computing(v)
  }

  ghost predicate Freezes<M, E>(r: Run<M, E>, i: nat, v: Id) {
    i < |r.actions| && r.actions[i].Act? && r.actions[i].step == Bsp.Freeze(v)
  }

  /** A compute function has sent something to `v` in superstep `k`, in one of the first `n` actions. */
  ghost predicate SentIn<M, E>(r: Run<M, E>, n: nat, k: int, v: Id) {
    && n <= |r.actions| <= |r.states|
    && exists i :: 0 <= i < n && r.actions[i].Act? && r.actions[i].step.Send? && r.actions[i].step.dst == v
                   && r.states[i].bsp.superstep == k
  }

  ghost predicate NeverComputed<M, E>(r: Run<M, E>, n: nat, v: Id) {
    forall i: nat :: i < n ==> !Computes(r, i, v)
  }

  ghost predicate LastComputed<M, E>(r: Run<M, E>, n: nat, v: Id, c: nat) {
    c < n && Computes(r, c, v) && forall i: nat :: c < i < n ==> !Computes(r, i, v)
  }

  ghost predicate FrozeSince<M, E>(r: Run<M, E>, n: nat, v: Id, c: nat) {
    exists i: nat :: c < i < n && Freezes(r, i, v)
  }

  /** `v` has not frozen itself since it was last computed; if it never was, it was active at the start. */
  ghost predicate Awake<M, E>(r: Run<M, E>, n: nat, v: Id)
    requires r.Valid() && v in r.states[0].bsp.vertices
  {
    if NeverComputed(r, n, v) then r.states[0].bsp.vertices[v].active
    else exists c: nat :: LastComputed(r, n, v, c) && !FrozeSince(r, n, v, c)
  }

  /** How often `v` has been computed from action `b` up to action `n`. */
  ghost function Computations<M, E>(r: Run<M, E>, b: nat, n: nat, v: Id): nat
    decreases n
  {
    if n <= b then 0 else Computations(r, b, n - 1, v) + if Computes(r, n - 1, v) then 1 else 0
  }

  /** How an action changes the activity of `v`. */
  lemma ActivityMoves<M, E>(s: System<M, E>, a: Action<M, E>, t: System<M, E>, v: Id)
    requires Inv(s) && Step(s, a, t) && v in s.bsp.vertices
    ensures v in t.bsp.vertices
    ensures t.bsp.vertices[v].active
         == if a.Start? && Computing(s, a.w, t, v) then true
            else if a.Act? && a.step == Bsp.Freeze(v) then false else s.bsp.vertices[v].active
    ensures a.Act? && a.step == Bsp.Freeze(v) ==> s.bsp.vertices[v].phase == Bsp.Computing
    ensures t.bsp.vertices[v].phase == Bsp.Computing ==>
              (a.Start? && Computing(s, a.w, t, v)) || s.bsp.vertices[v].phase == Bsp.Computing
  {
    hide Inv, Linked, Pool.Inv, Bsp.Enabled, Bsp.Apply, HasTurn, Pool.Apply;
    EngineSteps(s, a, t);
    if LabelOf(s, a).Some? {
      Bsp.ActivityMoves(s.bsp, LabelOf(s, a).value, t.bsp, v);
    }
  }

  lemma {:induction false} VerticesStay<M, E>(r: Run<M, E>, n: nat)
    requires r.Valid() && n <= |r.actions|
    ensures r.states[n].bsp.vertices.Keys == r.states[0].bsp.vertices.Keys
  {
    hide Step, Initial;
    if 0 < n {
      VerticesStay(r, n - 1);
      StepOf(r, n - 1);
      SameKeys(r.states[n - 1], r.actions[n - 1], r.states[n]);
    }
  }

  lemma {:induction false} NeverComputing<M, E>(r: Run<M, E>, n: nat, v: Id)
    requires r.Valid() && n <= |r.actions| && v in r.states[0].bsp.vertices && NeverComputed(r, n, v)
    ensures v in r.states[n].bsp.vertices && r.states[n].bsp.vertices[v].phase != Bsp.Computing
    ensures r.states[n].bsp.vertices[v].active == r.states[0].bsp.vertices[v].active
  {
    hide Step, Inv;
    if 0 < n {
      NeverComputing(r, n - 1, v);
      StepOf(r, n - 1);
      RunInv(r, n - 1);
      assert !Computes(r, n - 1, v);
      ActivityMoves(r.states[n - 1], r.actions[n - 1], r.states[n], v);
    }
  }

  lemma {:induction false} SinceComputed<M, E>(r: Run<M, E>, n: nat, v: Id, c: nat)
    requires r.Valid() && n <= |r.actions| && v in r.states[0].bsp.vertices && LastComputed(r, n, v, c)
    ensures v in r.states[n].bsp.vertices
    ensures r.states[n].bsp.vertices[v].active <==> !FrozeSince(r, n, v, c)
  {
    hide Step, Inv, Run.Valid;
    StepOf(r, n - 1);
    RunInv(r, n - 1);
    VerticesStay(r, n - 1);
    VerticesStay(r, n);
    ActivityMoves(r.states[n - 1], r.actions[n - 1], r.states[n], v);
    if c < n - 1 {
      assert !Computes(r, n - 1, v);
      assert LastComputed(r, n - 1, v, c);
      SinceComputed(r, n - 1, v, c);
      assert FrozeSince(r, n, v, c) <==> FrozeSince(r, n - 1, v, c) || Freezes(r, n - 1, v);
    }
  }

  lemma {:induction false} SomeLastComputed<M, E>(r: Run<M, E>, n: nat, v: Id) returns (c: nat)
    requires !NeverComputed(r, n, v)
    ensures LastComputed(r, n, v, c)
  {
    if Computes(r, n - 1, v) {
      c := n - 1;
    } else {
      assert !NeverComputed(r, n - 1, v);
      c := SomeLastComputed(r, n - 1, v);
    }
  }

  /** The flag that a worker looks at says whether the vertex is awake. */
  lemma AwakeIff<M, E>(r: Run<M, E>, n: nat, v: Id)
    requires r.Valid() && n <= |r.actions| && v in r.states[0].bsp.vertices
    ensures v in r.states[n].bsp.vertices && (r.states[n].bsp.vertices[v].active <==> Awake(r, n, v))
  {
    hide Run.Valid, NeverComputed, LastComputed, FrozeSince;
    if NeverComputed(r, n, v) {
      NeverComputing(r, n, v);
    } else {
      var c := SomeLastComputed(r, n, v);
      SinceComputed(r, n, v, c);
      forall d: nat | LastComputed(r, n, v, d) ensures d == c {
        OneLast(r, n, v, c, d);
      }
    }
  }

  lemma OneLast<M, E>(r: Run<M, E>, n: nat, v: Id, c: nat, d: nat)
    requires LastComputed(r, n, v, c) && LastComputed(r, n, v, d)
    ensures c == d
  {
    hide Computes;
  }

  // what has been sent

  lemma {:induction false} SentPrefix<M>(e: Bsp.Run<M>, x: Bsp.State<M>, l: Bsp.Label<M>, m: nat, k: nat, v: Id)
    requires e.Shaped() && m <= |e.labels|
    ensures Bsp.Run(e.states + [x], e.labels + [l]).SentTo(m, k, v) == e.SentTo(m, k, v)
  {
    if 0 < m {
      SentPrefix(e, x, l, m - 1, k, v);
    }
  }

  /** What the engine's account of superstep `k` has for `v` is what compute functions have sent. */
  lemma {:induction false} SentIff<M, E>(r: Run<M, E>, n: nat, k: nat, v: Id)
    requires r.Valid() && n <= |r.actions| && Unused(r.states[0].bsp)
    ensures EngineRun(r, n).SentTo(|EngineRun(r, n).labels|, k, v) != multiset{} <==> SentIn(r, n, k, v)
  {
    hide Step, Initial, Bsp.Run.Valid, Unused;
    if 0 < n {
      SentIff(r, n - 1, k, v);
      StepOf(r, n - 1);
      RunsEngine(r, n - 1);
      SentOne(r, n, k, v);
    }
  }

  lemma SentLast<M>(e: Bsp.Run<M>, x: Bsp.State<M>, l: Bsp.Label<M>, k: nat, v: Id)
    requires e.Shaped()
    ensures Bsp.Run(e.states + [x], e.labels + [l]).SentTo(|e.labels| + 1, k, v)
         == e.SentTo(|e.labels|, k, v) + if e.states[|e.labels|].superstep == k then Bsp.SentBy(l, v) else multiset{}
  {
    hide Bsp.SentBy;
    SentPrefix(e, x, l, |e.labels|, k, v);
  }

  lemma SendsOf<M, E>(s: System<M, E>, a: Action<M, E>, t: System<M, E>, v: Id)
    requires Step(s, a, t)
    ensures LabelOf(s, a).Some? && Bsp.SentBy(LabelOf(s, a).value, v) != multiset{} <==>
              a.Act? && a.step.Send? && a.step.dst == v
  {
    hide Bsp.Enabled, Bsp.Apply, Pool.Enabled, Pool.Apply, Pool.Started, HasTurn;
  }

  lemma SentOne<M, E>(r: Run<M, E>, n: nat, k: nat, v: Id)
    requires r.Valid() && 0 < n <= |r.actions|
    requires EngineRun(r, n - 1).states[|EngineRun(r, n - 1).labels|] == r.states[n - 1].bsp
    ensures EngineRun(r, n).SentTo(|EngineRun(r, n).labels|, k, v) != multiset{} <==>
              || EngineRun(r, n - 1).SentTo(|EngineRun(r, n - 1).labels|, k, v) != multiset{}
              || (&& r.actions[n - 1].Act? && r.actions[n - 1].step.Send? && r.actions[n - 1].step.dst == v
                  && r.states[n - 1].bsp.superstep == k)
  {
    hide Run.Valid, PoolEnabled, PoolAfter, LabelOf, Bsp.Enabled, Bsp.Apply, Bsp.SentBy, Bsp.Run.SentTo;
    StepOf(r, n - 1);
    SendsOf(r.states[n - 1], r.actions[n - 1], r.states[n], v);
    var e := EngineRun(r, n - 1);
    if LabelOf(r.states[n - 1], r.actions[n - 1]).Some? {
      SentLast(e, r.states[n].bsp, LabelOf(r.states[n - 1], r.actions[n - 1]).value, k, v);
    }
  }

  /** The vertices that a superstep is about to compute, in terms of what has happened. */
  lemma RunnableIff<M, E>(r: Run<M, E>, b: nat, v: Id)
    requires r.Valid() && b < |r.actions| && r.actions[b].Begin? && Unused(r.states[0].bsp)
    requires v in r.states[0].bsp.vertices
    ensures v in r.states[b].bsp.vertices
    ensures v in Runnable(r.states[b].bsp) <==> Awake(r, b, v) || SentIn(r, b, r.states[b].bsp.superstep - 1, v)
  {
    hide Run.Valid, Step, EngineRun, Awake, Runnable, Unused, SentIn;
    AwakeIff(r, b, v);
    TurnIsDue(r, b, v);
    StepOf(r, b);
    var k := r.states[b].bsp.superstep;
    if 0 < k {
      SentIff(r, b, k - 1, v);
    } else {
      NothingSentBefore(r, b, v);
    }
  }

  lemma NothingSentBefore<M, E>(r: Run<M, E>, n: nat, v: Id)
    ensures !SentIn(r, n, -1, v)
  {
  }

  // what has been computed

  /** The pool counts a vertex as computed when a worker begins to compute it. */
  lemma ComputedMoves<M, E>(s: System<M, E>, a: Action<M, E>, t: System<M, E>, v: Id)
    requires Inv(s) && Step(s, a, t)
    ensures a.Begin? ==> t.pool.history.computed == multiset{}
    ensures !a.Begin? ==>
              t.pool.history.computed[v]
              == s.pool.history.computed[v] + if a.Start? && Computing(s, a.w, t, v) then 1 else 0
  {
    hide Inv, Linked, Pool.Inv, Bsp.Enabled, Bsp.Apply, HasTurn;
  }

  lemma {:induction false} ComputedCount<M, E>(r: Run<M, E>, b: nat, n: nat, v: Id)
    requires r.Valid() && n <= |r.actions| && SameSuperstep(r, b, n)
    ensures r.states[n].pool.history.computed[v] == Computations(r, b, n, v)
    decreases n
  {
    hide Step, Inv, Run.Valid;
    StepOf(r, n - 1);
    RunInv(r, n - 1);
    ComputedMoves(r.states[n - 1], r.actions[n - 1], r.states[n], v);
    if b < n - 1 {
      ComputedCount(r, b, n - 1, v);
    }
  }

  /** The barrier in terms of what has happened: on a graph whose queues have never been used, a
      superstep that has returned has computed a vertex once if it had not frozen itself since it was
      last computed, or if something was sent to it in the superstep before, and else not at all. */
  lemma ComputedIff<M, E>(r: Run<M, E>, b: nat, n: nat, v: Id)
    requires r.Valid() && n <= |r.actions| && SameSuperstep(r, b, n) && r.states[n].pool.caller.Returned?
    requires Unused(r.states[0].bsp) && v in r.states[0].bsp.vertices
    ensures Computations(r, b, n, v)
         == if Awake(r, b, v) || SentIn(r, b, r.states[b].bsp.superstep - 1, v) then 1 else 0
  {
    hide Run.Valid, Step, Awake, Runnable, Unused, SentIn, SomeFailed, Enabled;
    Barrier(r, b, n);
    ComputedCount(r, b, n, v);
    RunnableIff(r, b, v);
  }

  /** A vertex that froze itself when it was last computed, and to which nothing was sent in the
      superstep before, is not computed. */
  lemma FrozenIsSkipped<M, E>(r: Run<M, E>, b: nat, n: nat, v: Id, c: nat)
    requires r.Valid() && n <= |r.actions| && SameSuperstep(r, b, n) && r.states[n].pool.caller.Returned?
    requires Unused(r.states[0].bsp) && v in r.states[0].bsp.vertices
    requires LastComputed(r, b, v, c) && FrozeSince(r, b, v, c)
    requires !SentIn(r, b, r.states[b].bsp.superstep - 1, v)
    ensures Computations(r, b, n, v) == 0 && v !in r.states[n].pool.history.computed
  {
    hide Run.Valid, Step, Unused, SentIn, Computes, FrozeSince;
    ComputedIff(r, b, n, v);
    ComputedCount(r, b, n, v);
    forall d: nat | LastComputed(r, b, v, d) ensures d == c {
      OneLast(r, b, v, c, d);
    }
  }
}
