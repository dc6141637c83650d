/** The worker pool that executes a superstep: the caller hands the vertices out one at a time over
    an unbuffered channel, and the worker that brings the pending counter to zero signals
    completion. A run of the machine is an arbitrary interleaving over any number of supersteps. */
module WorkerPool {
  import opened Ids
  import opened Options

  datatype Worker =
    | Polling               // blocked on the vertex channel
    | Claimed(v: Id)        // has received a vertex
    | Computing(v: Id)
    | Decrementing(v: Id)   // about to decrement the pending counter
    | Signalling            // blocked on the completion channel
  {
    predicate Busy() { Claimed? || Computing? || Decrementing? }

    /** The number of actions before the worker polls again, at most. */
    function Work(): nat {
      match this
      case Polling => 0
      case Claimed(_) => 4
      case Computing(_) => 3
      case Decrementing(_) => 2
      case Signalling => 1
    }
  }

  datatype Caller<E> =
    | Idle
    | Dispatching(rest: set<Id>)
    | Waiting
    | Collecting
    | Returned(active: nat, err: Option<E>)

  /** What has happened in the current superstep: the vertices it is about and which of them are
      active or have messages, the ones the counter still stands for, the ones a worker has looked
      at, how often each was computed or skipped, the errors in the order they came up, and how many
      completion signals were sent. */
  datatype History<E> = History(
    vertices: set<Id>,
    runnable: set<Id>,
    undone: set<Id>,
    begun: set<Id>,
    computed: multiset<Id>,
    skipped: multiset<Id>,
    errors: seq<E>,
    signals: nat)

  datatype Pool<E> = Pool(
    workers: seq<Worker>,
    caller: Caller<E>,
    pending: int,
    active: nat,
    errCh: Option<E>,
    history: History<E>)
  {
    function With(w: nat, x: Worker): Pool<E>
      requires w < |workers|
    {
      this.(workers := workers[w := x])
    }
  }

  datatype Action<E> =
    | Begin(vertices: set<Id>, runnable: set<Id>)
    | Receive(w: nat, v: Id)
    | Start(w: nat)
    | Return(w: nat, failure: Option<E>)
    | Decrement(w: nat)
    | Signal(w: nat)
    | Collect

  ghost predicate Between<E>(p: Pool<E>) {
    p.caller.Idle? || p.caller.Returned?
  }

  ghost predicate Enabled<E>(p: Pool<E>, a: Action<E>) {
    match a
    case Begin(vertices, runnable) => Between(p) && runnable <= vertices
    case Receive(w, v) =>
      w < |p.workers| && p.workers[w].Polling? && p.caller.Dispatching? && v in p.caller.rest
    case Start(w) => w < |p.workers| && p.workers[w].Claimed?
    case Return(w, _) => w < |p.workers| && p.workers[w].Computing?
    case Decrement(w) => w < |p.workers| && p.workers[w].Decrementing?
    case Signal(w) => w < |p.workers| && p.workers[w].Signalling? && p.caller.Waiting?
    case Collect => p.caller.Collecting?
  }

  ghost function First<E>(s: seq<E>): Option<E> {
    if s == [] then None else Some(s[0])
  }

  /** The worker computes the vertex it has received, if it is the vertex's turn, or skips it. */
  ghost function Started<E>(p: Pool<E>, w: nat, turn: bool): Pool<E>
    requires w < |p.workers| && p.workers[w].Claimed?
  {
    var h, v := p.history, p.workers[w].v;
    if turn
    then p.With(w, Computing(v)).(active := p.active + 1,
                                  history := h.(begun := h.begun + {v}, computed := h.computed + multiset{v}))
    else p.With(w, Decrementing(v)).(history := h.(begun := h.begun + {v}, skipped := h.skipped + multiset{v}))
  }

  ghost function Apply<E>(p: Pool<E>, a: Action<E>): Pool<E>
    requires Enabled(p, a)
  {
    var h := p.history;
    match a
    case Begin(vertices, runnable) =>
      var begun := p.(pending := |vertices|, active := 0,
                      history := History(vertices, runnable, vertices, {}, multiset{}, multiset{}, [], 0));
      if vertices == {} then begun.(caller := Returned(0, None)) else begun.(caller := Dispatching(vertices))
    case Receive(w, v) =>
      var rest := p.caller.rest - {v};
      p.With(w, Claimed(v)).(caller := if rest == {} then Waiting else Dispatching(rest))
    case Start(w) => Started(p, w, p.workers[w].v in h.runnable)
    case Return(w, None) => p.With(w, Decrementing(p.workers[w].v))
    case Return(w, Some(e)) =>
      // the channel holds one error; later ones are dropped
      p.With(w, Decrementing(p.workers[w].v)).(errCh := if p.errCh == None then Some(e) else p.errCh,
                                               history := h.(errors := h.errors + [e]))
    case Decrement(w) =>
      p.With(w, if p.pending - 1 == 0 then Signalling else Polling).(
        pending := p.pending - 1, history := h.(undone := h.undone - {p.workers[w].v}))
    case Signal(w) => p.With(w, Polling).(caller := Collecting, history := h.(signals := h.signals + 1))
    case Collect => p.(caller := Returned(p.active, p.errCh), errCh := None)
  }

  ghost predicate Step<E>(p: Pool<E>, a: Action<E>, q: Pool<E>) {
    Enabled(p, a) && q == Apply(p, a)
  }

  ghost predicate Initial<E>(p: Pool<E>) {
    && |p.workers| >= 1
    && (forall i :: 0 <= i < |p.workers| ==> p.workers[i] == Polling)
    && p.caller == Idle && p.errCh == None
  }

  // ---------------------------------------------------------------- the invariant

  ghost predicate AllPolling<E>(p: Pool<E>) {
    forall i :: 0 <= i < |p.workers| ==> p.workers[i] == Polling
  }

  ghost predicate Holds(workers: seq<Worker>, i: int, v: Id) {
    0 <= i < |workers| && workers[i].Busy() && workers[i].v == v
  }

  /** The vertices that have not been handed out yet. */
  ghost function Rest<E>(p: Pool<E>): set<Id> {
    if p.caller.Dispatching? then p.caller.rest else {}
  }

  ghost predicate Handed<E>(p: Pool<E>) {
    Rest(p) <= p.history.undone && Rest(p) !! p.history.begun
  }

  ghost predicate HeldOk<E>(p: Pool<E>, x: Worker) {
    x.Busy() ==>
      && x.v in p.history.undone && x.v !in Rest(p)
      && (x.v in p.history.begun <==> !x.Claimed?)
      && (x.Computing? ==> x.v in p.history.runnable)
  }

  ghost predicate Carried<E>(p: Pool<E>) {
    forall i :: 0 <= i < |p.workers| ==> HeldOk(p, p.workers[i])
  }

  /** No two workers hold the same vertex. */
  ghost predicate Distinct(workers: seq<Worker>) {
    forall i, j :: 0 <= i < j < |workers| && workers[i].Busy() && workers[j].Busy() ==> workers[i].v != workers[j].v
  }

  /** Every vertex the counter stands for is waiting to be handed out or held by a worker. */
  ghost predicate Covered<E>(p: Pool<E>) {
    forall v :: v in p.history.undone && v !in Rest(p) ==> exists i :: Holds(p.workers, i, v)
  }

  ghost predicate Placed<E>(p: Pool<E>) {
    Handed(p) && Carried(p) && Distinct(p.workers) && Covered(p)
  }

  ghost predicate Counted<E>(p: Pool<E>) {
    var h := p.history;
    && h.undone <= h.vertices && h.runnable <= h.vertices && h.begun <= h.vertices
    && h.vertices - h.undone <= h.begun
    && p.pending == |h.undone|
    && h.computed == multiset(h.begun * h.runnable) && h.skipped == multiset(h.begun - h.runnable)
    && p.active == |h.computed|
  }

  ghost predicate SomeSignalling(workers: seq<Worker>) {
    exists i :: 0 <= i < |workers| && workers[i].Signalling?
  }

  /** At most one worker signals, and only after the last vertex is accounted for. */
  ghost predicate SignalOk<E>(p: Pool<E>) {
    && (forall i :: 0 <= i < |p.workers| && p.workers[i].Signalling? ==> p.caller.Waiting? && p.history.undone == {})
    && (forall i, j :: 0 <= i < j < |p.workers| ==> !(p.workers[i].Signalling? && p.workers[j].Signalling?))
    && (p.caller.Waiting? && p.history.undone == {} ==> SomeSignalling(p.workers))
  }

  ghost predicate CallerOk<E>(p: Pool<E>) {
    && (p.caller.Dispatching? ==> p.caller.rest != {})
    && (p.caller.Dispatching? || p.caller.Waiting? ==> p.history.signals == 0)
    && (p.caller.Collecting? || Between(p) ==> AllPolling(p))
    && (p.caller.Collecting? ==> p.history.undone == {} && p.history.signals == 1)
  }

  ghost predicate ReturnOk<E>(p: Pool<E>) {
    && (Between(p) ==> p.errCh == None)
    && (!Between(p) ==> p.errCh == First(p.history.errors) && p.history.vertices != {})
    && (p.caller.Returned? ==>
          && p.history.undone == {} && p.history.signals == (if p.history.vertices == {} then 0 else 1)
          && p.caller.active == p.active && p.caller.err == First(p.history.errors))
  }

  ghost predicate Inv<E>(p: Pool<E>) {
    && |p.workers| >= 1
    && SignalOk(p) && CallerOk(p) && ReturnOk(p)
    && (!p.caller.Idle? ==> Placed(p) && Counted(p))
  }

  lemma InitialInv<E>(p: Pool<E>)
    requires Initial(p)
    ensures Inv(p)
  {
  }

  lemma HandedStep<E>(p: Pool<E>, a: Action<E>, q: Pool<E>)
    requires Step(p, a, q) && !q.caller.Idle? && (!p.caller.Idle? ==> Handed(p) && Carried(p))
    requires CallerOk(p)
    ensures Handed(q)
  {
    if !a.Begin? && !a.Collect? {
      assert HeldOk(p, p.workers[a.w]);
    }
  }

  lemma CarriedStep<E>(p: Pool<E>, a: Action<E>, q: Pool<E>)
    requires Step(p, a, q) && !q.caller.Idle? && CallerOk(p)
    requires !p.caller.Idle? ==> Handed(p) && Carried(p) && Distinct(p.workers)
    ensures Carried(q)
  {
    if !a.Begin? && !a.Collect? {
      forall i | 0 <= i < |q.workers| ensures HeldOk(q, q.workers[i]) {
        assert HeldOk(p, p.workers[i]) && HeldOk(p, p.workers[a.w]);
        if i != a.w {
          assert q.workers[i] == p.workers[i];
          assert p.workers[i].Busy() && p.workers[a.w].Busy() ==> p.workers[i].v != p.workers[a.w].v;
        }
      }
    }
  }

  lemma DistinctStep<E>(p: Pool<E>, a: Action<E>, q: Pool<E>)
    requires Step(p, a, q) && !q.caller.Idle? && CallerOk(p)
    requires !p.caller.Idle? ==> Handed(p) && Carried(p) && Distinct(p.workers)
    ensures Distinct(q.workers)
  {
    if a.Receive? {
      forall i | 0 <= i < |p.workers| ensures HeldOk(p, p.workers[i]) {
      }
    }
  }

  /** A worker's action changes that worker only, and the vertex it holds stays the same. */
  lemma WorkerMoves<E>(p: Pool<E>, a: Action<E>, q: Pool<E>)
    requires Step(p, a, q) && !a.Begin? && !a.Collect?
    ensures a.w < |p.workers| == |q.workers| && q.workers == p.workers[a.w := q.workers[a.w]]
    ensures p.workers[a.w].Busy() <==> a.Start? || a.Return? || a.Decrement?
    ensures a.Start? || a.Return? ==> q.workers[a.w].Busy() && q.workers[a.w].v == p.workers[a.w].v
    ensures a.Receive? ==> q.workers[a.w] == Claimed(a.v)
    ensures a.Decrement? ==> q.history.undone == p.history.undone - {p.workers[a.w].v}
  {
  }

  /** A vertex that stays undone keeps its holder. */
  lemma HolderStays<E>(p: Pool<E>, a: Action<E>, q: Pool<E>, v: Id, i: int)
    requires Step(p, a, q) && !a.Begin? && Holds(p.workers, i, v) && v in q.history.undone
    ensures Holds(q.workers, i, v)
  {
    if a.Collect? {
      assert q.workers == p.workers;
    } else {
      hide Step;
      WorkerMoves(p, a, q);
    }
  }

  lemma ReceiveHolds<E>(p: Pool<E>, a: Action<E>, q: Pool<E>)
    requires Step(p, a, q) && a.Receive?
    ensures Holds(q.workers, a.w, a.v)
  {
  }

  lemma UncoveredBefore<E>(p: Pool<E>, a: Action<E>, q: Pool<E>, v: Id)
    requires Step(p, a, q) && v in q.history.undone && v !in Rest(q)
    ensures !a.Begin? && v in p.history.undone && (v !in Rest(p) || (a.Receive? && v == a.v))
  {
  }

  lemma CoveredStep<E>(p: Pool<E>, a: Action<E>, q: Pool<E>)
    requires Step(p, a, q) && !q.caller.Idle? && (!p.caller.Idle? ==> Covered(p))
    ensures Covered(q)
  {
    hide Step, Rest, Holds, Enabled;
    if !a.Begin? {
      NotIdle(p, a, q);
      forall v | v in q.history.undone && v !in Rest(q) ensures exists i :: Holds(q.workers, i, v) {
        UncoveredBefore(p, a, q, v);
        if a.Receive? && v == a.v {
          ReceiveHolds(p, a, q);
          assert Holds(q.workers, a.w, v);
        } else {
          var i :| Holds(p.workers, i, v);
          HolderStays(p, a, q, v, i);
        }
      }
    } else {
      BeginRests(p, a, q);
    }
  }

  lemma BeginRests<E>(p: Pool<E>, a: Action<E>, q: Pool<E>)
    requires Step(p, a, q) && a.Begin?
    ensures Rest(q) == q.history.undone
  {
  }

  lemma NotIdle<E>(p: Pool<E>, a: Action<E>, q: Pool<E>)
    requires Step(p, a, q) && !a.Begin? && !q.caller.Idle?
    ensures !p.caller.Idle?
  {
  }

  /** What each action adds to the account of the superstep. */
  lemma HistoryMoves<E>(p: Pool<E>, a: Action<E>, q: Pool<E>)
    requires Step(p, a, q) && !a.Begin?
    ensures q.history.vertices == p.history.vertices && q.history.runnable == p.history.runnable
    ensures !a.Decrement? ==> q.history.undone == p.history.undone && q.pending == p.pending
    ensures a.Decrement? ==> a.w < |p.workers| && p.workers[a.w].Decrementing? && q.pending == p.pending - 1
                             && q.history.undone == p.history.undone - {p.workers[a.w].v}
    ensures !a.Start? ==> && q.history.begun == p.history.begun && q.history.computed == p.history.computed
                          && q.history.skipped == p.history.skipped && q.active == p.active
    ensures a.Start? ==> a.w < |p.workers| && p.workers[a.w].Claimed?
  {
  }

  lemma StartMoves<E>(p: Pool<E>, a: Action<E>, q: Pool<E>)
    requires Step(p, a, q) && a.Start?
    ensures a.w < |p.workers| && p.workers[a.w].Claimed? && q.history.begun == p.history.begun + {p.workers[a.w].v}
    ensures p.workers[a.w].v in p.history.runnable ==>
              && q.history.computed == p.history.computed + multiset{p.workers[a.w].v}
              && q.history.skipped == p.history.skipped && q.active == p.active + 1
    ensures p.workers[a.w].v !in p.history.runnable ==>
              && q.history.computed == p.history.computed && q.active == p.active
              && q.history.skipped == p.history.skipped + multiset{p.workers[a.w].v}
  {
  }

  lemma CountedStep<E>(p: Pool<E>, a: Action<E>, q: Pool<E>)
    requires Step(p, a, q) && !a.Begin? && Counted(p) && Carried(p)
    ensures Counted(q)
  {
    hide Step;
    HistoryMoves(p, a, q);
    if a.Decrement? {
      assert HeldOk(p, p.workers[a.w]);
    } else if a.Start? {
      assert HeldOk(p, p.workers[a.w]);
      StartMoves(p, a, q);
      BegunOne(p.history, p.workers[a.w].v);
    }
  }

  lemma CountedBegin<E>(p: Pool<E>, a: Action<E>, q: Pool<E>)
    requires Step(p, a, q) && a.Begin?
    ensures Counted(q)
  {
  }

  lemma BegunOne<E>(h: History<E>, v: Id)
    requires v !in h.begun
    ensures multiset((h.begun + {v}) * h.runnable)
         == multiset(h.begun * h.runnable) + if v in h.runnable then multiset{v} else multiset{}
    ensures multiset((h.begun + {v}) - h.runnable)
         == multiset(h.begun - h.runnable) + if v in h.runnable then multiset{} else multiset{v}
  {
    assert (h.begun + {v}) * h.runnable == h.begun * h.runnable + if v in h.runnable then {v} else {};
    assert (h.begun + {v}) - h.runnable == (h.begun - h.runnable) + if v in h.runnable then {} else {v};
  }

  /** The counter reaches zero exactly when the last vertex is accounted for. */
  lemma LastDecrement<E>(p: Pool<E>, a: Action<E>, q: Pool<E>)
    requires Step(p, a, q) && a.Decrement? && Counted(p) && Carried(p)
    ensures q.workers == p.workers[a.w := if q.history.undone == {} then Signalling else Polling]
    ensures q.caller == p.caller && p.history.undone != {}
    ensures p.workers[a.w].v in p.history.undone && q.history.undone == p.history.undone - {p.workers[a.w].v}
  {
    assert HeldOk(p, p.workers[a.w]);
    assert |q.history.undone| == p.pending - 1;
  }

  lemma SignalDecrement<E>(p: Pool<E>, a: Action<E>, q: Pool<E>)
    requires Step(p, a, q) && a.Decrement? && SignalOk(p) && CallerOk(p) && Counted(p) && Handed(p) && Carried(p)
    ensures SignalOk(q)
  {
    hide Step, Counted, Carried;
    LastDecrement(p, a, q);
    HandedAfter(p, a, q);
    if q.history.undone == {} {
      assert q.workers[a.w].Signalling?;
    }
  }

  lemma HandedAfter<E>(p: Pool<E>, a: Action<E>, q: Pool<E>)
    requires Step(p, a, q) && a.Decrement? && CallerOk(p) && Handed(p) && Carried(p)
    ensures a.w < |p.workers| && p.workers[a.w].Busy() && !Between(p) && !p.caller.Collecting?
    ensures q.history.undone == {} ==> p.caller.Waiting?
  {
    assert HeldOk(p, p.workers[a.w]);
  }

  lemma QuietWorker<E>(p: Pool<E>, a: Action<E>, q: Pool<E>)
    requires Step(p, a, q) && (a.Receive? || a.Start? || a.Return?)
    ensures a.w < |p.workers| == |q.workers| && q.workers == p.workers[a.w := q.workers[a.w]]
    ensures !p.workers[a.w].Signalling? && !q.workers[a.w].Signalling?
    ensures q.history.undone == p.history.undone
    ensures q.caller == p.caller || (p.caller.Dispatching? && a.Receive? && a.v in p.caller.rest)
  {
  }

  lemma SignalQuiet<E>(p: Pool<E>, a: Action<E>, q: Pool<E>)
    requires Step(p, a, q) && (a.Receive? || a.Start? || a.Return?) && SignalOk(p)
    requires !p.caller.Idle? ==> Handed(p)
    ensures SignalOk(q)
  {
    hide Step;
    QuietWorker(p, a, q);
    if q.caller.Waiting? && q.history.undone == {} {
      var i :| 0 <= i < |p.workers| && p.workers[i].Signalling?;
      assert q.workers[i].Signalling?;
    }
  }

  lemma SignalCaller<E>(p: Pool<E>, a: Action<E>, q: Pool<E>)
    requires Step(p, a, q) && (a.Begin? || a.Signal? || a.Collect?) && SignalOk(p) && CallerOk(p)
    ensures SignalOk(q)
  {
  }

  lemma CallerStep<E>(p: Pool<E>, a: Action<E>, q: Pool<E>)
    requires Step(p, a, q) && SignalOk(p) && CallerOk(p) && (!p.caller.Idle? ==> Placed(p))
    ensures CallerOk(q)
  {
    if a.Signal? {
      forall i | 0 <= i < |p.workers| ensures q.workers[i] == Polling {
        assert HeldOk(p, p.workers[i]);
      }
    }
  }

  /** The caller can only be between supersteps while all workers poll. */
  lemma WorkersActWithin<E>(p: Pool<E>, a: Action<E>, q: Pool<E>)
    requires Step(p, a, q) && CallerOk(p) && !a.Begin? && !a.Collect?
    ensures !Between(p) && !p.caller.Collecting? && !Between(q)
    ensures |q.workers| == |p.workers| && q.history.vertices == p.history.vertices
    ensures q.history.errors
         == p.history.errors + if a.Return? && a.failure.Some? then [a.failure.value] else []
    ensures q.errCh == if a.Return? && a.failure.Some? && p.errCh == None then a.failure else p.errCh
  {
    hide Placed, Counted, SignalOk, ReturnOk;
  }

  lemma ReturnWithin<E>(p: Pool<E>, a: Action<E>, q: Pool<E>)
    requires Step(p, a, q) && CallerOk(p) && ReturnOk(p) && !a.Begin? && !a.Collect?
    ensures ReturnOk(q)
  {
    hide Step, CallerOk;
    WorkersActWithin(p, a, q);
    assert a.Return? && a.failure.Some? && p.errCh == None ==> p.history.errors == [];
  }

  lemma ReturnBetween<E>(p: Pool<E>, a: Action<E>, q: Pool<E>)
    requires Step(p, a, q) && CallerOk(p) && ReturnOk(p) && (a.Begin? || a.Collect?)
    ensures ReturnOk(q) && |q.workers| == |p.workers|
  {
    hide AllPolling;
  }

  lemma ReturnStep<E>(p: Pool<E>, a: Action<E>, q: Pool<E>)
    requires Step(p, a, q) && CallerOk(p) && ReturnOk(p)
    ensures ReturnOk(q) && |q.workers| == |p.workers|
  {
    hide Step, CallerOk, ReturnOk;
    if a.Begin? || a.Collect? {
      ReturnBetween(p, a, q);
    } else {
      WorkersActWithin(p, a, q);
      ReturnWithin(p, a, q);
    }
  }

  /** Every interleaving keeps the invariant. */
  lemma InvStep<E>(p: Pool<E>, a: Action<E>, q: Pool<E>)
    requires Inv(p) && Step(p, a, q)
    ensures Inv(q)
  {
    hide Step, Handed, Carried, Distinct, Covered, Counted, SignalOk, CallerOk, ReturnOk;
    IdleStays(p, a, q);
    if !q.caller.Idle? {
      HandedStep(p, a, q);
      CarriedStep(p, a, q);
      DistinctStep(p, a, q);
      CoveredStep(p, a, q);
      if a.Begin? {
        CountedBegin(p, a, q);
      } else {
        NotIdle(p, a, q);
        CountedStep(p, a, q);
      }
    }
    if a.Decrement? {
      StepOfWorker(p, a, q);
      SignalDecrement(p, a, q);
    } else if a.Begin? || a.Signal? || a.Collect? {
      SignalCaller(p, a, q);
    } else {
      SignalQuiet(p, a, q);
    }
    CallerStep(p, a, q);
    ReturnStep(p, a, q);
  }

  lemma StepOfWorker<E>(p: Pool<E>, a: Action<E>, q: Pool<E>)
    requires Step(p, a, q) && a.Decrement? && CallerOk(p)
    ensures !p.caller.Idle?
  {
  }

  lemma IdleStays<E>(p: Pool<E>, a: Action<E>, q: Pool<E>)
    requires Step(p, a, q)
    ensures q.caller.Idle? ==> p.caller.Idle?
  {
  }

  // ---------------------------------------------------------------- whole runs

  datatype Run<E> = Run(states: seq<Pool<E>>, actions: seq<Action<E>>) {
    ghost predicate Valid() {
      && |states| == |actions| + 1 && Initial(states[0])
      && forall i :: 0 <= i < |actions| ==> Step(states[i], actions[i], states[i + 1])
    }
  }

  lemma {:induction false} RunInv<E>(r: Run<E>, n: nat)
    requires r.Valid() && n <= |r.actions|
    ensures Inv(r.states[n])
  {
    hide Inv, Step, Initial;
    if n == 0 {
      InitialInv(r.states[0]);
    } else {
      RunInv(r, n - 1);
      assert Step(r.states[n - 1], r.actions[n - 1], r.states[n]);
      InvStep(r.states[n - 1], r.actions[n - 1], r.states[n]);
    }
  }

  lemma AllBegun<E>(p: Pool<E>)
    requires Counted(p) && p.history.undone == {}
    ensures p.history.begun == p.history.vertices && p.pending == 0
    ensures p.history.computed == multiset(p.history.runnable) && p.active == |p.history.runnable|
    ensures p.history.skipped == multiset(p.history.vertices - p.history.runnable)
  {
    assert p.history.begun == p.history.vertices;
    assert p.history.begun * p.history.runnable == p.history.runnable;
  }

  lemma ReturnedFacts<E>(p: Pool<E>)
    requires Inv(p) && p.caller.Returned?
    ensures p.history.computed == multiset(p.history.runnable)
    ensures p.history.skipped == multiset(p.history.vertices - p.history.runnable)
    ensures p.caller.active == |p.history.runnable|
    ensures p.caller.err == First(p.history.errors)
    ensures p.history.signals == (if p.history.vertices == {} then 0 else 1)
    ensures p.history.begun == p.history.vertices && p.pending == 0 && p.errCh == None && AllPolling(p)
  {
    hide Placed, SignalOk, AllPolling;
    AllBegun(p);
  }

  /** When a superstep returns, in whatever order the workers ran: every vertex that is active or has
      messages was computed exactly once and every other vertex skipped exactly once, the count of
      active vertices is right, an error is returned if and only if some compute or discard failed
      in this superstep, and it is the first one; all workers are polling again and no error stays
      behind for the next superstep. */
  lemma Barrier<E>(r: Run<E>, n: nat)
    requires r.Valid() && n <= |r.actions| && r.states[n].caller.Returned?
    ensures var p := r.states[n];
            && p.history.computed == multiset(p.history.runnable)
            && p.history.skipped == multiset(p.history.vertices - p.history.runnable)
            && p.caller.active == |p.history.runnable|
            && (p.caller.err.Some? <==> p.history.errors != [])
            && (p.caller.err.Some? ==> p.caller.err.value == p.history.errors[0])
            && p.history.signals == (if p.history.vertices == {} then 0 else 1)
            && p.pending == 0 && p.errCh == None && AllPolling(p)
  {
    hide Step, Initial, Inv, AllPolling;
    RunInv(r, n);
    ReturnedFacts(r.states[n]);
  }

  /** Completion is signalled only after the last vertex is done, with all other workers polling. */
  lemma SignalAfterLast<E>(r: Run<E>, n: nat)
    requires r.Valid() && n < |r.actions| && r.actions[n].Signal?
    ensures var p := r.states[n];
            && p.history.computed == multiset(p.history.runnable)
            && p.history.skipped == multiset(p.history.vertices - p.history.runnable)
            && p.pending == 0 && p.history.signals == 0
            && forall i :: 0 <= i < |p.workers| && i != r.actions[n].w ==> p.workers[i] == Polling
  {
    hide Initial;
    RunInv(r, n);
    var p := r.states[n];
    assert Step(p, r.actions[n], r.states[n + 1]);
    AllBegun(p);
    forall i | 0 <= i < |p.workers| && i != r.actions[n].w ensures p.workers[i] == Polling {
      assert HeldOk(p, p.workers[i]);
    }
  }

  /** A worker only ever decrements the counter of the superstep that gave it its vertex: none is
      left over from an earlier superstep when the next one begins. */
  lemma NoLateDecrement<E>(r: Run<E>, n: nat)
    requires r.Valid() && n < |r.actions| && r.actions[n].Decrement?
    ensures var p := r.states[n];
            && r.actions[n].w < |p.workers| && p.workers[r.actions[n].w].Decrementing?
            && (p.caller.Dispatching? || p.caller.Waiting?)
            && p.workers[r.actions[n].w].v in p.history.undone * p.history.begun
            && p.pending >= 1
  {
    hide Initial;
    RunInv(r, n);
    var p := r.states[n];
    assert Step(p, r.actions[n], r.states[n + 1]);
    assert HeldOk(p, p.workers[r.actions[n].w]);
  }

  // ---------------------------------------------------------------- every superstep ends

  /** A worker that is not polling can always go on, except that the signalling one needs the caller. */
  ghost function Continue<E>(x: Worker, w: nat): Action<E> {
    match x
    case Claimed(_) => Start(w)
    case Computing(_) => Return(w, None)
    case Decrementing(_) => Decrement(w)
    case _ => Signal(w)
  }

  /** No reachable state in the middle of a superstep is stuck, given that compute functions return. */
  lemma NoDeadlock<E>(r: Run<E>, n: nat)
    requires r.Valid() && n <= |r.actions| && !Between(r.states[n])
    ensures exists a: Action<E> :: Enabled(r.states[n], a)
  {
    hide Step, Initial, SignalOk, CallerOk, ReturnOk, Placed, Counted, Enabled;
    RunInv(r, n);
    var p := r.states[n];
    if i :| 0 <= i < |p.workers| && p.workers[i] != Polling {
      CanContinue(p, i);
    } else {
      AllPollingCanReceive(p);
    }
  }

  lemma CanContinue<E>(p: Pool<E>, i: nat)
    requires SignalOk(p) && i < |p.workers| && p.workers[i] != Polling
    ensures Enabled(p, Continue(p.workers[i], i))
  {
  }

  lemma AllPollingCanReceive<E>(p: Pool<E>)
    requires Inv(p) && !Between(p) && AllPolling(p)
    ensures exists a: Action<E> :: Enabled(p, a)
  {
    hide ReturnOk, Counted;
    if p.caller.Collecting? {
      assert Enabled(p, Collect);
    } else {
      assert p.history.undone <= Rest(p);
      assert p.caller.Dispatching?;
      var v :| v in p.caller.rest;
      assert Enabled(p, Receive(0, v));
    }
  }

  ghost function WorkOf(workers: seq<Worker>): nat {
    if workers == [] then 0 else WorkOf(workers[..|workers| - 1]) + workers[|workers| - 1].Work()
  }

  lemma {:induction false} WorkOfUpdate(workers: seq<Worker>, w: nat, x: Worker)
    requires w < |workers|
    ensures WorkOf(workers[w := x]) == WorkOf(workers) - workers[w].Work() + x.Work()
  {
    var last := |workers| - 1;
    if w == last {
      assert workers[w := x][..last] == workers[..last];
    } else {
      WorkOfUpdate(workers[..last], w, x);
      assert workers[w := x][..last] == workers[..last][w := x];
    }
  }

  ghost function CallerWork<E>(c: Caller<E>): nat {
    match c
    case Dispatching(rest) => 5 * |rest| + 2
    case Waiting => 2
    case Collecting => 1
    case _ => 0
  }

  /** How many actions are left in the superstep, at most. */
  ghost function WorkLeft<E>(p: Pool<E>): nat {
    WorkOf(p.workers) + CallerWork(p.caller)
  }

  lemma WorkMoves<E>(p: Pool<E>, a: Action<E>, q: Pool<E>)
    requires Step(p, a, q) && !a.Begin? && !a.Collect?
    ensures a.w < |p.workers| == |q.workers| && q.workers == p.workers[a.w := q.workers[a.w]]
    ensures q.workers[a.w].Work() + CallerWork(q.caller) < p.workers[a.w].Work() + CallerWork(p.caller)
  {
  }

  /** Every action within a superstep uses up some of the work that is left, so every superstep ends. */
  lemma WorkDecreases<E>(p: Pool<E>, a: Action<E>, q: Pool<E>)
    requires Step(p, a, q) && !a.Begin?
    ensures WorkLeft(q) < WorkLeft(p)
  {
    hide WorkOf;
    if !a.Collect? {
      hide Step, CallerWork;
      WorkMoves(p, a, q);
      WorkOfUpdate(p.workers, a.w, q.workers[a.w]);
    }
  }
}
