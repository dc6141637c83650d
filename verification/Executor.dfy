/** The graph, the compute function and the executor loop as the program runs them, on mutable
    objects. Each atomic action on the objects is one step of the calculator machine, so whatever
    holds of every run of the machine holds of these objects. */
module Executor {
  import opened Ids
  import opened Sums
  import opened PageRank
  import opened Calculator
  import opened Schedule
  import opened Accumulator
  import opened MemoryQueue
  import opened Options
  import opened ExecutorSpec
  import Bsp

  /** A graph vertex. The two ghost fields say where its computation stands in the machine. */
  class Vertex {
    const id: Id
    const queue0: InMemoryQueue<real>
    const queue1: InMemoryQueue<real>
    var value: real
    var active: bool
    var edges: seq<Id>
    ghost var phase: Bsp.Phase
    ghost var pc: Pc

    constructor (id: Id, value: real)
      ensures this.id == id && this.value == value && active && edges == []
      ensures phase == Bsp.Waiting && pc == Idle
      ensures fresh(queue0) && fresh(queue1) && Owned() && queue0.msgs == queue1.msgs == []
    {
      this.id := id;
      this.value := value;
      queue0 := new InMemoryQueue<real>(id, 0);
      queue1 := new InMemoryQueue<real>(id, 1);
      active := true;
      edges := [];
      phase := Bsp.Waiting;
      pc := Idle;
    }

    ghost predicate Owned() {
      queue0.owner == queue1.owner == id && queue0.slot == 0 && queue1.slot == 1
    }

    function QueueAt(superstep: nat): InMemoryQueue<real> {
      if superstep % 2 == 0 then queue0 else queue1
    }

    ghost function View(): Bsp.Vertex<real>
      reads this, queue0, queue1
    {
      Bsp.Vertex(active, queue0.msgs, queue1.msgs, phase)
    }

    /** Appends to the queue that is read in superstep `s`. */
    method Enqueue(s: nat, msg: real)
      requires Owned()
      modifies QueueAt(s)
      ensures View() == old(View()).WithQueue(s, old(View()).Queue(s) + [msg])
    {
      QueueAt(s).Enqueue(msg);
    }

    /** Takes the message at the tail of that queue. */
    method Dequeue(s: nat) returns (msg: real)
      requires Owned() && View().Queue(s) != []
      modifies QueueAt(s)
      ensures var q := old(View()).Queue(s);
              q != [] && msg == q[|q| - 1] && View() == old(View()).WithQueue(s, q[..|q| - 1])
    {
      var more := QueueAt(s).Next();
      msg := QueueAt(s).Message().value;
    }

    predicate Pending(s: nat)
      reads QueueAt(s)
    {
      QueueAt(s).PendingMessages()
    }

    method SetValue(value: real)
      modifies this
      ensures View() == old(View()) && this.value == value
      ensures active == old(active) && pc == old(pc) && edges == old(edges)
    {
      this.value := value;
    }

    ghost method MovePc(pc: Pc)
      modifies this
      ensures View() == old(View()) && this.pc == pc
      ensures active == old(active) && value == old(value) && edges == old(edges)
    {
      this.pc := pc;
    }

    method Activate()
      modifies this
      ensures View() == old(View()).(phase := Bsp.Computing, active := true) && active
      ensures value == old(value) && pc == old(pc) && edges == old(edges)
    {
      active := true;
      phase := Bsp.Computing;
    }

    ghost method Fail()
      modifies this
      ensures View() == old(View()).(phase := Bsp.Failed) && active == old(active)
      ensures value == old(value) && pc == old(pc) && edges == old(edges)
    {
      phase := Bsp.Failed;
    }

    method AddEdge(dst: Id)
      modifies this
      ensures View() == old(View()) && edges == old(edges) + [dst]
      ensures active == old(active) && value == old(value) && pc == old(pc)
    {
      edges := edges + [dst];
    }

    /** Drops unread messages once the compute function has returned. */
    method Finish(s: nat)
      requires Owned()
      modifies this, QueueAt(s)
      ensures View() == old(View()).WithQueue(s, []).(phase := Bsp.Done) && active == old(active)
      ensures value == old(value) && pc == old(pc) && edges == old(edges)
    {
      QueueAt(s).DiscardMessages();
      phase := Bsp.Done;
    }
  }

  class Graph {
    var superstep: nat
    var vertices: map<Id, Vertex>
    var aggregators: map<AggregatorName, Float64Accumulator>
    var pageCount: IntAccumulator

    ghost function Queues(): set<InMemoryQueue<real>>
      reads this`vertices
    {
      (set id | id in vertices :: vertices[id].queue0) + (set id | id in vertices :: vertices[id].queue1)
    }

    ghost function Footprint(): set<object>
      reads this
    {
      {this, pageCount} + vertices.Values + aggregators.Values + Queues()
    }

    ghost predicate Valid()
      reads Footprint()
    {
      && (forall i :: i in vertices ==> vertices[i].id == i && vertices[i].Owned() && vertices[i].active)
      && AllRegistered()
      && 0 <= pageCount.curSum
    }

    ghost predicate AllRegistered()
      reads this
    {
      && SumOfDifferences in aggregators && Residual0 in aggregators && Residual1 in aggregators
      && aggregators[SumOfDifferences] != aggregators[Residual0]
      && aggregators[SumOfDifferences] != aggregators[Residual1]
      && aggregators[Residual0] != aggregators[Residual1]
    }

    ghost function Links(): Web
      reads this`vertices, vertices.Values
    {
      Web(vertices.Keys, map i | i in vertices :: vertices[i].edges)
    }

    ghost function VertexViews(): map<Id, Bsp.Vertex<real>>
      reads this`vertices, vertices.Values, Queues()
    {
      map i | i in vertices :: vertices[i].View()
    }

    ghost function Values(): Scores
      reads this`vertices, vertices.Values
    {
      map i | i in vertices :: vertices[i].value
    }

    ghost function Pcs(): map<Id, Pc>
      reads this`vertices, vertices.Values
    {
      map i | i in vertices :: vertices[i].pc
    }

    ghost function Sums(): Accumulators
      requires AllRegistered()
      reads this, aggregators.Values
    {
      Accumulators(aggregators[SumOfDifferences].curSum, aggregators[Residual0].curSum, aggregators[Residual1].curSum)
    }

    /** The machine state that the objects represent. */
    ghost function View(): Machine
      requires Valid()
      reads Footprint()
    {
      Machine(Bsp.State(superstep, VertexViews()), Values(), Pcs(), pageCount.curSum, Sums())
    }

    constructor ()
      ensures Valid() && fresh(Footprint() - {this}) && vertices == map[] && superstep == 0
    {
      hide Valid, Footprint, AllRegistered;
      superstep := 0;
      vertices := map[];
      aggregators := map[];
      pageCount := new IntAccumulator();
      new;
      RegisterAggregators();
      NoVertices();
    }

    lemma NoVertices()
      requires vertices == map[] && AllRegistered() && pageCount.curSum == 0
      ensures Valid() && Footprint() == {this, pageCount} + aggregators.Values
    {
    }

    /** The same objects, linked in the same way. */
    twostate predicate SameObjects()
      reads this, vertices.Values
    {
      && superstep == old(superstep) && vertices == old(vertices)
      && aggregators == old(aggregators) && pageCount == old(pageCount)
      && forall i :: i in vertices ==> vertices[i].edges == old(vertices[i].edges)
    }

    lemma ViewAt(id: Id)
      requires Valid() && id in vertices
      ensures VertexViews().Keys == Values().Keys == Pcs().Keys == vertices.Keys
      ensures VertexViews()[id] == vertices[id].View()
      ensures Values()[id] == vertices[id].value && Pcs()[id] == vertices[id].pc
      ensures Links().ids == Links().out.Keys == vertices.Keys && Links().out[id] == vertices[id].edges
      ensures VertexViews()[id].phase == vertices[id].phase
    {
    }

    twostate predicate OnlyChanged(id: Id)
      requires old(Valid())
      reads Footprint()
    {
      && Valid() && SameObjects() && id in vertices
      && forall i :: i in vertices && i != id ==>
           && vertices[i].View() == old(vertices[i].View())
           && vertices[i].value == old(vertices[i].value) && vertices[i].pc == old(vertices[i].pc)
    }

    twostate lemma VertexViewsChanged(id: Id)
      requires old(Valid()) && OnlyChanged(id)
      ensures VertexViews() == old(VertexViews())[id := vertices[id].View()]
    {
      hide Vertex.View;
    }

    twostate lemma ValuesChanged(id: Id)
      requires old(Valid()) && OnlyChanged(id)
      ensures Values() == old(Values())[id := vertices[id].value]
      ensures vertices[id].value == old(vertices[id].value) ==> Values() == old(Values())
    {
      hide Vertex.View;
    }

    twostate lemma PcsChanged(id: Id)
      requires old(Valid()) && OnlyChanged(id)
      ensures Pcs() == old(Pcs())[id := vertices[id].pc]
    {
      hide Vertex.View;
    }

    /** If only the vertex `id` has changed, only its entries in the view have. */
    twostate lemma VertexChanged(id: Id)
      requires old(Valid()) && OnlyChanged(id)
      ensures Links() == old(Links())
      ensures VertexViews() == old(VertexViews())[id := vertices[id].View()]
      ensures Values() == old(Values())[id := vertices[id].value]
      ensures vertices[id].value == old(vertices[id].value) ==> Values() == old(Values())
      ensures Pcs() == old(Pcs())[id := vertices[id].pc]
    {
      hide Vertex.View, VertexViews, Values, Pcs;
      VertexViewsChanged(id);
      ValuesChanged(id);
      PcsChanged(id);
    }

    twostate lemma PcChanged(id: Id)
      requires old(Valid()) && OnlyChanged(id)
      requires vertices[id].View() == old(vertices[id].View()) && vertices[id].value == old(vertices[id].value)
      ensures Links() == old(Links())
      ensures VertexViews() == old(VertexViews()) && Values() == old(Values())
      ensures Pcs() == old(Pcs())[id := vertices[id].pc]
    {
      hide Vertex.View, Values, Pcs;
      VertexChanged(id);
    }

    /** Valid still, and the same objects linked in the same way. */
    twostate predicate Kept()
      requires old(Valid())
      reads Footprint()
    {
      && Valid() && Links() == old(Links()) && superstep == old(superstep)
      && vertices == old(vertices) && aggregators == old(aggregators) && pageCount == old(pageCount)
    }

    // ---------------------------------------------------------------- single changes to the objects

    /** What the view says about one vertex and about the shared fields. */
    lemma Facts(id: Id)
      requires Valid() && id in vertices
      ensures View().Shaped(Links()) && vertices.Keys == Links().ids == Links().out.Keys
      ensures Links().out[id] == vertices[id].edges
      ensures View().bsp.superstep == superstep && View().pageCount == pageCount.curSum
      ensures View().bsp.vertices[id] == vertices[id].View() && View().bsp.vertices[id].phase == vertices[id].phase
      ensures View().bsp.ReadQueue(id) == vertices[id].View().Queue(superstep)
      ensures View().value[id] == vertices[id].value && View().pc[id] == vertices[id].pc
    {
      hide Vertex.View, VertexViews, Values, Pcs, Links, Sums;
      ViewAt(id);
    }

    lemma SumFacts(name: AggregatorName)
      requires Valid()
      ensures AllRegistered() && name in aggregators && View().acc.At(name) == aggregators[name].curSum
    {
      hide Vertex.View, VertexViews, Values, Pcs, Links;
    }

    /** No vertex shares itself or its queues with another. */
    lemma Apart(id: Id)
      requires Valid() && id in vertices
      ensures vertices[id].Owned() && vertices[id].active && vertices[id].View() == View().bsp.vertices[id]
      ensures forall i :: i in vertices && i != id ==>
                && vertices[i] != vertices[id]
                && vertices[i].queue0 != vertices[id].queue0 && vertices[i].queue0 != vertices[id].queue1
                && vertices[i].queue1 != vertices[id].queue0 && vertices[i].queue1 != vertices[id].queue1
    {
      hide Vertex.View, Values, Pcs, Links, Sums, AllRegistered;
    }

    /** Nothing but the scheduling state and the queues of `id` has changed. */
    twostate predicate OnlyScheduled(id: Id)
      reads Footprint()
    {
      && unchanged(this) && id in vertices && unchanged(pageCount) && unchanged(aggregators.Values)
      && (forall i :: i in vertices && i != id ==>
            unchanged(vertices[i]) && unchanged(vertices[i].queue0) && unchanged(vertices[i].queue1))
      && vertices[id].active && vertices[id].value == old(vertices[id].value)
      && vertices[id].pc == old(vertices[id].pc) && vertices[id].edges == old(vertices[id].edges)
    }

    twostate lemma ScheduledOnly(id: Id)
      requires old(Valid()) && OnlyScheduled(id)
      ensures OnlyChanged(id)
    {
      hide VertexViews, Values, Pcs, Links, Sums;
    }

    /** The view changes in the engine's state of that vertex only. */
    twostate lemma Scheduled(id: Id)
      requires old(Valid()) && OnlyScheduled(id)
      ensures Kept() && View() == old(View()).(bsp := Bsp.Put(old(View().bsp), id, vertices[id].View()))
    {
      hide Vertex.View, VertexViews, Values, Pcs, Links;
      ScheduledOnly(id);
      VertexChanged(id);
      PcSame(id);
    }

    ghost method MovePc(id: Id, pc: Pc)
      requires Valid() && id in vertices
      modifies vertices[id]
      ensures Kept() && View() == old(View()).(pc := old(View().pc)[id := pc])
    {
      hide Vertex.View, VertexViews, Values, Pcs;
      vertices[id].MovePc(pc);
      PcChanged(id);
    }

    method SetValue(id: Id, value: real)
      requires Valid() && id in vertices
      modifies vertices[id]
      ensures Kept() && View() == old(View()).(value := old(View().value)[id := value])
    {
      hide Vertex.View, VertexViews, Values, Pcs;
      vertices[id].SetValue(value);
      VertexChanged(id);
      VertexViewSame(id);
      PcSame(id);
    }

    method Activate(id: Id)
      requires Valid() && id in vertices
      modifies vertices[id]
      ensures Kept()
      ensures View() == old(View()).(bsp := Bsp.Put(old(View().bsp), id,
                          old(View().bsp).vertices[id].(phase := Bsp.Computing, active := true)))
    {
      hide Valid, View, Links, Kept, Vertex.View, VertexViews, Values, Pcs, Sums;
      Apart(id);
      vertices[id].Activate();
      Scheduled(id);
    }

    method Enqueue(dst: Id, msg: real)
      requires Valid() && dst in vertices
      modifies vertices[dst].QueueAt(superstep + 1)
      ensures Kept()
      ensures View() == old(View()).(bsp := Bsp.Put(old(View().bsp), dst,
                          old(View().bsp).vertices[dst].WithQueue(superstep + 1,
                            old(View().bsp).WriteQueue(dst) + [msg])))
    {
      hide Valid, View, Links, Kept, Vertex.View, VertexViews, Values, Pcs, Sums, Bsp.Vertex.WithQueue;
      hide Bsp.Vertex.Queue;
      Apart(dst);
      Facts(dst);
      vertices[dst].Enqueue(superstep + 1, msg);
      Scheduled(dst);
    }

    /** Takes a message off the tail of the queue that is read in this superstep. */
    method Dequeue(id: Id) returns (msg: real)
      requires Valid() && id in vertices && View().bsp.ReadQueue(id) != []
      modifies vertices[id].QueueAt(superstep)
      ensures Kept()
      ensures var q := old(View().bsp).ReadQueue(id);
              && q != [] && msg == q[|q| - 1]
              && View() == old(View()).(bsp := Bsp.Put(old(View().bsp), id,
                             old(View().bsp).vertices[id].WithQueue(superstep, q[..|q| - 1])))
    {
      hide Valid, View, Links, Kept, Vertex.View, VertexViews, Values, Pcs, Sums, Bsp.Vertex.WithQueue;
      hide Bsp.Vertex.Queue;
      Apart(id);
      Facts(id);
      msg := vertices[id].Dequeue(superstep);
      Scheduled(id);
    }

    /** Drops the unread messages of a vertex that has been computed. */
    method Discard(id: Id)
      requires Valid() && id in vertices
      modifies vertices[id], vertices[id].QueueAt(superstep)
      ensures Kept()
      ensures View() == old(View()).(bsp := Bsp.Put(old(View().bsp), id,
                          old(View().bsp).vertices[id].WithQueue(superstep, []).(phase := Bsp.Done)))
    {
      hide Valid, View, Links, Kept, Vertex.View, VertexViews, Values, Pcs, Sums, Bsp.Vertex.WithQueue;
      hide Bsp.Vertex.Queue;
      Apart(id);
      Facts(id);
      vertices[id].Finish(superstep);
      Scheduled(id);
    }

    /** If no vertex has changed, its entries in the view have not. */
    twostate lemma VerticesSame()
      requires vertices == old(vertices)
      requires forall i :: i in vertices ==>
                 && vertices[i].View() == old(vertices[i].View()) && vertices[i].value == old(vertices[i].value)
                 && vertices[i].pc == old(vertices[i].pc) && vertices[i].edges == old(vertices[i].edges)
      ensures VertexViews() == old(VertexViews()) && Values() == old(Values()) && Pcs() == old(Pcs())
      ensures Links() == old(Links())
    {
      hide Vertex.View;
    }

    method AddTo(name: AggregatorName, x: real)
      requires Valid() && name in aggregators
      modifies aggregators[name]
      ensures Kept() && View() == old(View()).(acc := old(View().acc).With(name, old(View().acc).At(name) + x))
    {
      hide Vertex.View, VertexViews, Values, Pcs, Links;
      aggregators[name].Aggregate(x);
      VerticesSame();
    }

    method CountOne()
      requires Valid()
      modifies pageCount
      ensures Kept() && View() == old(View()).(pageCount := old(View().pageCount) + 1)
    {
      hide Vertex.View, VertexViews, Values, Pcs, Links;
      pageCount.Aggregate(1);
      VerticesSame();
    }

    twostate lemma VertexViewSame(id: Id)
      requires old(Valid()) && OnlyChanged(id) && vertices[id].View() == old(vertices[id].View())
      ensures VertexViews() == old(VertexViews())
    {
      hide Vertex.View;
    }

    twostate lemma PcSame(id: Id)
      requires old(Valid()) && OnlyChanged(id) && vertices[id].pc == old(vertices[id].pc)
      ensures Pcs() == old(Pcs())
    {
      hide Vertex.View;
    }

    /** Queues a message for delivery in the next superstep. */
    method SendMessage(dst: Id, msg: real) returns (err: Option<Error>)
      requires Valid()
      modifies Queues()
      ensures Kept()
      ensures dst !in vertices ==> err == Some(InvalidMessageDestination) && View() == old(View())
      ensures dst in vertices ==>
                && err == None
                && View() == old(View()).(bsp := Bsp.Put(old(View().bsp), dst,
                     old(View().bsp).vertices[dst].WithQueue(superstep + 1, old(View().bsp).WriteQueue(dst) + [msg])))
    {
      hide Bsp.Vertex.WithQueue, Bsp.Vertex.Queue, Vertex.View, View;
      if dst in vertices {
        Enqueue(dst, msg);
        err := None;
      } else {
        err := Some(InvalidMessageDestination);
      }
    }

    // ---------------------------------------------------------------- the compute function, action by action

    /** On a closed web, the invariant of the machine. */
    ghost predicate Ready(d: real)
      requires Valid()
      reads Footprint()
    {
      Links().Closed() ==> Inv(Links(), d, View())
    }

    /** On a closed web, the objects have taken the action `a` of the machine. */
    twostate predicate Acted(d: real, a: Action)
      requires old(Valid())
      reads Footprint()
    {
      Kept() && (Links().Closed() ==> Step(old(Links()), d, 0.0, old(View()), a, View()))
    }

    /** One or more actions of the vertex `id`: the invariant holds and no other vertex has moved on. */
    twostate predicate Worked(d: real, id: Id)
      requires old(Valid())
      reads Footprint()
    {
      && Kept() && Ready(d) && OthersStay(old(View()), View(), id)
      && (1 <= superstep ==> pageCount.curSum == old(pageCount.curSum))
    }

    /** A worker receives the vertex. */
    method Claim(id: Id, ghost d: real)
      requires Valid() && Ready(d)
      requires id in vertices && View().bsp.vertices[id].phase == Bsp.Waiting
      modifies vertices[id]
      ensures Acted(d, Begin(id)) && Worked(d, id)
      ensures View().pc[id] == Started && pageCount.curSum == old(pageCount.curSum)
    {
      hide Inv, View, Links, Valid, OthersStay, Enabled, Perform, Vertex.View;
      Facts(id);
      if Links().Closed() {
        BeginForm(Links(), d, View(), id);
      }
      Activate(id);
      MovePc(id, Started);
      if Links().Closed() {
        InvStep(Links(), d, 0.0, old(View()), Begin(id), View());
      }
      Facts(id);
      PutStays(old(View()), View(), id, id);
    }

    /** Superstep 0: count the vertex. */
    method CountVertex(id: Id, ghost d: real)
      requires Valid() && Ready(d)
      requires superstep == 0 && id in vertices && View().pc[id] == Started
      modifies vertices[id], pageCount
      ensures Acted(d, CountPage(id)) && Worked(d, id)
      ensures View().pc[id] == Returned && pageCount.curSum == old(pageCount.curSum) + 1
    {
      hide Inv, View, Links, Valid, OthersStay, Enabled, Perform, Vertex.View;
      Facts(id);
      if Links().Closed() {
        CountForm(Links(), d, View(), id);
      }
      CountOne();
      MovePc(id, Returned);
      if Links().Closed() {
        InvStep(Links(), d, 0.0, old(View()), CountPage(id), View());
      }
      Facts(id);
      SameStays(old(View()), View(), id);
    }

    /** The share that every vertex gets. */
    method Initialize(id: Id, d: real) returns (newScore: real)
      requires Valid() && Ready(d)
      requires 1 <= superstep && pageCount.curSum != 0 && id in vertices && View().pc[id] == Started
      modifies vertices[id]
      ensures Acted(d, Calculator.Initialize(id)) && Worked(d, id)
      ensures View().pc[id] == FirstPc(superstep, newScore)
    {
      hide FirstPc, PerPage, Inv, View, Links, Valid, OthersStay, Enabled, Perform, Vertex.View;
      Facts(id);
      if Links().Closed() {
        InitializeForm(Links(), d, View(), id);
      }
      var count := pageCount.Get();
      newScore := PerPage(if superstep == 1 then 1.0 else 1.0 - d, count);
      MovePc(id, FirstPc(superstep, newScore));
      if Links().Closed() {
        InvStep(Links(), d, 0.0, old(View()), Calculator.Initialize(id), View());
      }
      Facts(id);
      SameStays(old(View()), View(), id);
    }

    /** Takes the message at the tail of the queue and adds the damped score to the sum. */
    method TakeMessage(id: Id, d: real, sum: real) returns (newScore: real)
      requires Valid() && Ready(d)
      requires id in vertices && View().pc[id] == Summing(sum) && View().bsp.ReadQueue(id) != []
      modifies vertices[id], vertices[id].QueueAt(superstep)
      ensures Acted(d, Calculator.TakeMessage(id, |old(View().bsp.ReadQueue(id))| - 1)) && Worked(d, id)
      ensures View().pc[id] == Summing(newScore) && |View().bsp.ReadQueue(id)| == |old(View().bsp.ReadQueue(id))| - 1
    {
      hide Mul, Inv, View, Links, Valid, OthersStay, Enabled, Perform;
      hide Vertex.View, Bsp.Vertex.WithQueue, Bsp.Vertex.Queue, Bsp.State.ReadQueue;
      Facts(id);
      ghost var q := View().bsp.ReadQueue(id);
      if Links().Closed() {
        TakeForm(Links(), d, View(), id);
      }
      var score := Dequeue(id);
      newScore := sum + Mul(d, score);
      ReadAfterPut(old(View().bsp), id, q[..|q| - 1]);
      WithQueueKeeps(old(View().bsp).vertices[id], superstep, q[..|q| - 1]);
      MovePc(id, Summing(newScore));
      if Links().Closed() {
        InvStep(Links(), d, 0.0, old(View()), Calculator.TakeMessage(id, |old(View().bsp.ReadQueue(id))| - 1), View());
      }
      Facts(id);
      PutStays(old(View()), View(), id, id);
    }

    /** Adds the residual of the superstep before. */
    method AddResidual(id: Id, d: real, sum: real) returns (newScore: real)
      requires Valid() && Ready(d)
      requires id in vertices && View().pc[id] == Summing(sum) && View().bsp.ReadQueue(id) == []
      modifies vertices[id]
      ensures Acted(d, Calculator.AddResidual(id)) && Worked(d, id)
      ensures View().pc[id] == Scored(newScore)
    {
      hide Mul, Inv, View, Links, Valid, OthersStay, Enabled, Perform;
      hide Vertex.View, Bsp.Vertex.Queue, Bsp.State.ReadQueue;
      Facts(id);
      SumFacts(ResidualInput(superstep));
      if Links().Closed() {
        AddResidualForm(Links(), d, View(), id);
      }
      var residual := aggregators[ResidualInput(superstep)].Get();
      newScore := sum + Mul(d, residual);
      MovePc(id, Scored(newScore));
      if Links().Closed() {
        InvStep(Links(), d, 0.0, old(View()), Calculator.AddResidual(id), View());
      }
      Facts(id);
      SameStays(old(View()), View(), id);
    }

    /** Adds the change of the vertex to the sum of differences. */
    method RecordChange(id: Id, ghost d: real, newScore: real)
      requires Valid() && Ready(d)
      requires id in vertices && View().pc[id] == Scored(newScore)
      modifies vertices[id], aggregators[SumOfDifferences]
      ensures Acted(d, Record(id)) && Worked(d, id)
      ensures View().pc[id] == Recorded(newScore)
    {
      hide Abs, Inv, View, Links, Valid, OthersStay, Enabled, Perform, Vertex.View;
      Facts(id);
      SumFacts(SumOfDifferences);
      if Links().Closed() {
        RecordForm(Links(), d, View(), id);
      }
      var absDelta := Abs(vertices[id].value - newScore);
      AddTo(SumOfDifferences, absDelta);
      MovePc(id, Recorded(newScore));
      if Links().Closed() {
        InvStep(Links(), d, 0.0, old(View()), Record(id), View());
      }
      Facts(id);
      SameStays(old(View()), View(), id);
    }

    method StoreScore(id: Id, ghost d: real, newScore: real)
      requires Valid() && Ready(d)
      requires id in vertices && View().pc[id] == Recorded(newScore)
      modifies vertices[id]
      ensures Acted(d, SetScore(id)) && Worked(d, id)
      ensures View().pc[id] == Sending(newScore, 0)
    {
      hide Inv, View, Links, Valid, OthersStay, Enabled, Perform, Vertex.View;
      Facts(id);
      if Links().Closed() {
        SetForm(Links(), d, View(), id);
      }
      SetValue(id, newScore);
      MovePc(id, Sending(newScore, 0));
      if Links().Closed() {
        InvStep(Links(), d, 0.0, old(View()), SetScore(id), View());
      }
      Facts(id);
      SameStays(old(View()), View(), id);
    }

    /** A dead end feeds the residual of the next superstep. */
    method FeedResidual(id: Id, ghost d: real, newScore: real)
      requires Valid() && Ready(d)
      requires 1 <= superstep && pageCount.curSum != 0
      requires id in vertices && View().pc[id] == Sending(newScore, 0) && vertices[id].edges == []
      modifies vertices[id], aggregators[ResidualOutput(superstep)]
      ensures Acted(d, DeadEnd(id)) && Worked(d, id)
      ensures View().pc[id] == Returned
    {
      hide PerPage, Inv, View, Links, Valid, OthersStay, Enabled, Perform, Vertex.View;
      Facts(id);
      SumFacts(ResidualOutput(superstep));
      if Links().Closed() {
        DeadEndForm(Links(), d, View(), id);
      }
      var count := pageCount.Get();
      AddTo(ResidualOutput(superstep), PerPage(newScore, count));
      MovePc(id, Returned);
      if Links().Closed() {
        InvStep(Links(), d, 0.0, old(View()), DeadEnd(id), View());
      }
      Facts(id);
      SameStays(old(View()), View(), id);
    }

    /** Serves one more edge: a message with an equal share of the score to its destination, if there is
        such a vertex. */
    method ServeEdge(id: Id, ghost d: real, ghost score: real, k: nat, msg: real) returns (err: Option<Error>)
      requires Valid() && Ready(d)
      requires id in vertices && View().pc[id] == Sending(score, k) && k < |vertices[id].edges|
      requires msg == score / |vertices[id].edges| as real
      modifies vertices[id], Queues()
      ensures Worked(d, id) && vertices[id].edges == old(vertices[id].edges)
      ensures err == if vertices[id].edges[k] in vertices then None else Some(InvalidMessageDestination)
      ensures err == None ==> Acted(d, SendNext(id)) && View().pc[id] == Sending(score, k + 1)
    {
      hide Inv, View, Links, Valid, OthersStay, Step, Misses, Web.Closed, Mul;
      hide Vertex.View, Bsp.Put, Bsp.Vertex.WithQueue, Bsp.State.WriteQueue;
      Facts(id);
      var dst := vertices[id].edges[k];
      err := SendMessage(dst, msg);
      Facts(id);
      if err != None {
        SameStays(old(View()), View(), id);
        return;
      }
      MovePc(id, Sending(score, k + 1));
      Facts(id);
      ServeForm(Links(), d, old(View()), View(), id);
    }

    /** The broadcast has come to its end. */
    ghost method EndBroadcast(id: Id, d: real, score: real)
      requires Valid() && Ready(d)
      requires id in vertices && View().pc[id] == Sending(score, |vertices[id].edges|) && vertices[id].edges != []
      modifies vertices[id]
      ensures Acted(d, AllSent(id)) && Worked(d, id)
      ensures View().pc[id] == Returned
    {
      hide Inv, View, Links, Valid, OthersStay, Enabled, Perform, Vertex.View;
      Facts(id);
      if Links().Closed() {
        AllSentForm(Links(), d, View(), id);
      }
      MovePc(id, Returned);
      if Links().Closed() {
        InvStep(Links(), d, 0.0, old(View()), AllSent(id), View());
      }
      Facts(id);
      SameStays(old(View()), View(), id);
    }

    /** The worker is finished with the vertex: unread messages are dropped. */
    method Finish(id: Id, ghost d: real)
      requires Valid() && Ready(d)
      requires id in vertices && View().pc[id] == Returned
      modifies vertices[id], vertices[id].QueueAt(superstep)
      ensures Acted(d, End(id)) && Worked(d, id)
      ensures View().bsp.vertices[id].phase == Bsp.Done && pageCount.curSum == old(pageCount.curSum)
    {
      hide Inv, View, Links, Valid, OthersStay, Enabled, Perform, Vertex.View, Bsp.Vertex.WithQueue, Bsp.Vertex.Queue;
      Facts(id);
      if Links().Closed() {
        EndForm(Links(), d, View(), id);
      }
      Discard(id);
      MovePc(id, Idle);
      if Links().Closed() {
        InvStep(Links(), d, 0.0, old(View()), End(id), View());
      }
      Facts(id);
      PutStays(old(View()), View(), id, id);
    }

    /** The compute function has returned an error: its messages stay where they are. */
    ghost method Fail(id: Id)
      requires Valid() && id in vertices
      modifies vertices[id]
      ensures Kept() && OthersStay(old(View()), View(), id) && pageCount.curSum == old(pageCount.curSum)
      ensures View().bsp.vertices[id].phase == Bsp.Failed
    {
      hide Valid, View, Links, Vertex.View, VertexViews, Values, Pcs, Sums, OthersStay;
      Apart(id);
      Facts(id);
      vertices[id].Fail();
      Scheduled(id);
      Facts(id);
      PutStays(old(View()), View(), id, id);
    }

    // ---------------------------------------------------------------- the compute function

    /** Sends the message along every edge, up to the first one that leads nowhere. */
    method BroadcastToNeighbors(id: Id, msg: real, ghost d: real, ghost score: real) returns (err: Option<Error>)
      requires Valid() && Ready(d) && 1 <= superstep
      requires id in vertices && View().pc[id] == Sending(score, 0) && vertices[id].edges != []
      requires msg == score / |vertices[id].edges| as real
      modifies vertices[id], Queues()
      ensures Worked(d, id) && err == ErrorOf(Links(), superstep, id)
      ensures vertices[id].edges == old(vertices[id].edges)
      ensures err == None ==> View().pc[id] == Sending(score, |vertices[id].edges|)
    {
      hide Inv, View, Links, Valid, Acted, Ready, OthersStay, Misses, Vertex.View;
      hide Web.Closed, Bsp.State.ReadQueue, Bsp.State.WriteQueue;
      Facts(id);
      var edges := vertices[id].edges;
      err := None;
      StaysRefl(View(), id);
      for k := 0 to |edges|
        invariant Worked(d, id) && vertices[id].edges == edges
        invariant id in View().pc && View().pc[id] == Sending(score, k) && err == None
        invariant forall i :: 0 <= i < k ==> edges[i] in vertices
      {
        ghost var before := View();
        err := ServeEdge(id, d, score, k, msg);
        StaysTrans(old(View()), before, View(), id);
        Facts(id);
        if err != None {
          MissesIs(Links(), superstep, id);
          return;
        }
      }
      Facts(id);
      MissesIs(Links(), superstep, id);
    }

    /** Adds the damped scores of all messages to the sum. */
    method TakeMessages(id: Id, d: real, sum: real) returns (newScore: real)
      requires Valid() && Ready(d) && 1 <= superstep
      requires id in vertices && View().pc[id] == Summing(sum)
      modifies vertices[id], vertices[id].QueueAt(superstep)
      ensures Worked(d, id) && View().pc[id] == Summing(newScore) && View().bsp.ReadQueue(id) == []
    {
      hide Inv, View, Links, Valid, Acted, Ready, OthersStay, Vertex.View, Bsp.State.ReadQueue;
      Facts(id);
      newScore := sum;
      StaysRefl(View(), id);
      while vertices[id].Pending(superstep)
        invariant Worked(d, id) && id in View().pc && View().pc[id] == Summing(newScore) && id in View().bsp.vertices
        decreases |View().bsp.ReadQueue(id)|
      {
        PendingRead(id);
        ghost var before := View();
        newScore := TakeMessage(id, d, newScore);
        StaysTrans(old(View()), before, View(), id);
        Facts(id);
      }
      PendingRead(id);
    }

    lemma PendingRead(id: Id)
      requires Valid() && id in vertices
      ensures vertices[id].Pending(superstep) <==> View().bsp.ReadQueue(id) != []
    {
    }

    /** Reports the change, stores the score and hands it on: to the residual or to the neighbours. */
    method Publish(id: Id, ghost d: real, newScore: real) returns (err: Option<Error>)
      requires Valid() && Ready(d) && 1 <= superstep && pageCount.curSum != 0
      requires id in vertices && View().pc[id] == Scored(newScore)
      modifies vertices[id], Queues(), aggregators.Values
      ensures Worked(d, id) && err == ErrorOf(Links(), superstep, id)
      ensures err == None ==> View().pc[id] == Returned
    {
      hide Inv, View, Links, Valid, Acted, Ready, OthersStay, Misses, Vertex.View;
      SumFacts(SumOfDifferences);
      SumFacts(ResidualOutput(superstep));
      RecordChange(id, d, newScore);
      ghost var recorded := View();
      StoreScore(id, d, newScore);
      ghost var stored := View();
      StaysTrans(old(View()), recorded, stored, id);
      Facts(id);
      var numOutLinks := |vertices[id].edges|;
      if numOutLinks == 0 {
        FeedResidual(id, d, newScore);
        MissesIs(Links(), superstep, id);
        err := None;
      } else {
        err := BroadcastToNeighbors(id, newScore / numOutLinks as real, d, newScore);
        ghost var sent := View();
        StaysTrans(old(View()), stored, sent, id);
        if err == None {
          EndBroadcast(id, d, newScore);
          StaysTrans(stored, sent, View(), id);
        }
      }
      StaysTrans(old(View()), stored, View(), id);
    }

    /** One call of the compute function; it fails if the vertex has an edge that leads nowhere. */
    method Compute(id: Id, d: real) returns (err: Option<Error>)
      requires Valid() && Ready(d) && (1 <= superstep ==> pageCount.curSum != 0)
      requires id in vertices && View().pc[id] == Started
      modifies vertices[id], Queues(), pageCount, aggregators.Values
      ensures Worked(d, id) && err == ErrorOf(Links(), superstep, id)
      ensures err == None ==> View().pc[id] == Returned
      ensures superstep == 0 ==> pageCount.curSum == old(pageCount.curSum) + 1
    {
      hide Inv, View, Links, Valid, Acted, Ready, OthersStay, Misses, Vertex.View, Bsp.State.ReadQueue;
      if superstep == 0 {
        CountVertex(id, d);
        NoMissesYet(Links(), id);
        return None;
      }
      var newScore := Initialize(id, d);
      ghost var before := View();
      if superstep != 1 {
        newScore := TakeMessages(id, d, newScore);
        StaysTrans(old(View()), before, View(), id);
        before := View();
        newScore := AddResidual(id, d, newScore);
        StaysTrans(old(View()), before, View(), id);
        before := View();
      }
      err := Publish(id, d, newScore);
      StaysTrans(old(View()), before, View(), id);
    }

    /** What a worker does with a vertex. */
    method StepWorker(id: Id, d: real) returns (err: Option<Error>)
      requires Valid() && Ready(d) && (1 <= superstep ==> pageCount.curSum != 0)
      requires id in vertices && View().bsp.vertices[id].phase == Bsp.Waiting
      modifies vertices[id], Queues(), pageCount, aggregators.Values
      ensures Worked(d, id) && err == ErrorOf(Links(), superstep, id)
      ensures id in View().bsp.vertices && View().bsp.vertices[id].phase == PhaseAfter(Links(), superstep, id)
      ensures superstep == 0 ==> pageCount.curSum == old(pageCount.curSum) + 1
    {
      hide Inv, View, Links, Valid, Acted, Ready, OthersStay, Misses, Vertex.View, Web.Closed, Bsp.State.ReadQueue;
      Facts(id);
      Claim(id, d);
      ghost var before := View();
      err := Compute(id, d);
      StaysTrans(old(View()), before, View(), id);
      before := View();
      if err == None {
        Finish(id, d);
      } else {
        MissesOpen(Links(), superstep, id);
        Fail(id);
        NotClosedReady(d);
      }
      StaysTrans(old(View()), before, View(), id);
      Facts(id);
    }

    lemma NotClosedReady(d: real)
      requires Valid() && !Links().Closed()
      ensures Ready(d)
    {
      hide Inv, View;
    }

    // ---------------------------------------------------------------- building the graph

    twostate predicate AddedVertex(new v: Vertex)
      reads Footprint(), v
    {
      && old(Valid()) && v.id !in old(vertices) && vertices == old(vertices)[v.id := v]
      && v.Owned() && v.active && v.edges == []
      && unchanged(this`aggregators, this`pageCount) && unchanged(pageCount)
      && forall i :: i in old(vertices) ==> unchanged(vertices[i])
    }

    twostate lemma AddedVertexValid(new v: Vertex)
      requires AddedVertex(v)
      ensures Valid()
    {
    }

    twostate lemma AddedVertexViews(new v: Vertex)
      requires AddedVertex(v)
      ensures Values() == old(Values())[v.id := v.value] && Links().out == old(Links()).out[v.id := []]
    {
      hide AllRegistered;
    }

    /** Adds a vertex with no edges, or just sets the value of one that is there. */
    method AddVertex(id: Id, initValue: real)
      requires Valid()
      modifies this`vertices, vertices.Values
      ensures Valid() && vertices.Keys == old(vertices).Keys + {id} && superstep == old(superstep)
      ensures forall i :: i in old(vertices) ==> vertices[i] == old(vertices)[i]
      ensures Values() == old(Values())[id := initValue]
      ensures Links().out == old(Links()).out[id := if id in old(vertices) then old(Links()).out[id] else []]
    {
      hide Valid, Values, Links;
      if id !in vertices {
        var v := new Vertex(id, initValue);
        vertices := vertices[id := v];
        AddedVertexValid(v);
        AddedVertexViews(v);
      } else {
        Facts(id);
        ViewFields();
        SetValue(id, initValue);
        ViewFields();
        assert old(Links()).out == old(Links()).out[id := old(Links()).out[id]];
      }
    }

    /** Appends an edge to the list of its source. An edge from a vertex to itself is ignored, even
        if there is no such vertex. */
    method AddEdge(src: Id, dst: Id) returns (err: Option<Error>)
      requires Valid()
      modifies vertices.Values
      ensures Valid() && vertices == old(vertices) && superstep == old(superstep) && Values() == old(Values())
      ensures src == dst ==> err == None && Links() == old(Links())
      ensures src != dst && src !in vertices ==> err == Some(UnknownEdgeSource) && Links() == old(Links())
      ensures src != dst && src in vertices ==>
                err == None && Links() == old(Links()).(out := old(Links()).out[src := old(Links()).out[src] + [dst]])
    {
      hide Vertex.View;
      if src == dst {
        return None;
      }
      if src !in vertices {
        return Some(UnknownEdgeSource);
      }
      vertices[src].AddEdge(dst);
      return None;
    }

    /** Prepares the graph for a run: new aggregators and superstep 0. Vertex values and queued
        messages stay as an earlier run left them. */
    method NewExecutor()
      requires Valid()
      modifies this, vertices.Values
      ensures Valid() && fresh(aggregators.Values + {pageCount}) && vertices == old(vertices)
      ensures Links() == old(Links()) && Values() == old(Values()) && Start(Links(), View())
      ensures forall i :: i in vertices ==> vertices[i].queue0.msgs == old(vertices[i].queue0.msgs)
      ensures forall i :: i in vertices ==> vertices[i].queue1.msgs == old(vertices[i].queue1.msgs)
    {
      hide Valid, VertexViews, Values, Links, View, Start;
      RegisterAggregators();
      superstep := 0;
      Rewind();
      AllFresh();
    }

    /** All vertices wait for their first turn. */
    ghost method Rewind()
      modifies vertices.Values
      ensures forall i :: i in vertices ==>
                && vertices[i].phase == Bsp.Waiting && vertices[i].pc == Idle
                && vertices[i].active == old(vertices[i].active)
                && vertices[i].value == old(vertices[i].value) && vertices[i].edges == old(vertices[i].edges)
    {
      forall i | i in vertices {
        vertices[i].phase := Bsp.Waiting;
      }
      forall i | i in vertices {
        vertices[i].pc := Idle;
      }
    }

    method RegisterAggregators()
      modifies this`aggregators, this`pageCount
      ensures AllRegistered() && fresh(aggregators.Values + {pageCount})
      ensures pageCount.curSum == 0 && Sums() == Accumulators(0.0, 0.0, 0.0)
    {
      pageCount := new IntAccumulator();
      var residual0 := new Float64Accumulator();
      var residual1 := new Float64Accumulator();
      var sad := new Float64Accumulator();
      aggregators := map[Residual0 := residual0, Residual1 := residual1, SumOfDifferences := sad];
    }

    twostate lemma AllFresh()
      requires old(Valid()) && AllRegistered() && vertices == old(vertices) && superstep == 0
      requires pageCount.curSum == 0 && Sums() == Accumulators(0.0, 0.0, 0.0)
      requires forall i :: i in vertices ==>
                 && vertices[i].phase == Bsp.Waiting && vertices[i].pc == Idle
                 && vertices[i].active == old(vertices[i].active)
                 && vertices[i].value == old(vertices[i].value) && vertices[i].edges == old(vertices[i].edges)
      ensures Valid() && Links() == old(Links()) && Values() == old(Values()) && Start(Links(), View())
    {
    }

    // ---------------------------------------------------------------- supersteps

    /** Computes every vertex, in an order that is not determined. The error is the first one that a
        worker has reported; there is one exactly if some edge leads nowhere. */
    method RunSuperstep(d: real) returns (activeInStep: nat, err: Option<Error>)
      requires Valid() && Ready(d) && View().bsp.Everywhere(Bsp.Waiting)
      requires pageCount.curSum == if superstep == 0 then 0 else |vertices|
      modifies vertices.Values, Queues(), pageCount, aggregators.Values
      ensures Kept() && Ready(d) && Remaining(Links(), View(), {})
      ensures activeInStep == |vertices| == pageCount.curSum
      ensures err == if Fails(Links(), superstep) then Some(InvalidMessageDestination) else None
    {
      hide Inv, View, Links, Valid, Ready, OthersStay, Vertex.View, Misses, Remaining, Web.Closed, Bsp.State.Everywhere;
      activeInStep, err := 0, None;
      var todo := vertices.Keys;
      AllIds();
      RemainingStart(Links(), View());
      while todo != {}
        invariant Kept() && Ready(d) && todo <= vertices.Keys == View().bsp.vertices.Keys
        invariant activeInStep == |vertices| - |todo|
        invariant pageCount.curSum == if superstep == 0 then |vertices| - |todo| else |vertices|
        invariant Remaining(Links(), View(), todo)
        invariant err == None || err == Some(InvalidMessageDestination)
        invariant err == None <==> forall v :: v in vertices && v !in todo ==> !Misses(Links(), superstep, v)
      {
        var id :| id in todo;
        var stepErr := ProcessOne(id, d, todo);
        if err == None {
          err := stepErr;
        }
        AllIds();
        activeInStep := activeInStep + 1;
        todo := todo - {id};
      }
      SomeMisses(Links(), superstep);
    }

    /** One of the waiting vertices gets its turn. */
    method ProcessOne(id: Id, d: real, ghost todo: set<Id>) returns (err: Option<Error>)
      requires Valid() && Ready(d) && Remaining(Links(), View(), todo) && (1 <= superstep ==> pageCount.curSum != 0)
      requires id in vertices && id in todo
      modifies vertices[id], Queues(), pageCount, aggregators.Values
      ensures Kept() && Ready(d) && Remaining(Links(), View(), todo - {id}) && err == ErrorOf(Links(), superstep, id)
      ensures pageCount.curSum == old(pageCount.curSum) + if superstep == 0 then 1 else 0
    {
      hide Inv, View, Links, Valid, Ready, OthersStay, Vertex.View, Remaining, Misses;
      Facts(id);
      assert View().bsp.vertices[id].phase == Bsp.Waiting by {
        RemainingAt(Links(), View(), todo, id);
      }
      err := StepWorker(id, d);
      Facts(id);
      AllIds();
      RemainingStep(Links(), old(View()), View(), todo, id);
    }

    lemma AllIds()
      requires Valid()
      ensures View().bsp.superstep == superstep && View().pageCount == pageCount.curSum
      ensures View().bsp.vertices.Keys == vertices.Keys == Links().ids == Links().out.Keys
      ensures |vertices.Keys| == |vertices|
    {
      hide Vertex.View;
    }

    /** Before a superstep begins: the graph of a fresh executor, or the previous superstep done and
        the counter already advanced. */
    ghost predicate BetweenSteps(d: real, eps: real)
      requires Valid()
      reads Footprint()
    {
      if superstep == 0 then Start(Links(), View())
      else
        && pageCount.curSum == |vertices|
        && (Links().Closed() ==>
              && Inv(Links(), d, Earlier(View()))
              && Earlier(View()).bsp.Everywhere(Bsp.Done) && Earlier(View()).KeepRunning(eps))
    }

    /** Resets the sum of differences and the residual that the superstep writes. */
    method PreStep(ghost d: real, ghost eps: real)
      requires Valid() && BetweenSteps(d, eps)
      modifies vertices.Values, aggregators.Values
      ensures Kept() && Ready(d) && View().bsp.Everywhere(Bsp.Waiting)
      ensures pageCount.curSum == if superstep == 0 then 0 else |vertices|
      ensures superstep == 0 ==> View() == old(View())
      ensures 0 < superstep && Links().Closed() ==> Step(Links(), d, eps, Earlier(old(View())), NextSuperstep, View())
    {
      hide Inv, View, Links, Valid, Vertex.View;
      SumFacts(SumOfDifferences);
      SumFacts(ResidualOutput(superstep));
      AllIds();
      Wake();
      Reset(SumOfDifferences);
      Reset(ResidualOutput(superstep));
      AllIds();
      WokenWaits(old(View().bsp));
      if superstep == 0 {
        WokenStart(Links(), d, old(View()), View());
      } else if Links().Closed() {
        WokenNext(Links(), d, eps, old(View()), View());
      }
    }

    method Reset(name: AggregatorName)
      requires Valid() && name in aggregators
      modifies aggregators[name]
      ensures Kept() && View() == old(View()).(acc := old(View().acc).With(name, 0.0))
    {
      hide Vertex.View, VertexViews, Values, Pcs, Links;
      aggregators[name].Set(0.0);
      VerticesSame();
    }

    ghost method Wake()
      requires Valid()
      modifies vertices.Values
      ensures Kept() && View() == old(View()).(bsp := Woken(old(View().bsp)))
    {
      hide VertexViews, Values, Pcs, Links, Sums;
      forall i | i in vertices {
        vertices[i].phase := Bsp.Waiting;
      }
      OnlyWoken();
    }

    twostate lemma OnlyWoken()
      requires vertices == old(vertices)
      requires forall i :: i in vertices ==>
                 && vertices[i].View() == old(vertices[i].View()).(phase := Bsp.Waiting)
                 && vertices[i].value == old(vertices[i].value)
                 && vertices[i].pc == old(vertices[i].pc) && vertices[i].edges == old(vertices[i].edges)
      ensures VertexViews() == map v | v in old(VertexViews()) :: old(VertexViews())[v].(phase := Bsp.Waiting)
      ensures Values() == old(Values()) && Pcs() == old(Pcs()) && Links() == old(Links())
    {
      hide Vertex.View;
    }

    /** The stop predicate evaluated after a superstep. */
    predicate PostStepKeepRunning(eps: real)
      requires AllRegistered()
      reads this, aggregators.Values
    {
      !(superstep > 1 && aggregators[SumOfDifferences].Get() < eps)
    }

    lemma CanContinue(d: real, eps: real)
      requires Valid() && 0 < superstep && 0 < View().bsp.superstep && pageCount.curSum == |vertices|
      requires Links().Closed() ==>
                 && Inv(Links(), d, Earlier(View()))
                 && Earlier(View()).bsp.Everywhere(Bsp.Done) && Earlier(View()).KeepRunning(eps)
      ensures BetweenSteps(d, eps)
    {
      hide View, Inv, Links;
    }

    /** The counter goes on to the next superstep. */
    method Advance(ghost d: real, ghost eps: real)
      requires Valid() && pageCount.curSum == |vertices|
      requires Links().Closed() ==>
                 && Inv(Links(), d, View()) && View().bsp.Everywhere(Bsp.Done) && View().KeepRunning(eps)
      modifies this`superstep
      ensures Valid() && superstep == old(superstep) + 1 && BetweenSteps(d, eps)
      ensures Links() == old(Links()) && Values() == old(Values())
    {
      hide Vertex.View, VertexViews, Values, Pcs, Links, Inv, BetweenSteps, Bsp.State.Everywhere, Machine.KeepRunning;
      superstep := superstep + 1;
      VerticesSame();
      CanContinue(d, eps);
    }

    /** One superstep with its callbacks. On a closed web the scores are then those of one more iteration,
        and the predicate says whether the iteration has stopped; on others it fails from superstep 1 on. */
    method Superstep(d: real, eps: real) returns (keepRunning: bool, err: Option<Error>)
      requires Valid() && BetweenSteps(d, eps)
      modifies vertices.Values, Queues(), pageCount, aggregators.Values
      ensures Kept() && Ready(d) && pageCount.curSum == |vertices|
      ensures err == if Fails(Links(), superstep) then Some(InvalidMessageDestination) else None
      ensures Links().Closed() ==>
                && Inv(Links(), d, View()) && View().bsp.Everywhere(Bsp.Done)
                && (keepRunning <==> View().KeepRunning(eps))
      ensures err == None ==> (keepRunning <==> !StopsAt(Links(), d, eps, superstep))
      ensures Iterated(Links(), d, Values(), superstep + 1)
    {
      hide Inv, View, Links, Valid, Vertex.View, Values, Ready, Remaining, StopsAt, Iterated, PostStepKeepRunning;
      hide Fails, Web.Closed, BetweenSteps, Machine.KeepRunning, Bsp.State.Everywhere;
      PreStep(d, eps);
      var activeInStep;
      activeInStep, err := RunSuperstep(d);
      if err != None {
        FailsOpen(Links(), superstep);
        OnlyClosedIterates(Links(), d, Values(), superstep + 1);
        return false, err;
      }
      Registered();
      keepRunning := PostStepKeepRunning(eps);
      Finished(d, eps);
    }

    lemma Registered()
      requires Valid()
      ensures AllRegistered()
    {
    }

    /** What a superstep leaves behind that has not failed. */
    lemma Finished(d: real, eps: real)
      requires Valid() && Ready(d) && Remaining(Links(), View(), {}) && !Fails(Links(), superstep)
      ensures Links().Closed() ==> Inv(Links(), d, View()) && View().bsp.Everywhere(Bsp.Done)
      ensures Links().Closed() ==> (PostStepKeepRunning(eps) <==> View().KeepRunning(eps))
      ensures PostStepKeepRunning(eps) <==> !StopsAt(Links(), d, eps, superstep)
      ensures Iterated(Links(), d, Values(), superstep + 1)
    {
      hide Inv, View, Links, Valid, Vertex.View, Values, Ready, Remaining, StopsAt, Iterated;
      SumFacts(SumOfDifferences);
      ViewFields();
      AllIds();
      if Links().Closed() {
        IsReady(d);
        NoneRemaining(Links(), View());
        AfterSuperstep(Links(), d, eps, View());
      } else {
        OnlyClosedIterates(Links(), d, Values(), superstep + 1);
        NoStopAtZero(Links(), d, eps);
      }
    }

    lemma IsReady(d: real)
      requires Valid() && Ready(d) && Links().Closed()
      ensures Inv(Links(), d, View())
    {
      hide Inv, View, Links;
    }

    lemma ViewFields()
      requires Valid()
      ensures View().bsp.superstep == superstep && View().value == Values()
    {
    }

    /** The loop of the executor. The context is found expired when superstep `expiresAt` is about
        to start. Whatever the order of the vertices and whatever values and messages the graph held
        at the start, the outcome is the one determined by the links and the parameters. */
    method Run(d: real, eps: real, maxSteps: int, expiresAt: Option<nat>) returns (err: Option<Error>, ghost steps: nat)
      requires Valid() && Start(Links(), View()) && Ends(Links(), d, eps, maxSteps, expiresAt)
      modifies this`superstep, vertices.Values, Queues(), pageCount, aggregators.Values
      ensures Valid() && Links() == old(Links())
      ensures RanFor(Links(), d, eps, maxSteps, expiresAt, err, steps)
      ensures superstep == CounterAfter(Links(), d, eps, steps)
      ensures Iterated(Links(), d, Values(), steps)
    {
      hide Inv, View, Links, Valid, Vertex.View, Values, Start, StopsAt, BetweenSteps, Iterated, Ends, Ready, Fails;
      hide EndBy, Web.Closed, Machine.KeepRunning, Bsp.State.Everywhere;
      hide Reached, RanFor, CounterAfter;
      StartsBetween(d, eps);
      ghost var bound := EndsBy(Links(), d, eps, maxSteps, expiresAt);
      var remaining := maxSteps;
      steps := 0;
      NothingYet(Links(), d, eps, maxSteps, expiresAt);
      WithinBound(Links(), d, eps, maxSteps, expiresAt, bound, 0);
      while remaining != 0
        invariant Valid() && BetweenSteps(d, eps) && Links() == old(Links())
        invariant steps == superstep && remaining == maxSteps - steps
        invariant Reached(Links(), d, eps, maxSteps, expiresAt, steps) && Iterated(Links(), d, Values(), steps)
        invariant steps <= bound
        decreases bound - steps
      {
        if expiresAt == Some(superstep) {
          ExpiresNow(Links(), d, eps, maxSteps, expiresAt, steps);
          return Some(ContextExpired), steps;
        }
        var keepRunning;
        keepRunning, err := Superstep(d, eps);
        if err != None {
          FailsNow(Links(), d, eps, maxSteps, expiresAt, steps);
          Superseded(Links(), d, Values(), steps);
          return err, steps;
        }
        if !keepRunning {
          StopsNow(Links(), d, eps, maxSteps, expiresAt, steps);
          return None, steps + 1;
        }
        OneMore(Links(), d, eps, maxSteps, expiresAt, steps);
        Advance(d, eps);
        steps := steps + 1;
        remaining := remaining - 1;
        WithinBound(Links(), d, eps, maxSteps, expiresAt, bound, steps);
      }
      LimitNow(Links(), d, eps, maxSteps, expiresAt, steps);
      return None, steps;
    }

    lemma StartsBetween(d: real, eps: real)
      requires Valid() && Start(Links(), View())
      ensures superstep == 0 && BetweenSteps(d, eps) && Iterated(Links(), d, Values(), 0)
    {
      hide Inv;
    }
  }
}
