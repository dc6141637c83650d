/** The bulk synchronous parallel engine as a step machine. Workers run compute functions
    concurrently; one step of the machine is one atomic action of one of them, so a run of the
    machine is an arbitrary interleaving. The compute function is arbitrary: while a vertex is
    being computed it may take messages, send messages, freeze itself, and return or fail. */
module Bsp {
  import opened Ids

  datatype Phase = Waiting | Computing | Done | Failed

  /** A vertex with its two message queues, indexed by superstep parity. */
  datatype Vertex<M> = Vertex(active: bool, even: seq<M>, odd: seq<M>, phase: Phase) {
    function Queue(i: nat): seq<M> {
      if i % 2 == 0 then even else odd
    }

    function WithQueue(i: nat, q: seq<M>): (v: Vertex<M>)
      ensures v.Queue(i) == q && v.Queue(i + 1) == Queue(i + 1)
      ensures v.active == active && v.phase == phase
    {
      if i % 2 == 0 then this.(even := q) else this.(odd := q)
    }
  }

  datatype State<M> = State(superstep: nat, vertices: map<Id, Vertex<M>>) {
    function ReadQueue(v: Id): seq<M>
      requires v in vertices
    {
      vertices[v].Queue(superstep)
    }

    function WriteQueue(v: Id): seq<M>
      requires v in vertices
    {
      vertices[v].Queue(superstep + 1)
    }

    ghost predicate Everywhere(p: Phase) {
      forall v :: v in vertices ==> vertices[v].phase == p
    }
  }

  datatype Label<M> =
    | Claim(v: Id)                      // a worker starts computing v
    | Skip(v: Id)                       // a worker finds nothing to do for v
    | Pop(v: Id, i: nat)                // v's compute function takes a message
    | Send(v: Id, dst: Id, msg: M)      // v's compute function sends a message
    | Freeze(v: Id)
    | Internal(v: Id)                   // an action on anything but queues and activity
    | Finish(v: Id)                     // compute returned; unread messages are discarded
    | Fail(v: Id)                       // compute returned an error
    | Advance                           // the next superstep begins

  ghost predicate Runs<M>(s: State<M>, v: Id) {
    v in s.vertices && s.vertices[v].phase == Computing
  }

  ghost function Put<M>(s: State<M>, v: Id, x: Vertex<M>): State<M> {
    s.(vertices := s.vertices[v := x])
  }

  ghost function NextSuperstep<M>(s: State<M>): State<M> {
    State(s.superstep + 1, map v | v in s.vertices :: s.vertices[v].(phase := Waiting))
  }

  ghost predicate Enabled<M>(s: State<M>, l: Label<M>) {
    match l
    case Claim(v) =>
      v in s.vertices && s.vertices[v].phase == Waiting && (s.vertices[v].active || s.ReadQueue(v) != [])
    case Skip(v) =>
      v in s.vertices && s.vertices[v].phase == Waiting && !s.vertices[v].active && s.ReadQueue(v) == []
    case Pop(v, i) => Runs(s, v) && i < |s.ReadQueue(v)|
    case Send(v, dst, _) => Runs(s, v) && dst in s.vertices
    case Advance => s.Everywhere(Done)
    case _ => Runs(s, l.v)
  }

  ghost function Apply<M>(s: State<M>, l: Label<M>): State<M>
    requires Enabled(s, l)
  {
    match l
    case Claim(v) => Put(s, v, s.vertices[v].(phase := Computing, active := true))
    case Skip(v) => Put(s, v, s.vertices[v].(phase := Done))
    case Pop(v, i) => Put(s, v, s.vertices[v].WithQueue(s.superstep, s.ReadQueue(v)[..i] + s.ReadQueue(v)[i + 1..]))
    case Send(v, dst, msg) => Put(s, dst, s.vertices[dst].WithQueue(s.superstep + 1, s.WriteQueue(dst) + [msg]))
    case Freeze(v) => Put(s, v, s.vertices[v].(active := false))
    case Internal(v) => s
    case Finish(v) => Put(s, v, s.vertices[v].WithQueue(s.superstep, []).(phase := Done))
    case Fail(v) => Put(s, v, s.vertices[v].(phase := Failed))
    case Advance => NextSuperstep(s)
  }

  ghost predicate Step<M>(s: State<M>, l: Label<M>, t: State<M>) {
    Enabled(s, l) && t == Apply(s, l)
  }

  lemma StepKeepsVertices<M>(s: State<M>, l: Label<M>, t: State<M>)
    requires Step(s, l, t)
    ensures t.vertices.Keys == s.vertices.Keys
    ensures t.superstep == if l == Advance then s.superstep + 1 else s.superstep
    ensures l != Advance ==> l.v in s.vertices
  {
  }

  // ---------------------------------------------------------------- what a step delivers

  /** The message that this step sends to `v`, if any. */
  ghost function SentBy<M>(l: Label<M>, v: Id): multiset<M> {
    if l.Send? && l.dst == v then multiset{l.msg} else multiset{}
  }

  /** The messages that this step hands to the compute function of `v`, if any. */
  ghost function OfferedBy<M>(s: State<M>, l: Label<M>, v: Id): multiset<M> {
    if l == Claim(v) && v in s.vertices then multiset(s.ReadQueue(v)) else multiset{}
  }

  ghost function ComputedBy<M>(l: Label<M>, v: Id): nat {
    if l == Claim(v) then 1 else 0
  }

  /** The queues of `v` hold what its history in the current superstep says they should: `sent` to
      it so far, `due` from the superstep before, `offered` to it so far, `computed` so often. */
  ghost predicate Accounted<M>(s: State<M>, v: Id, sent: multiset<M>, due: multiset<M>,
                               offered: multiset<M>, computed: nat)
  {
    && v in s.vertices
    && multiset(s.WriteQueue(v)) == sent
    && (s.vertices[v].phase == Waiting ==> multiset(s.ReadQueue(v)) == due && offered == multiset{} && computed == 0)
    && (s.vertices[v].phase != Waiting ==> offered == due && computed <= 1)
    && (s.vertices[v].phase == Done ==> s.ReadQueue(v) == [])
  }

  lemma AccountedWithin<M>(s: State<M>, l: Label<M>, t: State<M>, v: Id,
                           sent: multiset<M>, due: multiset<M>, offered: multiset<M>, computed: nat)
    requires Step(s, l, t) && l != Advance && Accounted(s, v, sent, due, offered, computed)
    ensures Accounted(t, v, sent + SentBy(l, v), due, offered + OfferedBy(s, l, v), computed + ComputedBy(l, v))
    ensures t.superstep == s.superstep
  {
    assert sent + multiset{} == sent && offered + multiset{} == offered && multiset{} + due == due;
    if l.v == v {
      OwnStep(s, l, t, v, sent, due, offered, computed);
    } else {
      ReadSideIsPrivate(s, l, t, v);
      WriteSideGrows(s, l, t, v);
    }
  }

  lemma WriteSideGrows<M>(s: State<M>, l: Label<M>, t: State<M>, v: Id)
    requires Step(s, l, t) && l != Advance && v in s.vertices
    ensures v in t.vertices && t.WriteQueue(v) == s.WriteQueue(v) + if l.Send? && l.dst == v then [l.msg] else []
  {
  }

  lemma OwnStep<M>(s: State<M>, l: Label<M>, t: State<M>, v: Id,
                   sent: multiset<M>, due: multiset<M>, offered: multiset<M>, computed: nat)
    requires Step(s, l, t) && l != Advance && l.v == v && Accounted(s, v, sent, due, offered, computed)
    ensures Accounted(t, v, sent + SentBy(l, v), due, offered + OfferedBy(s, l, v), computed + ComputedBy(l, v))
    ensures t.superstep == s.superstep
  {
    hide Step;
    WriteSideGrows(s, l, t, v);
    OwnPhase(s, l, t, v);
    assert multiset{} + due == due && offered + multiset{} == offered;
  }

  lemma OwnPhase<M>(s: State<M>, l: Label<M>, t: State<M>, v: Id)
    requires Step(s, l, t) && l != Advance && l.v == v
    ensures v in s.vertices && v in t.vertices && t.superstep == s.superstep
    ensures s.vertices[v].phase == (if l.Claim? || l.Skip? then Waiting else Computing)
    ensures t.vertices[v].phase != Waiting
    ensures l.Skip? ==> s.ReadQueue(v) == []
    ensures t.vertices[v].phase == Done ==> t.ReadQueue(v) == []
  {
  }

  lemma AccountedAdvance<M>(s: State<M>, t: State<M>, v: Id,
                            sent: multiset<M>, due: multiset<M>, offered: multiset<M>, computed: nat)
    requires Step(s, Advance, t) && Accounted(s, v, sent, due, offered, computed)
    ensures Accounted(t, v, multiset{}, sent, multiset{}, 0)
    ensures t.superstep == s.superstep + 1 && offered == due && computed <= 1
  {
    assert t.WriteQueue(v) == s.ReadQueue(v) == [];
    assert t.ReadQueue(v) == s.WriteQueue(v);
  }

  // ---------------------------------------------------------------- runs

  datatype Run<M> = Run(states: seq<State<M>>, labels: seq<Label<M>>) {
    ghost predicate Shaped() { |states| == |labels| + 1 }

    /** A run on a graph whose queues have never been used. */
    ghost predicate Valid() {
      && Shaped()
      && states[0].superstep == 0 && states[0].Everywhere(Waiting)
      && (forall v :: v in states[0].vertices ==> states[0].vertices[v].even == [] && states[0].vertices[v].odd == [])
      && forall i :: 0 <= i < |labels| ==> Step(states[i], labels[i], states[i + 1])
    }

    /** The messages sent to `v` during superstep `k` in the first `n` steps. */
    ghost function SentTo(n: nat, k: nat, v: Id): multiset<M>
      requires Shaped() && n <= |labels|
    {
      if n == 0 then multiset{}
      else SentTo(n - 1, k, v) + if states[n - 1].superstep == k then SentBy(labels[n - 1], v) else multiset{}
    }

    /** The messages handed to the compute function of `v` during superstep `k`. */
    ghost function OfferedTo(n: nat, k: nat, v: Id): multiset<M>
      requires Shaped() && n <= |labels|
    {
      if n == 0 then multiset{}
      else OfferedTo(n - 1, k, v)
           + if states[n - 1].superstep == k then OfferedBy(states[n - 1], labels[n - 1], v) else multiset{}
    }

    /** What has to be offered in superstep `k`: the messages of the superstep before. */
    ghost function DueTo(n: nat, k: nat, v: Id): multiset<M>
      requires Shaped() && n <= |labels|
    {
      if k == 0 then multiset{} else SentTo(n, k - 1, v)
    }

    /** How often `v` has been computed in superstep `k`. */
    ghost function Computations(n: nat, k: nat, v: Id): nat
      requires Shaped() && n <= |labels|
    {
      if n == 0 then 0
      else Computations(n - 1, k, v) + if states[n - 1].superstep == k then ComputedBy(labels[n - 1], v) else 0
    }
  }

  ghost predicate History<M>(r: Run<M>, n: nat, v: Id, k: nat)
    requires r.Shaped() && n <= |r.labels|
  {
    var now := r.states[n].superstep;
    && (k == now ==>
          Accounted(r.states[n], v, r.SentTo(n, k, v), r.DueTo(n, k, v), r.OfferedTo(n, k, v), r.Computations(n, k, v)))
    && (k < now ==> r.OfferedTo(n, k, v) == r.DueTo(n, k, v) && r.Computations(n, k, v) <= 1)
    && (now < k ==>
          r.SentTo(n, k, v) == multiset{} && r.OfferedTo(n, k, v) == multiset{} && r.Computations(n, k, v) == 0)
  }

  lemma {:induction false} HistoryHolds<M>(r: Run<M>, n: nat, v: Id, k: nat)
    requires r.Valid() && n <= |r.labels| && v in r.states[0].vertices
    ensures History(r, n, v, k)
    decreases n
  {
    if n == 0 {
      FreshAccounted(r.states[0], v);
    } else {
      hide *;
      HistoryHolds(r, n - 1, v, k);
      HistoryHolds(r, n - 1, v, r.states[n - 1].superstep);
      HistoryHolds(r, n - 1, v, r.states[n - 1].superstep + 1);
      ValidStep(r, n);
      if r.labels[n - 1] == Advance {
        HistoryAdvance(r, n, v, k);
      } else {
        HistoryWithin(r, n, v, k);
      }
    }
  }

  lemma ValidStep<M>(r: Run<M>, n: nat)
    requires r.Valid() && 0 < n <= |r.labels|
    ensures r.Shaped() && |r.states| == |r.labels| + 1 && Step(r.states[n - 1], r.labels[n - 1], r.states[n])
  {
    hide Step;
  }

  lemma HistoryWithin<M>(r: Run<M>, n: nat, v: Id, k: nat)
    requires r.Shaped() && 0 < n <= |r.labels| && Step(r.states[n - 1], r.labels[n - 1], r.states[n])
    requires r.labels[n - 1] != Advance
    requires History(r, n - 1, v, k) && History(r, n - 1, v, r.states[n - 1].superstep)
    ensures History(r, n, v, k)
  {
    hide Step, Accounted, SentBy, OfferedBy, ComputedBy, Run.SentTo, Run.OfferedTo, Run.Computations, Run.DueTo;
    var now := r.states[n - 1].superstep;
    AccountedWithin(r.states[n - 1], r.labels[n - 1], r.states[n], v,
                    r.SentTo(n - 1, now, v), r.DueTo(n - 1, now, v), r.OfferedTo(n - 1, now, v),
                    r.Computations(n - 1, now, v));
    if k == now {
      HistoryGrows(r, n, v);
    } else {
      HistoryKept(r, n, v, k);
      if k < now {
        DueKept(r, n, v, k);
      }
    }
  }

  lemma DueKept<M>(r: Run<M>, n: nat, v: Id, k: nat)
    requires r.Shaped() && 0 < n <= |r.labels| && k <= r.states[n - 1].superstep
    ensures r.DueTo(n, k, v) == r.DueTo(n - 1, k, v)
  {
    if 0 < k {
      HistoryKept(r, n, v, k - 1);
    }
  }

  lemma HistoryGrows<M>(r: Run<M>, n: nat, v: Id)
    requires r.Shaped() && 0 < n <= |r.labels|
    ensures var now, l := r.states[n - 1].superstep, r.labels[n - 1];
            && r.SentTo(n, now, v) == r.SentTo(n - 1, now, v) + SentBy(l, v)
            && r.DueTo(n, now, v) == r.DueTo(n - 1, now, v)
            && r.OfferedTo(n, now, v) == r.OfferedTo(n - 1, now, v) + OfferedBy(r.states[n - 1], l, v)
            && r.Computations(n, now, v) == r.Computations(n - 1, now, v) + ComputedBy(l, v)
  {
    hide SentBy, OfferedBy, ComputedBy;
    DueKept(r, n, v, r.states[n - 1].superstep);
  }

  /** What a superstep that is about to start owes to `v` is what the one before was sent. */
  lemma DueNext<M>(r: Run<M>, n: nat, v: Id)
    requires r.Shaped() && 0 < n <= |r.labels|
    ensures r.DueTo(n, r.states[n - 1].superstep + 1, v) == r.SentTo(n, r.states[n - 1].superstep, v)
  {
    hide Run.SentTo;
  }

  lemma HistoryAdvance<M>(r: Run<M>, n: nat, v: Id, k: nat)
    requires r.Shaped() && 0 < n <= |r.labels| && Step(r.states[n - 1], r.labels[n - 1], r.states[n])
    requires r.labels[n - 1] == Advance
    requires History(r, n - 1, v, k)
    requires History(r, n - 1, v, r.states[n - 1].superstep) && History(r, n - 1, v, r.states[n - 1].superstep + 1)
    ensures History(r, n, v, k)
  {
    hide Step, Accounted, Run.SentTo, Run.OfferedTo, Run.Computations, Run.DueTo;
    var now := r.states[n - 1].superstep;
    AccountedAdvance(r.states[n - 1], r.states[n], v, r.SentTo(n - 1, now, v), r.DueTo(n - 1, now, v),
                     r.OfferedTo(n - 1, now, v), r.Computations(n - 1, now, v));
    HistoryKept(r, n, v, k);
    if k <= now {
      DueKept(r, n, v, k);
    } else if k == now + 1 {
      HistoryKept(r, n, v, now);
      DueNext(r, n, v);
    }
  }

  lemma FreshAccounted<M>(s: State<M>, v: Id)
    requires v in s.vertices && s.Everywhere(Waiting) && s.vertices[v].even == [] && s.vertices[v].odd == []
    ensures Accounted(s, v, multiset{}, multiset{}, multiset{}, 0)
  {
  }

  /** A step adds to the history of its own superstep only, and starting a superstep adds nothing. */
  lemma HistoryKept<M>(r: Run<M>, n: nat, v: Id, k: nat)
    requires r.Shaped() && 0 < n <= |r.labels| && (r.labels[n - 1] == Advance || r.states[n - 1].superstep != k)
    ensures r.SentTo(n, k, v) == r.SentTo(n - 1, k, v)
    ensures r.OfferedTo(n, k, v) == r.OfferedTo(n - 1, k, v)
    ensures r.Computations(n, k, v) == r.Computations(n - 1, k, v)
  {
  }

  /** Isolation, over every run and every interleaving. What is offered to `v` in superstep `k` is
      exactly what was sent to it in `k - 1`, each message as often as it was sent, once `v` has
      had its turn in `k`; nothing is ever offered in any other superstep; `v` is computed at most
      once in `k`; and while nothing has been sent in a superstep the write side is empty. */
  lemma Isolation<M>(r: Run<M>, n: nat, v: Id, k: nat)
    requires r.Valid() && n <= |r.labels| && v in r.states[0].vertices
    ensures v in r.states[n].vertices
    ensures var turnOver := k < r.states[n].superstep
                            || (k == r.states[n].superstep && r.states[n].vertices[v].phase != Waiting);
            && r.OfferedTo(n, k, v) == (if turnOver then r.DueTo(n, k, v) else multiset{})
            && r.Computations(n, k, v) <= (if turnOver then 1 else 0)
    ensures multiset(r.states[n].WriteQueue(v)) == r.SentTo(n, r.states[n].superstep, v)
  {
    HistoryHolds(r, n, v, k);
    HistoryHolds(r, n, v, r.states[n].superstep);
  }

  /** When a superstep begins, nothing has been sent in it yet: every write side is empty. */
  lemma WriteSideStartsEmpty<M>(r: Run<M>, n: nat, v: Id)
    requires r.Valid() && 0 < n <= |r.labels| && r.labels[n - 1] == Advance && v in r.states[0].vertices
    ensures v in r.states[n].vertices && r.states[n].WriteQueue(v) == []
  {
    hide Run.SentTo, Run.OfferedTo, Run.DueTo, Run.Computations;
    HistoryHolds(r, n - 1, v, r.states[n - 1].superstep);
    ValidStep(r, n);
  }

  /** Whether a waiting vertex is computed or skipped depends only on its activity and on whether
      anything was sent to it in the superstep before. */
  lemma TurnIsDecided<M>(r: Run<M>, n: nat, v: Id)
    requires r.Valid() && n <= |r.labels| && v in r.states[0].vertices
    requires v in r.states[n].vertices && r.states[n].vertices[v].phase == Waiting
    ensures var s := r.states[n];
            var due := r.DueTo(n, s.superstep, v) != multiset{};
            && (Enabled(s, Claim(v)) <==> s.vertices[v].active || due)
            && (Enabled(s, Skip(v)) <==> !s.vertices[v].active && !due)
  {
    var s := r.states[n];
    HistoryHolds(r, n, v, s.superstep);
    if s.ReadQueue(v) != [] {
      assert s.ReadQueue(v)[0] in multiset(s.ReadQueue(v));
    }
  }

  // ---------------------------------------------------------------- what is taken

  /** The message that the compute function of `v` takes in this step, if any. */
  ghost function TakenBy<M>(s: State<M>, l: Label<M>, v: Id): multiset<M> {
    if l.Pop? && l.v == v && v in s.vertices && l.i < |s.ReadQueue(v)|
    then multiset{s.ReadQueue(v)[l.i]} else multiset{}
  }

  /** The messages that the compute function of `v` has taken during superstep `k`. */
  ghost function TakenIn<M>(r: Run<M>, n: nat, k: nat, v: Id): multiset<M>
    requires r.Shaped() && n <= |r.labels|
  {
    if n == 0 then multiset{}
    else TakenIn(r, n - 1, k, v)
         + if r.states[n - 1].superstep == k then TakenBy(r.states[n - 1], r.labels[n - 1], v) else multiset{}
  }

  /** What has been taken and what is left to read, for a vertex that has been claimed. */
  ghost predicate Unread<M>(s: State<M>, v: Id, offered: multiset<M>, taken: multiset<M>) {
    && v in s.vertices && taken <= offered
    && (s.vertices[v].phase == Waiting ==> taken == multiset{})
    && (s.vertices[v].phase == Computing || s.vertices[v].phase == Failed ==>
          multiset(s.ReadQueue(v)) + taken == offered)
  }

  lemma UnreadPop<M>(s: State<M>, l: Label<M>, t: State<M>, v: Id, offered: multiset<M>, taken: multiset<M>)
    requires Step(s, l, t) && l.Pop? && l.v == v && Unread(s, v, offered, taken)
    ensures Unread(t, v, offered, taken + TakenBy(s, l, v))
  {
    var q, i := s.ReadQueue(v), l.i;
    assert q == q[..i] + [q[i]] + q[i + 1..];
    assert multiset(t.ReadQueue(v)) + multiset{q[i]} == multiset(q);
    assert multiset(t.ReadQueue(v)) + (taken + multiset{q[i]}) == multiset(q) + taken;
  }

  /** What a step that takes nothing does to the queue that `v` reads. */
  lemma ReadStays<M>(s: State<M>, l: Label<M>, t: State<M>, v: Id)
    requires Step(s, l, t) && l != Advance && v in s.vertices && !(l.Pop? && l.v == v)
    ensures v in t.vertices
    ensures t.ReadQueue(v) == if l == Finish(v) then [] else s.ReadQueue(v)
    ensures t.vertices[v].phase == Waiting ==> s.vertices[v].phase == Waiting
    ensures t.vertices[v].phase == Computing || t.vertices[v].phase == Failed ==>
              l == Claim(v) || s.vertices[v].phase == Computing || s.vertices[v].phase == Failed
    ensures l == Claim(v) ==> s.vertices[v].phase == Waiting
    ensures l == Finish(v) ==> t.vertices[v].phase == Done
  {
  }

  lemma UnreadWithin<M>(s: State<M>, l: Label<M>, t: State<M>, v: Id, offered: multiset<M>, taken: multiset<M>)
    requires Step(s, l, t) && l != Advance && Unread(s, v, offered, taken)
    requires s.vertices[v].phase == Waiting ==> offered == multiset{}
    ensures Unread(t, v, offered + OfferedBy(s, l, v), taken + TakenBy(s, l, v))
  {
    hide Step;
    assert offered + multiset{} == offered && taken + multiset{} == taken;
    if l.v == v && l.Pop? {
      UnreadPop(s, l, t, v, offered, taken);
    } else {
      ReadStays(s, l, t, v);
      assert multiset{} + multiset(s.ReadQueue(v)) == multiset(s.ReadQueue(v)) + multiset{};
    }
  }

  lemma {:induction false} NothingTakenYet<M>(r: Run<M>, n: nat, v: Id, k: nat)
    requires r.Valid() && n <= |r.labels| && r.states[n].superstep < k
    ensures TakenIn(r, n, k, v) == multiset{}
  {
    hide Step;
    if 0 < n {
      ValidStep(r, n);
      StepKeepsVertices(r.states[n - 1], r.labels[n - 1], r.states[n]);
      NothingTakenYet(r, n - 1, v, k);
    }
  }

  /** No message is taken twice or lost: at every point of every run, what a compute function has
      taken in this superstep was offered to it, and what it has not taken is still in the queue as
      long as it runs, and stays there if it fails. */
  lemma {:induction false} TakenOnce<M>(r: Run<M>, n: nat, v: Id)
    requires r.Valid() && n <= |r.labels| && v in r.states[0].vertices
    ensures var k := r.states[n].superstep;
            Unread(r.states[n], v, r.OfferedTo(n, k, v), TakenIn(r, n, k, v))
  {
    hide Step, Unread, SentBy, OfferedBy, TakenBy, Accounted;
    HistoryHolds(r, n, v, r.states[n].superstep);
    if n == 0 {
      FreshUnread(r.states[0], v);
    } else {
      var s, l, t := r.states[n - 1], r.labels[n - 1], r.states[n];
      ValidStep(r, n);
      StepKeepsVertices(s, l, t);
      HistoryHolds(r, n - 1, v, s.superstep);
      WaitingUnoffered(s, v, r.SentTo(n - 1, s.superstep, v), r.DueTo(n - 1, s.superstep, v),
                       r.OfferedTo(n - 1, s.superstep, v), r.Computations(n - 1, s.superstep, v));
      if l == Advance {
        HistoryHolds(r, n - 1, v, t.superstep);
        NothingTakenYet(r, n - 1, v, t.superstep);
        HistoryKept(r, n, v, t.superstep);
        AdvanceUnread(s, t, v);
        WaitingUnoffered(t, v, r.SentTo(n, t.superstep, v), r.DueTo(n, t.superstep, v),
                         r.OfferedTo(n, t.superstep, v), r.Computations(n, t.superstep, v));
      } else {
        TakenOnce(r, n - 1, v);
        UnreadWithin(s, l, t, v, r.OfferedTo(n - 1, s.superstep, v), TakenIn(r, n - 1, s.superstep, v));
      }
    }
  }

  lemma FreshUnread<M>(s: State<M>, v: Id)
    requires v in s.vertices && s.Everywhere(Waiting)
    ensures Unread(s, v, multiset{}, multiset{})
  {
  }

  lemma AdvanceUnread<M>(s: State<M>, t: State<M>, v: Id)
    requires Step(s, Advance, t) && v in s.vertices
    ensures v in t.vertices && t.vertices[v].phase == Waiting && Unread(t, v, multiset{}, multiset{})
  {
  }

  lemma WaitingUnoffered<M>(s: State<M>, v: Id, sent: multiset<M>, due: multiset<M>,
                            offered: multiset<M>, computed: nat)
    requires Accounted(s, v, sent, due, offered, computed)
    ensures v in s.vertices && (s.vertices[v].phase == Waiting ==> offered == multiset{})
  {
  }

  // ---------------------------------------------------------------- when a vertex is active

  /** Label `c` is the last among the first `n` with which `v` was claimed. */
  ghost predicate LastClaim<M>(r: Run<M>, n: nat, v: Id, c: nat) {
    c < n <= |r.labels| && r.labels[c] == Claim(v) && forall i :: c < i < n ==> r.labels[i] != Claim(v)
  }

  ghost predicate NeverClaimed<M>(r: Run<M>, n: nat, v: Id) {
    n <= |r.labels| && forall i :: 0 <= i < n ==> r.labels[i] != Claim(v)
  }

  /** `v` has frozen itself after label `c`. */
  ghost predicate FrozeSince<M>(r: Run<M>, n: nat, v: Id, c: nat) {
    n <= |r.labels| && exists i :: c < i < n && r.labels[i] == Freeze(v)
  }

  /** How a step changes activity and phase. */
  lemma ActivityMoves<M>(s: State<M>, l: Label<M>, t: State<M>, v: Id)
    requires Step(s, l, t) && v in s.vertices
    ensures v in t.vertices
    ensures t.vertices[v].active
         == if l == Claim(v) then true else if l == Freeze(v) then false else s.vertices[v].active
    ensures l == Freeze(v) ==> s.vertices[v].phase == Computing
    ensures t.vertices[v].phase == Computing ==> l == Claim(v) || s.vertices[v].phase == Computing
  {
  }

  /** A vertex is active if and only if it has not frozen itself since it was last claimed; one that
      was never claimed is as it was at the start. */
  lemma {:induction false} ActiveIff<M>(r: Run<M>, n: nat, v: Id)
    requires r.Valid() && n <= |r.labels| && v in r.states[0].vertices
    ensures v in r.states[n].vertices
    ensures NeverClaimed(r, n, v) ==> r.states[n].vertices[v].active == r.states[0].vertices[v].active
    ensures NeverClaimed(r, n, v) ==> r.states[n].vertices[v].phase != Computing
    ensures forall c: nat :: LastClaim(r, n, v, c) ==> (r.states[n].vertices[v].active <==> !FrozeSince(r, n, v, c))
  {
    hide Step;
    if 0 < n {
      ActiveIff(r, n - 1, v);
      ValidStep(r, n);
      ActivityMoves(r.states[n - 1], r.labels[n - 1], r.states[n], v);
      assert NeverClaimed(r, n, v) ==> NeverClaimed(r, n - 1, v);
      forall c: nat | LastClaim(r, n, v, c)
        ensures r.states[n].vertices[v].active <==> !FrozeSince(r, n, v, c)
      {
        if c < n - 1 {
          assert LastClaim(r, n - 1, v, c);
          assert FrozeSince(r, n, v, c) <==> FrozeSince(r, n - 1, v, c) || r.labels[n - 1] == Freeze(v);
        }
      }
    }
  }

  /** What decides about `v` - its activity, its phase and the queue it reads - is out of reach of all
      other vertices during a superstep, and of all sends, those of `v` to itself included. */
  lemma ReadSideIsPrivate<M>(s: State<M>, l: Label<M>, t: State<M>, v: Id)
    requires Step(s, l, t) && v in s.vertices && l != Advance && (l.v != v || l.Send?)
    ensures v in t.vertices && t.superstep == s.superstep
    ensures t.ReadQueue(v) == s.ReadQueue(v)
    ensures t.vertices[v].active == s.vertices[v].active && t.vertices[v].phase == s.vertices[v].phase
  {
  }
}
