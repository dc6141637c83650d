/** The PageRank program running on the bulk synchronous parallel engine. A worker executes the
    compute function of a vertex as a sequence of atomic actions - reading an accumulator, taking a
    message, adding to an accumulator, storing the score, enqueuing one message - and the actions of
    all vertices interleave freely. The initial vertex values and queue contents are arbitrary, so
    a run may start on whatever an earlier run left behind. */
module Calculator {
  import opened Ids
  import opened Sums
  import opened PageRank
  import Bsp

  /** Where the compute function of a vertex stands. */
  datatype Pc =
    | Idle
    | Started
    | Summing(sum: real)
    | Scored(score: real)
    | Recorded(score: real)
    | Sending(score: real, sent: nat)
    | Returned

  datatype AggregatorName = SumOfDifferences | Residual0 | Residual1

  /** The accumulator that a superstep writes its dead-end scores to. */
  function ResidualOutput(superstep: nat): (r: AggregatorName)
    ensures r == Residual0 || r == Residual1
    ensures r == ResidualInput(superstep + 1) && r != ResidualInput(superstep)
  {
    if superstep % 2 == 0 then Residual0 else Residual1
  }

  /** The accumulator that a superstep reads the dead-end scores of the superstep before from. */
  function ResidualInput(superstep: nat): (r: AggregatorName)
    ensures r == Residual0 || r == Residual1
  {
    if (superstep + 1) % 2 == 0 then Residual0 else Residual1
  }

  /** The current sums of the accumulators. */
  datatype Accumulators = Accumulators(sad: real, residual0: real, residual1: real) {
    function At(n: AggregatorName): real {
      match n
      case SumOfDifferences => sad
      case Residual0 => residual0
      case Residual1 => residual1
    }

    function With(n: AggregatorName, x: real): Accumulators {
      match n
      case SumOfDifferences => this.(sad := x)
      case Residual0 => this.(residual0 := x)
      case Residual1 => this.(residual1 := x)
    }
  }

  datatype Machine = Machine(
    bsp: Bsp.State<real>,
    value: Scores,
    pc: map<Id, Pc>,
    pageCount: nat,
    acc: Accumulators)
  {
    ghost predicate Shaped(w: Web) {
      bsp.vertices.Keys == value.Keys == pc.Keys == w.ids
    }

    /** The predicate that the executor evaluates between two supersteps. */
    ghost predicate KeepRunning(eps: real) {
      !(bsp.superstep > 1 && acc.sad < eps)
    }
  }

  datatype Action =
    | Begin(v: Id)
    | CountPage(v: Id)          // superstep 0
    | Initialize(v: Id)         // the share every vertex gets
    | TakeMessage(v: Id, i: nat)
    | AddResidual(v: Id)
    | Record(v: Id)             // add |new - old| to the sum of differences
    | SetScore(v: Id)
    | DeadEnd(v: Id)            // no outgoing edge: feed the residual
    | SendNext(v: Id)           // enqueue the message for the next edge
    | AllSent(v: Id)
    | End(v: Id)
    | NextSuperstep

  /** An equal share for each of `pages` pages. */
  function PerPage(x: real, pages: nat): real
    requires pages != 0
  {
    x / pages as real
  }

  /** Superstep 1 starts from an equal share; later ones add the messages to the teleport share. */
  function FirstPc(superstep: nat, score: real): Pc {
    if superstep == 1 then Scored(score) else Summing(score)
  }

  ghost predicate At(w: Web, m: Machine, v: Id, pc: Pc) {
    m.Shaped(w) && v in w.ids && m.pc[v] == pc
  }

  /** The queue and scheduling effect of an action. */
  ghost function Effect(w: Web, m: Machine, a: Action): Bsp.Label<real> {
    match a
    case Begin(v) => Bsp.Claim(v)
    case TakeMessage(v, i) => Bsp.Pop(v, i)
    case SendNext(v) =>
      if m.Shaped(w) && w.Closed() && v in w.ids && m.pc[v].Sending? && m.pc[v].sent < |w.out[v]|
      then Bsp.Send(v, w.out[v][m.pc[v].sent], m.pc[v].score / |w.out[v]| as real)
      else Bsp.Internal(v)
    case End(v) => Bsp.Finish(v)
    case NextSuperstep => Bsp.Advance
    case _ => Bsp.Internal(a.v)
  }

  /** When the program of the acting vertex has reached the action. */
  ghost predicate Ready(w: Web, m: Machine, a: Action)
    requires w.Closed() && m.Shaped(w)
  {
    var s := m.bsp.superstep;
    match a
    case Begin(v) => At(w, m, v, Idle)
    case CountPage(v) => At(w, m, v, Started) && s == 0
    case Initialize(v) => At(w, m, v, Started) && 1 <= s && m.pageCount != 0
    case TakeMessage(v, i) => v in w.ids && m.pc[v].Summing? && i < |m.bsp.ReadQueue(v)|
    case AddResidual(v) => v in w.ids && m.pc[v].Summing? && m.bsp.ReadQueue(v) == []
    case Record(v) => v in w.ids && m.pc[v].Scored?
    case SetScore(v) => v in w.ids && m.pc[v].Recorded?
    case DeadEnd(v) => v in w.ids && m.pc[v].Sending? && w.out[v] == [] && m.pageCount != 0
    case SendNext(v) => v in w.ids && m.pc[v].Sending? && m.pc[v].sent < |w.out[v]|
    case AllSent(v) => v in w.ids && m.pc[v].Sending? && w.out[v] != [] && m.pc[v].sent == |w.out[v]|
    case End(v) => At(w, m, v, Returned)
    case NextSuperstep => true
  }

  ghost predicate Enabled(w: Web, eps: real, m: Machine, a: Action) {
    && w.Closed() && m.Shaped(w)
    && Ready(w, m, a)
    && Bsp.Enabled(m.bsp, Effect(w, m, a))
    && (a == NextSuperstep ==> m.KeepRunning(eps))
  }

  /** Where the action takes the program of its vertex. */
  ghost function PcAfter(w: Web, d: real, m: Machine, a: Action): Pc
    requires w.Closed() && m.Shaped(w) && Ready(w, m, a) && a != NextSuperstep
  {
    var s := m.bsp.superstep;
    match a
    case Begin(_) => Started
    case Initialize(_) => FirstPc(s, PerPage(if s == 1 then 1.0 else 1.0 - d, m.pageCount))
    case TakeMessage(v, i) => Summing(m.pc[v].sum + Mul(d, m.bsp.ReadQueue(v)[i]))
    case AddResidual(v) => Scored(m.pc[v].sum + Mul(d, m.acc.At(ResidualInput(s))))
    case Record(v) => Recorded(m.pc[v].score)
    case SetScore(v) => Sending(m.pc[v].score, 0)
    case SendNext(v) => Sending(m.pc[v].score, m.pc[v].sent + 1)
    case CountPage(_) => Returned
    case DeadEnd(_) => Returned
    case AllSent(_) => Returned
    case End(_) => Idle
  }

  /** The state after the action. Starting a superstep resets the sum of differences and the
      residual that is about to be written. */
  ghost function Perform(w: Web, d: real, eps: real, m: Machine, a: Action): Machine
    requires Enabled(w, eps, m, a)
  {
    var s := m.bsp.superstep;
    var after := m.(bsp := Bsp.Apply(m.bsp, Effect(w, m, a)));
    if a == NextSuperstep then
      after.(acc := m.acc.With(SumOfDifferences, 0.0).With(ResidualOutput(s + 1), 0.0))
    else
      var next := after.(pc := m.pc[a.v := PcAfter(w, d, m, a)]);
      match a
      case CountPage(_) => next.(pageCount := m.pageCount + 1)
      case Record(v) =>
        var sum := m.acc.At(SumOfDifferences) + Abs(m.value[v] - m.pc[v].score);
        next.(acc := m.acc.With(SumOfDifferences, sum))
      case SetScore(v) => next.(value := m.value[v := m.pc[v].score])
      case DeadEnd(v) =>
        var sum := m.acc.At(ResidualOutput(s)) + PerPage(m.pc[v].score, m.pageCount);
        next.(acc := m.acc.With(ResidualOutput(s), sum))
      case _ => next
  }

  ghost predicate Step(w: Web, d: real, eps: real, m: Machine, a: Action, t: Machine) {
    Enabled(w, eps, m, a) && t == Perform(w, d, eps, m, a)
  }

  /** The machine as a new executor finds it: fresh accumulators, superstep 0, everything else as
      it happens to be. */
  ghost predicate Start(w: Web, m: Machine) {
    && m.Shaped(w)
    && m.bsp.superstep == 0 && m.bsp.Everywhere(Bsp.Waiting)
    && (forall v :: v in w.ids ==> m.bsp.vertices[v].active && m.pc[v] == Idle)
    && m.pageCount == 0
    && m.acc == Accumulators(0.0, 0.0, 0.0)
  }

  // ---------------------------------------------------------------- what has been sent so far

  ghost function QueueSum(q: seq<real>): real {
    if q == [] then 0.0 else QueueSum(q[..|q| - 1]) + q[|q| - 1]
  }

  lemma {:induction false} QueueSumRemove(q: seq<real>, i: nat)
    requires i < |q|
    ensures QueueSum(q) == q[i] + QueueSum(q[..i] + q[i + 1..])
  {
    var rest := q[..i] + q[i + 1..];
    if i == |q| - 1 {
      assert rest == q[..i];
    } else {
      QueueSumRemove(q[..|q| - 1], i);
      assert rest[..|rest| - 1] == q[..|q| - 1][..i] + q[..|q| - 1][i + 1..];
      assert rest[|rest| - 1] == q[|q| - 1];
    }
  }

  lemma QueueSumAppend(q: seq<real>, x: real)
    ensures QueueSum(q + [x]) == QueueSum(q) + x
  {
    assert (q + [x])[..|q|] == q;
  }

  /** The sum of what the vertices in `from` have sent to `v`, when `u` has served its first
      `sent[u]` edges with an equal share of `y[u]` each. */
  ghost function Delivered(w: Web, y: Scores, sent: map<Id, nat>, from: set<Id>, v: Id): real
    requires w.Closed() && y.Keys == sent.Keys == w.ids && from <= w.ids
    decreases |from|
  {
    if from == {} then 0.0
    else
      var u := PickFrom(from);
      Portion(w, y, sent, u, v) + Delivered(w, y, sent, from - {u}, v)
  }

  ghost function Portion(w: Web, y: Scores, sent: map<Id, nat>, u: Id, v: Id): real
    requires w.Closed() && y.Keys == sent.Keys == w.ids && u in w.ids
  {
    if w.out[u] == [] || |w.out[u]| < sent[u] then 0.0
    else Mul(y[u] / |w.out[u]| as real, multiset(w.out[u][..sent[u]])[v] as real)
  }

  lemma {:induction false} DeliveredRemove(w: Web, y: Scores, sent: map<Id, nat>, from: set<Id>, a: Id, v: Id)
    requires w.Closed() && y.Keys == sent.Keys == w.ids && from <= w.ids && a in from
    ensures Delivered(w, y, sent, from, v) == Portion(w, y, sent, a, v) + Delivered(w, y, sent, from - {a}, v)
    decreases |from|
  {
    hide Portion;
    var u := PickFrom(from);
    if u != a {
      DeliveredRemove(w, y, sent, from - {u}, a, v);
      DeliveredRemove(w, y, sent, from - {a}, u, v);
      assert from - {u} - {a} == from - {a} - {u};
    }
  }

  lemma {:induction false} DeliveredFrame(w: Web, y: Scores, s1: map<Id, nat>, s2: map<Id, nat>, from: set<Id>, v: Id)
    requires w.Closed() && y.Keys == s1.Keys == s2.Keys == w.ids && from <= w.ids
    requires forall u :: u in from ==> s1[u] == s2[u]
    ensures Delivered(w, y, s1, from, v) == Delivered(w, y, s2, from, v)
    decreases |from|
  {
    if from != {} {
      hide Mul;
      DeliveredFrame(w, y, s1, s2, from - {PickFrom(from)}, v);
    }
  }

  lemma {:induction false} NothingDelivered(w: Web, y: Scores, sent: map<Id, nat>, from: set<Id>, v: Id)
    requires w.Closed() && y.Keys == sent.Keys == w.ids && from <= w.ids
    requires forall u :: u in from ==> sent[u] == 0
    ensures Delivered(w, y, sent, from, v) == 0.0
    decreases |from|
  {
    if from != {} {
      hide Mul;
      var u := PickFrom(from);
      assert w.out[u][..0] == [];
      if w.out[u] != [] {
        MulOne(y[u] / |w.out[u]| as real);
      }
      NothingDelivered(w, y, sent, from - {u}, v);
    }
  }

  /** Serving one more edge of `u` adds one share at the end of that edge. */
  lemma DeliveredOneMore(w: Web, y: Scores, sent: map<Id, nat>, u: Id, v: Id)
    requires w.Closed() && y.Keys == sent.Keys == w.ids && u in w.ids && sent[u] < |w.out[u]|
    ensures Delivered(w, y, sent[u := sent[u] + 1], w.ids, v)
         == Delivered(w, y, sent, w.ids, v) + if w.out[u][sent[u]] == v then y[u] / |w.out[u]| as real else 0.0
  {
    hide Portion, Delivered;
    var more := sent[u := sent[u] + 1];
    DeliveredRemove(w, y, sent, w.ids, u, v);
    DeliveredRemove(w, y, more, w.ids, u, v);
    DeliveredFrame(w, y, sent, more, w.ids - {u}, v);
    PortionOneMore(w, y, sent, u, v);
  }

  lemma PortionOneMore(w: Web, y: Scores, sent: map<Id, nat>, u: Id, v: Id)
    requires w.Closed() && y.Keys == sent.Keys == w.ids && u in w.ids && sent[u] < |w.out[u]|
    ensures Portion(w, y, sent[u := sent[u] + 1], u, v)
         == Portion(w, y, sent, u, v) + if w.out[u][sent[u]] == v then y[u] / |w.out[u]| as real else 0.0
  {
    hide Mul;
    var k := sent[u];
    assert w.out[u][..k + 1] == w.out[u][..k] + [w.out[u][k]];
    var share := y[u] / |w.out[u]| as real;
    var before := multiset(w.out[u][..k])[v] as real;
    MulAdd(share, before, 1.0);
    MulOne(share);
  }

  // ---------------------------------------------------------------- all sent: one PageRank iteration

  ghost function Degrees(w: Web): (f: map<Id, nat>)
    requires w.Closed()
    ensures f.Keys == w.ids
  {
    map u | u in w.ids :: |w.out[u]|
  }

  /** The residual that the dead ends among `from` have contributed. */
  ghost function Residual(w: Web, y: Scores, from: set<Id>): real
    requires w.Closed() && y.Keys == w.ids && from <= w.ids
  {
    Total(ResidualTerms(w, y, from))
  }

  ghost function ResidualTerms(w: Web, y: Scores, from: set<Id>): Scores
    requires w.Closed() && y.Keys == w.ids && from <= w.ids
  {
    map u | u in from && w.out[u] == [] :: y[u] / |w.ids| as real
  }

  /** Full delivery plus the residual is what arrives along the transition matrix. */
  lemma {:induction false} DeliveredIsArrives(w: Web, y: Scores, from: set<Id>, v: Id)
    requires w.Closed() && y.Keys == w.ids && from <= w.ids
    ensures Arrives(w, y, from, v) == Delivered(w, y, Degrees(w), from, v) + Residual(w, y, from)
    decreases |from|
  {
    if from == {} {
      assert ResidualTerms(w, y, from) == map[];
    } else {
      hide Residual, Portion, P, Mul;
      var u := PickFrom(from);
      DeliveredIsArrives(w, y, from - {u}, v);
      ResidualRemove(w, y, from, u);
      PortionIsShare(w, y, u, v);
    }
  }

  lemma ResidualRemove(w: Web, y: Scores, from: set<Id>, u: Id)
    requires w.Closed() && y.Keys == w.ids && from <= w.ids && u in from
    ensures Residual(w, y, from) == Residual(w, y, from - {u}) + if w.out[u] == [] then y[u] / |w.ids| as real else 0.0
  {
    hide Total;
    var all, rest := ResidualTerms(w, y, from), ResidualTerms(w, y, from - {u});
    if w.out[u] == [] {
      TotalRemove(all, u);
      assert all - {u} == rest;
    } else {
      assert all == rest;
    }
  }

  lemma PortionIsShare(w: Web, y: Scores, u: Id, v: Id)
    requires w.Closed() && y.Keys == w.ids && u in w.ids
    ensures Mul(y[u], P(w, u, v))
         == Portion(w, y, Degrees(w), u, v) + if w.out[u] == [] then y[u] / |w.ids| as real else 0.0
  {
    if w.out[u] != [] {
      assert w.out[u][..|w.out[u]|] == w.out[u];
      ShareArithmetic(y[u], multiset(w.out[u])[v] as real, |w.out[u]| as real);
    }
  }

  lemma ShareArithmetic(x: real, c: real, n: real)
    requires n > 0.0
    ensures x * (c / n) == (x / n) * c
  {
  }

  /** What a vertex adds up in a superstep is its entry of the next iterate. */
  lemma TargetSplits(w: Web, d: real, s: nat, v: Id)
    requires w.Closed() && 2 <= s && v in w.ids
    ensures var x := ScoresAt(w, d, s - 1);
            ScoresAt(w, d, s)[v]
            == Teleport(w, d) + Mul(d, Delivered(w, x, Degrees(w), w.ids, v)) + Mul(d, Residual(w, x, w.ids))
  {
    hide Mul, Delivered, Residual, Arrives, Teleport;
    var x := ScoresAt(w, d, s - 1);
    DeliveredIsArrives(w, x, w.ids, v);
    MulAdd(d, Delivered(w, x, Degrees(w), w.ids, v), Residual(w, x, w.ids));
  }
}
