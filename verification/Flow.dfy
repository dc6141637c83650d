/** What a pipeline delivers in a run without errors and cancellation, in which processors are
    functions of the payload's content: exactly what the stages make of the source's payloads. */
module Flow {
  import opened Options
  import opened Sums
  import opened Pipeline

  // ---------------------------------------------------------------- what the stages make of a payload

  /** What reaches the sink of a payload that enters stage `i`. */
  ghost function StageYield(t: Topology, i: nat, p: Payload): multiset<Payload>
    decreases |t.stages| - i, 2, 0
  {
    if |t.stages| <= i then multiset{p}
    else if t.stages[i].kind == Broadcast then BroadcastYield(t, i, 0, p)
    else WorkYield(t, i, 0, p)
  }

  /** What reaches the sink of a payload that processor `j` of stage `i` works on. */
  ghost function WorkYield(t: Topology, i: nat, j: nat, p: Payload): multiset<Payload>
    requires i < |t.stages|
    decreases |t.stages| - i, 0, 0
  {
    match t.proc(i, j, p)
    case None => multiset{}
    case Some(q) => StageYield(t, i + 1, q)
  }

  /** The processors of a broadcast from `j` on. */
  ghost function BroadcastYield(t: Topology, i: nat, j: nat, p: Payload): multiset<Payload>
    requires i < |t.stages|
    decreases |t.stages| - i, 1, t.stages[i].width - j
  {
    if t.stages[i].width <= j then multiset{} else WorkYield(t, i, j, p) + BroadcastYield(t, i, j + 1, p)
  }

  ghost function ItemsYield(t: Topology, items: seq<Payload>): multiset<Payload> {
    if items == [] then multiset{} else StageYield(t, 0, items[0]) + ItemsYield(t, items[1..])
  }

  /** What reaches the sink of a payload offered on a channel. */
  ghost function ChanYield(t: Topology, c: Chan, p: Payload): multiset<Payload>
    requires t.IsChan(c)
  {
    match c
    case StageCh(i) => StageYield(t, i, p)
    case InCh(i, j) => WorkYield(t, i, j, p)
  }

  ghost predicate OnChans(t: Topology, gifts: seq<(Chan, Payload)>) {
    forall k :: 0 <= k < |gifts| ==> t.IsChan(gifts[k].0)
  }

  ghost function GiftYield(t: Topology, gifts: seq<(Chan, Payload)>): multiset<Payload>
    requires OnChans(t, gifts)
  {
    if gifts == [] then multiset{} else ChanYield(t, gifts[0].0, gifts[0].1) + GiftYield(t, gifts[1..])
  }

  /** What reaches the sink of the payloads a process holds. */
  ghost function Held(t: Topology, pid: Pid, x: Proc): multiset<Payload>
    requires t.Exists(pid) && GiftsOk(t, pid, x)
  {
    match x
    case Busy(p) =>
      if pid.Work? then WorkYield(t, pid.i, if t.stages[pid.i].kind == Broadcast then pid.j else 0, p) else multiset{p}
    case Giving(gifts) => GiftYield(t, gifts)
    case _ => multiset{}
  }

  lemma {:induction false} CopiesYield(t: Topology, i: nat, j: nat, p: Payload)
    requires t.Valid() && t.Exists(Split(i)) && t.stages[i].kind == Broadcast && j <= t.stages[i].width
    ensures OnChans(t, t.Copies(i, p)[j..]) && GiftYield(t, t.Copies(i, p)[j..]) == BroadcastYield(t, i, j, p)
    decreases t.stages[i].width - j
  {
    hide WorkYield, StageYield;
    var copies := t.Copies(i, p);
    if j < t.stages[i].width {
      CopiesYield(t, i, j + 1, p);
      assert copies[j..][0] == (InCh(i, j), p) && copies[j..][1..] == copies[j + 1..];
    }
  }

  /** Taking a payload off a channel does not change what will come of it. */
  lemma TakenYield(t: Topology, to: Pid, p: Payload)
    requires t.Valid() && t.Exists(to) && to != Source
    ensures t.IsChan(t.Input(to)) && GiftsOk(t, to, Taken(t, to, p))
    ensures Held(t, to, Taken(t, to, p)) == ChanYield(t, t.Input(to), p)
  {
    hide WorkYield, BroadcastYield;
    if to.Split? {
      CopiesOk(t, to.i, p);
      if t.stages[to.i].kind == Broadcast {
        CopiesYield(t, to.i, 0, p);
        assert t.Copies(to.i, p)[0..] == t.Copies(to.i, p);
      } else {
        OneGiftYield(t, InCh(to.i, 0), p);
      }
    }
  }

  lemma OneGiftYield(t: Topology, c: Chan, p: Payload)
    requires t.IsChan(c)
    ensures GiftYield(t, [(c, p)]) == ChanYield(t, c, p)
  {
    hide ChanYield;
    assert [(c, p)][1..] == [];
    assert ChanYield(t, c, p) + multiset{} == ChanYield(t, c, p);
  }

  lemma RestYield(t: Topology, pid: Pid, gifts: seq<(Chan, Payload)>)
    requires t.Exists(pid) && GiftsOk(t, pid, Giving(gifts))
    ensures GiftsOk(t, pid, Rest(gifts))
    ensures Held(t, pid, Giving(gifts)) == ChanYield(t, gifts[0].0, gifts[0].1) + Held(t, pid, Rest(gifts))
  {
    hide ChanYield;
    if |gifts| == 1 {
      assert gifts[1..] == [];
      assert GiftYield(t, gifts[1..]) == multiset{};
    }
  }

  /** Finishing with a payload leaves what will come of it. */
  lemma CompletedYield(t: Topology, pid: Pid, p: Payload)
    requires t.Valid() && t.Exists(pid) && (pid.Work? || pid == Sink)
    ensures GiftsOk(t, pid, Completed(t, pid, p))
    ensures pid.Work? ==> Held(t, pid, Completed(t, pid, p)) == Held(t, pid, Busy(p))
    ensures pid == Sink ==> Held(t, pid, Completed(t, pid, p)) == multiset{} && Held(t, pid, Busy(p)) == multiset{p}
  {
    hide StageYield;
    if pid.Work? && t.Output(pid, p).Some? {
      OneGiftYield(t, StageCh(pid.i + 1), t.Output(pid, p).value);
    }
  }

  // ---------------------------------------------------------------- what is on its way

  ghost predicate Sound(t: Topology, procs: map<Pid, Proc>) {
    t.Valid() && forall pid :: pid in procs ==> t.Exists(pid) && GiftsOk(t, pid, procs[pid])
  }

  ghost function HeldCounts(t: Topology, procs: map<Pid, Proc>, x: Payload): (m: map<Pid, real>)
    requires Sound(t, procs)
    ensures m.Keys == procs.Keys
  {
    map pid | pid in procs :: Held(t, pid, procs[pid])[x] as real
  }

  /** How often `x` will have been delivered in the end, as far as delivered payloads, payloads on
      their way and payloads still in the source are concerned. */
  ghost function Flow(t: Topology, s: State, x: Payload): real
    requires Sound(t, s.procs)
  {
    multiset(s.delivered)[x] as real + Total(HeldCounts(t, s.procs, x)) + ItemsYield(t, s.items)[x] as real
  }

  lemma HeldOne(t: Topology, procs: map<Pid, Proc>, pid: Pid, y: Proc, x: Payload)
    requires Sound(t, procs) && pid in procs && GiftsOk(t, pid, y)
    ensures Sound(t, procs + map[pid := y])
    ensures Total(HeldCounts(t, procs + map[pid := y], x))
         == Total(HeldCounts(t, procs, x)) - Held(t, pid, procs[pid])[x] as real + Held(t, pid, y)[x] as real
  {
    hide Held, Total, GiftsOk;
    var n := Held(t, pid, y)[x] as real;
    assert HeldCounts(t, procs + map[pid := y], x) == HeldCounts(t, procs, x)[pid := n];
    TotalUpdate(HeldCounts(t, procs, x), pid, n);
  }

  lemma PassFlow(t: Topology, s: State, pid: Pid, to: Pid, u: State, x: Payload)
    requires Step(t, s, Pass(pid, to), u) && Sound(t, s.procs)
    ensures Sound(t, u.procs) && Flow(t, u, x) == Flow(t, s, x)
  {
    hide Held, HeldCounts, Total, GiftsOk, Taken, Topology.Input;
    var gifts := s.procs[pid].gifts;
    var p := gifts[0].1;
    RestYield(t, pid, gifts);
    TakenYield(t, to, p);
    HeldOne(t, s.procs, pid, Rest(gifts), x);
    HeldOne(t, s.procs + map[pid := Rest(gifts)], to, Taken(t, to, p), x);
    NothingHeld(t, to);
    assert s.procs + map[pid := Rest(gifts)] + map[to := Taken(t, to, p)] == u.procs;
  }

  lemma NothingHeld(t: Topology, pid: Pid)
    requires t.Exists(pid)
    ensures Held(t, pid, Reading) == Held(t, pid, Exited) == multiset{}
  {
  }

  lemma CompleteFlow(t: Topology, s: State, pid: Pid, u: State, x: Payload)
    requires Step(t, s, Complete(pid), u) && Sound(t, s.procs)
    ensures Sound(t, u.procs) && Flow(t, u, x) == Flow(t, s, x)
  {
    hide Held, HeldCounts, Total, GiftsOk, Completed;
    var p := s.procs[pid].p;
    CompletedYield(t, pid, p);
    HeldOne(t, s.procs, pid, Completed(t, pid, p), x);
    assert u.procs == s.procs + map[pid := Completed(t, pid, p)];
  }

  lemma SupplyFlow(t: Topology, s: State, u: State, x: Payload)
    requires Step(t, s, Supply, u) && Sound(t, s.procs)
    ensures Sound(t, u.procs) && Flow(t, u, x) == Flow(t, s, x)
  {
    hide HeldCounts, Total, StageYield, GiftYield;
    var gift := [(StageCh(0), s.items[0])];
    OneGiftYield(t, StageCh(0), s.items[0]);
    HeldOne(t, s.procs, Source, Giving(gift), x);
    assert u.procs == s.procs + map[Source := Giving(gift)];
  }

  lemma ExitFlow(t: Topology, s: State, a: Action, u: State, x: Payload)
    requires Step(t, s, a, u) && Sound(t, s.procs) && (a.SeeClosed? || a == Exhaust(None))
    ensures Sound(t, u.procs) && Flow(t, u, x) == Flow(t, s, x)
  {
    hide Held, HeldCounts, Total, Topology.Input;
    var pid := if a.SeeClosed? then a.pid else Source;
    NothingHeld(t, pid);
    HeldOne(t, s.procs, pid, Exited, x);
    assert u.procs == s.procs + map[pid := Exited];
  }

  lemma QuietFlow(t: Topology, s: State, a: Action, u: State, x: Payload)
    requires Step(t, s, a, u) && Sound(t, s.procs) && (a.Close? || a.CloseErrors? || a.Return?)
    ensures Sound(t, u.procs) && Flow(t, u, x) == Flow(t, s, x)
  {
    hide HeldCounts, Total;
    assert u.procs == s.procs;
  }

  /** As long as nothing has failed and nothing is cancelled, no step loses or adds a payload. */
  lemma FlowStep(t: Topology, s: State, a: Action, u: State, x: Payload)
    requires Step(t, s, a, u) && Sound(t, s.procs) && !u.done && u.emitted == []
    ensures Sound(t, u.procs) && Flow(t, u, x) == Flow(t, s, x)
    ensures !s.done && s.emitted == []
  {
    hide Flow, Step, Sound;
    Undisturbed(t, s, a, u);
    match a
    case Pass(pid, to) => PassFlow(t, s, pid, to, u, x);
    case Complete(pid) => CompleteFlow(t, s, pid, u, x);
    case Supply => SupplyFlow(t, s, u, x);
    case Exhaust(_) => ExitFlow(t, s, a, u, x);
    case SeeClosed(_) => ExitFlow(t, s, a, u, x);
    case _ => QuietFlow(t, s, a, u, x);
  }

  lemma Undisturbed(t: Topology, s: State, a: Action, u: State)
    requires Step(t, s, a, u) && !u.done && u.emitted == []
    ensures !s.done && s.emitted == []
    ensures !a.Fail? && !a.SeeDone? && !a.CollectError? && !a.Cancel? && (a.Exhaust? ==> a.err == None && s.items == [])
  {
    hide Moves;
  }

  // ---------------------------------------------------------------- whole runs

  lemma SoundRun(t: Topology, r: Run, n: nat)
    requires r.Valid(t) && n <= |r.actions|
    ensures Sound(t, r.states[n].procs)
  {
    hide Step, Initial, ErrorsOk, ChanOk, ExitOk, GiftsOk;
    RunInv(t, r, n);
    forall pid | pid in r.states[n].procs ensures GiftsOk(t, pid, r.states[n].procs[pid]) {
      assert ProcOk(t, r.states[n], pid);
    }
  }

  /** An undisturbed run has been undisturbed all along; the flow is that of the start, and the
      source only exits when it is exhausted. */
  lemma {:induction false} RunFlow(t: Topology, r: Run, n: nat, x: Payload)
    requires r.Valid(t) && n <= |r.actions| && !r.states[n].done && r.states[n].emitted == []
    ensures Sound(t, r.states[n].procs) && Sound(t, r.states[0].procs)
    ensures Flow(t, r.states[n], x) == Flow(t, r.states[0], x)
    ensures Source in r.states[n].procs && r.states[n].procs[Source] == Exited ==> r.states[n].items == []
  {
    hide Step, Initial, Sound, Flow;
    SoundRun(t, r, n);
    SoundRun(t, r, 0);
    if n == 0 {
      FreshSource(t, r.states[0]);
    } else {
      var s, a, u := r.states[n - 1], r.actions[n - 1], r.states[n];
      assert Step(t, s, a, u);
      SoundRun(t, r, n - 1);
      FlowStep(t, s, a, u, x);
      RunFlow(t, r, n - 1, x);
      SourceStep(t, s, a, u);
    }
  }

  lemma FreshSource(t: Topology, s: State)
    requires Initial(t, s)
    ensures Source in s.procs && s.procs[Source] == Reading
  {
  }

  lemma SourceStep(t: Topology, s: State, a: Action, u: State)
    requires Step(t, s, a, u) && !u.done && u.emitted == []
    requires Source in s.procs && s.procs[Source] == Exited ==> s.items == []
    ensures Source in u.procs && u.procs[Source] == Exited ==> u.items == []
  {
    Undisturbed(t, s, a, u);
    Frame(t, s, a, u);
  }

  lemma ResolvedFlow(t: Topology, s: State, x: Payload, idle: Proc)
    requires Sound(t, s.procs) && (idle == Reading || idle == Exited)
    requires forall pid :: pid in s.procs ==> s.procs[pid] == idle
    ensures Flow(t, s, x) == multiset(s.delivered)[x] as real + ItemsYield(t, s.items)[x] as real
  {
    TotalConst(HeldCounts(t, s.procs, x), 0.0);
    MulOne(|HeldCounts(t, s.procs, x)| as real);
  }

  /** When Process returns without an error and without having been cancelled, the sink has consumed
      exactly what the stages make of the source's payloads, each as often as it should. */
  lemma Conservation(t: Topology, r: Run, n: nat)
    requires r.Valid(t) && n <= |r.actions| && r.states[n].returned
    requires !r.states[n].done && r.states[n].emitted == []
    ensures multiset(r.states[n].delivered) == ItemsYield(t, r.states[0].items)
  {
    var s, u := r.states[0], r.states[n];
    forall x ensures multiset(u.delivered)[x] == ItemsYield(t, s.items)[x] {
      DeliveredCount(t, r, n, x);
    }
  }

  lemma DeliveredCount(t: Topology, r: Run, n: nat, x: Payload)
    requires r.Valid(t) && n <= |r.actions| && r.states[n].returned
    requires !r.states[n].done && r.states[n].emitted == []
    ensures multiset(r.states[n].delivered)[x] == ItemsYield(t, r.states[0].items)[x]
  {
    hide Step, Sound, Flow, Shaped;
    RunFlow(t, r, n, x);
    ReturnedCleanly(t, r, n);
    SourceThere(t, r, n);
    ResolvedFlow(t, r.states[0], x, Reading);
    ResolvedFlow(t, r.states[n], x, Exited);
  }

  lemma SourceThere(t: Topology, r: Run, n: nat)
    requires r.Valid(t) && n <= |r.actions|
    ensures Source in r.states[n].procs
  {
    hide Step, Initial, ErrorsOk, ProcOk, ChanOk;
    RunInv(t, r, n);
  }

  // ---------------------------------------------------------------- whatever goes wrong

  /** A step that fails, or that drops a payload because of cancellation, only takes away. */
  lemma LossyFlow(t: Topology, s: State, a: Action, u: State, x: Payload)
    requires Step(t, s, a, u) && Sound(t, s.procs) && (a.Fail? || a.SeeDone? || a.Exhaust?)
    ensures Sound(t, u.procs) && Flow(t, u, x) <= Flow(t, s, x)
  {
    hide Held, HeldCounts, Total, Topology.Input, Topology.IsSlot, Shared;
    var pid := if a.Exhaust? then Source else a.pid;
    var y := Moves(t, s, a)[pid];
    NothingHeld(t, pid);
    HeldOne(t, s.procs, pid, y, x);
    assert u.procs == s.procs + map[pid := y];
    SameGoods(t, s, a, u);
  }

  lemma SameGoods(t: Topology, s: State, a: Action, u: State)
    requires Step(t, s, a, u) && !a.Supply? && !a.Complete?
    ensures u.items == s.items && u.delivered == s.delivered
  {
    hide Moves;
  }

  lemma CancelFlow(t: Topology, s: State, a: Action, u: State, x: Payload)
    requires Step(t, s, a, u) && Sound(t, s.procs) && (a.CollectError? || a.Cancel?)
    ensures Sound(t, u.procs) && Flow(t, u, x) == Flow(t, s, x)
  {
    hide HeldCounts, Total;
    assert u.procs == s.procs;
  }

  lemma FlowShrinks(t: Topology, s: State, a: Action, u: State, x: Payload)
    requires Step(t, s, a, u) && Sound(t, s.procs)
    ensures Sound(t, u.procs) && Flow(t, u, x) <= Flow(t, s, x)
  {
    hide Flow, Step, Sound;
    match a
    case Pass(pid, to) => PassFlow(t, s, pid, to, u, x);
    case Complete(pid) => CompleteFlow(t, s, pid, u, x);
    case Supply => SupplyFlow(t, s, u, x);
    case SeeClosed(_) => ExitFlow(t, s, a, u, x);
    case CollectError => CancelFlow(t, s, a, u, x);
    case Cancel => CancelFlow(t, s, a, u, x);
    case Close(_) => QuietFlow(t, s, a, u, x);
    case CloseErrors => QuietFlow(t, s, a, u, x);
    case Return => QuietFlow(t, s, a, u, x);
    case _ => LossyFlow(t, s, a, u, x);
  }

  lemma {:induction false} RunFlowShrinks(t: Topology, r: Run, n: nat, x: Payload)
    requires r.Valid(t) && n <= |r.actions|
    ensures Sound(t, r.states[n].procs) && Sound(t, r.states[0].procs)
    ensures Flow(t, r.states[n], x) <= Flow(t, r.states[0], x)
  {
    hide Step, Initial, Sound, Flow;
    SoundRun(t, r, n);
    SoundRun(t, r, 0);
    if 0 < n {
      assert Step(t, r.states[n - 1], r.actions[n - 1], r.states[n]);
      RunFlowShrinks(t, r, n - 1, x);
      FlowShrinks(t, r.states[n - 1], r.actions[n - 1], r.states[n], x);
    }
  }

  lemma DeliveredWithinFlow(t: Topology, s: State, x: Payload)
    requires Sound(t, s.procs)
    ensures multiset(s.delivered)[x] as real <= Flow(t, s, x)
  {
    var zero := map pid | pid in s.procs :: 0.0;
    TotalConst(zero, 0.0);
    MulOne(|zero| as real);
    TotalMono(zero, HeldCounts(t, s.procs, x));
  }

  /** At every point of every run - with errors and cancellation - the sink has consumed nothing but
      what the stages make of the source's payloads, and none of it more often than it should. */
  lemma NothingInvented(t: Topology, r: Run, n: nat)
    requires r.Valid(t) && n <= |r.actions|
    ensures multiset(r.states[n].delivered) <= ItemsYield(t, r.states[0].items)
  {
    forall x ensures multiset(r.states[n].delivered)[x] <= ItemsYield(t, r.states[0].items)[x] {
      DeliveredAtMost(t, r, n, x);
    }
  }

  lemma DeliveredAtMost(t: Topology, r: Run, n: nat, x: Payload)
    requires r.Valid(t) && n <= |r.actions|
    ensures multiset(r.states[n].delivered)[x] <= ItemsYield(t, r.states[0].items)[x]
  {
    hide Step, Sound, Flow, Shaped;
    RunFlowShrinks(t, r, n, x);
    DeliveredWithinFlow(t, r.states[n], x);
    ResolvedFlow(t, r.states[0], x, Reading);
  }
}
