/** The processing pipeline as a step machine: a source, stages and a sink joined by unbuffered
    channels, one bounded error channel, and a context that is cancelled by the first error or from
    outside. One step is one channel operation or one return of a source, processor or sink call, so
    a run is an arbitrary interleaving of all goroutines. */
module Pipeline {
  import opened Options

  datatype Payload = Payload(content: string)

  datatype Error = Error(text: string)

  /** Direct workers all read the stage's input; a FIFO is one of them, a fixed pool several. A
      dynamic pool has a splitter that hands each payload to a worker slot, where a free slot is a
      token; a broadcast has a splitter that hands a copy to every worker in turn. */
  datatype Kind = Direct | Dynamic | Broadcast

  datatype Stage = Stage(kind: Kind, width: nat)

  datatype Pid = Source | Split(i: nat) | Work(i: nat, j: nat) | Sink

  datatype Chan = StageCh(i: nat) | InCh(i: nat, j: nat)

  datatype Proc =
    | Reading
    | Busy(p: Payload)
    | Giving(gifts: seq<(Chan, Payload)>)   // blocked on sending the first
    | Exited

  /** The stages, and what their processors make of a payload: None if they drop it. Worker j of a
      broadcast runs processor j; all workers of another stage run processor 0. */
  datatype Topology = Topology(stages: seq<Stage>, proc: (nat, nat, Payload) -> Option<Payload>) {
    predicate Valid() {
      forall i :: 0 <= i < |stages| ==> stages[i].width >= 1
    }

    predicate Exists(pid: Pid) {
      match pid
      case Split(i) => i < |stages| && stages[i].kind != Direct
      case Work(i, j) => i < |stages| && j < stages[i].width
      case _ => true
    }

    predicate IsChan(c: Chan) {
      match c
      case StageCh(i) => i <= |stages|
      case InCh(i, j) =>
        && i < |stages|
        && match stages[i].kind
           case Direct => false
           case Dynamic => j == 0
           case Broadcast => j < stages[i].width
    }

    /** The channel that a process takes its payloads from. */
    function Input(pid: Pid): Chan
      requires Exists(pid) && pid != Source
    {
      match pid
      case Split(i) => StageCh(i)
      case Work(i, j) =>
        if stages[i].kind == Direct then StageCh(i) else if stages[i].kind == Dynamic then InCh(i, 0) else InCh(i, j)
      case Sink => StageCh(|stages|)
    }

    /** The processes that must have exited before the channel is closed. */
    predicate Writer(pid: Pid, c: Chan) {
      match c
      case StageCh(0) => pid == Source
      case StageCh(i) => (pid.Split? || pid.Work?) && pid.i + 1 == i
      case InCh(i, _) => pid == Split(i)
    }

    /** What the worker does with a payload. */
    function Output(pid: Pid, p: Payload): Option<Payload>
      requires pid.Work? && Exists(pid)
    {
      proc(pid.i, if stages[pid.i].kind == Broadcast then pid.j else 0, p)
    }

    /** A slot of a dynamic pool is not a goroutine of its own: it outlives errors and cancellation. */
    predicate IsSlot(pid: Pid)
      requires Exists(pid)
    {
      pid.Work? && stages[pid.i].kind == Dynamic
    }

    /** The sends a splitter owes once it has read a payload. */
    function Copies(i: nat, p: Payload): seq<(Chan, Payload)>
      requires Exists(Split(i))
    {
      if stages[i].kind == Dynamic then [(InCh(i, 0), p)]
      else seq(stages[i].width, j requires 0 <= j => (InCh(i, j), p))
    }
  }

  datatype State = State(
    items: seq<Payload>,        // what the source still has
    procs: map<Pid, Proc>,
    open: set<Chan>,
    done: bool,                 // the context handed to all workers is cancelled
    errCh: seq<Error>,
    errOpen: bool,
    collected: seq<Error>,      // the errors Process has received
    returned: bool,
    emitted: seq<Error>,        // history: every error handed to the error channel
    delivered: seq<Payload>)    // history: what the sink has consumed
  {
    /** The error channel takes one error per stage, source and sink; when full it drops them. */
    function Emit(t: Topology, e: Error): State {
      this.(errCh := if |errCh| < |t.stages| + 2 then errCh + [e] else errCh, emitted := emitted + [e])
    }
  }

  datatype Action =
    | Supply                        // the source has a payload
    | Exhaust(err: Option<Error>)   // the source has none left, or has failed
    | Pass(pid: Pid, to: Pid)       // a send meets a receive
    | Complete(pid: Pid)            // a processor or the sink returns without an error
    | Fail(pid: Pid, e: Error)
    | SeeClosed(pid: Pid)
    | SeeDone(pid: Pid)
    | Close(c: Chan)
    | CloseErrors
    | CollectError
    | Return
    | Cancel                        // the caller's context is cancelled

  ghost predicate At(s: State, pid: Pid, x: Proc) {
    pid in s.procs && s.procs[pid] == x
  }

  ghost predicate IsBusy(s: State, pid: Pid) {
    pid in s.procs && s.procs[pid].Busy?
  }

  ghost predicate IsGiving(s: State, pid: Pid) {
    pid in s.procs && s.procs[pid].Giving? && s.procs[pid].gifts != []
  }

  ghost predicate Shaped(t: Topology, s: State) {
    && t.Valid()
    && (forall pid :: pid in s.procs <==> t.Exists(pid))
    && (forall c :: c in s.open ==> t.IsChan(c))
  }

  ghost predicate Enabled(t: Topology, s: State, a: Action) {
    && Shaped(t, s)
    && match a
       case Supply => At(s, Source, Reading) && s.items != []
       case Exhaust(err) => At(s, Source, Reading) && (s.items == [] || err.Some? || s.done)
       case Pass(pid, to) =>
         IsGiving(s, pid) && At(s, to, Reading) && to != Source && t.Input(to) == s.procs[pid].gifts[0].0
       case Complete(pid) => IsBusy(s, pid) && (pid.Work? || pid == Sink)
       case Fail(pid, _) => IsBusy(s, pid) && (pid.Work? || pid == Sink)
       case SeeClosed(pid) => At(s, pid, Reading) && pid != Source && t.Input(pid) !in s.open
       case SeeDone(pid) => s.done && (IsGiving(s, pid) || (At(s, pid, Reading) && pid != Source && !t.IsSlot(pid)))
       case Close(c) => c in s.open && forall pid :: pid in s.procs && t.Writer(pid, c) ==> s.procs[pid] == Exited
       case CloseErrors => s.errOpen && s.open == {} && forall pid :: pid in s.procs ==> s.procs[pid] == Exited
       case CollectError => s.errCh != []
       case Return => !s.errOpen && s.errCh == [] && !s.returned
       case Cancel => !s.done
  }

  /** What a process does after handing over the first of its gifts. */
  function Rest(gifts: seq<(Chan, Payload)>): Proc
    requires gifts != []
  {
    if |gifts| == 1 then Reading else Giving(gifts[1..])
  }

  ghost function Taken(t: Topology, to: Pid, p: Payload): Proc
    requires t.Exists(to)
  {
    if to.Split? then Giving(t.Copies(to.i, p)) else Busy(p)
  }

  /** The processes that an action moves on, and where to. */
  ghost function Moves(t: Topology, s: State, a: Action): (m: map<Pid, Proc>)
    requires Enabled(t, s, a)
    ensures m.Keys <= s.procs.Keys
  {
    match a
    case Supply => map[Source := Giving([(StageCh(0), s.items[0])])]
    case Exhaust(_) => map[Source := Exited]
    case Pass(pid, to) =>
      var gifts := s.procs[pid].gifts;
      map[pid := Rest(gifts), to := Taken(t, to, gifts[0].1)]
    case Complete(pid) => map[pid := Completed(t, pid, s.procs[pid].p)]
    case Fail(pid, _) => map[pid := Quit(t, pid)]
    case SeeClosed(pid) => map[pid := Exited]
    case SeeDone(pid) => map[pid := Quit(t, pid)]
    case _ => map[]
  }

  /** A worker drops the payload or offers the result to the next stage; the sink is ready for more. */
  ghost function Completed(t: Topology, pid: Pid, p: Payload): Proc
    requires t.Exists(pid) && (pid.Work? || pid == Sink)
  {
    if pid == Sink then Reading
    else match t.Output(pid, p)
         case None => Reading
         case Some(q) => Giving([(StageCh(pid.i + 1), q)])
  }

  ghost function Quit(t: Topology, pid: Pid): Proc
    requires t.Exists(pid)
  {
    if t.IsSlot(pid) then Reading else Exited
  }

  /** The effect of an action on everything but the processes. */
  ghost function Shared(t: Topology, s: State, a: Action): (u: State)
    requires Enabled(t, s, a)
    ensures u.procs == s.procs
  {
    match a
    case Supply => s.(items := s.items[1..])
    case Exhaust(Some(e)) => s.Emit(t, e)
    case Complete(pid) => if pid == Sink then s.(delivered := s.delivered + [s.procs[pid].p]) else s
    case Fail(_, e) => s.Emit(t, e)
    case Close(c) => s.(open := s.open - {c})
    case CloseErrors => s.(errOpen := false)
    case CollectError => s.(errCh := s.errCh[1..], collected := s.collected + [s.errCh[0]], done := true)
    case Return => s.(returned := true)
    case Cancel => s.(done := true)
    case _ => s
  }

  ghost function Apply(t: Topology, s: State, a: Action): State
    requires Enabled(t, s, a)
  {
    Shared(t, s, a).(procs := s.procs + Moves(t, s, a))
  }

  ghost predicate Step(t: Topology, s: State, a: Action, u: State) {
    Enabled(t, s, a) && u == Apply(t, s, a)
  }

  /** Process has just been called; its context may already be cancelled. */
  ghost predicate Initial(t: Topology, s: State) {
    && Shaped(t, s)
    && (forall pid :: pid in s.procs ==> s.procs[pid] == Reading)
    && (forall c :: t.IsChan(c) ==> c in s.open)
    && s.errCh == [] && s.errOpen && s.collected == [] && !s.returned && s.emitted == [] && s.delivered == []
  }

  // ---------------------------------------------------------------- the invariant

  /** Every gift goes to a channel that waits for this process before it is closed. */
  ghost predicate GiftsOk(t: Topology, pid: Pid, x: Proc) {
    x.Giving? ==>
      x.gifts != [] && forall k :: 0 <= k < |x.gifts| ==> t.IsChan(x.gifts[k].0) && t.Writer(pid, x.gifts[k].0)
  }

  /** A process that has stopped reading an open channel has been cancelled or will be. */
  ghost predicate ExitOk(t: Topology, s: State, pid: Pid)
    requires Shaped(t, s) && pid in s.procs
  {
    s.procs[pid] == Exited && pid != Source && t.Input(pid) in s.open ==> s.done || s.errCh != []
  }

  ghost predicate ProcOk(t: Topology, s: State, pid: Pid)
    requires Shaped(t, s) && pid in s.procs
  {
    && GiftsOk(t, pid, s.procs[pid]) && ExitOk(t, s, pid)
    && (s.procs[pid].Busy? ==> pid.Work? || pid == Sink)
  }

  /** A closed channel has no writers left. */
  ghost predicate ChanOk(t: Topology, s: State, c: Chan)
    requires Shaped(t, s)
  {
    c !in s.open ==> forall pid :: pid in s.procs && t.Writer(pid, c) ==> s.procs[pid] == Exited
  }

  ghost predicate ErrorsOk(t: Topology, s: State) {
    && (s.emitted == [] <==> s.errCh == [] && s.collected == [])
    && (s.collected != [] ==> s.done)
    && |s.errCh| <= |t.stages| + 2
    && (!s.errOpen ==> s.open == {} && forall pid :: pid in s.procs ==> s.procs[pid] == Exited)
    && (s.returned ==> !s.errOpen && s.errCh == [])
  }

  ghost predicate Inv(t: Topology, s: State) {
    && Shaped(t, s) && ErrorsOk(t, s)
    && (forall pid {:trigger ProcOk(t, s, pid)} :: pid in s.procs ==> ProcOk(t, s, pid))
    && (forall c {:trigger ChanOk(t, s, c)} :: t.IsChan(c) ==> ChanOk(t, s, c))
  }

  lemma InitialInv(t: Topology, s: State)
    requires Initial(t, s)
    ensures Inv(t, s)
  {
  }

  /** How the shared state moves. */
  lemma SharedFrame(t: Topology, s: State, a: Action, u: State)
    requires Step(t, s, a, u)
    ensures u.open == if a.Close? then s.open - {a.c} else s.open
    ensures s.done ==> u.done
    ensures s.errCh != [] ==> u.errCh != [] || u.done
  {
    hide Moves;
  }

  /** Which processes a step changes. */
  lemma Frame(t: Topology, s: State, a: Action, u: State)
    requires Step(t, s, a, u)
    ensures Shaped(t, u) && u.procs.Keys == s.procs.Keys
    ensures forall pid :: pid in s.procs ==>
              u.procs[pid] == if pid in Moves(t, s, a) then Moves(t, s, a)[pid] else s.procs[pid]
  {
    hide Moves;
    SharedFrame(t, s, a, u);
  }

  lemma ExitedStays(t: Topology, s: State, a: Action, u: State, pid: Pid)
    requires Step(t, s, a, u) && pid in s.procs && s.procs[pid] == Exited
    ensures pid in u.procs && u.procs[pid] == Exited
  {
    hide Shared, Completed, Quit, Taken, Rest;
    Frame(t, s, a, u);
  }

  lemma CopiesOk(t: Topology, i: nat, p: Payload)
    requires t.Valid() && t.Exists(Split(i))
    ensures GiftsOk(t, Split(i), Giving(t.Copies(i, p)))
  {
  }

  lemma GiftsStep(t: Topology, s: State, a: Action, u: State, pid: Pid)
    requires Step(t, s, a, u) && pid in s.procs && GiftsOk(t, pid, s.procs[pid])
    ensures pid in u.procs && GiftsOk(t, pid, u.procs[pid])
  {
    hide Shared, Topology.Copies;
    Frame(t, s, a, u);
    if a.Pass? && pid == a.to && pid.Split? {
      CopiesOk(t, pid.i, s.procs[a.pid].gifts[0].1);
    }
  }

  /** A process exits when its input is closed, when the context is cancelled, or with an error. */
  lemma ExitStep(t: Topology, s: State, a: Action, u: State, pid: Pid)
    requires Step(t, s, a, u) && Shaped(t, u) && pid in s.procs && pid in u.procs && ExitOk(t, s, pid)
    ensures ExitOk(t, u, pid)
  {
    Frame(t, s, a, u);
    SharedFrame(t, s, a, u);
  }

  lemma BusyStep(t: Topology, s: State, a: Action, u: State, pid: Pid)
    requires Step(t, s, a, u) && pid in s.procs && pid in u.procs
    requires s.procs[pid].Busy? ==> pid.Work? || pid == Sink
    ensures u.procs[pid].Busy? ==> pid.Work? || pid == Sink
  {
    hide Shared;
    Frame(t, s, a, u);
  }

  lemma ChanStep(t: Topology, s: State, a: Action, u: State, c: Chan)
    requires Step(t, s, a, u) && Shaped(t, u) && ChanOk(t, s, c)
    ensures ChanOk(t, u, c)
  {
    Frame(t, s, a, u);
    SharedFrame(t, s, a, u);
    forall pid | pid in u.procs && t.Writer(pid, c) && c !in u.open ensures u.procs[pid] == Exited {
      assert s.procs[pid] == Exited;
      ExitedStays(t, s, a, u, pid);
    }
  }

  /** The error that an action hands to the error channel, if any. */
  ghost function Raised(a: Action): Option<Error> {
    match a
    case Exhaust(err) => err
    case Fail(_, e) => Some(e)
    case _ => None
  }

  /** How the record of errors moves. */
  lemma ErrorMoves(t: Topology, s: State, a: Action, u: State)
    requires Step(t, s, a, u)
    ensures Raised(a) == None ==> u.emitted == s.emitted && (!a.CollectError? ==> u.errCh == s.errCh)
    ensures Raised(a).Some? ==>
              && u.emitted == s.emitted + [Raised(a).value]
              && u.errCh == if |s.errCh| < |t.stages| + 2 then s.errCh + [Raised(a).value] else s.errCh
    ensures a.CollectError? ==>
              && s.errCh != [] && u.errCh == s.errCh[1..] && u.collected == s.collected + [s.errCh[0]] && u.done
    ensures !a.CollectError? ==> u.collected == s.collected && (s.done ==> u.done)
  {
    hide Moves, Topology.Input, Topology.Writer;
  }

  /** How closing and returning move. */
  lemma EndMoves(t: Topology, s: State, a: Action, u: State)
    requires Step(t, s, a, u) && Shaped(t, u)
    ensures a.CloseErrors? ==> s.open == {} && forall pid :: pid in s.procs ==> s.procs[pid] == Exited
    ensures u.errOpen == (s.errOpen && !a.CloseErrors?)
    ensures a.Return? ==> !s.errOpen && s.errCh == []
    ensures !a.Return? ==> u.returned == s.returned
  {
    hide Moves, Topology.Input, Topology.Writer, Topology.IsChan;
  }

  /** Nothing raises an error once all have exited. */
  lemma QuietAfterExit(t: Topology, s: State, a: Action, u: State)
    requires Step(t, s, a, u) && forall pid :: pid in s.procs ==> s.procs[pid] == Exited
    ensures Raised(a) == None
  {
    hide Moves, Shared, Topology.Input, Topology.Writer, Topology.IsChan;
  }

  lemma ErrorsStep(t: Topology, s: State, a: Action, u: State)
    requires Step(t, s, a, u) && Shaped(t, u) && ErrorsOk(t, s)
    ensures ErrorsOk(t, u)
  {
    hide Step, Shaped, Raised;
    ErrorMoves(t, s, a, u);
    EndMoves(t, s, a, u);
    SharedFrame(t, s, a, u);
    Frame(t, s, a, u);
    if !s.errOpen {
      QuietAfterExit(t, s, a, u);
    }
    if !u.errOpen {
      forall pid | pid in u.procs ensures u.procs[pid] == Exited {
        ExitedStays(t, s, a, u, pid);
      }
    }
  }

  /** Every step of every interleaving keeps the invariant. */
  lemma InvStep(t: Topology, s: State, a: Action, u: State)
    requires Inv(t, s) && Step(t, s, a, u)
    ensures Inv(t, u)
  {
    hide Step, ErrorsOk, GiftsOk, ExitOk, ChanOk, Shaped;
    Frame(t, s, a, u);
    SharedFrame(t, s, a, u);
    ErrorsStep(t, s, a, u);
    forall pid | pid in u.procs ensures ProcOk(t, u, pid) {
      assert ProcOk(t, s, pid);
      GiftsStep(t, s, a, u, pid);
      ExitStep(t, s, a, u, pid);
      BusyStep(t, s, a, u, pid);
    }
    forall c | t.IsChan(c) ensures ChanOk(t, u, c) {
      assert ChanOk(t, s, c);
      ChanStep(t, s, a, u, c);
    }
  }

  // ---------------------------------------------------------------- whole runs

  datatype Run = Run(states: seq<State>, actions: seq<Action>) {
    ghost predicate Valid(t: Topology) {
      && |states| == |actions| + 1 && Initial(t, states[0])
      && forall i :: 0 <= i < |actions| ==> Step(t, states[i], actions[i], states[i + 1])
    }
  }

  lemma {:induction false} RunInv(t: Topology, r: Run, n: nat)
    requires r.Valid(t) && n <= |r.actions|
    ensures Inv(t, r.states[n])
  {
    hide Inv, Step, Initial;
    if n == 0 {
      InitialInv(t, r.states[0]);
    } else {
      RunInv(t, r, n - 1);
      assert Step(t, r.states[n - 1], r.actions[n - 1], r.states[n]);
      InvStep(t, r.states[n - 1], r.actions[n - 1], r.states[n]);
    }
  }

  /** No process is ever sending, or about to send, on a channel that has been closed. */
  lemma NoSendOnClosed(t: Topology, r: Run, n: nat, pid: Pid, k: nat)
    requires r.Valid(t) && n <= |r.actions| && pid in r.states[n].procs
    requires r.states[n].procs[pid].Giving? && k < |r.states[n].procs[pid].gifts|
    ensures r.states[n].procs[pid].gifts[k].0 in r.states[n].open
  {
    hide ErrorsOk, ExitOk, Step, Initial;
    RunInv(t, r, n);
    var s := r.states[n];
    assert ProcOk(t, s, pid) && ChanOk(t, s, s.procs[pid].gifts[k].0);
  }

  /** Errors are only emitted while the error channel is open, and it is closed at most once. */
  lemma NoEmitAfterClose(t: Topology, r: Run, n: nat)
    requires r.Valid(t) && n < |r.actions|
    requires r.actions[n].Fail? || (r.actions[n].Exhaust? && r.actions[n].err.Some?) || r.actions[n] == CloseErrors
    ensures r.states[n].errOpen
  {
    hide ProcOk, ChanOk, Initial;
    RunInv(t, r, n);
    assert Step(t, r.states[n], r.actions[n], r.states[n + 1]);
  }

  /** The collected errors, then those still in the channel, are errors that were emitted, in the order
      in which they were; none is missing as long as no more were emitted than the channel holds. */
  ghost predicate ErrorsKept(t: Topology, s: State) {
    && (forall k :: 0 <= k < |s.collected + s.errCh| ==> (s.collected + s.errCh)[k] in s.emitted)
    && (|s.emitted| <= |t.stages| + 2 ==> s.collected + s.errCh == s.emitted)
    && |s.errCh| <= |s.emitted|
  }

  lemma ErrorsKeptStep(t: Topology, s: State, a: Action, u: State)
    requires Step(t, s, a, u) && ErrorsKept(t, s)
    ensures ErrorsKept(t, u)
  {
    hide Step, Raised;
    ErrorMoves(t, s, a, u);
    if a.CollectError? {
      assert u.collected + u.errCh == s.collected + s.errCh;
    } else if Raised(a).Some? && |s.errCh| < |t.stages| + 2 {
      assert u.collected + u.errCh == (s.collected + s.errCh) + [Raised(a).value];
    }
  }

  lemma {:induction false} RunErrorsKept(t: Topology, r: Run, n: nat)
    requires r.Valid(t) && n <= |r.actions|
    ensures ErrorsKept(t, r.states[n])
  {
    hide Step, ErrorsKept;
    if n == 0 {
      NoErrorsYet(t, r.states[0]);
    } else {
      RunErrorsKept(t, r, n - 1);
      assert Step(t, r.states[n - 1], r.actions[n - 1], r.states[n]);
      ErrorsKeptStep(t, r.states[n - 1], r.actions[n - 1], r.states[n]);
    }
  }

  lemma NoErrorsYet(t: Topology, s: State)
    requires Initial(t, s)
    ensures ErrorsKept(t, s)
  {
  }

  /** What Process returns: only errors that were emitted, and all of them, in order, if they all fit
      into the error channel. */
  lemma ReturnsEmittedErrors(t: Topology, r: Run, n: nat)
    requires r.Valid(t) && n <= |r.actions| && r.states[n].returned
    ensures forall e :: e in r.states[n].collected ==> e in r.states[n].emitted
    ensures |r.states[n].emitted| <= |t.stages| + 2 ==> r.states[n].collected == r.states[n].emitted
  {
    hide Step, Initial, ProcOk, ChanOk;
    RunErrorsKept(t, r, n);
    RunInv(t, r, n);
    assert r.states[n].collected + [] == r.states[n].collected;
  }

  /** When Process returns, every worker has exited, every channel is closed, and its result is an
      error if and only if some component emitted one. */
  lemma ReturnedCleanly(t: Topology, r: Run, n: nat)
    requires r.Valid(t) && n <= |r.actions| && r.states[n].returned
    ensures var s := r.states[n];
            && (forall pid :: pid in s.procs ==> s.procs[pid] == Exited)
            && s.open == {} && !s.errOpen
            && (s.collected != [] <==> s.emitted != [])
  {
    hide ProcOk, ChanOk, Initial, Step;
    RunInv(t, r, n);
  }

  /** A slot exits only when it finds its input closed. */
  lemma SlotMoves(t: Topology, s: State, a: Action, u: State, pid: Pid)
    requires Step(t, s, a, u) && pid in s.procs && pid in u.procs && t.Exists(pid) && t.IsSlot(pid)
    requires s.procs[pid] != Exited && u.procs[pid] == Exited
    ensures t.Input(pid) !in s.open
  {
    hide Shared, Topology.Input, Topology.Output, Topology.Copies;
    Frame(t, s, a, u);
  }

  /** A slot of a dynamic pool outlives errors and cancellation: it is gone only after its input has
      been closed. */
  lemma {:induction false} SlotsStay(t: Topology, r: Run, n: nat, pid: Pid)
    requires r.Valid(t) && n <= |r.actions| && pid in r.states[n].procs && t.Exists(pid) && t.IsSlot(pid)
    requires r.states[n].procs[pid] == Exited
    ensures t.Input(pid) !in r.states[n].open
  {
    hide Step, Initial, Topology.Input;
    if n == 0 {
      AllReading(t, r.states[0], pid);
    } else {
      var s, a, u := r.states[n - 1], r.actions[n - 1], r.states[n];
      assert Step(t, s, a, u);
      Frame(t, s, a, u);
      SharedFrame(t, s, a, u);
      if s.procs[pid] == Exited {
        SlotsStay(t, r, n - 1, pid);
        assert t.Input(pid) !in s.open;
      } else {
        SlotMoves(t, s, a, u, pid);
      }
    }
  }

  lemma AllReading(t: Topology, s: State, pid: Pid)
    requires Initial(t, s) && pid in s.procs
    ensures s.procs[pid] == Reading
  {
  }

  /** How a process leaves when it is cancelled. */
  ghost function Leave(pid: Pid, x: Proc): Action {
    if pid == Source && x == Reading then Exhaust(None) else SeeDone(pid)
  }

  /** Once the context is cancelled, every goroutine that waits for a channel can leave. */
  lemma CancelledCanLeave(t: Topology, s: State, pid: Pid)
    requires Inv(t, s) && s.done && pid in s.procs && !t.IsSlot(pid)
    requires s.procs[pid] == Reading || s.procs[pid].Giving?
    ensures Enabled(t, s, Leave(pid, s.procs[pid]))
    ensures pid in Moves(t, s, Leave(pid, s.procs[pid])) && Moves(t, s, Leave(pid, s.procs[pid]))[pid] == Exited
  {
    hide ErrorsOk, ChanOk, ExitOk;
    assert ProcOk(t, s, pid);
  }
}
