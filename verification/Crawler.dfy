/** The crawler's pipeline and the number of links that a crawl reports. */
module Crawler {
  import opened Options
  import opened Pipeline
  import opened Flow

  /** The sink only counts; each link reaches it twice. */
  class CountingSink {
    var count: nat

    constructor ()
      ensures count == 0
    {
      count := 0;
    }

    method Consume(p: Payload)
      modifies this
      ensures count == old(count) + 1
    {
      count := count + 1;
    }

    function GetCount(): nat
      reads this
    {
      count / 2
    }
  }

  /** Fetching, link extraction, text extraction, and a broadcast to graph updater and indexer. */
  function CrawlStages(fetchWorkers: nat): seq<Stage> {
    [Stage(Direct, fetchWorkers), Stage(Direct, 1), Stage(Direct, 1), Stage(Broadcast, 2)]
  }

  ghost predicate IsCrawl(t: Topology, fetchWorkers: nat) {
    && 1 <= fetchWorkers && t.stages == CrawlStages(fetchWorkers)
    // graph updater and indexer pass on every payload that they do not fail on
    && forall p, j :: 0 <= j < 2 ==> t.proc(3, j, p).Some?
  }

  /** Whether the link gets through the stages from `i` up to the broadcast. */
  ghost predicate Reaches(t: Topology, i: nat, p: Payload)
    decreases 3 - i
  {
    3 <= i || (t.proc(i, 0, p).Some? && Reaches(t, i + 1, t.proc(i, 0, p).value))
  }

  ghost function ReachCount(t: Topology, items: seq<Payload>): nat {
    if items == [] then 0 else (if Reaches(t, 0, items[0]) then 1 else 0) + ReachCount(t, items[1..])
  }

  /** A broadcast before the sink multiplies what gets to it by the number of its processors. */
  lemma {:induction false} BroadcastMultiplies(t: Topology, i: nat, j: nat, p: Payload)
    requires i + 1 == |t.stages| && t.stages[i].kind == Broadcast && j <= t.stages[i].width
    requires forall k :: 0 <= k < t.stages[i].width ==> t.proc(i, k, p).Some?
    ensures |BroadcastYield(t, i, j, p)| == t.stages[i].width - j
    decreases t.stages[i].width - j
  {
    if j < t.stages[i].width {
      assert StageYield(t, i + 1, t.proc(i, j, p).value) == multiset{t.proc(i, j, p).value};
      BroadcastMultiplies(t, i, j + 1, p);
    }
  }

  lemma {:induction false} CrawlYield(t: Topology, fetchWorkers: nat, i: nat, p: Payload)
    requires IsCrawl(t, fetchWorkers) && i <= 3
    ensures |StageYield(t, i, p)| == if Reaches(t, i, p) then 2 else 0
    decreases 3 - i
  {
    if i == 3 {
      BroadcastMultiplies(t, 3, 0, p);
    } else if t.proc(i, 0, p).Some? {
      CrawlYield(t, fetchWorkers, i + 1, t.proc(i, 0, p).value);
    }
  }

  lemma {:induction false} CrawlItems(t: Topology, fetchWorkers: nat, items: seq<Payload>)
    requires IsCrawl(t, fetchWorkers)
    ensures |ItemsYield(t, items)| == 2 * ReachCount(t, items)
  {
    hide Reaches, StageYield;
    if items != [] {
      CrawlYield(t, fetchWorkers, 0, items[0]);
      CrawlItems(t, fetchWorkers, items[1..]);
    }
  }

  /** A crawl that ends without an error and is not cancelled has counted exactly the links that got
      as far as the broadcast: half of what the sink has consumed. */
  lemma CrawlCount(t: Topology, fetchWorkers: nat, r: Run, n: nat)
    requires IsCrawl(t, fetchWorkers) && r.Valid(t) && n <= |r.actions| && r.states[n].returned
    requires !r.states[n].done && r.states[n].emitted == []
    ensures |r.states[n].delivered| == 2 * ReachCount(t, r.states[0].items)
    ensures |r.states[n].delivered| / 2 == ReachCount(t, r.states[0].items)
  {
    hide Step, Initial, ItemsYield, ReachCount;
    Conservation(t, r, n);
    CrawlItems(t, fetchWorkers, r.states[0].items);
    assert |multiset(r.states[n].delivered)| == |r.states[n].delivered|;
  }

  /** What fetching, link extraction and text extraction make of a link, if none of them drops it. */
  ghost function Extracted(t: Topology, p: Payload): Option<Payload> {
    match t.proc(0, 0, p)
    case None => None
    case Some(fetched) =>
      match t.proc(1, 0, fetched)
      case None => None
      case Some(linked) => t.proc(2, 0, linked)
  }

  /** What graph updater and indexer, the processors 0 and 1 of the broadcast, make of the links. */
  ghost function Results(t: Topology, fetchWorkers: nat, items: seq<Payload>): multiset<Payload>
    requires IsCrawl(t, fetchWorkers)
  {
    if items == [] then multiset{}
    else
      (match Extracted(t, items[0])
       case None => multiset{}
       case Some(q) => multiset{t.proc(3, 0, q).value, t.proc(3, 1, q).value})
      + Results(t, fetchWorkers, items[1..])
  }

  lemma LastYield(t: Topology, fetchWorkers: nat, q: Payload)
    requires IsCrawl(t, fetchWorkers)
    ensures StageYield(t, 3, q) == multiset{t.proc(3, 0, q).value, t.proc(3, 1, q).value}
  {
    var a, b := t.proc(3, 0, q).value, t.proc(3, 1, q).value;
    assert StageYield(t, 4, a) == multiset{a} && StageYield(t, 4, b) == multiset{b};
    assert BroadcastYield(t, 3, 2, q) == multiset{};
    assert BroadcastYield(t, 3, 1, q) == multiset{b};
    assert BroadcastYield(t, 3, 0, q) == multiset{a} + multiset{b};
  }

  lemma LinkYield(t: Topology, fetchWorkers: nat, p: Payload)
    requires IsCrawl(t, fetchWorkers)
    ensures StageYield(t, 0, p)
         == match Extracted(t, p)
            case None => multiset{}
            case Some(q) => multiset{t.proc(3, 0, q).value, t.proc(3, 1, q).value}
    ensures Reaches(t, 0, p) <==> Extracted(t, p).Some?
  {
    if t.proc(0, 0, p).Some? {
      var fetched := t.proc(0, 0, p).value;
      assert StageYield(t, 0, p) == StageYield(t, 1, fetched);
      if t.proc(1, 0, fetched).Some? {
        var linked := t.proc(1, 0, fetched).value;
        assert StageYield(t, 1, fetched) == StageYield(t, 2, linked);
        if t.proc(2, 0, linked).Some? {
          LastYield(t, fetchWorkers, t.proc(2, 0, linked).value);
        }
      }
    }
  }

  lemma {:induction false} AllResults(t: Topology, fetchWorkers: nat, items: seq<Payload>)
    requires IsCrawl(t, fetchWorkers)
    ensures ItemsYield(t, items) == Results(t, fetchWorkers, items)
  {
    hide StageYield, Extracted;
    if items != [] {
      LinkYield(t, fetchWorkers, items[0]);
      AllResults(t, fetchWorkers, items[1..]);
    }
  }

  /** A crawl that ends without an error and is not cancelled has brought to the sink what the graph
      updater and what the indexer have made of each link that got as far as the broadcast. */
  lemma CrawlResults(t: Topology, fetchWorkers: nat, r: Run, n: nat)
    requires IsCrawl(t, fetchWorkers) && r.Valid(t) && n <= |r.actions| && r.states[n].returned
    requires !r.states[n].done && r.states[n].emitted == []
    ensures multiset(r.states[n].delivered) == Results(t, fetchWorkers, r.states[0].items)
  {
    hide Step, Initial, ItemsYield, Results;
    Conservation(t, r, n);
    AllResults(t, fetchWorkers, r.states[0].items);
  }

  /** Whatever goes wrong, a crawl never reports more links than that. */
  lemma CrawlNeverOvercounts(t: Topology, fetchWorkers: nat, r: Run, n: nat)
    requires IsCrawl(t, fetchWorkers) && r.Valid(t) && n <= |r.actions|
    ensures |r.states[n].delivered| / 2 <= ReachCount(t, r.states[0].items)
  {
    hide Step, Initial, ItemsYield, ReachCount;
    NothingInvented(t, r, n);
    CrawlItems(t, fetchWorkers, r.states[0].items);
    SubsetSize(multiset(r.states[n].delivered), ItemsYield(t, r.states[0].items));
  }

  lemma SubsetSize(a: multiset<Payload>, b: multiset<Payload>)
    requires a <= b
    ensures |a| <= |b|
  {
    assert b == a + (b - a);
  }

  // ---------------------------------------------------------------- the sink in a crawl

  /** The sink is called once for each payload that is delivered. */
  lemma DeliveredStep(t: Topology, s: State, a: Action, u: State)
    requires Step(t, s, a, u)
    ensures a == Complete(Sink) ==> IsBusy(s, Sink) && u.delivered == s.delivered + [s.procs[Sink].p]
    ensures a != Complete(Sink) ==> u.delivered == s.delivered
  {
    hide Moves, Topology.Input, Topology.Writer;
  }

  lemma StepOfRun(t: Topology, r: Run, i: nat)
    requires r.Valid(t) && i < |r.actions|
    ensures Step(t, r.states[i], r.actions[i], r.states[i + 1])
  {
  }

  /** A crawl in which the goroutines do what `r` says, up to the point where Process returns. What is
      reported never exceeds the links that would get to the broadcast without failures; without
      errors and cancellation it is exactly these. */
  method Crawl(t: Topology, ghost fetchWorkers: nat, r: Run) returns (count: nat, errs: seq<Error>)
    requires IsCrawl(t, fetchWorkers) && r.Valid(t) && r.states[|r.actions|].returned
    ensures count <= ReachCount(t, r.states[0].items)
    ensures errs == [] && !r.states[|r.actions|].done ==> count == ReachCount(t, r.states[0].items)
  {
    hide Step, Initial, ReachCount, Run.Valid, IsCrawl;
    var sink := new CountingSink();
    NothingDelivered(t, r);
    for i := 0 to |r.actions|
      invariant |r.states| == |r.actions| + 1 && sink.count == |r.states[i].delivered|
    {
      StepOfRun(t, r, i);
      DeliveredStep(t, r.states[i], r.actions[i], r.states[i + 1]);
      if r.actions[i] == Complete(Sink) {
        sink.Consume(r.states[i].procs[Sink].p);
      }
    }
    count, errs := sink.GetCount(), r.states[|r.actions|].collected;
    CrawlNeverOvercounts(t, fetchWorkers, r, |r.actions|);
    ReturnedCleanly(t, r, |r.actions|);
    if errs == [] && !r.states[|r.actions|].done {
      CrawlCount(t, fetchWorkers, r, |r.actions|);
    }
  }

  lemma NothingDelivered(t: Topology, r: Run)
    requires r.Valid(t)
    ensures |r.states| == |r.actions| + 1 && r.states[0].delivered == []
  {
  }
}
