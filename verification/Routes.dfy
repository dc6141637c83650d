/** Which processors work on what: a payload takes a route through the stages, by the one processor
    of a plain stage and by every processor of a broadcast, and the sink gets what comes out at the
    end of each route. */
module Routes {
  import opened Options
  import opened Pipeline
  import opened Flow

  /** How many processors of the stage work on every payload. */
  ghost function Branches(t: Topology, i: nat): nat
    requires i < |t.stages|
  {
    if t.stages[i].kind == Broadcast then t.stages[i].width else 1
  }

  /** The routes from stage `i` on: a processor for each stage. */
  ghost function RoutesFrom(t: Topology, i: nat): set<seq<nat>>
    requires i <= |t.stages|
    decreases |t.stages| - i
  {
    if i == |t.stages| then {[]}
    else set j: nat, rest | j < Branches(t, i) && rest in RoutesFrom(t, i + 1) :: [j] + rest
  }

  /** A route names one processor of each stage. */
  lemma {:induction false} IsRoute(t: Topology, i: nat, route: seq<nat>)
    requires i <= |t.stages|
    ensures route in RoutesFrom(t, i) <==>
              i + |route| == |t.stages| && forall k :: 0 <= k < |route| ==> route[k] < Branches(t, i + k)
    decreases |t.stages| - i
  {
    hide Branches;
    if i < |t.stages| {
      if route == [] {
        assert [] !in RoutesFrom(t, i);
      } else {
        IsRoute(t, i + 1, route[1..]);
        assert route == [route[0]] + route[1..];
        forall j: nat, rest | j < Branches(t, i) && rest in RoutesFrom(t, i + 1) && route == [j] + rest
          ensures j == route[0] && rest == route[1..]
        {
        }
        assert route in RoutesFrom(t, i) <==> route[0] < Branches(t, i) && route[1..] in RoutesFrom(t, i + 1);
        assert forall k :: 0 < k < |route| ==> route[k] == route[1..][k - 1];
      }
    }
  }

  /** What becomes of a payload on a route from stage `i` on, if no processor drops it. */
  ghost function Along(t: Topology, i: nat, route: seq<nat>, p: Payload): Option<Payload>
    decreases |route|
  {
    if route == [] then Some(p)
    else match t.proc(i, route[0], p)
         case None => None
         case Some(q) => Along(t, i + 1, route[1..], q)
  }

  /** The routes on which `p` becomes `x`. */
  ghost function Leading(t: Topology, i: nat, p: Payload, x: Payload): set<seq<nat>>
    requires i <= |t.stages|
  {
    set route | route in RoutesFrom(t, i) && Along(t, i, route, p) == Some(x)
  }

  /** Those that begin with processor `j` or a later one. */
  ghost function LeadingFrom(t: Topology, i: nat, j: nat, p: Payload, x: Payload): set<seq<nat>>
    requires i < |t.stages|
  {
    set route | route in Leading(t, i, p, x) && route != [] && j <= route[0]
  }

  ghost function LeadingBy(t: Topology, i: nat, j: nat, p: Payload, x: Payload): set<seq<nat>>
    requires i < |t.stages|
  {
    set route | route in Leading(t, i, p, x) && route != [] && j == route[0]
  }

  /** Two sets between which there is a one-to-one map have the same size. */
  lemma {:induction false} SameSize<A(!new), B(!new)>(a: set<A>, b: set<B>, f: A -> B)
    requires forall x :: x in a ==> f(x) in b
    requires forall x, y :: x in a && y in a && f(x) == f(y) ==> x == y
    requires forall z :: z in b ==> exists x :: x in a && f(x) == z
    ensures |a| == |b|
  {
    if a == {} {
      assert b == {};
    } else {
      var x :| x in a;
      forall z | z in b - {f(x)} ensures exists y :: y in a - {x} && f(y) == z {
        var y :| y in a && f(y) == z;
        assert y in a - {x};
      }
      SameSize(a - {x}, b - {f(x)}, f);
    }
  }

  lemma RouteCases(t: Topology, i: nat, j: nat, rest: seq<nat>)
    requires i < |t.stages|
    ensures [j] + rest in RoutesFrom(t, i) <==> j < Branches(t, i) && rest in RoutesFrom(t, i + 1)
  {
    hide Branches;
    forall k: nat, r | k < Branches(t, i) && r in RoutesFrom(t, i + 1) && [j] + rest == [k] + r
      ensures j == k && rest == r
    {
      assert ([j] + rest)[1..] == rest && ([k] + r)[1..] == r;
    }
  }

  lemma AlongStep(t: Topology, i: nat, j: nat, rest: seq<nat>, p: Payload)
    ensures Along(t, i, [j] + rest, p)
         == match t.proc(i, j, p)
            case None => None
            case Some(q) => Along(t, i + 1, rest, q)
  {
    assert ([j] + rest)[1..] == rest;
  }

  // ---------------------------------------------------------------- the yield of a stage, route by route

  /** Through one processor. */
  lemma {:induction false} WorkCount(t: Topology, i: nat, j: nat, p: Payload, x: Payload)
    requires i < |t.stages| && j < Branches(t, i)
    ensures WorkYield(t, i, j, p)[x] == |LeadingBy(t, i, j, p, x)|
    decreases |t.stages| - i, 0, 0
  {
    match t.proc(i, j, p)
    case None =>
      forall route: seq<nat> | route != [] && route[0] == j ensures Along(t, i, route, p) == None {
      }
      assert LeadingBy(t, i, j, p, x) == {};
    case Some(q) =>
      StageCount(t, i + 1, q, x);
      ByProcessor(t, i, j, p, q, x);
  }

  lemma ByProcessor(t: Topology, i: nat, j: nat, p: Payload, q: Payload, x: Payload)
    requires i < |t.stages| && j < Branches(t, i) && t.proc(i, j, p) == Some(q)
    ensures |LeadingBy(t, i, j, p, x)| == |Leading(t, i + 1, q, x)|
  {
    hide RoutesFrom, Along, Branches;
    var rest := Leading(t, i + 1, q, x);
    forall route | route in rest ensures [j] + route in LeadingBy(t, i, j, p, x) {
      RouteCases(t, i, j, route);
      AlongStep(t, i, j, route, p);
    }
    forall route | route in LeadingBy(t, i, j, p, x) ensures route[1..] in rest && [j] + route[1..] == route {
      assert route == [j] + route[1..];
      RouteCases(t, i, j, route[1..]);
      AlongStep(t, i, j, route[1..], p);
    }
    var f := (route: seq<nat>) => [j] + route;
    forall a, b | a in rest && b in rest && f(a) == f(b) ensures a == b {
      assert ([j] + a)[1..] == a && ([j] + b)[1..] == b;
    }
    forall route | route in LeadingBy(t, i, j, p, x) ensures exists a :: a in rest && f(a) == route {
      assert f(route[1..]) == route;
    }
    SameSize(rest, LeadingBy(t, i, j, p, x), f);
  }

  /** Through the processors of a broadcast from `j` on. */
  lemma {:induction false} BroadcastCount(t: Topology, i: nat, j: nat, p: Payload, x: Payload)
    requires i < |t.stages| && t.stages[i].kind == Broadcast && j <= t.stages[i].width
    ensures BroadcastYield(t, i, j, p)[x] == |LeadingFrom(t, i, j, p, x)|
    decreases |t.stages| - i, 1, t.stages[i].width - j
  {
    if j == t.stages[i].width {
      forall route | route in LeadingFrom(t, i, j, p, x) ensures false {
        IsRoute(t, i, route);
      }
      assert LeadingFrom(t, i, j, p, x) == {};
    } else {
      WorkCount(t, i, j, p, x);
      BroadcastCount(t, i, j + 1, p, x);
      SplitOff(t, i, j, p, x);
    }
  }

  lemma SplitOff(t: Topology, i: nat, j: nat, p: Payload, x: Payload)
    requires i < |t.stages|
    ensures |LeadingFrom(t, i, j, p, x)| == |LeadingBy(t, i, j, p, x)| + |LeadingFrom(t, i, j + 1, p, x)|
  {
    hide Leading;
    assert LeadingFrom(t, i, j, p, x) == LeadingBy(t, i, j, p, x) + LeadingFrom(t, i, j + 1, p, x);
    assert LeadingBy(t, i, j, p, x) !! LeadingFrom(t, i, j + 1, p, x);
  }

  /** What reaches the sink of a payload that enters stage `i` is what it becomes on the routes from there. */
  lemma {:induction false} StageCount(t: Topology, i: nat, p: Payload, x: Payload)
    requires i <= |t.stages|
    ensures StageYield(t, i, p)[x] == |Leading(t, i, p, x)|
    decreases |t.stages| - i, 2, 0
  {
    if i == |t.stages| {
      assert Leading(t, i, p, x) == if p == x then {[]} else {};
    } else if t.stages[i].kind == Broadcast {
      BroadcastCount(t, i, 0, p, x);
      NoneEmpty(t, i, p, x);
    } else {
      WorkCount(t, i, 0, p, x);
      OnlyFirst(t, i, p, x);
    }
  }

  lemma NoneEmpty(t: Topology, i: nat, p: Payload, x: Payload)
    requires i < |t.stages|
    ensures LeadingFrom(t, i, 0, p, x) == Leading(t, i, p, x)
  {
    forall route | route in Leading(t, i, p, x) ensures route != [] {
      IsRoute(t, i, route);
    }
  }

  lemma OnlyFirst(t: Topology, i: nat, p: Payload, x: Payload)
    requires i < |t.stages| && t.stages[i].kind != Broadcast
    ensures LeadingBy(t, i, 0, p, x) == Leading(t, i, p, x)
  {
    forall route | route in Leading(t, i, p, x) ensures route != [] && route[0] == 0 {
      IsRoute(t, i, route);
    }
  }

  // ---------------------------------------------------------------- what a run delivers

  /** Which payload of the source becomes `x`, from position `m` on, and on which route. */
  ghost function Deliveries(t: Topology, items: seq<Payload>, m: nat, x: Payload): set<(nat, seq<nat>)> {
    set k: nat, route | m <= k < |items| && route in RoutesFrom(t, 0) && Along(t, 0, route, items[k]) == Some(x)
      :: (k, route)
  }

  lemma FirstDeliveries(t: Topology, items: seq<Payload>, m: nat, x: Payload)
    requires m < |items|
    ensures |Deliveries(t, items, m, x)| == |Leading(t, 0, items[m], x)| + |Deliveries(t, items, m + 1, x)|
  {
    hide RoutesFrom, Along;
    var routes := Leading(t, 0, items[m], x);
    var now := set route | route in routes :: (m, route);
    assert Deliveries(t, items, m, x) == now + Deliveries(t, items, m + 1, x);
    assert now !! Deliveries(t, items, m + 1, x);
    var f := (route: seq<nat>) => (m, route);
    forall z | z in now ensures exists route :: route in routes && f(route) == z {
      assert f(z.1) == z;
    }
    SameSize(routes, now, f);
  }

  lemma {:induction false} ItemsCount(t: Topology, items: seq<Payload>, m: nat, x: Payload)
    requires m <= |items|
    ensures ItemsYield(t, items[m..])[x] == |Deliveries(t, items, m, x)|
    decreases |items| - m
  {
    hide StageYield, Leading;
    if m == |items| {
      assert Deliveries(t, items, m, x) == {};
    } else {
      ItemsCount(t, items, m + 1, x);
      StageCount(t, 0, items[m], x);
      FirstDeliveries(t, items, m, x);
      assert items[m..][0] == items[m] && items[m..][1..] == items[m + 1..];
    }
  }

  /** In a run without errors and cancellation the sink consumes a payload exactly as often as the
      payloads of the source become it: each on every route through the stages. */
  lemma DeliveredByRoutes(t: Topology, r: Run, n: nat, x: Payload)
    requires r.Valid(t) && n <= |r.actions| && r.states[n].returned
    requires !r.states[n].done && r.states[n].emitted == []
    ensures multiset(r.states[n].delivered)[x] == |Deliveries(t, r.states[0].items, 0, x)|
  {
    hide Step, Initial, ItemsYield, Deliveries;
    Conservation(t, r, n);
    ItemsCount(t, r.states[0].items, 0, x);
    assert r.states[0].items[0..] == r.states[0].items;
  }

  /** At every point of every run it has consumed it at most so often. */
  lemma DeliveredWithinRoutes(t: Topology, r: Run, n: nat, x: Payload)
    requires r.Valid(t) && n <= |r.actions|
    ensures multiset(r.states[n].delivered)[x] <= |Deliveries(t, r.states[0].items, 0, x)|
  {
    hide Step, Initial, ItemsYield, Deliveries;
    NothingInvented(t, r, n);
    ItemsCount(t, r.states[0].items, 0, x);
    assert r.states[0].items[0..] == r.states[0].items;
  }

  /** Which payload of the source a processor of a single stage makes `x` of, and which processor. */
  ghost function Makers(t: Topology, items: seq<Payload>, x: Payload): set<(nat, nat)>
    requires |t.stages| == 1
  {
    set k: nat, j: nat | k < |items| && j < t.stages[0].width && t.proc(0, j, items[k]) == Some(x) :: (k, j)
  }

  lemma IsMaker(t: Topology, items: seq<Payload>, x: Payload, k: nat, j: nat)
    requires |t.stages| == 1 && t.stages[0].kind == Broadcast
    ensures (k, [j]) in Deliveries(t, items, 0, x) <==> (k, j) in Makers(t, items, x)
  {
    hide RoutesFrom;
    IsRoute(t, 0, [j]);
    if k < |items| {
      OneAlong(t, j, items[k]);
    }
  }

  lemma OneStageRoutes(t: Topology, items: seq<Payload>, x: Payload)
    requires |t.stages| == 1 && t.stages[0].kind == Broadcast
    ensures |Deliveries(t, items, 0, x)| == |Makers(t, items, x)|
  {
    var a, b := Makers(t, items, x), Deliveries(t, items, 0, x);
    forall z | z in b ensures |z.1| == 1 {
      IsRoute(t, 0, z.1);
    }
    var f := (z: (nat, nat)) => (z.0, [z.1]);
    forall z | z in a ensures f(z) in b {
      IsMaker(t, items, x, z.0, z.1);
    }
    forall y, z | y in a && z in a && f(y) == f(z) ensures y == z {
      assert f(y).1[0] == y.1 && f(z).1[0] == z.1;
    }
    forall z | z in b ensures exists y :: y in a && f(y) == z {
      assert z.1 == [z.1[0]];
      IsMaker(t, items, x, z.0, z.1[0]);
      assert f((z.0, z.1[0])) == z;
    }
    SameSize(a, b, f);
  }

  lemma OneAlong(t: Topology, j: nat, p: Payload)
    ensures Along(t, 0, [j], p) == t.proc(0, j, p)
  {
    assert [j] + [] == [j];
    AlongStep(t, 0, j, [], p);
  }

  /** A pipeline that is one broadcast delivers a payload as often as there are pairs of a payload of
      the source and a processor that makes it of that payload. */
  lemma OneBroadcast(t: Topology, r: Run, n: nat, x: Payload)
    requires |t.stages| == 1 && t.stages[0].kind == Broadcast
    requires r.Valid(t) && n <= |r.actions| && r.states[n].returned
    requires !r.states[n].done && r.states[n].emitted == []
    ensures multiset(r.states[n].delivered)[x] == |Makers(t, r.states[0].items, x)|
  {
    hide Step, Initial, Deliveries, Makers;
    DeliveredByRoutes(t, r, n, x);
    OneStageRoutes(t, r.states[0].items, x);
  }
}
