/** The mathematics of damped PageRank: the iteration that the supersteps are meant to compute,
    what it conserves, how fast it converges and when the stop predicate must fire.
    Scores are exact reals. */
module PageRank {
  import opened Ids
  import opened Sums

  /** The link structure held by the calculator: every vertex with its outgoing edges in the
      order they were added. Parallel edges are kept. */
  datatype Web = Web(ids: set<Id>, out: map<Id, seq<Id>>) {
    /** Every vertex has an edge list and every edge leads to a vertex. */
    ghost predicate Closed() {
      out.Keys == ids && forall u, v :: u in ids && v in out[u] ==> v in ids
    }
  }

  type Scores = map<Id, real>

  function Abs(x: real): real { if x < 0.0 then -x else x }

  // ---------------------------------------------------------------- the transition matrix

  /** The probability that the surfer moves from `u` to `v`: an equal share for every outgoing
      edge, and a uniform jump out of a dead end. */
  ghost function P(w: Web, u: Id, v: Id): real
    requires w.Closed() && u in w.ids
  {
    if w.out[u] == [] then 1.0 / |w.ids| as real
    else multiset(w.out[u])[v] as real / |w.out[u]| as real
  }

  /** What the sources `from` send to `v` when the vector `x` moves along P. */
  ghost function Arrives(w: Web, x: Scores, from: set<Id>, v: Id): real
    requires w.Closed() && x.Keys == w.ids && from <= w.ids
    decreases |from|
  {
    if from == {} then 0.0
    else
      var u := PickFrom(from);
      Mul(x[u], P(w, u, v)) + Arrives(w, x, from - {u}, v)
  }

  ghost function Inflow(w: Web, x: Scores, from: set<Id>): (y: Scores)
    requires w.Closed() && x.Keys == w.ids && from <= w.ids
    ensures y.Keys == w.ids
  {
    map v | v in w.ids :: Arrives(w, x, from, v)
  }

  /** The share of a score that every vertex receives regardless of the links. */
  ghost function Teleport(w: Web, d: real): real
    requires w.ids != {}
  {
    (1.0 - d) / |w.ids| as real
  }

  /** One PageRank iteration: x' = (1 - d)/N + d * transpose(P) * x. */
  ghost function Next(w: Web, d: real, x: Scores): (y: Scores)
    requires w.Closed() && x.Keys == w.ids
    ensures y.Keys == w.ids
  {
    map v | v in w.ids :: Teleport(w, d) + Mul(d, Arrives(w, x, w.ids, v))
  }

  ghost function Uniform(w: Web): (x: Scores)
    ensures x.Keys == w.ids
  {
    map v | v in w.ids :: 1.0 / |w.ids| as real
  }

  /** The scores held by the vertices after superstep `s`. */
  ghost function ScoresAt(w: Web, d: real, s: nat): (x: Scores)
    requires w.Closed() && 1 <= s
    ensures x.Keys == w.ids
  {
    if s == 1 then Uniform(w) else Next(w, d, ScoresAt(w, d, s - 1))
  }

  ghost function Diff(x: Scores, y: Scores): Scores
    requires x.Keys == y.Keys
  {
    map v | v in x :: Abs(x[v] - y[v])
  }

  /** The sum of absolute differences between two score vectors. */
  ghost function L1(x: Scores, y: Scores): real
    requires x.Keys == y.Keys
  {
    Total(Diff(x, y))
  }

  /** The sum of absolute differences that superstep `s` accumulates. */
  ghost function Sad(w: Web, d: real, s: nat): real
    requires w.Closed() && 2 <= s
  {
    L1(ScoresAt(w, d, s), ScoresAt(w, d, s - 1))
  }

  ghost function Pow(d: real, k: nat): real {
    if k == 0 then 1.0 else d * Pow(d, k - 1)
  }

  // ---------------------------------------------------------------- every row of P sums to one

  lemma {:induction false} LinkCount(ids: set<Id>, s: seq<Id>)
    requires forall v :: v in s ==> v in ids
    ensures Total(map v | v in ids :: multiset(s)[v] as real) == |s| as real
  {
    var counts := map v | v in ids :: multiset(s)[v] as real;
    if s == [] {
      TotalConst(counts, 0.0);
    } else {
      var front, last := s[..|s| - 1], s[|s| - 1];
      assert s == front + [last];
      LinkCount(ids, front);
      var before := map v | v in ids :: multiset(front)[v] as real;
      assert counts == before[last := before[last] + 1.0];
      TotalUpdate(before, last, before[last] + 1.0);
    }
  }

  lemma RowSum(w: Web, u: Id)
    requires w.Closed() && u in w.ids
    ensures Total(map v | v in w.ids :: P(w, u, v)) == 1.0
  {
    var row := map v | v in w.ids :: P(w, u, v);
    if w.out[u] == [] {
      var each := 1.0 / |w.ids| as real;
      assert forall v :: v in row ==> row[v] == each;
      TotalConst(row, each);
      assert row.Keys == w.ids;
    } else {
      var n := |w.out[u]| as real;
      var counts := map v | v in w.ids :: multiset(w.out[u])[v] as real;
      LinkCount(w.ids, w.out[u]);
      forall v | v in w.ids ensures row[v] == Mul(1.0 / n, counts[v]) {
        DivideIsMul(counts[v], n);
      }
      hide P, Mul;
      TotalScale(counts, 1.0 / n, row);
      DivideIsMul(n, n);
    }
  }

  lemma DivideIsMul(c: real, n: real)
    requires n > 0.0
    ensures c / n == Mul(1.0 / n, c)
    ensures c == n ==> c / n == 1.0
  {
  }

  ghost function Sent(w: Web, x: Scores, u: Id): (row: Scores)
    requires w.Closed() && x.Keys == w.ids && u in w.ids
    ensures row.Keys == w.ids
  {
    map v | v in w.ids :: Mul(x[u], P(w, u, v))
  }

  lemma SentTotal(w: Web, x: Scores, u: Id)
    requires w.Closed() && x.Keys == w.ids && u in w.ids
    ensures Total(Sent(w, x, u)) == x[u]
  {
    hide P, Mul, Total;
    RowSum(w, u);
    TotalScale(map v | v in w.ids :: P(w, u, v), x[u], Sent(w, x, u));
    MulOne(x[u]);
  }

  /** Any source may be counted first. */
  lemma {:induction false} ArrivesRemove(w: Web, x: Scores, from: set<Id>, a: Id, v: Id)
    requires w.Closed() && x.Keys == w.ids && from <= w.ids && a in from
    ensures Arrives(w, x, from, v) == Mul(x[a], P(w, a, v)) + Arrives(w, x, from - {a}, v)
    decreases |from|
  {
    hide Mul, P;
    var u := PickFrom(from);
    if u != a {
      ArrivesRemove(w, x, from - {u}, a, v);
      ArrivesRemove(w, x, from - {a}, u, v);
      assert from - {u} - {a} == from - {a} - {u};
    }
  }

  lemma {:induction false} InflowTotal(w: Web, x: Scores, from: set<Id>)
    requires w.Closed() && x.Keys == w.ids && from <= w.ids
    ensures Total(Inflow(w, x, from)) == Total(map u | u in from :: x[u])
    decreases |from|
  {
    hide P, Mul;
    var all := map u | u in from :: x[u];
    if from == {} {
      assert all == map[];
      TotalConst(Inflow(w, x, from), 0.0);
      MulOne(|Inflow(w, x, from)| as real);
    } else {
      hide Total;
      var a :| a in from;
      InflowTotal(w, x, from - {a});
      TotalRemove(all, a);
      assert all - {a} == map u | u in from - {a} :: x[u];
      forall v | v in w.ids
        ensures Inflow(w, x, from)[v] == Inflow(w, x, from - {a})[v] + Sent(w, x, a)[v]
      {
        ArrivesRemove(w, x, from, a, v);
      }
      TotalAdd(Inflow(w, x, from - {a}), Sent(w, x, a), Inflow(w, x, from));
      SentTotal(w, x, a);
    }
  }

  /** Moving along P neither creates nor destroys mass, whatever the vector. */
  lemma InflowKeepsTotal(w: Web, x: Scores)
    requires w.Closed() && x.Keys == w.ids
    ensures Total(Inflow(w, x, w.ids)) == Total(x)
  {
    InflowTotal(w, x, w.ids);
    assert x == map u | u in w.ids :: x[u];
  }

  // ---------------------------------------------------------------- mass conservation

  lemma TeleportTotal(w: Web, d: real)
    requires w.ids != {}
    ensures Mul(Teleport(w, d), |w.ids| as real) == 1.0 - d
  {
  }

  lemma NextTotal(w: Web, d: real, x: Scores)
    requires w.Closed() && x.Keys == w.ids && w.ids != {}
    ensures Total(Next(w, d, x)) == (1.0 - d) + Mul(d, Total(x))
  {
    hide Mul, P, Teleport, Total;
    var base := map v | v in w.ids :: Teleport(w, d);
    var moved := map v | v in w.ids :: Mul(d, Inflow(w, x, w.ids)[v]);
    TotalConst(base, Teleport(w, d));
    assert base.Keys == w.ids;
    TeleportTotal(w, d);
    InflowKeepsTotal(w, x);
    TotalScale(Inflow(w, x, w.ids), d, moved);
    TotalAdd(base, moved, Next(w, d, x));
  }

  /** After every superstep from the first on, the scores sum to exactly one. */
  lemma {:induction false} MassConservation(w: Web, d: real, s: nat)
    requires w.Closed() && w.ids != {} && 1 <= s
    ensures Total(ScoresAt(w, d, s)) == 1.0
  {
    if s == 1 {
      hide Next, Total;
      var each := 1.0 / |w.ids| as real;
      assert forall v :: v in Uniform(w) ==> Uniform(w)[v] == each;
      TotalConst(Uniform(w), each);
      assert Uniform(w).Keys == w.ids;
    } else {
      hide Mul, Next, Total;
      MassConservation(w, d, s - 1);
      NextTotal(w, d, ScoresAt(w, d, s - 1));
      MulOne(d);
    }
  }

  lemma {:induction false} ArrivesNonNegative(w: Web, x: Scores, from: set<Id>, v: Id)
    requires w.Closed() && x.Keys == w.ids && from <= w.ids
    requires forall u :: u in x ==> 0.0 <= x[u]
    ensures 0.0 <= Arrives(w, x, from, v)
    decreases |from|
  {
    if from != {} {
      hide Mul;
      var u := PickFrom(from);
      assert 0.0 <= P(w, u, v);
      MulNonNegative(x[u], P(w, u, v));
      ArrivesNonNegative(w, x, from - {u}, v);
    }
  }

  /** Every score lies between the teleport share and one. */
  lemma ScoreBounds(w: Web, d: real, s: nat, v: Id)
    requires w.Closed() && 0.0 < d <= 1.0 && 1 <= s && v in w.ids
    ensures (1.0 - d) / |w.ids| as real <= ScoresAt(w, d, s)[v] <= 1.0
  {
    hide Mul, P;
    ScoreLower(w, d, s, v);
    forall u | u in w.ids ensures 0.0 <= ScoresAt(w, d, s)[u] {
      ScoreLower(w, d, s, u);
    }
    MassConservation(w, d, s);
    TotalTerm(ScoresAt(w, d, s), v);
  }

  lemma {:induction false} ScoreLower(w: Web, d: real, s: nat, v: Id)
    requires w.Closed() && 0.0 < d <= 1.0 && 1 <= s && v in w.ids
    ensures 0.0 <= Teleport(w, d) <= ScoresAt(w, d, s)[v]
    decreases s
  {
    hide Mul, P;
    DivideMono(1.0 - d, 1.0, |w.ids| as real);
    if s > 1 {
      var x := ScoresAt(w, d, s - 1);
      forall u | u in w.ids ensures 0.0 <= x[u] {
        ScoreLower(w, d, s - 1, u);
      }
      hide Teleport;
      ArrivesNonNegative(w, x, w.ids, v);
      MulNonNegative(d, Arrives(w, x, w.ids, v));
    }
  }

  lemma DivideMono(a: real, b: real, n: real)
    requires 0.0 <= a <= b && n > 0.0
    ensures 0.0 <= a / n <= b / n
  {
  }

  // ---------------------------------------------------------------- contraction

  lemma ScaledGap(x: real, y: real, p: real)
    requires 0.0 <= p
    ensures Abs(Mul(x, p) - Mul(y, p)) <= Mul(Abs(x - y), p)
  {
    assert x * p - y * p == (x - y) * p;
  }

  lemma {:induction false} ArrivesGap(w: Web, x: Scores, y: Scores, from: set<Id>, v: Id)
    requires w.Closed() && x.Keys == y.Keys == w.ids && from <= w.ids
    ensures Abs(Arrives(w, x, from, v) - Arrives(w, y, from, v)) <= Arrives(w, Diff(x, y), from, v)
    decreases |from|
  {
    if from != {} {
      hide Mul;
      var u := PickFrom(from);
      assert 0.0 <= P(w, u, v);
      ScaledGap(x[u], y[u], P(w, u, v));
      hide P;
      ArrivesGap(w, x, y, from - {u}, v);
    }
  }

  lemma GapStep(c: real, d: real, a: real, b: real, h: real)
    requires 0.0 <= d && Abs(a - b) <= h
    ensures Abs((c + Mul(d, a)) - (c + Mul(d, b))) <= Mul(d, h)
  {
    MulMono(d, a - b, h);
    MulMono(d, b - a, h);
  }

  /** One iteration brings any two score vectors closer by the damping factor. */
  lemma Contraction(w: Web, d: real, x: Scores, y: Scores)
    requires w.Closed() && x.Keys == y.Keys == w.ids && 0.0 <= d
    ensures L1(Next(w, d, x), Next(w, d, y)) <= Mul(d, L1(x, y))
  {
    hide Mul, Total, Teleport, Arrives;
    var gap := Inflow(w, Diff(x, y), w.ids);
    var bound := map v | v in w.ids :: Mul(d, gap[v]);
    forall v | v in w.ids ensures Diff(Next(w, d, x), Next(w, d, y))[v] <= bound[v] {
      ArrivesGap(w, x, y, w.ids, v);
      GapStep(Teleport(w, d), d, Arrives(w, x, w.ids, v), Arrives(w, y, w.ids, v), gap[v]);
    }
    TotalMono(Diff(Next(w, d, x), Next(w, d, y)), bound);
    TotalScale(gap, d, bound);
    InflowKeepsTotal(w, Diff(x, y));
  }

  lemma L1Symmetric(x: Scores, y: Scores)
    requires x.Keys == y.Keys
    ensures L1(x, y) == L1(y, x)
  {
    assert Diff(x, y) == Diff(y, x);
  }

  lemma L1Triangle(x: Scores, y: Scores, z: Scores)
    requires x.Keys == y.Keys == z.Keys
    ensures L1(x, z) <= L1(x, y) + L1(y, z)
  {
    var sum := map v | v in x :: Diff(x, y)[v] + Diff(y, z)[v];
    TotalAdd(Diff(x, y), Diff(y, z), sum);
    TotalMono(Diff(x, z), sum);
  }

  lemma L1NonNegative(x: Scores, y: Scores)
    requires x.Keys == y.Keys
    ensures 0.0 <= L1(x, y)
  {
    var zero := map v | v in x :: 0.0;
    TotalConst(zero, 0.0);
    MulOne(|zero| as real);
    TotalMono(zero, Diff(x, y));
  }

  lemma L1Zero(x: Scores, y: Scores)
    requires x.Keys == y.Keys && L1(x, y) <= 0.0
    ensures x == y
  {
    forall v | v in x ensures x[v] == y[v] {
      TotalTerm(Diff(x, y), v);
    }
  }

  // ---------------------------------------------------------------- the stop predicate fires

  /** From superstep 2 on, each superstep shrinks the sum of absolute differences. */
  lemma SadShrinks(w: Web, d: real, s: nat)
    requires w.Closed() && 0.0 <= d && 2 <= s
    ensures Sad(w, d, s + 1) <= Mul(d, Sad(w, d, s))
  {
    hide Next, Mul;
    Contraction(w, d, ScoresAt(w, d, s), ScoresAt(w, d, s - 1));
  }

  lemma {:induction false} SadBound(w: Web, d: real, s: nat)
    requires w.Closed() && 0.0 < d <= 1.0 && 2 <= s
    ensures 0.0 <= Sad(w, d, s) <= 2.0 * Pow(d, s - 2)
    decreases s
  {
    hide ScoresAt, L1, Next;
    L1NonNegative(ScoresAt(w, d, s), ScoresAt(w, d, s - 1));
    if s > 2 {
      SadBound(w, d, s - 1);
      SadShrinks(w, d, s - 1);
      MulMono(d, Sad(w, d, s - 1), 2.0 * Pow(d, s - 3));
    } else {
      FirstSad(w, d);
    }
  }

  /** The first measured difference is between two distributions, so it is at most two. */
  lemma FirstSad(w: Web, d: real)
    requires w.Closed() && 0.0 < d <= 1.0
    ensures Sad(w, d, 2) <= 2.0
  {
    if w.ids == {} {
      assert Diff(ScoresAt(w, d, 2), ScoresAt(w, d, 1)) == map[];
      return;
    }
    hide Next, Uniform, Teleport;
    var x, y := ScoresAt(w, d, 2), ScoresAt(w, d, 1);
    var sum := map v | v in w.ids :: x[v] + y[v];
    forall v | v in w.ids ensures Diff(x, y)[v] <= sum[v] {
      ScoreLower(w, d, 2, v);
      ScoreLower(w, d, 1, v);
    }
    TotalMono(Diff(x, y), sum);
    TotalAdd(x, y, sum);
    MassConservation(w, d, 2);
    MassConservation(w, d, 1);
  }

  lemma {:induction false} Bernoulli(d: real, k: nat)
    requires 0.0 < d <= 1.0
    ensures 0.0 < Pow(d, k) && Pow(d, k) * (1.0 + k as real * (1.0 - d)) <= 1.0
  {
    if k > 0 {
      Bernoulli(d, k - 1);
      BernoulliStep(d, Pow(d, k - 1), (k - 1) as real);
    }
  }

  lemma BernoulliStep(d: real, a: real, k: real)
    requires 0.0 < d <= 1.0 && 0.0 < a && 0.0 <= k && a * (1.0 + k * (1.0 - d)) <= 1.0
    ensures 0.0 < d * a && (d * a) * (1.0 + (k + 1.0) * (1.0 - d)) <= 1.0
  {
    var h := 1.0 - d;
    var lost := (k + 1.0) * (h * h);
    assert d * (1.0 + (k + 1.0) * h) == 1.0 + k * h - lost;
    assert 0.0 <= h * h;
    assert 0.0 <= lost;
    assert (d * a) * (1.0 + (k + 1.0) * h) == a * (d * (1.0 + (k + 1.0) * h));
    MulMono(a, 1.0 + k * h - lost, 1.0 + k * h);
  }

  /** A superstep by which the bound on the differences has certainly dropped below `eps`. */
  function Horizon(d: real, eps: real): (r: nat)
    requires 0.0 < d < 1.0 && 0.0 < eps
    ensures 2 <= r && 2.0 <= (eps * (1.0 - d)) * (r - 2) as real
  {
    var slope := eps * (1.0 - d);
    assert 0.0 < slope;
    var q := 2.0 / slope;
    assert slope * q == 2.0;
    assert 0.0 <= q;
    MulMono(slope, q, (q.Floor + 1) as real);
    q.Floor + 3
  }

  lemma HorizonReached(d: real, eps: real)
    requires 0.0 < d < 1.0 && 0.0 < eps
    ensures 2.0 * Pow(d, Horizon(d, eps) - 2) < eps
  {
    var k := Horizon(d, eps) - 2;
    var h := 1.0 - d;
    Bernoulli(d, k);
    HorizonArithmetic(Pow(d, k), eps, k as real * h);
  }

  lemma HorizonArithmetic(p: real, eps: real, t: real)
    requires 0.0 < p && 0.0 <= t && p * (1.0 + t) <= 1.0 && 2.0 <= eps * t
    ensures 2.0 * p < eps
  {
    assert p + p * t <= 1.0;
    if eps <= 2.0 * p {
      MulMono(t, eps, 2.0 * p);
      assert false;
    }
  }

  /** The first superstep, from `s` on, at which 2 d^(s-2) is below the threshold. */
  ghost function FirstBelow(d: real, eps: real, s: nat): (r: nat)
    requires 0.0 < d < 1.0 && 0.0 < eps && 2 <= s <= Horizon(d, eps)
    ensures s <= r && 2.0 * Pow(d, r - 2) < eps
    ensures s < r ==> eps <= 2.0 * Pow(d, r - 3)
    decreases Horizon(d, eps) - s
  {
    if 2.0 * Pow(d, s - 2) < eps then s
    else
      HorizonReached(d, eps);
      FirstBelow(d, eps, s + 1)
  }

  ghost function StopLimit(d: real, eps: real): (r: nat)
    requires 0.0 < d < 1.0 && 0.0 < eps
    ensures 2 <= r && 2.0 * Pow(d, r - 2) < eps
    ensures 2 < r ==> eps <= 2.0 * Pow(d, r - 3)
  {
    FirstBelow(d, eps, 2)
  }

  /** The predicate evaluated after superstep `s`. */
  ghost predicate Stops(w: Web, d: real, eps: real, s: nat)
    requires w.Closed()
  {
    s > 1 && Sad(w, d, s) < eps
  }

  /** With d < 1 the predicate has fired by the first superstep with 2 d^(s-2) < eps. */
  lemma StopsByLimit(w: Web, d: real, eps: real)
    requires w.Closed() && 0.0 < d < 1.0 && 0.0 < eps
    ensures Stops(w, d, eps, StopLimit(d, eps))
  {
    hide Sad, Pow;
    SadBound(w, d, StopLimit(d, eps));
  }

  // ---------------------------------------------------------------- quality of the result

  ghost predicate IsFixedPoint(w: Web, d: real, p: Scores)
    requires w.Closed()
  {
    p.Keys == w.ids && Next(w, d, p) == p
  }

  lemma FixedPointUnique(w: Web, d: real, p: Scores, q: Scores)
    requires w.Closed() && 0.0 <= d < 1.0 && IsFixedPoint(w, d, p) && IsFixedPoint(w, d, q)
    ensures p == q
  {
    hide Next;
    Contraction(w, d, p, q);
    L1NonNegative(p, q);
    NoSelfContraction(d, L1(p, q));
    L1Zero(p, q);
  }

  lemma NoSelfContraction(d: real, l: real)
    requires d < 1.0 && 0.0 <= l <= Mul(d, l)
    ensures l == 0.0
  {
    var h := 1.0 - d;
    var hl := h * l;
    assert d * l == l - hl;
    MulMono(1.0 / h, hl, 0.0);
    assert (1.0 / h) * hl == l;
  }

  /** When the run stops, the scores are within d/(1-d) * SAD of the PageRank vector. */
  lemma StopError(w: Web, d: real, eps: real, s: nat, p: Scores)
    requires w.Closed() && 0.0 < d < 1.0 && Stops(w, d, eps, s) && IsFixedPoint(w, d, p)
    ensures L1(ScoresAt(w, d, s), p) <= Mul(d / (1.0 - d), Sad(w, d, s)) <= Mul(d / (1.0 - d), eps)
  {
    hide ScoresAt, L1, Next, Mul;
    var x, y := ScoresAt(w, d, s - 1), ScoresAt(w, d, s);
    ScoresStep(w, d, s);
    Contraction(w, d, x, p);
    L1Triangle(x, y, p);
    L1Symmetric(x, y);
    ErrorArithmetic(d, L1(y, p), L1(x, p), Sad(w, d, s));
    QuotientPositive(d);
    MulMono(d / (1.0 - d), Sad(w, d, s), eps);
  }

  lemma QuotientPositive(d: real)
    requires 0.0 < d < 1.0
    ensures 0.0 < d / (1.0 - d)
  {
  }

  lemma ErrorArithmetic(d: real, e: real, e0: real, sad: real)
    requires 0.0 < d < 1.0 && e <= Mul(d, e0) && e0 <= sad + e
    ensures e <= Mul(d / (1.0 - d), sad)
  {
    MulMono(d, e0, sad + e);
    var h := 1.0 - d;
    assert h * e <= d * sad;
    MulMono(1.0 / h, h * e, d * sad);
    assert (1.0 / h) * (h * e) == e;
    assert (1.0 / h) * (d * sad) == d / h * sad;
  }

  // ---------------------------------------------------------------- damping factor one

  /** Four distinct pages: `a`, `b` and `c` link to `hub`, and `hub` links back to `a`. */
  datatype Star = Star(hub: Id, a: Id, b: Id, c: Id) {
    ghost predicate Distinct() {
      hub != a && hub != b && hub != c && a != b && a != c && b != c
    }

    ghost function Pages(): set<Id> { {hub, a, b, c} }

    ghost function Links(): (w: Web)
      requires Distinct()
      ensures w.Closed() && w.ids == Pages()
    {
      Web(Pages(), map[hub := [a], a := [hub], b := [hub], c := [hub]])
    }

    ghost predicate Holds(x: Scores, atHub: real, atA: real, atB: real, atC: real) {
      x.Keys == Pages() && x[hub] == atHub && x[a] == atA && x[b] == atB && x[c] == atC
    }
  }

  lemma StarP(t: Star, u: Id, v: Id)
    requires t.Distinct() && u in t.Pages()
    ensures P(t.Links(), u, v) == if t.Links().out[u] == [v] then 1.0 else 0.0
  {
    assert |t.Links().out[u]| == 1 && t.Links().out[u] == [t.Links().out[u][0]];
  }

  lemma StarArrives(t: Star, x: Scores, v: Id)
    requires t.Distinct() && x.Keys == t.Pages()
    ensures Arrives(t.Links(), x, t.Pages(), v)
         == Mul(x[t.hub], P(t.Links(), t.hub, v)) + Mul(x[t.a], P(t.Links(), t.a, v))
          + Mul(x[t.b], P(t.Links(), t.b, v)) + Mul(x[t.c], P(t.Links(), t.c, v))
  {
    hide Mul, P;
    var w := t.Links();
    assert w.Closed() && w.ids == t.Pages();
    hide t.Links;
    ArrivesRemove(w, x, t.Pages(), t.hub, v);
    assert t.Pages() - {t.hub} == {t.a, t.b, t.c};
    ArrivesRemove(w, x, {t.a, t.b, t.c}, t.a, v);
    assert {t.a, t.b, t.c} - {t.a} == {t.b, t.c};
    ArrivesRemove(w, x, {t.b, t.c}, t.b, v);
    assert {t.b, t.c} - {t.b} == {t.c};
    ArrivesRemove(w, x, {t.c}, t.c, v);
    assert {t.c} - {t.c} == {};
  }

  lemma StarNextAt(t: Star, x: Scores, v: Id)
    requires t.Distinct() && x.Keys == t.Pages() && v in x
    ensures Next(t.Links(), 1.0, x)[v]
         == if v == t.hub then x[t.a] + x[t.b] + x[t.c] else if v == t.a then x[t.hub] else 0.0
  {
    hide Mul, P, Arrives;
    StarArrives(t, x, v);
    forall u | u in t.Pages()
      ensures Mul(x[u], P(t.Links(), u, v)) == if t.Links().out[u] == [v] then x[u] else 0.0
    {
      StarP(t, u, v);
      MulOne(x[u]);
    }
    MulOne(Arrives(t.Links(), x, t.Pages(), v));
    MulSwap(1.0, Arrives(t.Links(), x, t.Pages(), v));
    assert Teleport(t.Links(), 1.0) == 0.0;
  }

  lemma StarNext(t: Star, x: Scores, h: real, a: real, b: real, c: real)
    requires t.Distinct() && t.Holds(x, h, a, b, c)
    ensures t.Holds(Next(t.Links(), 1.0, x), a + b + c, h, 0.0, 0.0)
  {
    StarNextAt(t, x, t.hub);
    StarNextAt(t, x, t.a);
    StarNextAt(t, x, t.b);
    StarNextAt(t, x, t.c);
    hide Next;
  }

  lemma ScoresStep(w: Web, d: real, s: nat)
    requires w.Closed() && 2 <= s
    ensures ScoresAt(w, d, s) == Next(w, d, ScoresAt(w, d, s - 1))
  {
  }

  lemma {:induction false} StarAt(t: Star, s: nat)
    requires t.Distinct() && 2 <= s
    ensures s % 2 == 0 ==> t.Holds(ScoresAt(t.Links(), 1.0, s), 0.75, 0.25, 0.0, 0.0)
    ensures s % 2 == 1 ==> t.Holds(ScoresAt(t.Links(), 1.0, s), 0.25, 0.75, 0.0, 0.0)
  {
    hide *;
    if s == 2 {
      StarFirst(t);
    } else {
      var x := ScoresAt(t.Links(), 1.0, s - 1);
      ScoresStep(t.Links(), 1.0, s);
      StarAt(t, s - 1);
      if s % 2 == 1 {
        StarNext(t, x, 0.75, 0.25, 0.0, 0.0);
      } else {
        StarNext(t, x, 0.25, 0.75, 0.0, 0.0);
      }
    }
  }

  lemma StarFirst(t: Star)
    requires t.Distinct()
    ensures t.Holds(ScoresAt(t.Links(), 1.0, 1), 0.25, 0.25, 0.25, 0.25)
    ensures t.Holds(ScoresAt(t.Links(), 1.0, 2), 0.75, 0.25, 0.0, 0.0)
  {
    hide Next;
    assert |t.Links().ids| == 4;
    StarNext(t, Uniform(t.Links()), 0.25, 0.25, 0.25, 0.25);
  }

  lemma StarDistance(t: Star, x: Scores, y: Scores)
    requires t.Distinct() && x.Keys == y.Keys == t.Pages()
    ensures L1(x, y) == Abs(x[t.hub] - y[t.hub]) + Abs(x[t.a] - y[t.a]) + Abs(x[t.b] - y[t.b]) + Abs(x[t.c] - y[t.c])
  {
    hide Abs;
    var diff := Diff(x, y);
    TotalRemove(diff, t.hub);
    TotalRemove(diff - {t.hub}, t.a);
    TotalRemove(diff - {t.hub} - {t.a}, t.b);
    TotalRemove(diff - {t.hub} - {t.a} - {t.b}, t.c);
    assert diff - {t.hub} - {t.a} - {t.b} - {t.c} == map[];
  }

  lemma StarSad(t: Star, s: nat)
    requires t.Distinct() && 2 <= s
    ensures Sad(t.Links(), 1.0, s) == 1.0
  {
    hide ScoresAt, Star.Links, L1, Star.Pages;
    var x, y := ScoresAt(t.Links(), 1.0, s), ScoresAt(t.Links(), 1.0, s - 1);
    StarAt(t, s);
    if s == 2 {
      StarFirst(t);
    } else {
      StarAt(t, s - 1);
    }
    StarDistance(t, x, y);
  }

  /** With d = 1 the star swaps the same two scores for ever. */
  lemma StarNeverStops(t: Star, eps: real, s: nat)
    requires t.Distinct() && eps < 1.0
    ensures !Stops(t.Links(), 1.0, eps, s)
  {
    if s >= 2 {
      StarSad(t, s);
      hide Sad;
    }
  }

  /** Every damping factor that validation admits makes the run stop on every web exactly when it
      is below one. */
  lemma StopsOnEveryWebIff(d: real, eps: real)
    requires 0.0 < d <= 1.0 && 0.0 < eps < 1.0
    ensures (forall w: Web :: w.Closed() ==> exists s: nat :: Stops(w, d, eps, s)) <==> d < 1.0
  {
    hide Stops;
    if d < 1.0 {
      forall w: Web | w.Closed() ensures exists s: nat :: Stops(w, d, eps, s) {
        StopsByLimit(w, d, eps);
      }
    } else {
      var t := Star(Id("h"), Id("a"), Id("b"), Id("c"));
      assert t.Distinct() by {
        assert "h"[0] == 'h' && "a"[0] == 'a' && "b"[0] == 'b' && "c"[0] == 'c';
      }
      forall s: nat ensures !Stops(t.Links(), d, eps, s) {
        StarNeverStops(t, eps, s);
      }
      assert t.Links().Closed() && !exists s: nat :: Stops(t.Links(), d, eps, s);
    }
  }
}
