/** For a damping factor below one the PageRank vector exists: the linear equations that it solves can
    be solved by eliminating one page after the other. */
module FixedPoint {
  import opened Ids
  import opened Sums
  import opened PageRank

  type Vector = Id -> real

  /** What each source gives to each target, per unit of what it has. */
  type Matrix = (Id, Id) -> real

  // ---------------------------------------------------------------- sums of a function over a set

  ghost function Over(f: Vector, s: set<Id>): real
    decreases |s|
  {
    if s == {} then 0.0
    else
      var u := PickFrom(s);
      f(u) + Over(f, s - {u})
  }

  lemma {:induction false} OverRemove(f: Vector, s: set<Id>, a: Id)
    requires a in s
    ensures Over(f, s) == f(a) + Over(f, s - {a})
    decreases |s|
  {
    var u := PickFrom(s);
    if u != a {
      OverRemove(f, s - {u}, a);
      OverRemove(f, s - {a}, u);
      assert s - {u} - {a} == s - {a} - {u};
    }
  }

  /** Sums are linear in the function. */
  lemma {:induction false} OverLinear(f: Vector, p: real, g: Vector, h: Vector, s: set<Id>)
    requires forall u :: u in s ==> h(u) == f(u) + Mul(p, g(u))
    ensures Over(h, s) == Over(f, s) + Mul(p, Over(g, s))
    decreases |s|
  {
    hide Mul;
    if s == {} {
      MulOne(p);
    } else {
      var u := PickFrom(s);
      OverLinear(f, p, g, h, s - {u});
      MulAdd(p, g(u), Over(g, s - {u}));
    }
  }

  lemma {:induction false} OverFrame(f: Vector, g: Vector, s: set<Id>)
    requires forall u :: u in s ==> f(u) == g(u)
    ensures Over(f, s) == Over(g, s)
    decreases |s|
  {
    if s != {} {
      OverFrame(f, g, s - {PickFrom(s)});
    }
  }

  lemma {:induction false} OverTerm(f: Vector, s: set<Id>, a: Id)
    requires a in s && forall u :: u in s ==> 0.0 <= f(u)
    ensures 0.0 <= f(a) <= Over(f, s)
    decreases |s|
  {
    OverRemove(f, s, a);
    if s - {a} != {} {
      OverTerm(f, s - {a}, PickFrom(s - {a}));
    }
  }

  // ---------------------------------------------------------------- the equations

  /** How a source gives away what it has. */
  ghost function Column(m: Matrix, u: Id): Vector {
    w => m(u, w)
  }

  /** What `v` gets from each source, when they hold `x`. */
  ghost function Gifts(m: Matrix, x: Vector, v: Id): Vector {
    u => Mul(m(u, v), x(u))
  }

  /** No source gives away more than the share `d` of what it has. */
  ghost predicate Damped(m: Matrix, ids: set<Id>, d: real) {
    && (forall u :: u in ids ==> Over(Column(m, u), ids) <= d)
    && (forall u, w :: u in ids && w in ids ==> 0.0 <= m(u, w))
  }

  ghost predicate SolvesAt(m: Matrix, ids: set<Id>, b: Vector, x: Vector, v: Id) {
    x(v) == b(v) + Over(Gifts(m, x, v), ids)
  }

  /** Everything holds its constant and what it gets from the sources. */
  ghost predicate Solves(m: Matrix, ids: set<Id>, b: Vector, x: Vector) {
    forall v {:trigger SolvesAt(m, ids, b, x, v)} :: v in ids ==> SolvesAt(m, ids, b, x, v)
  }

  // ---------------------------------------------------------------- eliminating a page

  ghost function Quotient(x: real): real
    requires x < 1.0
  {
    1.0 / (1.0 - x)
  }

  /** The gifts when `a` hands on what it gets; `q` is 1 / (1 - m(a, a)). */
  ghost function Reduced(m: Matrix, a: Id, q: real): Matrix {
    (u, w) => m(u, w) + Mul(Mul(q, m(u, a)), m(a, w))
  }

  ghost function ReducedConstant(m: Matrix, b: Vector, a: Id, q: real): Vector {
    w => b(w) + Mul(Mul(q, b(a)), m(a, w))
  }

  lemma QuotientLaws(x: real, d: real)
    requires 0.0 <= x <= d < 1.0
    ensures 0.0 <= Quotient(x) && Mul(Quotient(x), d - x) <= 1.0
  {
    var h := 1.0 - x;
    MulMono(1.0 / h, d - x, h);
    assert (1.0 / h) * h == 1.0;
  }

  /** The reduced sources give away no larger share than before. */
  lemma ReducedColumn(m: Matrix, ids: set<Id>, d: real, a: Id, u: Id)
    requires Damped(m, ids, d) && 0.0 <= d < 1.0 && a in ids && u in ids - {a} && m(a, a) < 1.0
    ensures Over(Column(Reduced(m, a, Quotient(m(a, a))), u), ids - {a}) <= d
  {
    hide Over, Mul, Quotient;
    var q := Quotient(m(a, a));
    OverTerm(Column(m, a), ids, a);
    QuotientLaws(m(a, a), d);
    OverLinear(Column(m, u), Mul(q, m(u, a)), Column(m, a), Column(Reduced(m, a, q), u), ids - {a});
    OverRemove(Column(m, u), ids, a);
    OverRemove(Column(m, a), ids, a);
    ColumnArithmetic(Over(Column(m, u), ids), m(u, a), q, Over(Column(m, a), ids), m(a, a), d);
  }

  lemma ColumnArithmetic(all: real, toA: real, q: real, allA: real, aa: real, d: real)
    requires all <= d && 0.0 <= toA && 0.0 <= q && allA <= d && Mul(q, d - aa) <= 1.0
    ensures all - toA + Mul(Mul(q, toA), allA - aa) <= d
  {
    MulMono(q, allA - aa, d - aa);
    var k := q * (allA - aa);
    assert (q * toA) * (allA - aa) == toA * k;
    MulMono(toA, k, 1.0);
  }

  lemma ReducedDamped(m: Matrix, ids: set<Id>, d: real, a: Id)
    requires Damped(m, ids, d) && 0.0 <= d < 1.0 && a in ids
    ensures m(a, a) < 1.0 && Damped(Reduced(m, a, Quotient(m(a, a))), ids - {a}, d)
  {
    hide Over, Mul, Quotient, Reduced;
    OverTerm(Column(m, a), ids, a);
    var r := Reduced(m, a, Quotient(m(a, a)));
    QuotientLaws(m(a, a), d);
    forall u | u in ids - {a} ensures Over(Column(r, u), ids - {a}) <= d {
      ReducedColumn(m, ids, d, a, u);
    }
    forall u, w | u in ids - {a} && w in ids - {a} ensures 0.0 <= r(u, w) {
      ReducedEntry(m, a, Quotient(m(a, a)), u, w);
    }
  }

  lemma ReducedEntry(m: Matrix, a: Id, q: real, u: Id, w: Id)
    requires 0.0 <= m(u, w) && 0.0 <= m(u, a) && 0.0 <= m(a, w) && 0.0 <= q
    ensures 0.0 <= Reduced(m, a, q)(u, w)
  {
    hide Mul;
    MulNonNegative(q, m(u, a));
    MulNonNegative(Mul(q, m(u, a)), m(a, w));
  }

  /** A solution without `a`, completed by what `a` then has. */
  ghost function Completed(m: Matrix, ids: set<Id>, b: Vector, a: Id, q: real, y: Vector): Vector {
    var s := Mul(q, b(a) + Over(Gifts(m, y, a), ids - {a}));
    u => if u == a then s else y(u)
  }

  lemma CompletedAtSelf(m: Matrix, ids: set<Id>, b: Vector, a: Id, y: Vector)
    requires a in ids && m(a, a) < 1.0
    ensures SolvesAt(m, ids, b, Completed(m, ids, b, a, Quotient(m(a, a)), y), a)
  {
    hide Over, Mul, Quotient;
    var x := Completed(m, ids, b, a, Quotient(m(a, a)), y);
    OverRemove(Gifts(m, x, a), ids, a);
    OverFrame(Gifts(m, x, a), Gifts(m, y, a), ids - {a});
    SelfTerm(m(a, a), b(a) + Over(Gifts(m, y, a), ids - {a}));
  }

  lemma SelfTerm(aa: real, s: real)
    requires aa < 1.0
    ensures Mul(Quotient(aa), s) == s + Mul(aa, Mul(Quotient(aa), s))
  {
    var h := 1.0 - aa;
    var q := 1.0 / h;
    assert h * q == 1.0;
    assert h * (q * s) == s;
  }

  lemma CompletedAtOther(m: Matrix, ids: set<Id>, b: Vector, a: Id, q: real, y: Vector, v: Id)
    requires a in ids && v in ids - {a}
    requires SolvesAt(Reduced(m, a, q), ids - {a}, ReducedConstant(m, b, a, q), y, v)
    ensures SolvesAt(m, ids, b, Completed(m, ids, b, a, q, y), v)
  {
    hide Over, Mul;
    var x := Completed(m, ids, b, a, q, y);
    var g := Over(Gifts(m, y, a), ids - {a});
    OverRemove(Gifts(m, x, v), ids, a);
    OverFrame(Gifts(m, x, v), Gifts(m, y, v), ids - {a});
    forall u | u in ids - {a}
      ensures Gifts(Reduced(m, a, q), y, v)(u) == Gifts(m, y, v)(u) + Mul(Mul(m(a, v), q), Gifts(m, y, a)(u))
    {
      OnwardTerm(m(u, v), m(a, v), q, m(u, a), y(u));
    }
    OverLinear(Gifts(m, y, v), Mul(m(a, v), q), Gifts(m, y, a), Gifts(Reduced(m, a, q), y, v), ids - {a});
    OtherTerm(m(a, v), q, b(a), g);
  }

  lemma OnwardTerm(direct: real, onward: real, q: real, toA: real, x: real)
    ensures Mul(direct + Mul(Mul(q, toA), onward), x) == Mul(direct, x) + Mul(Mul(onward, q), Mul(toA, x))
  {
    assert ((q * toA) * onward) * x == (onward * q) * (toA * x);
  }

  lemma OtherTerm(onward: real, q: real, b: real, g: real)
    ensures Mul(Mul(q, b), onward) + Mul(Mul(onward, q), g) == Mul(onward, Mul(q, b + g))
  {
    assert (q * b) * onward == onward * (q * b);
    assert (onward * q) * g == onward * (q * g);
    assert onward * (q * b) + onward * (q * g) == onward * (q * (b + g));
  }

  // ---------------------------------------------------------------- solving the equations

  lemma {:induction false} SolutionExists(m: Matrix, ids: set<Id>, d: real, b: Vector) returns (x: Vector)
    requires Damped(m, ids, d) && 0.0 <= d < 1.0
    ensures Solves(m, ids, b, x)
    decreases |ids|
  {
    if ids == {} {
      x := b;
    } else {
      hide Damped, SolvesAt, Quotient, Completed, Reduced, ReducedConstant;
      var a :| a in ids;
      ReducedDamped(m, ids, d, a);
      var q := Quotient(m(a, a));
      var y := SolutionExists(Reduced(m, a, q), ids - {a}, d, ReducedConstant(m, b, a, q));
      x := Completed(m, ids, b, a, q, y);
      CompletedAtSelf(m, ids, b, a, y);
      forall v | v in ids - {a} ensures SolvesAt(m, ids, b, x, v) {
        CompletedAtOther(m, ids, b, a, q, y, v);
      }
    }
  }

  // ---------------------------------------------------------------- the PageRank vector

  ghost function DampedMatrix(w: Web, d: real): Matrix
    requires w.Closed()
  {
    (u, v) => if u in w.ids then Mul(d, P(w, u, v)) else 0.0
  }

  lemma {:induction false} OverIsTotal(f: Vector, s: set<Id>, m: Scores)
    requires m.Keys == s && forall u :: u in s ==> m[u] == f(u)
    ensures Over(f, s) == Total(m)
    decreases |s|
  {
    if s == {} {
      assert m == map[];
    } else {
      var u := PickFrom(s);
      OverIsTotal(f, s - {u}, m - {u});
      TotalRemove(m, u);
    }
  }

  lemma DampedMatrixOk(w: Web, d: real)
    requires w.Closed() && 0.0 <= d
    ensures Damped(DampedMatrix(w, d), w.ids, d)
  {
    hide Mul, P, Total, Over;
    forall u | u in w.ids ensures Over(Column(DampedMatrix(w, d), u), w.ids) <= d {
      DampedColumn(w, d, u);
    }
    forall u, v | u in w.ids && v in w.ids ensures 0.0 <= DampedMatrix(w, d)(u, v) {
      PNonNegative(w, u, v);
      MulNonNegative(d, P(w, u, v));
    }
  }

  lemma DampedColumn(w: Web, d: real, u: Id)
    requires w.Closed() && u in w.ids
    ensures Over(Column(DampedMatrix(w, d), u), w.ids) == d
  {
    hide Mul, P, Total, Over;
    var row := map v | v in w.ids :: P(w, u, v);
    var column := map v | v in w.ids :: Mul(d, P(w, u, v));
    RowSum(w, u);
    TotalScale(row, d, column);
    MulOne(d);
    OverIsTotal(Column(DampedMatrix(w, d), u), w.ids, column);
  }

  lemma PNonNegative(w: Web, u: Id, v: Id)
    requires w.Closed() && u in w.ids
    ensures 0.0 <= P(w, u, v)
  {
  }

  lemma {:induction false} GiftsAreArrivals(w: Web, d: real, x: Vector, p: Scores, from: set<Id>, v: Id)
    requires w.Closed() && p.Keys == w.ids && from <= w.ids && forall u :: u in w.ids ==> p[u] == x(u)
    ensures Over(Gifts(DampedMatrix(w, d), x, v), from) == Mul(d, Arrives(w, p, from, v))
    decreases |from|
  {
    hide Mul, P;
    if from == {} {
      MulOne(d);
    } else {
      var u := PickFrom(from);
      GiftsAreArrivals(w, d, x, p, from - {u}, v);
      MulAssociates(d, P(w, u, v), x(u));
      MulAdd(d, Mul(x(u), P(w, u, v)), Arrives(w, p, from - {u}, v));
    }
  }

  lemma MulAssociates(d: real, p: real, x: real)
    ensures Mul(Mul(d, p), x) == Mul(d, Mul(x, p))
  {
  }

  /** On every closed web there is a PageRank vector. */
  lemma FixedPointExists(w: Web, d: real)
    requires w.Closed() && 0.0 <= d < 1.0
    ensures exists p :: IsFixedPoint(w, d, p)
  {
    hide Mul, P, Over, Arrives, DampedMatrix, Gifts;
    if w.ids == {} {
      assert IsFixedPoint(w, d, map[]);
    } else {
      var share := Teleport(w, d);
      DampedMatrixOk(w, d);
      var x := SolutionExists(DampedMatrix(w, d), w.ids, d, _ => share);
      var p := map v | v in w.ids :: x(v);
      forall v | v in w.ids ensures Next(w, d, p)[v] == p[v] {
        assert SolvesAt(DampedMatrix(w, d), w.ids, _ => share, x, v);
        GiftsAreArrivals(w, d, x, p, w.ids, v);
      }
      assert IsFixedPoint(w, d, p);
    }
  }

  /** The PageRank vector; by FixedPointUnique there is only one. */
  ghost function Ranks(w: Web, d: real): (p: Scores)
    requires w.Closed() && 0.0 <= d < 1.0
    ensures IsFixedPoint(w, d, p)
  {
    FixedPointExists(w, d);
    var p :| IsFixedPoint(w, d, p);
    p
  }

  /** The iterates converge to it: every superstep reduces the distance by the damping factor. */
  lemma {:induction false} Convergence(w: Web, d: real, s: nat)
    requires w.Closed() && 0.0 <= d < 1.0 && 1 <= s
    ensures L1(ScoresAt(w, d, s), Ranks(w, d)) <= Mul(Pow(d, s - 1), L1(Uniform(w), Ranks(w, d)))
  {
    hide L1, Next, Ranks, Uniform, Mul;
    var p := Ranks(w, d);
    if s == 1 {
      MulOne(L1(Uniform(w), p));
      MulSwap(1.0, L1(Uniform(w), p));
    } else {
      Convergence(w, d, s - 1);
      Contraction(w, d, ScoresAt(w, d, s - 1), p);
      MulMono(d, L1(ScoresAt(w, d, s - 1), p), Mul(Pow(d, s - 2), L1(Uniform(w), p)));
      OnePowerMore(d, s - 2, L1(Uniform(w), p));
    }
  }

  lemma OnePowerMore(d: real, k: nat, l: real)
    ensures Mul(d, Mul(Pow(d, k), l)) == Mul(Pow(d, k + 1), l)
  {
    assert d * (Pow(d, k) * l) == (d * Pow(d, k)) * l;
  }

  // ---------------------------------------------------------------- it is a distribution

  ghost function Zero(w: Web): (z: Scores)
    ensures z.Keys == w.ids
  {
    map v | v in w.ids :: 0.0
  }

  /** The absolute values of the PageRank vector add up to at most one. */
  lemma AbsoluteMass(w: Web, d: real)
    requires w.Closed() && w.ids != {} && 0.0 <= d < 1.0
    ensures L1(Ranks(w, d), Zero(w)) <= 1.0
  {
    hide L1, Next, Ranks, Mul;
    var p, z := Ranks(w, d), Zero(w);
    Contraction(w, d, p, z);
    L1Triangle(Next(w, d, p), Next(w, d, z), z);
    NextOfZero(w, d);
    MassArithmetic(d, L1(p, z));
  }

  lemma MassArithmetic(d: real, l: real)
    requires d < 1.0 && l <= Mul(d, l) + (1.0 - d)
    ensures l <= 1.0
  {
    var h := 1.0 - d;
    assert h * l <= h;
    MulMono(1.0 / h, h * l, h);
    assert (1.0 / h) * (h * l) == l;
  }

  lemma NextOfZero(w: Web, d: real)
    requires w.Closed() && w.ids != {} && 0.0 <= d < 1.0
    ensures L1(Next(w, d, Zero(w)), Zero(w)) == 1.0 - d
  {
    hide Mul, Arrives, Total;
    var z := Zero(w);
    forall v | v in w.ids ensures Diff(Next(w, d, z), z)[v] == Teleport(w, d) {
      NothingArrives(w, w.ids, v);
      MulOne(d);
      DivideMono(0.0, 1.0 - d, |w.ids| as real);
    }
    TotalConst(Diff(Next(w, d, z), z), Teleport(w, d));
    TeleportTotal(w, d);
    assert Diff(Next(w, d, z), z).Keys == w.ids;
  }

  lemma {:induction false} NothingArrives(w: Web, from: set<Id>, v: Id)
    requires w.Closed() && from <= w.ids
    ensures Arrives(w, Zero(w), from, v) == 0.0
    decreases |from|
  {
    hide Mul, P;
    if from != {} {
      NothingArrives(w, from - {PickFrom(from)}, v);
      MulOne(P(w, PickFrom(from), v));
    }
  }

  lemma RanksTotal(w: Web, d: real)
    requires w.Closed() && w.ids != {} && 0.0 <= d < 1.0
    ensures Total(Ranks(w, d)) == 1.0
  {
    hide Ranks, Next, Total, Mul;
    NextTotal(w, d, Ranks(w, d));
    TotalArithmetic(d, Total(Ranks(w, d)));
  }

  lemma TotalArithmetic(d: real, t: real)
    requires d < 1.0 && t == (1.0 - d) + Mul(d, t)
    ensures t == 1.0
  {
    var h := 1.0 - d;
    assert h * t == h;
    assert (1.0 / h) * (h * t) == t && (1.0 / h) * h == 1.0;
  }

  /** The PageRank vector is a distribution in which every page has at least the teleport share. */
  lemma RanksAreDistribution(w: Web, d: real, v: Id)
    requires w.Closed() && 0.0 <= d < 1.0 && v in w.ids
    ensures Total(Ranks(w, d)) == 1.0 && (1.0 - d) / |w.ids| as real <= Ranks(w, d)[v] <= 1.0
  {
    hide Ranks, Total, Arrives, Mul, L1;
    var p := Ranks(w, d);
    RanksTotal(w, d);
    AbsoluteMass(w, d);
    forall u | u in w.ids ensures 0.0 <= p[u] {
      NonNegativeByMass(w, p, u);
    }
    TotalTerm(p, v);
    ArrivesNonNegative(w, p, w.ids, v);
    MulNonNegative(d, Arrives(w, p, w.ids, v));
    assert Next(w, d, p)[v] == p[v];
  }

  lemma NonNegativeByMass(w: Web, p: Scores, u: Id)
    requires p.Keys == w.ids && u in w.ids && L1(p, Zero(w)) <= Total(p)
    ensures 0.0 <= p[u]
  {
    hide Total;
    var a := Diff(p, Zero(w));
    TotalRemove(a, u);
    TotalRemove(p, u);
    TotalMono(p - {u}, a - {u});
  }
}
