/** Finite sums indexed by the keys of a map. Two maps that agree on every key are equal, so
    a sum depends only on the terms and never on the order in which they are added. */
module Sums {

  /** Products are named so that a proof can hide the multiplication and use the laws below. */
  function Mul(x: real, y: real): real { x * y }

  lemma MulAdd(p: real, x: real, y: real)
    ensures Mul(p, x) + Mul(p, y) == Mul(p, x + y)
  {
  }

  lemma MulOne(p: real)
    ensures Mul(p, 1.0) == p && Mul(p, 0.0) == 0.0 && Mul(0.0, p) == 0.0
  {
  }

  lemma MulSwap(x: real, y: real)
    ensures Mul(x, y) == Mul(y, x)
  {
  }

  lemma MulMono(p: real, x: real, y: real)
    requires 0.0 <= p && x <= y
    ensures Mul(p, x) <= Mul(p, y)
  {
  }

  lemma MulNonNegative(p: real, x: real)
    requires 0.0 <= p && 0.0 <= x
    ensures 0.0 <= Mul(p, x)
  {
  }

  ghost function Pick<K, V>(m: map<K, V>): (k: K)
    requires m != map[]
    ensures k in m
  {
    var k :| k in m;
    k
  }

  ghost function PickFrom<K>(s: set<K>): (k: K)
    requires s != {}
    ensures k in s
  {
    var k :| k in s;
    k
  }

  /** The sum of all values of `m`. */
  ghost function Total<K>(m: map<K, real>): real
    decreases |m|
  {
    if m == map[] then 0.0
    else
      var k := Pick(m);
      assert |m - {k}| < |m| by { assert (m - {k}).Keys == m.Keys - {k}; }
      m[k] + Total(m - {k})
  }

  /** Any key may be taken out first. */
  lemma {:induction false} TotalRemove<K>(m: map<K, real>, k: K)
    requires k in m
    ensures Total(m) == m[k] + Total(m - {k})
    decreases |m|
  {
    var p := Pick(m);
    if p != k {
      assert (m - {p}).Keys == m.Keys - {p} && (m - {k}).Keys == m.Keys - {k};
      TotalRemove(m - {p}, k);
      TotalRemove(m - {k}, p);
      assert m - {p} - {k} == m - {k} - {p};
    }
  }

  lemma TotalUpdate<K>(m: map<K, real>, k: K, r: real)
    requires k in m
    ensures Total(m[k := r]) == Total(m) - m[k] + r
  {
    TotalRemove(m, k);
    TotalRemove(m[k := r], k);
    assert m[k := r] - {k} == m - {k};
  }

  lemma {:induction false} TotalAdd<K>(a: map<K, real>, b: map<K, real>, c: map<K, real>)
    requires a.Keys == b.Keys == c.Keys
    requires forall k :: k in c ==> c[k] == a[k] + b[k]
    ensures Total(c) == Total(a) + Total(b)
    decreases |c|
  {
    if c == map[] {
      assert a == b == map[];
    } else {
      var k := Pick(c);
      assert (c - {k}).Keys == c.Keys - {k};
      TotalAdd(a - {k}, b - {k}, c - {k});
      TotalRemove(a, k);
      TotalRemove(b, k);
    }
  }

  lemma {:induction false} TotalScale<K>(a: map<K, real>, p: real, c: map<K, real>)
    requires a.Keys == c.Keys
    requires forall k :: k in c ==> c[k] == Mul(p, a[k])
    ensures Total(c) == Mul(p, Total(a))
    decreases |c|
  {
    if c == map[] {
      assert a == map[];
    } else {
      hide Mul;
      var k := Pick(c);
      assert (c - {k}).Keys == c.Keys - {k};
      TotalScale(a - {k}, p, c - {k});
      TotalRemove(a, k);
      MulAdd(p, a[k], Total(a - {k}));
    }
  }

  lemma {:induction false} TotalMono<K>(a: map<K, real>, b: map<K, real>)
    requires a.Keys == b.Keys
    requires forall k :: k in a ==> a[k] <= b[k]
    ensures Total(a) <= Total(b)
    decreases |a|
  {
    if a == map[] {
      assert b == map[];
    } else {
      var k := Pick(a);
      assert (a - {k}).Keys == a.Keys - {k};
      TotalMono(a - {k}, b - {k});
      TotalRemove(b, k);
    }
  }

  /** A sum of a constant is the constant times the number of keys. */
  lemma {:induction false} TotalConst<K>(m: map<K, real>, c: real)
    requires forall k :: k in m ==> m[k] == c
    ensures Total(m) == Mul(c, |m| as real)
    decreases |m|
  {
    if m != map[] {
      hide Mul;
      var k := Pick(m);
      assert (m - {k}).Keys == m.Keys - {k};
      TotalConst(m - {k}, c);
      assert |m| == |m - {k}| + 1;
      MulAdd(c, 1.0, |m - {k}| as real);
      assert c == Mul(c, 1.0) by { MulOne(c); }
    }
  }

  /** One term of a sum of non-negative terms is at most the sum. */
  lemma TotalTerm<K>(m: map<K, real>, k: K)
    requires k in m
    requires forall j :: j in m ==> 0.0 <= m[j]
    ensures 0.0 <= m[k] <= Total(m)
  {
    TotalRemove(m, k);
    var rest := m - {k};
    var zero := map j | j in rest :: 0.0;
    TotalConst(zero, 0.0);
    TotalMono(zero, rest);
  }
}
