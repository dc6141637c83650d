/** UUIDs as the 16 bytes they are, their numeric value, and their canonical string form (RFC 4122,
    section 3), whose alphabetical order is the numeric one. */
module Uuids {
  type Byte = b: int | 0 <= b < 256

  type Uuid = s: seq<Byte> | |s| == 16 witness [0, 0, 0, 0, 0, 0, 0, 0, 0, 0, 0, 0, 0, 0, 0, 0]

  const NIL: Uuid := [0, 0, 0, 0, 0, 0, 0, 0, 0, 0, 0, 0, 0, 0, 0, 0]

  // ---------------------------------------------------------------- numbers

  /** The number that the bytes stand for, the most significant first. */
  function Number(s: seq<Byte>): nat {
    if s == [] then 0 else Number(s[..|s| - 1]) * 256 + s[|s| - 1]
  }

  function Pow256(k: nat): nat {
    if k == 0 then 1 else 256 * Pow256(k - 1)
  }

  /** The shortest sequence of bytes that stands for the number; none for zero. */
  function MinBytes(n: nat): (s: seq<Byte>)
    ensures Number(s) == n
  {
    if n == 0 then [] else
      var s := MinBytes(n / 256) + [n % 256];
      assert s[..|s| - 1] == MinBytes(n / 256);
      s
  }

  /** How many bytes that are. */
  lemma {:induction false} MinBytesLength(n: nat, k: nat)
    ensures |MinBytes(n)| <= k <==> n < Pow256(k)
  {
    if n != 0 && k != 0 {
      MinBytesLength(n / 256, k - 1);
      assert n / 256 < Pow256(k - 1) <==> n < 256 * Pow256(k - 1);
    } else if n != 0 {
      assert |MinBytes(n)| > 0;
    } else {
      PowPositive(k);
    }
  }

  lemma PowPositive(k: nat)
    ensures 1 <= Pow256(k)
  {
  }

  lemma {:induction false} NumberBound(s: seq<Byte>)
    ensures Number(s) < Pow256(|s|)
  {
    if s != [] {
      NumberBound(s[..|s| - 1]);
    }
  }

  lemma {:induction false} NumberSplit(s: seq<Byte>)
    requires s != []
    ensures Number(s) == s[0] * Pow256(|s| - 1) + Number(s[1..])
  {
    if |s| > 1 {
      var front := s[..|s| - 1];
      NumberSplit(front);
      assert s[1..][..|s| - 2] == front[1..];
      assert s[0] * Pow256(|s| - 1) == s[0] * Pow256(|s| - 2) * 256 by {
        assert Pow256(|s| - 1) == 256 * Pow256(|s| - 2);
      }
    } else {
      assert s[..0] == [] && s[1..] == [];
    }
  }

  // ---------------------------------------------------------------- the order of bytes

  /** Comparison of two byte sequences, byte by byte. */
  predicate Less(a: seq<Byte>, b: seq<Byte>) {
    if b == [] then false
    else if a == [] then true
    else a[0] < b[0] || (a[0] == b[0] && Less(a[1..], b[1..]))
  }

  /** For sequences of the same length it is the order of the numbers. */
  lemma {:induction false} LessIsNumeric(a: seq<Byte>, b: seq<Byte>)
    requires |a| == |b|
    ensures Less(a, b) <==> Number(a) < Number(b)
  {
    if a != [] {
      NumberSplit(a);
      NumberSplit(b);
      LessIsNumeric(a[1..], b[1..]);
      NumberBound(a[1..]);
      NumberBound(b[1..]);
      HeadDecides(a[0], b[0], Pow256(|a| - 1), Number(a[1..]), Number(b[1..]));
    }
  }

  lemma HeadDecides(x: nat, y: nat, p: nat, r: nat, q: nat)
    requires r < p && q < p
    ensures x * p + r < y * p + q <==> x < y || (x == y && r < q)
  {
    if x < y {
      assert (x + 1) * p <= y * p;
    } else if y < x {
      assert (y + 1) * p <= x * p;
    }
  }

  // ---------------------------------------------------------------- strings

  function HexDigit(n: nat): char
    requires n < 16
  {
    "0123456789abcdef"[n]
  }

  lemma HexOrder(m: nat, n: nat)
    requires m < 16 && n < 16
    ensures HexDigit(m) < HexDigit(n) <==> m < n
    ensures HexDigit(m) == HexDigit(n) <==> m == n
  {
    assert forall i: nat :: i < 10 ==> "0123456789abcdef"[i] as int == 48 + i;
    assert forall i: nat :: 10 <= i < 16 ==> "0123456789abcdef"[i] as int == 87 + i;
  }

  function Hex(b: Byte): string {
    [HexDigit(b / 16), HexDigit(b % 16)]
  }

  function Dash(i: nat): string {
    if i == 4 || i == 6 || i == 8 || i == 10 then "-" else ""
  }

  /** The characters for the bytes from position `i` on. */
  function StringFrom(u: Uuid, i: nat): string
    requires i <= 16
    decreases 16 - i
  {
    if i == 16 then "" else Dash(i) + Hex(u[i]) + StringFrom(u, i + 1)
  }

  /** Lower-case hexadecimal digits in groups of 8, 4, 4, 4 and 12, joined by dashes. */
  function String(u: Uuid): string {
    StringFrom(u, 0)
  }

  /** Alphabetical order. */
  predicate Before(s: string, t: string) {
    if t == "" then false
    else if s == "" then true
    else s[0] < t[0] || (s[0] == t[0] && Before(s[1..], t[1..]))
  }

  lemma {:induction false} SamePrefix(p: string, s: string, t: string)
    ensures Before(p + s, p + t) <==> Before(s, t)
  {
    if p == "" {
      assert p + s == s && p + t == t;
    } else {
      SamePrefix(p[1..], s, t);
      assert (p + s)[1..] == p[1..] + s && (p + t)[1..] == p[1..] + t;
    }
  }

  lemma HexDecides(b: Byte, c: Byte, s: string, t: string)
    ensures Before(Hex(b) + s, Hex(c) + t) <==> b < c || (b == c && Before(s, t))
  {
    HexOrder(b / 16, c / 16);
    HexOrder(b % 16, c % 16);
    var x, y := Hex(b) + s, Hex(c) + t;
    assert x[1..][1..] == s && y[1..][1..] == t;
    assert x[0] == HexDigit(b / 16) && x[1..][0] == HexDigit(b % 16);
    assert y[0] == HexDigit(c / 16) && y[1..][0] == HexDigit(c % 16);
    assert Before(x, y) <==> x[0] < y[0] || (x[0] == y[0] && Before(x[1..], y[1..]));
    assert Before(x[1..], y[1..]) <==> x[1..][0] < y[1..][0] || (x[1..][0] == y[1..][0] && Before(s, t));
  }

  lemma NotBefore()
    ensures !Before("", "")
  {
  }

  lemma {:induction false} StringFromOrder(u: Uuid, v: Uuid, i: nat)
    requires i <= 16
    ensures Before(StringFrom(u, i), StringFrom(v, i)) <==> Less(u[i..], v[i..])
    decreases 16 - i
  {
    hide Before, Hex, Dash;
    if i == 16 {
      NotBefore();
    } else {
      StringFromOrder(u, v, i + 1);
      var s, t := StringFrom(u, i + 1), StringFrom(v, i + 1);
      HexDecides(u[i], v[i], s, t);
      SamePrefix(Dash(i), Hex(u[i]) + s, Hex(v[i]) + t);
      assert StringFrom(u, i) == Dash(i) + (Hex(u[i]) + s) && StringFrom(v, i) == Dash(i) + (Hex(v[i]) + t);
      assert u[i..][1..] == u[i + 1..] && v[i..][1..] == v[i + 1..];
    }
  }

  /** The strings compare as the 128-bit numbers do. */
  lemma StringOrder(u: Uuid, v: Uuid)
    ensures Before(String(u), String(v)) <==> Number(u) < Number(v)
  {
    StringFromOrder(u, v, 0);
    assert u[0..] == u && v[0..] == v;
    LessIsNumeric(u, v);
  }

  lemma StringLength(u: Uuid)
    ensures |String(u)| == 36
  {
    hide StringFrom;
    StringFromLength(u, 0);
  }

  lemma {:induction false} StringFromLength(u: Uuid, i: nat)
    requires i <= 16
    ensures |StringFrom(u, i)| == 2 * (16 - i)
                                 + (if i <= 4 then 4 else if i <= 6 then 3
                                    else if i <= 8 then 2 else if i <= 10 then 1 else 0)
    decreases 16 - i
  {
    if i < 16 {
      StringFromLength(u, i + 1);
    }
  }

  /** Where the digits of byte `i` are: behind those of the bytes before and the dashes. */
  function Place(i: nat): nat {
    2 * i + if i < 4 then 0 else if i < 6 then 1 else if i < 8 then 2 else if i < 10 then 3 else 4
  }

  /** The character with the code of a lower-case hexadecimal digit in US-ASCII. */
  predicate IsDigit(c: char, n: nat) {
    c as int == if n < 10 then 48 + n else 87 + n
  }

  lemma DigitIs(n: nat)
    requires n < 16
    ensures IsDigit(HexDigit(n), n)
  {
    assert forall i: nat :: i < 10 ==> "0123456789abcdef"[i] as int == 48 + i;
    assert forall i: nat :: 10 <= i < 16 ==> "0123456789abcdef"[i] as int == 87 + i;
  }

  lemma StringStep(u: Uuid, j: nat)
    requires j < 16
    ensures StringFrom(u, j) == Dash(j) + Hex(u[j]) + StringFrom(u, j + 1)
  {
  }

  lemma {:induction false} CharsFrom(u: Uuid, j: nat, i: nat)
    requires j <= i < 16
    ensures var s, p := StringFrom(u, j), Place(i) - Place(j) + |Dash(j)|;
            && p + 1 < |s| && s[p] == HexDigit(u[i] / 16) && s[p + 1] == HexDigit(u[i] % 16)
            && (i == 4 || i == 6 || i == 8 || i == 10 ==> 1 <= p && s[p - 1] == '-')
    decreases i - j
  {
    hide StringFrom, HexDigit;
    StringStep(u, j);
    if j < i {
      CharsFrom(u, j + 1, i);
      var s, t, w := StringFrom(u, j), StringFrom(u, j + 1), |Dash(j)| + 2;
      var p := Place(i) - Place(j) + |Dash(j)|;
      assert s == (Dash(j) + Hex(u[j])) + t;
      assert s[p] == t[p - w] && s[p + 1] == t[p + 1 - w];
      assert i == 4 || i == 6 || i == 8 || i == 10 ==> s[p - 1] == t[p - 1 - w];
    }
  }

  /** The canonical form, character by character: two lower-case hexadecimal digits for each byte, and
      a dash before the bytes 4, 6, 8 and 10. */
  lemma StringChars(u: Uuid, i: nat)
    requires i < 16
    ensures |String(u)| == 36
    ensures IsDigit(String(u)[Place(i)], u[i] / 16) && IsDigit(String(u)[Place(i) + 1], u[i] % 16)
    ensures i == 4 || i == 6 || i == 8 || i == 10 ==> String(u)[Place(i) - 1] == '-'
  {
    hide IsDigit, StringFrom, HexDigit;
    StringLength(u);
    CharsFrom(u, 0, i);
    DigitIs(u[i] / 16);
    DigitIs(u[i] % 16);
  }
}
