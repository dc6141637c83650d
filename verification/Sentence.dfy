/** Splitting text into sentences while it is being read. */
module Sentence {
  import opened Options
  import opened Uuids
  import opened Utf8

  /** The Unicode character classes, which are not part of this model. */
  datatype Classes = Classes(
    lower: nat -> bool,
    symbol: nat -> bool,
    number: nat -> bool,
    space: nat -> bool,
    punct: nat -> bool,
    upper: nat -> bool)

  /** The width and value of the first character, or a negative width if more data is needed. */
  function ScanRune(data: seq<Byte>): (int, nat) {
    match Decode(data)
    case None => (-1, 0)
    case Some(d) => (d.width, d.rune)
  }

  /** Whether a sentence ends with the middle one of three characters. The symbol class is looked up
      for the first character in both of its places. */
  predicate BreakSentenceAtMiddleChar(cl: Classes, a: nat, b: nat, c: nat) {
    && (cl.lower(a) || cl.symbol(a) || cl.number(a) || cl.space(a))
    && (b == '.' as int || b == '!' as int || b == '?' as int)
    && (cl.punct(c) || cl.space(c) || cl.symbol(a) || cl.number(c) || cl.upper(c))
  }

  // ---------------------------------------------------------------- the characters of the data

  /** The characters at the start of the data, as far as they can be decoded. */
  ghost function Runes(data: seq<Byte>): seq<Decoded>
    decreases |data|
  {
    if Decode(data) == None then []
    else
      EncodeDecoded(data);
      [Decode(data).value] + Runes(data[Decode(data).value.width..])
  }

  ghost function Offset(rs: seq<Decoded>, n: nat): nat
    requires n <= |rs|
  {
    if n == 0 then 0 else Offset(rs, n - 1) + rs[n - 1].width
  }

  lemma {:induction false} OffsetTail(rs: seq<Decoded>, n: nat)
    requires n < |rs|
    ensures Offset(rs, n + 1) == rs[0].width + Offset(rs[1..], n)
  {
    if 0 < n {
      OffsetTail(rs, n - 1);
    }
  }

  lemma {:induction false} OffsetMono(rs: seq<Decoded>, m: nat, n: nat)
    requires m <= n <= |rs|
    ensures Offset(rs, m) <= Offset(rs, n)
    decreases n - m
  {
    if m < n {
      OffsetMono(rs, m, n - 1);
    }
  }

  /** The n-th character is what is decoded behind the first n. */
  lemma {:induction false} RuneAt(data: seq<Byte>, n: nat)
    requires n <= |Runes(data)|
    ensures Offset(Runes(data), n) <= |data|
    ensures Decode(data[Offset(Runes(data), n)..]) == if n < |Runes(data)| then Some(Runes(data)[n]) else None
    decreases n
  {
    hide Decode;
    var rs := Runes(data);
    if n == 0 {
      assert data[0..] == data;
    } else {
      EncodeDecoded(data);
      var tail := data[rs[0].width..];
      assert Runes(tail) == rs[1..];
      RuneAt(tail, n - 1);
      OffsetTail(rs, n - 1);
      assert tail[Offset(Runes(tail), n - 1)..] == data[Offset(rs, n)..];
    }
  }

  lemma {:induction false} WidthPositive(data: seq<Byte>, n: nat)
    requires n < |Runes(data)|
    ensures 1 <= Runes(data)[n].width
  {
    RuneAt(data, n);
    EncodeDecoded(data[Offset(Runes(data), n)..]);
  }

  /** More data only adds characters. */
  lemma {:induction false} RunesStable(data: seq<Byte>, more: seq<Byte>)
    ensures Runes(data) <= Runes(data + more)
    decreases |data|
  {
    if Decode(data).Some? {
      EncodeDecoded(data);
      DecodeStable(data, more);
      var w := Decode(data).value.width;
      assert (data + more)[w..] == data[w..] + more;
      RunesStable(data[w..], more);
    }
  }

  // ---------------------------------------------------------------- text as encoded characters

  ghost predicate AreScalars(rs: seq<nat>) {
    forall i :: 0 <= i < |rs| ==> IsScalar(rs[i])
  }

  ghost function EncodeAll(rs: seq<nat>): seq<Byte>
    requires AreScalars(rs)
  {
    if rs == [] then [] else Encode(rs[0]) + EncodeAll(rs[1..])
  }

  /** Characters that were encoded are found again, whatever follows them. */
  lemma {:induction false} RunesEncoded(rs: seq<nat>, rest: seq<Byte>, n: nat)
    requires AreScalars(rs) && n <= |rs|
    ensures n <= |Runes(EncodeAll(rs) + rest)| && Offset(Runes(EncodeAll(rs) + rest), n) == |EncodeAll(rs[..n])|
    ensures n < |rs| ==> n < |Runes(EncodeAll(rs) + rest)| && Runes(EncodeAll(rs) + rest)[n].rune == rs[n]
  {
    hide Encode, Decode;
    if rs == [] {
      assert rs[..n] == [];
    } else {
      var w, data := |Encode(rs[0])|, EncodeAll(rs) + rest;
      assert data == Encode(rs[0]) + (EncodeAll(rs[1..]) + rest);
      DecodeEncoded(rs[0], EncodeAll(rs[1..]) + rest);
      assert data[w..] == EncodeAll(rs[1..]) + rest;
      if 0 < n {
        RunesEncoded(rs[1..], rest, n - 1);
        OffsetTail(Runes(data), n - 1);
        assert Runes(data)[1..] == Runes(EncodeAll(rs[1..]) + rest);
        assert rs[..n][0] == rs[0] && rs[..n][1..] == rs[1..][..n - 1];
      } else {
        assert rs[..n] == [];
      }
    }
  }

  ghost function Values(ds: seq<Decoded>): (rs: seq<nat>)
    ensures |rs| == |ds| && forall i :: 0 <= i < |ds| ==> rs[i] == ds[i].rune
  {
    seq(|ds|, i requires 0 <= i < |ds| => ds[i].rune)
  }

  /** The data up to a character is the encoding of the characters up to there. */
  lemma {:induction false} EncodesRunes(data: seq<Byte>, n: nat)
    requires n <= |Runes(data)|
    ensures AreScalars(Values(Runes(data)[..n])) && Offset(Runes(data), n) <= |data|
    ensures EncodeAll(Values(Runes(data)[..n])) == data[..Offset(Runes(data), n)]
    decreases n
  {
    hide Encode, Decode;
    if 0 < n {
      var ds := Runes(data);
      EncodeDecoded(data);
      var tail := data[ds[0].width..];
      assert Runes(tail) == ds[1..];
      EncodesRunes(tail, n - 1);
      OffsetTail(ds, n - 1);
      assert Values(ds[..n])[1..] == Values(Runes(tail)[..n - 1]);
      assert data[..ds[0].width] + tail[..Offset(Runes(tail), n - 1)] == data[..Offset(ds, n)];
    }
  }

  // ---------------------------------------------------------------- where a sentence ends

  /** The k-th character ends a sentence, and the character after it is not the last of the data. */
  ghost predicate IsBreak(cl: Classes, data: seq<Byte>, k: nat) {
    var rs := Runes(data);
    && 1 <= k && k + 1 < |rs|
    && BreakSentenceAtMiddleChar(cl, rs[k - 1].rune, rs[k].rune, rs[k + 1].rune)
    && Offset(rs, k + 2) < |data|
  }

  ghost predicate IsFirstBreak(cl: Classes, data: seq<Byte>, k: nat) {
    IsBreak(cl, data, k) && forall i :: 0 <= i < k ==> !IsBreak(cl, data, i)
  }

  /** The length of the sentence that ends with the k-th character. */
  ghost function LengthThrough(data: seq<Byte>, k: nat): (n: nat)
    requires k < |Runes(data)|
    ensures n <= |data|
  {
    RuneAt(data, k + 1);
    Offset(Runes(data), k + 1)
  }

  /** The first `n` bytes of the data are whole characters that end with `a` and one of '.', '!' and
      '?'; behind them come `c` and more data; `a` is lower case, a symbol, a number or space; and `c`
      is punctuation, space, a number or upper case, or `a` is a symbol. */
  ghost predicate IsEnd(cl: Classes, data: seq<Byte>, n: nat, pre: seq<nat>, a: nat, b: Byte, c: nat, more: seq<Byte>) {
    && AreScalars(pre) && IsScalar(a) && IsScalar(c) && more != []
    && data == EncodeAll(pre) + Encode(a) + [b] + Encode(c) + more
    && n == |EncodeAll(pre)| + |Encode(a)| + 1
    && (b == 0x2E || b == 0x21 || b == 0x3F)
    && (cl.lower(a) || cl.symbol(a) || cl.number(a) || cl.space(a))
    && (cl.punct(c) || cl.space(c) || cl.number(c) || cl.upper(c) || cl.symbol(a))
  }

  ghost predicate EndsAt(cl: Classes, data: seq<Byte>, n: nat) {
    exists pre, a, b, c, more :: IsEnd(cl, data, n, pre, a, b, c, more)
  }

  lemma {:induction false} EncodeAppend(xs: seq<nat>, ys: seq<nat>)
    requires AreScalars(xs) && AreScalars(ys)
    ensures AreScalars(xs + ys) && EncodeAll(xs + ys) == EncodeAll(xs) + EncodeAll(ys)
  {
    hide Encode;
    if xs == [] {
      assert xs + ys == ys;
    } else {
      EncodeAppend(xs[1..], ys);
      assert (xs + ys)[1..] == xs[1..] + ys;
    }
  }

  lemma EncodeOne(r: nat)
    requires IsScalar(r)
    ensures AreScalars([r]) && EncodeAll([r]) == Encode(r)
  {
    hide Encode;
    assert [r][1..] == [];
    assert EncodeAll([]) == [];
  }

  /** Three more characters. */
  lemma EncodeThree(pre: seq<nat>, a: nat, b: nat, c: nat)
    requires AreScalars(pre) && IsScalar(a) && b < 0x80 && IsScalar(c)
    ensures AreScalars(pre + [a, b]) && AreScalars(pre + [a, b, c])
    ensures EncodeAll(pre + [a, b]) == EncodeAll(pre) + Encode(a) + [b]
    ensures EncodeAll(pre + [a, b, c]) == EncodeAll(pre) + Encode(a) + [b] + Encode(c)
  {
    assert Encode(b) == [b];
    hide Encode;
    EncodeOne(a);
    EncodeOne(b);
    EncodeOne(c);
    EncodeAppend(pre, [a]);
    EncodeAppend(pre + [a], [b]);
    EncodeAppend(pre + [a] + [b], [c]);
    assert pre + [a] + [b] == pre + [a, b] && pre + [a] + [b] + [c] == pre + [a, b, c];
  }

  lemma EndIsBreak(cl: Classes, data: seq<Byte>, n: nat, pre: seq<nat>, a: nat, b: Byte, c: nat, more: seq<Byte>)
    requires IsEnd(cl, data, n, pre, a, b, c, more)
    ensures IsBreak(cl, data, |pre| + 1) && n == LengthThrough(data, |pre| + 1)
  {
    hide Encode, Runes, Offset, EncodeAll;
    EncodeThree(pre, a, b, c);
    var rs, k := pre + [a, b, c], |pre| + 1;
    RunesEncoded(rs, more, k - 1);
    RunesEncoded(rs, more, k);
    RunesEncoded(rs, more, k + 1);
    RunesEncoded(rs, more, k + 2);
    assert rs[..k + 1] == pre + [a, b] && rs[..k + 2] == rs;
  }

  lemma BreakIsEnd(cl: Classes, data: seq<Byte>, k: nat)
    requires IsBreak(cl, data, k)
    ensures EndsAt(cl, data, LengthThrough(data, k))
  {
    hide Encode, Runes, Offset, EncodeAll, Values;
    var ds := Runes(data);
    EncodesRunes(data, k - 1);
    EncodesRunes(data, k + 1);
    EncodesRunes(data, k + 2);
    var pre, a, b, c := Values(ds[..k - 1]), ds[k - 1].rune, ds[k].rune, ds[k + 1].rune;
    assert Values(ds[..k + 2])[k - 1] == a && Values(ds[..k + 2])[k + 1] == c;
    EncodeThree(pre, a, b, c);
    assert Values(ds[..k + 1]) == pre + [a, b] && Values(ds[..k + 2]) == pre + [a, b, c];
    var more := data[Offset(ds, k + 2)..];
    assert IsEnd(cl, data, LengthThrough(data, k), pre, a, b, c, more);
  }

  lemma FirstEnd(cl: Classes, data: seq<Byte>, k: nat)
    requires IsFirstBreak(cl, data, k)
    ensures EndsAt(cl, data, LengthThrough(data, k))
    ensures forall n :: EndsAt(cl, data, n) ==> LengthThrough(data, k) <= n
  {
    hide BreakSentenceAtMiddleChar, IsEnd, Runes, Offset, LengthThrough;
    BreakIsEnd(cl, data, k);
    forall n | EndsAt(cl, data, n) ensures LengthThrough(data, k) <= n {
      var pre, a, b, c, more :| IsEnd(cl, data, n, pre, a, b, c, more);
      EndIsBreak(cl, data, n, pre, a, b, c, more);
      LengthMono(data, k, |pre| + 1);
    }
  }

  lemma FoundEnd(cl: Classes, data: seq<Byte>, advance: nat)
    requires exists k :: IsFirstBreak(cl, data, k) && advance == LengthThrough(data, k)
    ensures EndsAt(cl, data, advance) && forall n :: EndsAt(cl, data, n) ==> advance <= n
  {
    hide BreakSentenceAtMiddleChar, EndsAt, Runes, LengthThrough;
    var k: nat :| IsFirstBreak(cl, data, k) && advance == LengthThrough(data, k);
    FirstEnd(cl, data, k);
  }

  lemma LengthMono(data: seq<Byte>, k: nat, l: nat)
    requires k <= l < |Runes(data)|
    ensures LengthThrough(data, k) <= LengthThrough(data, l)
  {
    hide Runes;
    OffsetMono(Runes(data), k + 1, l + 1);
  }

  lemma NoEnds(cl: Classes, data: seq<Byte>)
    requires forall k :: !IsBreak(cl, data, k)
    ensures forall n :: !EndsAt(cl, data, n)
  {
    hide IsBreak, IsEnd, LengthThrough;
    forall n | EndsAt(cl, data, n) ensures false {
      var pre, a, b, c, more :| IsEnd(cl, data, n, pre, a, b, c, more);
      EndIsBreak(cl, data, n, pre, a, b, c, more);
    }
  }

  /** The split function of the scanner: at the end of the input all that is left is a sentence;
      before it, a sentence ends with the first character that the characters around it make an end,
      final punctuation included; otherwise more data is asked for. */
  method ScanSentence(cl: Classes, data: seq<Byte>, atEOF: bool) returns (advance: nat, token: Option<seq<Byte>>)
    ensures atEOF ==> advance == |data| && token == if data == [] then None else Some(data)
    ensures !atEOF && token == None ==> advance == 0 && forall k :: !IsBreak(cl, data, k)
    ensures !atEOF && token != None ==>
              exists k ::
                IsFirstBreak(cl, data, k) && advance == LengthThrough(data, k) && token == Some(data[..advance])
    ensures !atEOF && token == None ==> forall n :: !EndsAt(cl, data, n)
    ensures !atEOF && token != None ==> EndsAt(cl, data, advance) && forall n :: EndsAt(cl, data, n) ==> advance <= n
  {
    hide Runes, Offset, IsBreak, LengthThrough, EndsAt;
    if atEOF {
      if |data| == 0 {
        return 0, None;
      }
      return |data|, Some(data);
    }
    var triple, index, skip := FirstTriple(data);
    if skip < 0 {
      NoBreakBehind(cl, data, 0);
      NoEnds(cl, data);
      return 0, None;
    }
    NoBreakAtStart(cl, data);
    advance, token := Slide(cl, data, triple, index, skip);
    if token == None {
      NoEnds(cl, data);
    } else {
      FoundEnd(cl, data, advance);
    }
  }

  /** The first three characters, the position behind them and the width of the third. */
  method FirstTriple(data: seq<Byte>) returns (triple: seq<nat>, index: nat, skip: int)
    ensures skip < 0 ==> |Runes(data)| < 3
    ensures 0 <= skip ==> IsTriple(data, 1, triple, index, skip)
  {
    hide ScanRune, Runes, Offset;
    triple, index, skip := [], 0, 0;
    NextRune(data, 0);
    for i := 0 to 3
      invariant |triple| == i <= |Runes(data)| && index == Offset(Runes(data), i) <= |data|
      invariant forall j :: 0 <= j < i ==> triple[j] == Runes(data)[j].rune
      invariant if i == 0 then skip == 0 else skip == Runes(data)[i - 1].width
    {
      NextRune(data, i);
      var (width, rune) := ScanRune(data[index..]);
      skip := width;
      if width < 0 {
        return;
      }
      triple := triple + [rune];
      index := index + width;
    }
  }

  /** The characters around the j-th one, and the position behind them. */
  ghost predicate IsTriple(data: seq<Byte>, j: nat, triple: seq<nat>, index: nat, skip: int) {
    var rs := Runes(data);
    && 1 <= j && j + 2 <= |rs| && index == Offset(rs, j + 2) <= |data| && skip == rs[j + 1].width
    && triple == [rs[j - 1].rune, rs[j].rune, rs[j + 1].rune]
  }

  /** Moves on one character at a time until a sentence ends or the data does. */
  method Slide(cl: Classes, data: seq<Byte>, first: seq<nat>, start: nat, width: int)
    returns (advance: nat, token: Option<seq<Byte>>)
    requires IsTriple(data, 1, first, start, width) && !IsBreak(cl, data, 0)
    ensures token == None ==> advance == 0 && forall k :: !IsBreak(cl, data, k)
    ensures token != None ==>
              exists k ::
                IsFirstBreak(cl, data, k) && advance == LengthThrough(data, k) && token == Some(data[..advance])
  {
    hide ScanRune, BreakSentenceAtMiddleChar, Runes, Offset, IsBreak, LengthThrough;
    var triple, index, skip := first, start, width;
    ghost var j: nat := 1;
    while index < |data|
      invariant IsTriple(data, j, triple, index, skip)
      invariant forall k :: 0 <= k < j ==> !IsBreak(cl, data, k)
      decreases |data| - index
    {
      BreakIs(cl, data, j);
      if BreakSentenceAtMiddleChar(cl, triple[0], triple[1], triple[2]) {
        assert IsFirstBreak(cl, data, j);
        return index - skip, Some(data[..index - skip]);
      }
      NextRune(data, j + 2);
      var (next, rune) := ScanRune(data[index..]);
      if next < 0 {
        NoBreakBehind(cl, data, j);
        return 0, None;
      }
      WidthPositive(data, j + 2);
      triple := [triple[1], triple[2], rune];
      skip := next;
      index := index + next;
      j := j + 1;
    }
    NoBreakAtEnd(cl, data, j);
    return 0, None;
  }

  /** Scanning on from a character boundary gives the next character, if there is one. */
  lemma NextRune(data: seq<Byte>, n: nat)
    requires n <= |Runes(data)|
    ensures Offset(Runes(data), 0) == 0 && Offset(Runes(data), n) <= |data|
    ensures var (width, rune) := ScanRune(data[Offset(Runes(data), n)..]);
            if n < |Runes(data)|
            then && width == Runes(data)[n].width && rune == Runes(data)[n].rune
                 && Offset(Runes(data), n + 1) == Offset(Runes(data), n) + width <= |data|
            else width < 0
  {
    hide Decode, Runes;
    RuneAt(data, n);
    if n < |Runes(data)| {
      RuneAt(data, n + 1);
    }
  }

  lemma BreakIs(cl: Classes, data: seq<Byte>, j: nat)
    requires 1 <= j && j + 2 <= |Runes(data)|
    ensures var rs := Runes(data);
            && Offset(rs, j + 2) == LengthThrough(data, j) + rs[j + 1].width
            && (IsBreak(cl, data, j) <==>
                  && BreakSentenceAtMiddleChar(cl, rs[j - 1].rune, rs[j].rune, rs[j + 1].rune)
                  && Offset(rs, j + 2) < |data|)
  {
    hide Runes, BreakSentenceAtMiddleChar;
  }

  lemma NoBreakAtStart(cl: Classes, data: seq<Byte>)
    ensures !IsBreak(cl, data, 0)
  {
  }

  /** The middle character has to have two neighbours. */
  lemma NoBreakBehind(cl: Classes, data: seq<Byte>, j: nat)
    requires |Runes(data)| <= j + 2
    ensures forall k :: j < k ==> !IsBreak(cl, data, k)
    ensures !IsBreak(cl, data, 0)
  {
    hide Runes, BreakSentenceAtMiddleChar;
  }

  /** No later character ends a sentence if the data ends with this triple. */
  lemma NoBreakAtEnd(cl: Classes, data: seq<Byte>, j: nat)
    requires j + 2 <= |Runes(data)| && Offset(Runes(data), j + 2) == |data|
    ensures forall k :: j <= k ==> !IsBreak(cl, data, k)
  {
    hide Runes, BreakSentenceAtMiddleChar;
    forall k | j <= k && k + 2 <= |Runes(data)| ensures !IsBreak(cl, data, k) {
      OffsetMono(Runes(data), j + 2, k + 2);
    }
  }

  /** The length of the first sentence, if its end can be seen. */
  ghost function SentenceEnd(cl: Classes, data: seq<Byte>): (p: Option<nat>)
    ensures p.Some? ==> 0 < p.value <= |data|
  {
    if k: nat :| IsFirstBreak(cl, data, k) then
      OffsetMono(Runes(data), 1, k + 1);
      WidthPositive(data, 0);
      Some(LengthThrough(data, k))
    else None
  }

  lemma FirstBreakUnique(cl: Classes, data: seq<Byte>, k: nat, l: nat)
    requires IsFirstBreak(cl, data, k) && IsFirstBreak(cl, data, l)
    ensures k == l
  {
    hide IsBreak;
  }

  lemma EndIs(cl: Classes, data: seq<Byte>, k: nat)
    requires IsFirstBreak(cl, data, k)
    ensures SentenceEnd(cl, data) == Some(LengthThrough(data, k))
  {
    hide Runes, BreakSentenceAtMiddleChar;
    var l: nat :| IsFirstBreak(cl, data, l) && SentenceEnd(cl, data) == Some(LengthThrough(data, l));
    FirstBreakUnique(cl, data, k, l);
  }

  // ---------------------------------------------------------------- more data does not move the end

  lemma {:induction false} OffsetStable(rs: seq<Decoded>, more: seq<Decoded>, n: nat)
    requires rs <= more && n <= |rs|
    ensures Offset(rs, n) == Offset(more, n)
  {
    if 0 < n {
      OffsetStable(rs, more, n - 1);
    }
  }

  lemma BreakStable(cl: Classes, data: seq<Byte>, more: seq<Byte>, i: nat, k: nat)
    requires IsBreak(cl, data, k) && i <= k
    ensures IsBreak(cl, data + more, i) <==> IsBreak(cl, data, i)
  {
    hide BreakSentenceAtMiddleChar, Runes;
    var rs := Runes(data);
    RunesStable(data, more);
    OffsetStable(rs, Runes(data + more), i + 2);
    OffsetMono(rs, i + 2, k + 2);
  }

  /** A sentence found in a part of the data is the one found in any longer part. */
  lemma SentenceStable(cl: Classes, data: seq<Byte>, more: seq<Byte>)
    requires SentenceEnd(cl, data).Some?
    ensures SentenceEnd(cl, data + more) == SentenceEnd(cl, data)
  {
    hide IsBreak, Runes;
    var k: nat :| IsFirstBreak(cl, data, k);
    forall i: nat | i <= k ensures IsBreak(cl, data + more, i) <==> IsBreak(cl, data, i) {
      BreakStable(cl, data, more, i, k);
    }
    EndIs(cl, data, k);
    EndIs(cl, data + more, k);
    SameLength(cl, data, more, k);
  }

  lemma SameLength(cl: Classes, data: seq<Byte>, more: seq<Byte>, k: nat)
    requires IsBreak(cl, data, k)
    ensures k < |Runes(data)| && k < |Runes(data + more)| && LengthThrough(data, k) == LengthThrough(data + more, k)
  {
    hide BreakSentenceAtMiddleChar, Runes;
    RunesStable(data, more);
    OffsetStable(Runes(data), Runes(data + more), k + 1);
  }

  // ---------------------------------------------------------------- sentences of the whole text

  /** The sentences of a text that is there as a whole. */
  ghost function Sentences(cl: Classes, text: seq<Byte>): seq<seq<Byte>>
    decreases |text|
  {
    if text == [] then []
    else match SentenceEnd(cl, text)
         case None => [text]
         case Some(p) => [text[..p]] + Sentences(cl, text[p..])
  }

  function Concat(parts: seq<seq<Byte>>): seq<Byte> {
    if parts == [] then [] else parts[0] + Concat(parts[1..])
  }

  /** The sentences are the text, cut up: no byte is lost, added or moved. */
  lemma {:induction false} SentencesConcat(cl: Classes, text: seq<Byte>)
    ensures Concat(Sentences(cl, text)) == text
    decreases |text|
  {
    hide SentenceEnd;
    if text != [] {
      match SentenceEnd(cl, text)
      case None =>
        assert [text][1..] == [];
        assert Concat([text][1..]) == [];
      case Some(p) =>
        SentencesConcat(cl, text[p..]);
        assert Sentences(cl, text)[1..] == Sentences(cl, text[p..]);
    }
  }

  lemma SentenceEndIs(cl: Classes, data: seq<Byte>)
    ensures SentenceEnd(cl, data) == None ==> forall n :: !EndsAt(cl, data, n)
    ensures SentenceEnd(cl, data).Some? ==>
              && EndsAt(cl, data, SentenceEnd(cl, data).value)
              && forall n :: EndsAt(cl, data, n) ==> SentenceEnd(cl, data).value <= n
  {
    hide Runes, IsBreak, EndsAt, LengthThrough;
    if k: nat :| IsFirstBreak(cl, data, k) {
      EndIs(cl, data, k);
      FirstEnd(cl, data, k);
    } else {
      SomeFirstBreak(cl, data);
      NoEnds(cl, data);
    }
  }

  lemma SomeFirstBreak(cl: Classes, data: seq<Byte>)
    requires forall k: nat :: !IsFirstBreak(cl, data, k)
    ensures forall k :: !IsBreak(cl, data, k)
  {
    hide Runes, IsBreak;
    forall k: nat ensures !IsBreak(cl, data, k) {
      NoneUpTo(cl, data, k);
    }
  }

  lemma {:induction false} NoneUpTo(cl: Classes, data: seq<Byte>, k: nat)
    requires forall l: nat :: !IsFirstBreak(cl, data, l)
    ensures forall i :: 0 <= i <= k ==> !IsBreak(cl, data, i)
  {
    hide IsBreak;
    if 0 < k {
      NoneUpTo(cl, data, k - 1);
    }
    assert !IsFirstBreak(cl, data, k);
  }

  /** There is more behind an end. */
  lemma EndInside(cl: Classes, data: seq<Byte>, n: nat)
    requires EndsAt(cl, data, n)
    ensures n < |data|
  {
  }

  /** Where the sentences of a text end: every sentence but the last ends where its own characters and
      the one behind permit it, and none runs past such a place. */
  lemma {:induction false} SentencesEnd(cl: Classes, text: seq<Byte>, i: nat)
    requires i < |Sentences(cl, text)|
    ensures var parts := Sentences(cl, text);
            && (i + 1 < |parts| ==> EndsAt(cl, Concat(parts[i..]), |parts[i]|))
            && forall n :: EndsAt(cl, Concat(parts[i..]), n) ==> |parts[i]| <= n && i + 1 < |parts|
    decreases |text|
  {
    hide SentenceEnd, EndsAt;
    var parts := Sentences(cl, text);
    SentenceEndIs(cl, text);
    if i == 0 {
      SentencesConcat(cl, text);
      assert parts[0..] == parts && Concat(parts) == text;
      if SentenceEnd(cl, text).Some? {
        var p := SentenceEnd(cl, text).value;
        assert parts[0] == text[..p];
        EndInside(cl, text, p);
        assert parts[1..] == Sentences(cl, text[p..]);
      }
    } else {
      var p := SentenceEnd(cl, text).value;
      SentencesEnd(cl, text[p..], i - 1);
      assert parts[1..] == Sentences(cl, text[p..]) && parts[i..] == parts[1..][i - 1..];
    }
  }

  lemma NoEnd(cl: Classes, data: seq<Byte>)
    requires forall k :: !IsBreak(cl, data, k)
    ensures SentenceEnd(cl, data) == None
  {
  }

  /** What a scanner makes of a text that its reader delivers in chunks, of any number and size, and
      whose end it reports separately: the sentences of the whole text. The split function is asked
      for a sentence in what has been read so far, and for more data if it finds none. */
  method ScanAll(cl: Classes, chunks: seq<seq<Byte>>) returns (tokens: seq<seq<Byte>>)
    ensures tokens == Sentences(cl, Concat(chunks))
  {
    hide SentenceEnd, IsBreak, Runes, Sentences, LengthThrough;
    tokens := [];
    var buf: seq<Byte> := [];
    var next := 0;
    assert [] + Concat(chunks) == Concat(chunks) && chunks[0..] == chunks;
    var atEOF := false;
    while !atEOF
      invariant next <= |chunks|
      invariant tokens + Sentences(cl, buf + Concat(chunks[next..])) == Sentences(cl, Concat(chunks))
      invariant atEOF ==> next == |chunks| && SentenceEnd(cl, buf) == None
      decreases |chunks| - next, |buf|, !atEOF
    {
      var advance, token := ScanSentence(cl, buf, false);
      if token.Some? {
        ghost var rest := Concat(chunks[next..]);
        SentenceFound(cl, buf, rest, advance);
        assert tokens + ([token.value] + Sentences(cl, buf[advance..] + rest))
            == tokens + [token.value] + Sentences(cl, buf[advance..] + rest);
        tokens := tokens + [token.value];
        buf := buf[advance..];
      } else if next < |chunks| {
        assert buf + Concat(chunks[next..]) == buf + chunks[next] + Concat(chunks[next + 1..]) by {
          assert chunks[next..][1..] == chunks[next + 1..];
        }
        buf := buf + chunks[next];
        next := next + 1;
      } else {
        NoEnd(cl, buf);
        atEOF := true;
      }
    }
    assert buf + Concat(chunks[next..]) == buf;
    var _, token := ScanSentence(cl, buf, true);
    LastSentence(cl, buf);
    if token.Some? {
      tokens := tokens + [token.value];
    }
  }

  lemma LastSentence(cl: Classes, buf: seq<Byte>)
    requires SentenceEnd(cl, buf) == None
    ensures Sentences(cl, buf) == if buf == [] then [] else [buf]
  {
  }

  lemma SentenceFound(cl: Classes, buf: seq<Byte>, rest: seq<Byte>, advance: nat)
    requires exists k :: IsFirstBreak(cl, buf, k) && advance == LengthThrough(buf, k)
    ensures 0 < advance <= |buf|
    ensures Sentences(cl, buf + rest) == [buf[..advance]] + Sentences(cl, buf[advance..] + rest)
  {
    hide Runes, LengthThrough, BreakSentenceAtMiddleChar, Offset;
    var k: nat :| IsFirstBreak(cl, buf, k) && advance == LengthThrough(buf, k);
    EndIs(cl, buf, k);
    SentenceStable(cl, buf, rest);
    assert (buf + rest)[..advance] == buf[..advance] && (buf + rest)[advance..] == buf[advance..] + rest;
  }
}
