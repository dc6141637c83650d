/** Decoding of UTF-8 (RFC 3629, section 3): the sequences of one to four bytes that stand for a
    Unicode scalar value. */
module Utf8 {
  import opened Options
  import opened Uuids

  datatype Decoded = Decoded(rune: nat, width: nat)

  predicate IsScalar(r: nat) {
    r < 0xD800 || 0xE000 <= r < 0x11_0000
  }

  /** A continuation byte. */
  predicate IsTail(b: Byte) {
    0x80 <= b < 0xC0
  }

  function Tail(low: nat): Byte
    requires low < 64
  {
    0x80 + low
  }

  /** The bytes that stand for a scalar value: six bits in every continuation byte. */
  function Encode(r: nat): seq<Byte>
    requires IsScalar(r)
  {
    if r < 0x80 then [r]
    else if r < 0x800 then [0xC0 + r / 64, Tail(r % 64)]
    else if r < 0x1_0000 then [0xE0 + r / 64 / 64, Tail(r / 64 % 64), Tail(r % 64)]
    else [0xF0 + r / 64 / 64 / 64, Tail(r / 64 / 64 % 64), Tail(r / 64 % 64), Tail(r % 64)]
  }

  /** The smallest and largest second byte that may follow a first byte. */
  function SecondFrom(b: Byte): nat {
    if b == 0xE0 then 0xA0 else if b == 0xF0 then 0x90 else 0x80
  }

  function SecondTo(b: Byte): nat {
    if b == 0xED then 0x9F else if b == 0xF4 then 0x8F else 0xBF
  }

  /** The bits that a byte carries besides its mark. */
  function Bits(b: Byte, mark: nat): int {
    b as int - mark
  }

  function Join(high: int, b: Byte): int {
    high * 64 + Bits(b, 0x80)
  }

  /** The scalar value at the start of the data; None if the bytes there are not, or not yet, one. */
  function Decode(data: seq<Byte>): Option<Decoded> {
    if data == [] then None
    else if data[0] < 0x80 then Some(Decoded(data[0], 1))
    else if |data| < 2 || !(SecondFrom(data[0]) <= data[1] <= SecondTo(data[0])) then None
    else if 0xC2 <= data[0] < 0xE0 then Some(Decoded(Join(Bits(data[0], 0xC0), data[1]), 2))
    else if |data| < 3 || !IsTail(data[2]) then None
    else if 0xE0 <= data[0] < 0xF0 then Some(Decoded(Join(Join(Bits(data[0], 0xE0), data[1]), data[2]), 3))
    else if |data| < 4 || !IsTail(data[3]) then None
    else if 0xF0 <= data[0] < 0xF5 then
      Some(Decoded(Join(Join(Join(Bits(data[0], 0xF0), data[1]), data[2]), data[3]), 4))
    else None
  }

  lemma JoinSplit(high: nat, b: Byte)
    requires IsTail(b)
    ensures Join(high, b) >= 0 && Join(high, b) / 64 == high && Tail(Join(high, b) % 64) == b
  {
  }

  lemma SplitJoin(r: nat)
    ensures Join(r / 64, Tail(r % 64)) == r
  {
  }

  /** What was encoded is decoded, whatever follows. */
  lemma DecodeEncoded(r: nat, rest: seq<Byte>)
    requires IsScalar(r)
    ensures Decode(Encode(r) + rest) == Some(Decoded(r, |Encode(r)|))
  {
    hide Join;
    SplitJoin(r);
    SplitJoin(r / 64);
    SplitJoin(r / 64 / 64);
    var data := Encode(r) + rest;
    if 0x80 <= r {
      assert data[1] == Encode(r)[1];
    }
    if 0x800 <= r {
      assert data[2] == Encode(r)[2];
    }
    if 0x1_0000 <= r {
      assert data[3] == Encode(r)[3];
    }
  }

  /** Nothing else is decoded: the bytes are the encoding of the scalar value that is returned. */
  lemma EncodeDecoded(data: seq<Byte>)
    requires Decode(data).Some?
    ensures var d := Decode(data).value;
            && IsScalar(d.rune) && 1 <= d.width <= |data| && data[..d.width] == Encode(d.rune)
  {
    if data[0] < 0x80 {
    } else if data[0] < 0xE0 {
      JoinSplit(Bits(data[0], 0xC0), data[1]);
    } else if data[0] < 0xF0 {
      JoinSplit(Bits(data[0], 0xE0), data[1]);
      JoinSplit(Join(Bits(data[0], 0xE0), data[1]), data[2]);
    } else {
      JoinSplit(Bits(data[0], 0xF0), data[1]);
      JoinSplit(Join(Bits(data[0], 0xF0), data[1]), data[2]);
      JoinSplit(Join(Join(Bits(data[0], 0xF0), data[1]), data[2]), data[3]);
    }
  }

  /** More data does not change a value that has been decoded. */
  lemma DecodeStable(data: seq<Byte>, more: seq<Byte>)
    requires Decode(data).Some?
    ensures Decode(data + more) == Decode(data)
  {
  }

  /** How the bits are laid out (RFC 3629, section 3): the first byte says how many bytes there are, and
      the value is made of the bits behind the marks. */
  lemma Layout(r: nat)
    requires IsScalar(r)
    ensures var b := Encode(r);
            if r <= 0x7F then |b| == 1 && b[0] == r
            else if r <= 0x7FF then |b| == 2 && 0xC0 <= b[0] <= 0xDF && 0x80 <= b[1] <= 0xBF
                                    && r == (b[0] as int - 0xC0) * 64 + (b[1] as int - 0x80)
            else if r <= 0xFFFF then |b| == 3 && 0xE0 <= b[0] <= 0xEF && 0x80 <= b[1] <= 0xBF && 0x80 <= b[2] <= 0xBF
                                     && r == (b[0] as int - 0xE0) * 4096 + (b[1] as int - 0x80) * 64
                                             + (b[2] as int - 0x80)
            else |b| == 4 && 0xF0 <= b[0] <= 0xF7
                 && 0x80 <= b[1] <= 0xBF && 0x80 <= b[2] <= 0xBF && 0x80 <= b[3] <= 0xBF
                 && r == (b[0] as int - 0xF0) * 262144 + (b[1] as int - 0x80) * 4096
                         + (b[2] as int - 0x80) * 64 + (b[3] as int - 0x80)
  {
  }
}
