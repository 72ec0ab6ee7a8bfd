/** Byte-level helpers shared by the wire codecs and by the 8-bit panel masks. */
module Bytes {

  /** An unsigned 8-bit value, as carried in every frame field. */
  type byte = x: int | 0 <= x < 256

  /** An unsigned 16-bit value: the width of the ids the registry's API takes. */
  type uint16 = x: int | 0 <= x < 0x1_0000

  /** The low eight bits of `x`: what `& 0xFF`, or a store into a `uint8_t`, keeps. */
  function LowByte(x: int): (b: byte)
    ensures 0 <= x < 256 ==> b == x
  {
    x % 256
  }

  /** Sum of a sequence, accumulated from the front as the firmware's loops do. */
  function Sum(s: seq<int>): int
  {
    if s == [] then 0 else Sum(s[..|s| - 1]) + s[|s| - 1]
  }

  /** What an 8-bit accumulator holds after adding every element of `s`. */
  function Checksum(s: seq<int>): byte
  {
    Sum(s) % 256
  }

  lemma {:induction false} SumAppend(a: seq<int>, b: seq<int>)
    ensures Sum(a + b) == Sum(a) + Sum(b)
    decreases |b|
  {
    if b == [] {
      assert a + b == a;
    } else {
      var b' := b[..|b| - 1];
      assert (a + b)[..|a + b| - 1] == a + b';
      SumAppend(a, b');
    }
  }

  /** Adding one more byte to an 8-bit accumulator keeps it equal to the checksum of the longer prefix. */
  lemma ChecksumStep(s: seq<int>, i: nat)
    requires i < |s|
    ensures Checksum(s[..i + 1]) == (Checksum(s[..i]) + s[i]) % 256
  {
    assert s[..i + 1][..i] == s[..i];
  }

  /** The sum of a six-element sequence, term by term. */
  lemma SumOfSix(a: int, b: int, c: int, d: int, e: int, f: int)
    ensures Sum([a, b, c, d, e, f]) == a + b + c + d + e + f
  {
    assert [a, b][..1] == [a] && [a][..0] == [];
    assert [a, b, c][..2] == [a, b];
    assert [a, b, c, d][..3] == [a, b, c];
    assert [a, b, c, d, e][..4] == [a, b, c, d];
    assert [a, b, c, d, e, f][..5] == [a, b, c, d, e];
    assert Sum([a]) == a;
    assert Sum([a, b]) == a + b;
    assert Sum([a, b, c]) == a + b + c;
    assert Sum([a, b, c, d]) == a + b + c + d;
    assert Sum([a, b, c, d, e]) == a + b + c + d + e;
  }

  /** The single-bit mask `1 << i` for a position inside the byte. */
  function Mask(i: nat): bv8
    requires i < 8
  {
    match i
    case 0 => 0x01 case 1 => 0x02 case 2 => 0x04 case 3 => 0x08
    case 4 => 0x10 case 5 => 0x20 case 6 => 0x40 case _ => 0x80
  }

  /** Bit `i` of an 8-bit mask; positions 8 and above read as clear. */
  predicate Bit(x: bv8, i: nat)
  {
    i < 8 && x & Mask(i) != 0
  }

  /**
   * The mask with bit `i` set (`on`) or cleared, as `x |= 1 << i` and
   * `x &= ~(1 << i)` do on a `uint8_t`: a position of 8 or more falls
   * outside the byte and leaves it unchanged.
   */
  function WithBit(x: bv8, i: nat, on: bool): (r: bv8)
    ensures forall j: nat :: j != i ==> Bit(r, j) == Bit(x, j)
    ensures i < 8 ==> Bit(r, i) == on
    ensures i >= 8 ==> r == x
  {
    var r := if i >= 8 then x else if on then x | Mask(i) else x & !Mask(i);
    forall j: nat | j != i && i < 8 && j < 8
      ensures Bit(r, j) == Bit(x, j)
    {
      OtherBitKept(x, i, j, on);
    }
    r
  }

  lemma OtherBitKept(x: bv8, i: nat, j: nat, on: bool)
    requires i < 8 && j < 8 && i != j
    ensures (if on then x | Mask(i) else x & !Mask(i)) & Mask(j) == x & Mask(j)
  {
    assert Mask(i) & Mask(j) == 0;
  }
}
