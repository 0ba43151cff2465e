/** Bytes, and unsigned integers laid out as a fixed number of bytes, lowest first. */
module Bytes {

  type Byte = n: nat | n < 256

  type Block = seq<Byte>

  /** The width of an integer type in bytes. */
  type Width = w: nat | w > 0 witness 8

  function Pow256(width: nat): (p: nat)
    ensures p > 0
  {
    if width == 0 then 1 else 256 * Pow256(width - 1)
  }

  function Encode(n: nat, width: nat): (b: Block)
    ensures |b| == width
  {
    if width == 0 then [] else [n % 256] + Encode(n / 256, width - 1)
  }

  function Decode(b: Block): (n: nat)
    ensures n < Pow256(|b|)
  {
    if b == [] then 0 else b[0] + 256 * Decode(b[1..])
  }

  lemma {:induction false} DecodeEncode(n: nat, width: nat)
    requires n < Pow256(width)
    ensures Decode(Encode(n, width)) == n
  {
    if width > 0 {
      DecodeEncode(n / 256, width - 1);
      assert Encode(n, width)[1..] == Encode(n / 256, width - 1);
    }
  }

  lemma {:induction false} EncodeDecode(b: Block)
    ensures Encode(Decode(b), |b|) == b
  {
    if b != [] {
      EncodeDecode(b[1..]);
      assert Decode(b) / 256 == Decode(b[1..]);
    }
  }

  lemma Shift(x: nat, p: nat, d: nat)
    ensures 256 * (x + p * d) == 256 * x + 256 * p * d
  {
  }

  /** The bytes in front are the low ones. */
  lemma {:induction false} LowestFirst(low: Block, high: Block)
    ensures Decode(low + high) == Decode(low) + Pow256(|low|) * Decode(high)
  {
    if low == [] {
      assert low + high == high;
    } else {
      LowestFirst(low[1..], high);
      assert (low + high)[1..] == low[1..] + high;
      Shift(Decode(low[1..]), Pow256(|low| - 1), Decode(high));
    }
  }
}
