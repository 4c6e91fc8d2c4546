/** Fixed-width numerals, most significant digit first. */
module Positional {

  function Pow(base: nat, n: nat): nat {
    if n == 0 then 1 else base * Pow(base, n - 1)
  }

  // ---- binary ----

  function Bits(x: nat, n: nat): (bits: seq<nat>)
    ensures |bits| == n
    ensures forall i :: 0 <= i < n ==> bits[i] < 2
  {
    if n == 0 then [] else Bits(x / 2, n - 1) + [x % 2]
  }

  function FromBits(bits: seq<nat>): nat {
    if |bits| == 0 then 0 else FromBits(bits[..|bits| - 1]) * 2 + bits[|bits| - 1]
  }

  lemma {:induction false} FromBitsOfBits(x: nat, n: nat)
    requires x < Pow(2, n)
    ensures FromBits(Bits(x, n)) == x
  {
    if n > 0 {
      FromBitsOfBits(x / 2, n - 1);
      assert Bits(x, n)[..n - 1] == Bits(x / 2, n - 1);
    }
  }

  lemma {:induction false} BitsOfFromBits(bits: seq<nat>)
    requires forall i :: 0 <= i < |bits| ==> bits[i] < 2
    ensures FromBits(bits) < Pow(2, |bits|)
    ensures Bits(FromBits(bits), |bits|) == bits
  {
    if |bits| > 0 {
      var n := |bits| - 1;
      BitsOfFromBits(bits[..n]);
      assert bits == bits[..n] + [bits[n]];
    }
  }

  // ---- bytes ----

  type Byte = b: nat | b < 256

  function BigEndian(x: nat, n: nat): (bytes: seq<Byte>)
    ensures |bytes| == n
  {
    if n == 0 then [] else BigEndian(x / 256, n - 1) + [x % 256]
  }

  function FromBigEndian(bytes: seq<Byte>): nat {
    if |bytes| == 0 then 0 else FromBigEndian(bytes[..|bytes| - 1]) * 256 + bytes[|bytes| - 1]
  }

  lemma {:induction false} FromBigEndianOfBigEndian(x: nat, n: nat)
    requires x < Pow(256, n)
    ensures FromBigEndian(BigEndian(x, n)) == x
  {
    if n > 0 {
      FromBigEndianOfBigEndian(x / 256, n - 1);
      assert BigEndian(x, n)[..n - 1] == BigEndian(x / 256, n - 1);
    }
  }
}
