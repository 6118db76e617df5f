/** Bytes, and the 4-byte big-endian length field (`int.to_bytes(4, 'big')` / `int.from_bytes(..., 'big')`). */
module Bytes {

  newtype byte = x: int | 0 <= x < 256

  /** The first length `to_bytes(4, ...)` refuses with an overflow. */
  const TwoTo32: nat := 0x1_0000_0000

  /** `n.to_bytes(4, byteorder='big')`; larger values raise in the source. */
  function EncodeLength(n: nat): (r: seq<byte>)
    requires n < TwoTo32
    ensures |r| == 4
    ensures DecodeLength(r) == n
  {
    var a := n / 0x100_0000;
    var rest := n % 0x100_0000;
    var b := rest / 0x1_0000;
    var rest2 := rest % 0x1_0000;
    var c := rest2 / 0x100;
    var d := rest2 % 0x100;
    assert n == a * 0x100_0000 + b * 0x1_0000 + c * 0x100 + d;
    [a as byte, b as byte, c as byte, d as byte]
  }

  /** `int.from_bytes(b, byteorder='big')` for a 4-byte `b`. */
  function DecodeLength(b: seq<byte>): (n: nat)
    requires |b| == 4
    ensures n < TwoTo32
  {
    (b[0] as nat) * 0x100_0000 + (b[1] as nat) * 0x1_0000 + (b[2] as nat) * 0x100 + (b[3] as nat)
  }

  /** Every 4-byte field is the encoding of the length it decodes to. */
  lemma {:induction false} EncodeDecodeLength(b: seq<byte>)
    requires |b| == 4
    ensures EncodeLength(DecodeLength(b)) == b
  {
    var n := DecodeLength(b);
    var low := (b[1] as nat) * 0x1_0000 + (b[2] as nat) * 0x100 + (b[3] as nat);
    assert n == (b[0] as nat) * 0x100_0000 + low && low < 0x100_0000;
    assert n / 0x100_0000 == b[0] as nat && n % 0x100_0000 == low;
    var low2 := (b[2] as nat) * 0x100 + (b[3] as nat);
    assert low == (b[1] as nat) * 0x1_0000 + low2 && low2 < 0x1_0000;
    assert low / 0x1_0000 == b[1] as nat && low % 0x1_0000 == low2;
    assert low2 / 0x100 == b[2] as nat && low2 % 0x100 == b[3] as nat;
  }
}
