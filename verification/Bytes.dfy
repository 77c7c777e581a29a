/** Bytes, and the little-endian integers that sectors and scripts are made of. */
module Bytes {

  type byte = b: int | 0 <= b < 0x100

  datatype Option<+T> = None | Some(value: T)

  const U32_LIMIT: int := 0x1_0000_0000

  /** `u32::from_le_bytes` of the four bytes at offset `o`. */
  function Le32(s: seq<byte>, o: nat): (v: nat)
    requires o + 4 <= |s|
    ensures v < U32_LIMIT
  {
    (s[o] as int) + 0x100 * (s[o + 1] as int) + 0x1_0000 * (s[o + 2] as int) + 0x100_0000 * (s[o + 3] as int)
  }

  /** `u32::to_le_bytes`. */
  function Le32Bytes(v: nat): (r: seq<byte>)
    requires v < U32_LIMIT
    ensures |r| == 4 && Le32(r, 0) == v
  {
    var b1 := v / 0x100;
    var b2 := b1 / 0x100;
    var b3 := b2 / 0x100;
    [v % 0x100, b1 % 0x100, b2 % 0x100, b3]
  }

  function Le16(s: seq<byte>, o: nat): (v: nat)
    requires o + 2 <= |s|
    ensures v < 0x1_0000
  {
    (s[o] as int) + 0x100 * (s[o + 1] as int)
  }

  function Le16Bytes(v: nat): (r: seq<byte>)
    requires v < 0x1_0000
    ensures |r| == 2 && Le16(r, 0) == v
  {
    [v % 0x100, v / 0x100]
  }

  /** `s[o..o + |p|].copy_from_slice(p)`. */
  function Patch(s: seq<byte>, o: nat, p: seq<byte>): (r: seq<byte>)
    requires o + |p| <= |s|
    ensures |r| == |s|
    ensures forall i :: 0 <= i < |s| ==> r[i] == if o <= i < o + |p| then p[i - o] else s[i]
  {
    s[..o] + p + s[o + |p|..]
  }
}
