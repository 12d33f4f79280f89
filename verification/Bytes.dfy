/** Bytes, fixed-width unsigned integers and their little-endian form. */
module Bytes {
  import opened Outcomes

  type Byte = b: int | 0 <= b < 256
  type U64 = x: int | 0 <= x < 0x1_0000_0000_0000_0000
  type U128 = x: int | 0 <= x < 0x1_0000_0000_0000_0000_0000_0000_0000_0000
  type I64 = x: int | -0x8000_0000_0000_0000 <= x < 0x8000_0000_0000_0000
  type I128 = x: int |
      -0x8000_0000_0000_0000_0000_0000_0000_0000 <= x < 0x8000_0000_0000_0000_0000_0000_0000_0000

  const TWO_64: int := 0x1_0000_0000_0000_0000
  const TWO_127: int := 0x8000_0000_0000_0000_0000_0000_0000_0000
  const TWO_128: int := 0x1_0000_0000_0000_0000_0000_0000_0000_0000

  function Pow256(n: nat): (p: nat)
    ensures p > 0
  {
    if n == 0 then 1 else 256 * Pow256(n - 1)
  }

  /** `to_le_bytes` of an integer `width` bytes wide. */
  function ToLe(x: nat, width: nat): (s: seq<Byte>)
    ensures |s| == width
  {
    if width == 0 then [] else [x % 256] + ToLe(x / 256, width - 1)
  }

  /** `from_le_bytes`. */
  function FromLe(s: seq<Byte>): nat {
    if s == [] then 0 else s[0] + 256 * FromLe(s[1..])
  }

  lemma {:induction false} FromLeBound(s: seq<Byte>)
    ensures FromLe(s) < Pow256(|s|)
  {
    if s != [] {
      FromLeBound(s[1..]);
    }
  }

  lemma {:induction false} FromToLe(x: nat, width: nat)
    requires x < Pow256(width)
    ensures FromLe(ToLe(x, width)) == x
  {
    if width > 0 {
      FromToLe(x / 256, width - 1);
      assert ToLe(x, width)[1..] == ToLe(x / 256, width - 1);
    }
  }

  lemma {:induction false} ToFromLe(s: seq<Byte>)
    ensures ToLe(FromLe(s), |s|) == s
  {
    if s != [] {
      ToFromLe(s[1..]);
      assert FromLe(s) % 256 == s[0] && FromLe(s) / 256 == FromLe(s[1..]);
    }
  }

  lemma Regroup(low: int, p: int, high: int)
    ensures 256 * (low + p * high) == 256 * low + (256 * p) * high
  {
  }

  lemma {:induction false} FromLeConcat(a: seq<Byte>, b: seq<Byte>)
    ensures FromLe(a + b) == FromLe(a) + Pow256(|a|) * FromLe(b)
  {
    if a == [] {
      assert a + b == b;
    } else {
      FromLeConcat(a[1..], b);
      assert (a + b)[1..] == a[1..] + b;
      Regroup(FromLe(a[1..]), Pow256(|a| - 1), FromLe(b));
    }
  }

  lemma Widths()
    ensures Pow256(4) == 0x1_0000_0000 && Pow256(8) == TWO_64 && Pow256(16) == TWO_128
  {
  }

  function U64FromLe(s: seq<Byte>): (x: U64)
    requires |s| == 8
    ensures x == FromLe(s) && ToLe(x, 8) == s
  {
    FromLeBound(s); ToFromLe(s); Widths();
    FromLe(s)
  }

  function U64ToLe(x: U64): (s: seq<Byte>)
    ensures |s| == 8 && U64FromLe(s) == x
  {
    Widths(); FromToLe(x, 8);
    ToLe(x, 8)
  }

  lemma Unfold(s: seq<Byte>, i: nat)
    requires i < |s|
    ensures FromLe(s[i..]) == s[i] + 256 * FromLe(s[i + 1..])
  {
    assert s[i..][1..] == s[i + 1..];
  }

  /** Little-endian: the eight bytes of a `u64` weigh from one up to 256^7. */
  lemma Weights(s: seq<Byte>)
    requires |s| == 8
    ensures var b: seq<int> := s;
            U64FromLe(s) ==
            b[0] + 0x100 * b[1] + 0x1_0000 * b[2] + 0x100_0000 * b[3] + 0x1_0000_0000 * b[4] +
            0x100_0000_0000 * b[5] + 0x1_0000_0000_0000 * b[6] + 0x100_0000_0000_0000 * b[7]
  {
    Unfold(s, 7);
    Unfold(s, 6);
    Unfold(s, 5);
    Unfold(s, 4);
    Unfold(s, 3);
    Unfold(s, 2);
    Unfold(s, 1);
    Unfold(s, 0);
    assert s[0..] == s;
  }

  /** Indexing a byte slice by a range: out of range aborts the program. */
  function Slice(s: seq<Byte>, from: nat, to: nat): Outcome<seq<Byte>> {
    if from <= to <= |s| then Ok(s[from..to]) else Abort
  }

  /** The three parts of a concatenation. */
  lemma Parts(a: seq<Byte>, b: seq<Byte>, c: seq<Byte>)
    ensures (a + b + c)[..|a|] == a
    ensures (a + b + c)[|a|..|a| + |b|] == b
    ensures (a + b + c)[|a| + |b|..] == c
  {
  }
}
