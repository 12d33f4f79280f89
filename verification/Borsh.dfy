/**
 The Borsh form of the argument structs that the dispatcher prints and the adapters parse:
 a little-endian `u64`, then a `u32` length and that many bytes.
 */
module Borsh {
  import opened Outcomes
  import opened Bytes

  datatype Args = Args(amount: U64, extraData: seq<Byte>)

  function Encode(args: Args): (s: seq<Byte>)
    ensures |s| == 12 + |args.extraData|
  {
    U64ToLe(args.amount) + ToLe(|args.extraData|, 4) + args.extraData
  }

  /** Parses a prefix of `buf` and returns the arguments with the bytes that follow them. */
  function Decode(buf: seq<Byte>): Option<(Args, seq<Byte>)> {
    if |buf| < 12 then None
    else
      var end := 12 + FromLe(buf[8..12]);
      if |buf| < end then None
      else Some((Args(U64FromLe(buf[..8]), buf[12..end]), buf[end..]))
  }

  lemma RoundTrip(args: Args, rest: seq<Byte>)
    requires |args.extraData| < 0x1_0000_0000
    ensures Decode(Encode(args) + rest) == Some((args, rest))
  {
    Widths();
    FromToLe(|args.extraData|, 4);
    var buf := Encode(args) + rest;
    assert buf[..8] == U64ToLe(args.amount);
    assert buf[8..12] == ToLe(|args.extraData|, 4);
    assert buf[12..12 + |args.extraData|] == args.extraData;
    assert buf[12 + |args.extraData|..] == rest;
  }

  /** Every accepted buffer is the encoding of what was parsed, followed by what was left. */
  lemma Canonical(buf: seq<Byte>)
    requires Decode(buf).Some?
    ensures |Decode(buf).value.0.extraData| < 0x1_0000_0000
    ensures Encode(Decode(buf).value.0) + Decode(buf).value.1 == buf
  {
    Widths();
    FromLeBound(buf[8..12]);
    ToFromLe(buf[8..12]);
    var (args, rest) := Decode(buf).value;
    assert U64ToLe(args.amount) == buf[..8];
    assert |args.extraData| == FromLe(buf[8..12]);
    assert buf == buf[..8] + buf[8..12] + args.extraData + rest;
  }

  /** No encoding is a proper prefix of another. */
  lemma PrefixFree(a: Args, b: Args)
    requires |a.extraData| < 0x1_0000_0000 && |b.extraData| < 0x1_0000_0000
    requires Encode(a) <= Encode(b)
    ensures a == b
  {
    var rest := Encode(b)[|Encode(a)|..];
    assert Encode(b) == Encode(a) + rest;
    RoundTrip(a, rest);
    RoundTrip(b, []);
    assert Encode(b) + [] == Encode(b);
  }
}
