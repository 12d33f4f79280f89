/** Bounded little-endian reads of account data. */
module Layout {
  import opened Outcomes
  import opened Bytes

  function ReadBytes(data: seq<Byte>, offset: U64, length: U64): Outcome<seq<Byte>> {
    var end := offset + length;
    if end >= TWO_64 then Err(FromInterface(OffsetOverflow))
    else if |data| < end then Err(FromInterface(AccountDataTooShort))
    else Ok(data[offset..end])
  }

  /** The field of `width` bytes at `offset` lies inside the data and its end fits an address. */
  predicate InBounds(data: seq<Byte>, offset: U64, width: U64) {
    offset + width < TWO_64 && offset + width <= |data|
  }

  function U64At(data: seq<Byte>, offset: U64): Outcome<U64> {
    var bytes :- ReadBytes(data, offset, 8);
    Ok(U64FromLe(bytes))
  }

  function U128FromLe(s: seq<Byte>): (x: U128)
    requires |s| == 16
    ensures x == FromLe(s)
  {
    FromLeBound(s); Widths();
    FromLe(s)
  }

  function U128At(data: seq<Byte>, offset: U64): Outcome<U128> {
    var bytes :- ReadBytes(data, offset, 16);
    Ok(U128FromLe(bytes))
  }

  /** Reads a `u128` bit pattern as two's complement. */
  function AsSigned(x: U128): I128 {
    if x < TWO_127 then x else x - TWO_128
  }

  function I128At(data: seq<Byte>, offset: U64): Outcome<I128> {
    var x :- U128At(data, offset);
    Ok(AsSigned(x))
  }

  /** The 32 bytes of a public key. */
  function PubkeyAt(data: seq<Byte>, offset: U64): (key: Outcome<seq<Byte>>)
    ensures key.Ok? ==> |key.value| == 32
  {
    ReadBytes(data, offset, 32)
  }

  method CopyFromSlice(dst: array<Byte>, src: seq<Byte>)
    requires dst.Length == |src|
    modifies dst
    ensures dst[..] == src
  {
    for i := 0 to dst.Length
      invariant dst[..i] == src[..i]
    {
      dst[i] := src[i];
    }
  }

  method ReadU64Le(data: seq<Byte>, offset: U64) returns (r: Outcome<U64>)
    ensures r == U64At(data, offset)
  {
    var bytes := ReadBytes(data, offset, 8);
    if !bytes.Ok? {
      return bytes.PropagateFailure();
    }
    var value := new Byte[8];
    CopyFromSlice(value, bytes.value);
    r := Ok(U64FromLe(value[..]));
  }

  method ReadU128Le(data: seq<Byte>, offset: U64) returns (r: Outcome<U128>)
    ensures r == U128At(data, offset)
  {
    var bytes := ReadBytes(data, offset, 16);
    if !bytes.Ok? {
      return bytes.PropagateFailure();
    }
    var value := new Byte[16];
    CopyFromSlice(value, bytes.value);
    r := Ok(U128FromLe(value[..]));
  }

  method ReadI128Le(data: seq<Byte>, offset: U64) returns (r: Outcome<I128>)
    ensures r == I128At(data, offset)
  {
    var bytes := ReadBytes(data, offset, 16);
    if !bytes.Ok? {
      return bytes.PropagateFailure();
    }
    var value := new Byte[16];
    CopyFromSlice(value, bytes.value);
    r := Ok(AsSigned(U128FromLe(value[..])));
  }

  /** A read succeeds exactly when the field is in bounds, and the two failures are told apart. */
  lemma ReadDomain(data: seq<Byte>, offset: U64, width: U64)
    ensures ReadBytes(data, offset, width).Ok? <==> InBounds(data, offset, width)
    ensures ReadBytes(data, offset, width) == Err(FromInterface(OffsetOverflow)) <==> offset + width >= TWO_64
    ensures U64At(data, offset).Ok? <==> InBounds(data, offset, 8)
    ensures U128At(data, offset).Ok? <==> InBounds(data, offset, 16)
    ensures I128At(data, offset).Ok? <==> InBounds(data, offset, 16)
    ensures PubkeyAt(data, offset).Ok? <==> InBounds(data, offset, 32)
  {
  }

  /** A field written in little-endian form reads back, whatever surrounds it. */
  lemma ReadBack(before: seq<Byte>, after: seq<Byte>, x: U64, y: U128, z: I128, key: seq<Byte>)
    requires |before| + 32 < TWO_64 && |key| == 32
    ensures U64At(before + U64ToLe(x) + after, |before|) == Ok(x)
    ensures U128At(before + ToLe(y, 16) + after, |before|) == Ok(y)
    ensures I128At(before + ToLe(if z < 0 then z + TWO_128 else z, 16) + after, |before|) == Ok(z)
    ensures PubkeyAt(before + key + after, |before|) == Ok(key)
  {
    Widths();
    FromToLe(y, 16);
    var bits := if z < 0 then z + TWO_128 else z;
    FromToLe(bits, 16);
    Parts(before, U64ToLe(x), after);
    Parts(before, ToLe(y, 16), after);
    Parts(before, ToLe(bits, 16), after);
    Parts(before, key, after);
  }

  /** What was read is what the data holds: writing it back changes nothing. */
  lemma ReadIsContent(data: seq<Byte>, offset: U64)
    requires U64At(data, offset).Ok?
    ensures data == data[..offset] + U64ToLe(U64At(data, offset).value) + data[offset + 8..]
  {
  }

  lemma Halves(low: seq<Byte>, high: seq<Byte>)
    requires |low| == |high| == 8
    ensures FromLe(low + high) == U64FromLe(low) + TWO_64 * U64FromLe(high)
  {
    FromLeConcat(low, high);
    Widths();
  }

  /** A `u128` is its low `u64` plus 2^64 times its high `u64`. */
  lemma WideSplit(data: seq<Byte>, offset: U64)
    requires U128At(data, offset).Ok?
    ensures U64At(data, offset).Ok? && U64At(data, offset + 8).Ok?
    ensures U128At(data, offset).value == U64At(data, offset).value + TWO_64 * U64At(data, offset + 8).value
  {
    var low, high := data[offset..offset + 8], data[offset + 8..offset + 16];
    assert data[offset..offset + 16] == low + high;
    Halves(low, high);
  }

  /** An `i128` is the same bits in two's complement: negative exactly when the top bit is set. */
  lemma SignedReading(data: seq<Byte>, offset: U64)
    requires U128At(data, offset).Ok?
    ensures I128At(data, offset).Ok? && U64At(data, offset + 8).Ok?
    ensures I128At(data, offset).value < 0 <==> U64At(data, offset + 8).value >= 0x8000_0000_0000_0000
    ensures I128At(data, offset).value ==
            U128At(data, offset).value - (if I128At(data, offset).value < 0 then TWO_128 else 0)
  {
    WideSplit(data, offset);
  }
}
