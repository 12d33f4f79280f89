/**
 The instructions that the five adapters can emit: which request selects which instruction, what
 the instruction means, how it is printed, and how the protocol side reads it back.
 */
module Protocols {
  import opened Outcomes
  import opened Bytes
  import opened Machine

  datatype Protocol = Drift | Jupiter | Kamino | Maple | MarginFi

  const DRIFT_ADAPTER: Pubkey := [
    205, 32, 122, 245, 58, 166, 26, 27, 89, 221, 210, 14, 0, 200, 167, 228,
    139, 153, 175, 229, 181, 191, 159, 181, 5, 72, 218, 129, 26, 224, 14, 122]
  const JUPITER_ADAPTER: Pubkey := [
    175, 212, 183, 157, 142, 139, 149, 65, 108, 65, 28, 191, 20, 179, 78, 99,
    120, 111, 182, 191, 132, 208, 246, 155, 155, 195, 207, 62, 126, 75, 212, 89]
  const KAMINO_ADAPTER: Pubkey := [
    157, 71, 141, 158, 129, 149, 186, 102, 98, 149, 99, 116, 215, 224, 83, 185,
    230, 248, 223, 41, 136, 203, 160, 176, 81, 166, 43, 95, 205, 126, 148, 192]
  const MAPLE_ADAPTER: Pubkey := [
    91, 116, 145, 122, 141, 78, 231, 10, 12, 157, 198, 112, 113, 92, 252, 224,
    248, 88, 122, 223, 242, 103, 252, 168, 34, 185, 5, 104, 42, 70, 120, 59]
  const MARGINFI_ADAPTER: Pubkey := [
    45, 82, 116, 233, 130, 124, 63, 216, 54, 154, 80, 163, 136, 64, 68, 92,
    201, 136, 114, 99, 58, 187, 165, 198, 7, 204, 7, 164, 13, 28, 228, 250]

  const DRIFT_PROGRAM: Pubkey := [
    9, 84, 219, 190, 158, 201, 96, 201, 138, 122, 41, 63, 226, 19, 54, 150,
    111, 225, 128, 209, 81, 174, 75, 129, 121, 86, 31, 137, 133, 74, 83, 246]
  const JUPITER_PROGRAM: Pubkey := [
    5, 177, 243, 202, 241, 148, 98, 239, 135, 96, 240, 171, 222, 117, 205, 61,
    158, 227, 27, 58, 50, 198, 32, 232, 148, 18, 46, 156, 155, 129, 69, 250]
  const KAMINO_PROGRAM: Pubkey := [
    4, 178, 172, 177, 18, 88, 204, 227, 104, 44, 65, 139, 168, 114, 255, 61,
    249, 17, 2, 113, 47, 21, 175, 18, 182, 190, 105, 179, 67, 91, 0, 8]
  const MAPLE_PROGRAM: Pubkey := [
    172, 151, 41, 119, 225, 186, 181, 255, 246, 198, 134, 41, 31, 153, 79, 245,
    47, 52, 171, 237, 27, 199, 223, 136, 247, 111, 67, 249, 38, 89, 44, 143]
  const MARGINFI_PROGRAM: Pubkey := [
    5, 48, 122, 214, 69, 75, 188, 94, 30, 78, 146, 5, 146, 83, 161, 139,
    184, 200, 134, 140, 88, 166, 49, 46, 200, 106, 57, 230, 34, 78, 55, 59]

  /** The address an adapter program is deployed at. */
  function AdapterId(p: Protocol): Pubkey {
    match p
    case Drift => DRIFT_ADAPTER
    case Jupiter => JUPITER_ADAPTER
    case Kamino => KAMINO_ADAPTER
    case Maple => MAPLE_ADAPTER
    case MarginFi => MARGINFI_ADAPTER
  }

  /** The protocol program an adapter invokes. */
  function ProgramId(p: Protocol): Pubkey {
    match p
    case Drift => DRIFT_PROGRAM
    case Jupiter => JUPITER_PROGRAM
    case Kamino => KAMINO_PROGRAM
    case Maple => MAPLE_PROGRAM
    case MarginFi => MARGINFI_PROGRAM
  }

  lemma IdsDiffer(p: Protocol, q: Protocol)
    ensures AdapterId(p) == AdapterId(q) ==> p == q
    ensures ProgramId(p) == ProgramId(q) ==> p == q
  {
  }

  /** The adapter deployed at an address, if it is one of the five. */
  function ProtocolAt(programId: Pubkey): (p: Option<Protocol>)
    ensures p.Some? ==> AdapterId(p.value) == programId
  {
    if programId == DRIFT_ADAPTER then Some(Drift)
    else if programId == JUPITER_ADAPTER then Some(Jupiter)
    else if programId == KAMINO_ADAPTER then Some(Kamino)
    else if programId == MAPLE_ADAPTER then Some(Maple)
    else if programId == MARGINFI_ADAPTER then Some(MarginFi)
    else None
  }

  lemma ProtocolAtAdapter(p: Protocol)
    ensures ProtocolAt(AdapterId(p)) == Some(p)
  {
  }

  datatype Name =
    | DriftDeposit | DriftWithdraw
    | AddInsuranceFundStake | RequestRemoveInsuranceFundStake
    | RemoveInsuranceFundStake | InitializeInsuranceFundStake
    | DepositCollateralForBorrows | WithdrawCollateralForBorrows | AddLiquidity2 | RemoveLiquidity
    | DepositReserveLiquidityAndObligationCollateralV2 | DepositReserveLiquidity
    | DepositObligationCollateralV2 | DepositAndWithdraw
    | WithdrawObligationCollateralAndRedeemReserveCollateralV2 | RedeemReserveCollateral
    | CcipSend
    | LendingAccountDeposit | LendingAccountWithdraw

  function DiscriminatorOf(n: Name): (d: seq<Byte>)
    ensures |d| == 8
  {
    match n
    case DriftDeposit => [242, 35, 198, 137, 82, 225, 242, 182]
    case DriftWithdraw => [183, 18, 70, 156, 148, 109, 161, 34]
    case AddInsuranceFundStake => [251, 144, 115, 11, 222, 47, 62, 236]
    case RequestRemoveInsuranceFundStake => [142, 70, 204, 92, 73, 106, 180, 52]
    case RemoveInsuranceFundStake => [128, 166, 142, 9, 254, 187, 143, 174]
    case InitializeInsuranceFundStake => [187, 179, 243, 70, 248, 90, 92, 147]
    case DepositCollateralForBorrows => [17, 2, 195, 190, 76, 16, 238, 74]
    case WithdrawCollateralForBorrows => [117, 160, 60, 82, 237, 233, 46, 182]
    case AddLiquidity2 => [228, 162, 78, 28, 70, 219, 116, 115]
    case RemoveLiquidity => [230, 215, 82, 127, 241, 101, 227, 146]
    case DepositReserveLiquidityAndObligationCollateralV2 => [216, 224, 191, 27, 204, 151, 102, 175]
    case DepositReserveLiquidity => [169, 201, 30, 126, 6, 205, 102, 68]
    case DepositObligationCollateralV2 => [108, 209, 4, 72, 21, 22, 118, 133]
    case DepositAndWithdraw => [141, 153, 39, 15, 64, 61, 88, 84]
    case WithdrawObligationCollateralAndRedeemReserveCollateralV2 => [235, 52, 119, 152, 149, 197, 20, 7]
    case RedeemReserveCollateral => [234, 117, 181, 125, 185, 142, 220, 29]
    case CcipSend => [108, 216, 134, 191, 249, 234, 33, 84]
    case LendingAccountDeposit => [171, 94, 235, 103, 82, 64, 212, 140]
    case LendingAccountWithdraw => [36, 72, 74, 19, 210, 210, 192, 192]
  }

  function ProtocolOf(n: Name): Protocol {
    match n
    case DriftDeposit | DriftWithdraw | AddInsuranceFundStake | RequestRemoveInsuranceFundStake
       | RemoveInsuranceFundStake | InitializeInsuranceFundStake => Drift
    case DepositCollateralForBorrows | WithdrawCollateralForBorrows | AddLiquidity2 | RemoveLiquidity => Jupiter
    case CcipSend => Maple
    case LendingAccountDeposit | LendingAccountWithdraw => MarginFi
    case _ => Kamino
  }

  /** The instruction a request selects: the first byte of `extra_data` picks it, per operation. */
  function Select(p: Protocol, op: Op, selector: Byte): (n: Option<Name>)
    ensures n.Some? ==> ProtocolOf(n.value) == p
  {
    match (p, op, selector)
    case (Drift, Deposit, 0) => Some(DriftDeposit)
    case (Drift, Deposit, 1) => Some(AddInsuranceFundStake)
    case (Drift, Deposit, 2) => Some(InitializeInsuranceFundStake)
    case (Drift, Withdraw, 0) => Some(DriftWithdraw)
    case (Drift, Withdraw, 1) => Some(RequestRemoveInsuranceFundStake)
    case (Drift, Withdraw, 2) => Some(RemoveInsuranceFundStake)
    case (Jupiter, Deposit, 0) => Some(DepositCollateralForBorrows)
    case (Jupiter, Deposit, 1) => Some(AddLiquidity2)
    case (Jupiter, Withdraw, 0) => Some(WithdrawCollateralForBorrows)
    case (Jupiter, Withdraw, 1) => Some(RemoveLiquidity)
    case (Kamino, Deposit, 0) => Some(DepositReserveLiquidityAndObligationCollateralV2)
    case (Kamino, Deposit, 1) => Some(DepositReserveLiquidity)
    case (Kamino, Deposit, 2) => Some(DepositObligationCollateralV2)
    case (Kamino, Deposit, 3) => Some(DepositAndWithdraw)
    case (Kamino, Withdraw, 0) => Some(WithdrawObligationCollateralAndRedeemReserveCollateralV2)
    case (Kamino, Withdraw, 1) => Some(RedeemReserveCollateral)
    case (Kamino, Withdraw, 2) => Some(DepositAndWithdraw)
    case (Maple, _, 0) => Some(CcipSend)
    case (MarginFi, Deposit, 0) => Some(LendingAccountDeposit)
    case (MarginFi, Withdraw, 0) => Some(LendingAccountWithdraw)
    case _ => None
  }

  /** Where an instruction carries the amount among its other argument bytes. */
  datatype Shape =
    | AmountOnly      // amount
    | AmountFirst     // amount, tail
    | AmountAfterTwo  // two bytes, amount, tail
    | TwoThenAmount   // two bytes, amount
    | AmountLast      // head, amount
    | NoAmount        // tail
    | TwoOnly         // two bytes

  function ShapeOf(n: Name): Shape {
    match n
    case DriftDeposit | DriftWithdraw => AmountAfterTwo
    case AddInsuranceFundStake => AmountLast
    case RequestRemoveInsuranceFundStake => TwoThenAmount
    case InitializeInsuranceFundStake | CcipSend => NoAmount
    case RemoveInsuranceFundStake => TwoOnly
    case AddLiquidity2 | RemoveLiquidity | DepositAndWithdraw | RedeemReserveCollateral
       | LendingAccountDeposit | LendingAccountWithdraw => AmountFirst
    case _ => AmountOnly
  }

  /** A protocol instruction with its arguments: bytes before the amount, the amount, bytes after it. */
  datatype Meaning = Meaning(name: Name, head: seq<Byte>, amount: Option<U64>, tail: seq<Byte>)

  /** Which parts an instruction of a shape has. */
  predicate Fits(shape: Shape, head: seq<Byte>, amount: Option<U64>, tail: seq<Byte>) {
    match shape
    case AmountOnly => head == [] && amount.Some? && tail == []
    case AmountFirst => head == [] && amount.Some?
    case AmountAfterTwo => |head| == 2 && amount.Some?
    case TwoThenAmount => |head| == 2 && amount.Some? && tail == []
    case AmountLast => amount.Some? && tail == []
    case NoAmount => head == [] && amount.None?
    case TwoOnly => |head| == 2 && amount.None? && tail == []
  }

  predicate WellFormed(m: Meaning) {
    Fits(ShapeOf(m.name), m.head, m.amount, m.tail)
  }

  /** What a request asks for, read off its fields. Three-byte prefixes are sliced, so they must exist. */
  function MeaningOf(n: Name, amount: U64, extra: seq<Byte>): (m: Outcome<Meaning>)
    requires extra != []
    ensures m.Ok? ==> WellFormed(m.value) && m.value.name == n
  {
    match ShapeOf(n)
    case AmountOnly => Ok(Meaning(n, [], Some(amount), []))
    case AmountFirst => Ok(Meaning(n, [], Some(amount), extra[1..]))
    case AmountLast => Ok(Meaning(n, extra[1..], Some(amount), []))
    case NoAmount => Ok(Meaning(n, [], None, extra[1..]))
    case AmountAfterTwo => if |extra| < 3 then Abort else Ok(Meaning(n, extra[1..3], Some(amount), extra[3..]))
    case TwoThenAmount => if |extra| < 3 then Abort else Ok(Meaning(n, extra[1..3], Some(amount), []))
    case TwoOnly => if |extra| < 3 then Abort else Ok(Meaning(n, extra[1..3], None, []))
  }

  function AmountBytes(amount: Option<U64>): seq<Byte> {
    match amount
    case Some(a) => U64ToLe(a)
    case None => []
  }

  function Encode(m: Meaning): seq<Byte> {
    DiscriminatorOf(m.name) + m.head + AmountBytes(m.amount) + m.tail
  }

  lemma EncodeAmountFirst(n: Name, amount: U64, tail: seq<Byte>)
    ensures Encode(Meaning(n, [], Some(amount), tail)) == DiscriminatorOf(n) + U64ToLe(amount) + tail
  {
    assert DiscriminatorOf(n) + [] == DiscriminatorOf(n);
  }

  lemma EncodeAmountLast(n: Name, head: seq<Byte>, amount: U64)
    ensures Encode(Meaning(n, head, Some(amount), [])) == DiscriminatorOf(n) + head + U64ToLe(amount)
  {
  }

  /** The instructions of a protocol that the adapters use. */
  function Catalogue(p: Protocol): seq<Name> {
    match p
    case Drift => [DriftDeposit, DriftWithdraw, AddInsuranceFundStake, RequestRemoveInsuranceFundStake,
                   RemoveInsuranceFundStake, InitializeInsuranceFundStake]
    case Jupiter => [DepositCollateralForBorrows, WithdrawCollateralForBorrows, AddLiquidity2, RemoveLiquidity]
    case Kamino => [DepositReserveLiquidityAndObligationCollateralV2, DepositReserveLiquidity,
                    DepositObligationCollateralV2, DepositAndWithdraw,
                    WithdrawObligationCollateralAndRedeemReserveCollateralV2, RedeemReserveCollateral]
    case Maple => [CcipSend]
    case MarginFi => [LendingAccountDeposit, LendingAccountWithdraw]
  }

  function FirstMatch(d: seq<Byte>, names: seq<Name>): Option<Name> {
    if names == [] then None
    else if d == DiscriminatorOf(names[0]) then Some(names[0])
    else FirstMatch(d, names[1..])
  }

  /** Reads the arguments of an instruction of the given shape: head, amount, tail. */
  function Split(shape: Shape, args: seq<Byte>): Option<(seq<Byte>, Option<U64>, seq<Byte>)> {
    match shape
    case AmountOnly => if |args| != 8 then None else Some(([], Some(U64FromLe(args)), []))
    case AmountFirst => if |args| < 8 then None else Some(([], Some(U64FromLe(args[..8])), args[8..]))
    case AmountAfterTwo =>
      if |args| < 10 then None else Some((args[..2], Some(U64FromLe(args[2..10])), args[10..]))
    case TwoThenAmount => if |args| != 10 then None else Some((args[..2], Some(U64FromLe(args[2..])), []))
    case AmountLast =>
      if |args| < 8 then None else Some((args[..|args| - 8], Some(U64FromLe(args[|args| - 8..])), []))
    case NoAmount => Some(([], None, args))
    case TwoOnly => if |args| != 2 then None else Some((args, None, []))
  }

  /** The protocol's own reading of instruction data. */
  function Decode(p: Protocol, data: seq<Byte>): Option<Meaning> {
    if |data| < 8 then None
    else
      match FirstMatch(data[..8], Catalogue(p))
      case None => None
      case Some(n) =>
        match Split(ShapeOf(n), data[8..])
        case None => None
        case Some((head, amount, tail)) => Some(Meaning(n, head, amount, tail))
  }

  /** Within one protocol a discriminator names one instruction. */
  lemma DiscriminatorsDiffer(m: Name, n: Name)
    requires ProtocolOf(m) == ProtocolOf(n) && DiscriminatorOf(m) == DiscriminatorOf(n)
    ensures m == n
  {
  }

  lemma {:induction false} FirstMatchFinds(n: Name, names: seq<Name>)
    requires n in names && forall m :: m in names ==> ProtocolOf(m) == ProtocolOf(n)
    ensures FirstMatch(DiscriminatorOf(n), names) == Some(n)
  {
    if DiscriminatorOf(n) == DiscriminatorOf(names[0]) {
      DiscriminatorsDiffer(n, names[0]);
    } else {
      FirstMatchFinds(n, names[1..]);
    }
  }

  lemma {:induction false} FirstMatchSound(d: seq<Byte>, names: seq<Name>)
    requires FirstMatch(d, names).Some?
    ensures FirstMatch(d, names).value in names && DiscriminatorOf(FirstMatch(d, names).value) == d
  {
    if d != DiscriminatorOf(names[0]) {
      FirstMatchSound(d, names[1..]);
    }
  }

  lemma CatalogueIsComplete(p: Protocol, n: Name)
    ensures n in Catalogue(p) <==> ProtocolOf(n) == p
  {
  }

  /** The protocol reads the printed arguments back. */
  lemma SplitArguments(shape: Shape, head: seq<Byte>, amount: Option<U64>, tail: seq<Byte>)
    requires Fits(shape, head, amount, tail)
    ensures Split(shape, head + AmountBytes(amount) + tail) == Some((head, amount, tail))
  {
    var bytes := AmountBytes(amount);
    var args := head + bytes + tail;
    Parts(head, bytes, tail);
    match shape {
      case AmountOnly => assert args == bytes;
      case AmountFirst | AmountAfterTwo =>
      case TwoThenAmount | AmountLast => assert args[|head|..] == bytes;
      case NoAmount => assert args == tail;
      case TwoOnly => assert args == head;
    }
  }

  /** Eight bytes read as an amount print back in their place. */
  lemma Reprinted(args: seq<Byte>, at: nat)
    requires at + 8 <= |args|
    ensures args[..at] + AmountBytes(Some(U64FromLe(args[at..at + 8]))) + args[at + 8..] == args
  {
  }

  predicate PrintsBack(shape: Shape, args: seq<Byte>)
    requires Split(shape, args).Some?
  {
    var (head, amount, tail) := Split(shape, args).value;
    Fits(shape, head, amount, tail) && head + AmountBytes(amount) + tail == args
  }

  /** An instruction without an amount, and one with the amount at a given byte, print back what was read. */
  lemma PlainSplit(shape: Shape, args: seq<Byte>)
    requires (shape == NoAmount || shape == TwoOnly) && Split(shape, args).Some?
    ensures PrintsBack(shape, args)
  {
    assert [] + AmountBytes(None) + args == args && args + AmountBytes(None) + [] == args;
  }

  lemma SplitAt(shape: Shape, args: seq<Byte>, at: nat)
    requires at + 8 <= |args|
    requires Split(shape, args) == Some((args[..at], Some(U64FromLe(args[at..at + 8])), args[at + 8..]))
    requires Fits(shape, args[..at], Some(U64FromLe(args[at..at + 8])), args[at + 8..])
    ensures PrintsBack(shape, args)
  {
    Reprinted(args, at);
  }

  /** Whatever the protocol reads prints back. */
  lemma ArgumentsSplit(shape: Shape, args: seq<Byte>)
    requires Split(shape, args).Some?
    ensures PrintsBack(shape, args)
  {
    match shape {
      case AmountOnly =>
        assert args[..0] == [] && args[0..8] == args && args[8..] == [];
        SplitAt(shape, args, 0);
      case AmountFirst =>
        assert args[..0] == [] && args[0..8] == args[..8];
        SplitAt(shape, args, 0);
      case AmountAfterTwo =>
        SplitAt(shape, args, 2);
      case TwoThenAmount =>
        assert args[2..10] == args[2..] && args[10..] == [];
        SplitAt(shape, args, 2);
      case AmountLast =>
        var at := |args| - 8;
        assert args[at..at + 8] == args[at..] && args[at + 8..] == [];
        SplitAt(shape, args, at);
      case NoAmount | TwoOnly =>
        PlainSplit(shape, args);
    }
  }

  lemma CatalogueFinds(n: Name)
    ensures FirstMatch(DiscriminatorOf(n), Catalogue(ProtocolOf(n))) == Some(n)
  {
    forall m ensures m in Catalogue(ProtocolOf(n)) <==> ProtocolOf(m) == ProtocolOf(n) {
      CatalogueIsComplete(ProtocolOf(n), m);
    }
    FirstMatchFinds(n, Catalogue(ProtocolOf(n)));
  }

  /** The two parts of a printed instruction. */
  lemma EncodeParts(m: Meaning)
    ensures |Encode(m)| >= 8 && Encode(m)[..8] == DiscriminatorOf(m.name)
    ensures Encode(m)[8..] == m.head + AmountBytes(m.amount) + m.tail
  {
    var d, bytes := DiscriminatorOf(m.name), AmountBytes(m.amount);
    assert d + m.head + bytes + m.tail == d + (m.head + bytes + m.tail);
  }

  /** Printing then reading returns the meaning. */
  lemma DecodeEncode(m: Meaning)
    requires WellFormed(m)
    ensures Decode(ProtocolOf(m.name), Encode(m)) == Some(m)
  {
    EncodeParts(m);
    CatalogueFinds(m.name);
    SplitArguments(ShapeOf(m.name), m.head, m.amount, m.tail);
  }

  /** Reading then printing returns the bytes: the protocol accepts no second spelling of a meaning. */
  lemma EncodeDecode(p: Protocol, data: seq<Byte>)
    requires Decode(p, data).Some?
    ensures WellFormed(Decode(p, data).value)
    ensures ProtocolOf(Decode(p, data).value.name) == p
    ensures Encode(Decode(p, data).value) == data
  {
    FirstMatchSound(data[..8], Catalogue(p));
    var n := FirstMatch(data[..8], Catalogue(p)).value;
    CatalogueIsComplete(p, n);
    ArgumentsSplit(ShapeOf(n), data[8..]);
    Reassemble(data[..8], Decode(p, data).value, data);
  }

  lemma Reassemble(d: seq<Byte>, m: Meaning, data: seq<Byte>)
    requires |d| == 8 && d == DiscriminatorOf(m.name)
    requires data == d + (m.head + AmountBytes(m.amount) + m.tail)
    ensures Encode(m) == data
  {
    assert d + m.head + AmountBytes(m.amount) + m.tail == data;
  }

  predicate KeepsAmount(n: Name) {
    n != InitializeInsuranceFundStake && n != RemoveInsuranceFundStake && n != CcipSend
  }

  /** The bytes of `extra_data` that survive translation. */
  function KeptExtra(n: Name, extra: seq<Byte>): seq<Byte>
    requires extra != []
  {
    match n
    case DepositReserveLiquidityAndObligationCollateralV2 | DepositReserveLiquidity
       | DepositObligationCollateralV2 | WithdrawObligationCollateralAndRedeemReserveCollateralV2
       | DepositCollateralForBorrows | WithdrawCollateralForBorrows => []
    case RequestRemoveInsuranceFundStake | RemoveInsuranceFundStake =>
      if |extra| < 3 then [] else extra[1..3]
    case _ => extra[1..]
  }

  /** The two tables above, by shape. */
  lemma KeptByShape(n: Name, extra: seq<Byte>)
    requires extra != []
    ensures KeepsAmount(n) <==> ShapeOf(n) != NoAmount && ShapeOf(n) != TwoOnly
    ensures KeptExtra(n, extra) ==
            match ShapeOf(n)
            case AmountOnly => []
            case TwoThenAmount | TwoOnly => if |extra| < 3 then [] else extra[1..3]
            case _ => extra[1..]
  {
  }

  lemma SpliceKeepsAll(x: seq<Byte>, y: seq<Byte>)
    requires |x| >= 3 && |y| >= 3
    ensures x[1..] == y[1..] <==> x[1..3] == y[1..3] && x[3..] == y[3..]
  {
    assert x[1..] == x[1..3] + x[3..] && y[1..] == y[1..3] + y[3..];
    assert x[1..3] == x[1..][..2] && y[1..3] == y[1..][..2];
    assert x[3..] == x[1..][2..] && y[3..] == y[1..][2..];
  }

  lemma SameMeaning(n: Name, a: U64, x: seq<Byte>, b: U64, y: seq<Byte>)
    requires x != [] && y != [] && MeaningOf(n, a, x).Ok? && MeaningOf(n, b, y).Ok?
    ensures MeaningOf(n, a, x) == MeaningOf(n, b, y) <==>
            (KeepsAmount(n) ==> a == b) && KeptExtra(n, x) == KeptExtra(n, y)
  {
    KeptByShape(n, x);
    KeptByShape(n, y);
    if ShapeOf(n) == AmountAfterTwo {
      SpliceKeepsAll(x, y);
    }
  }

  /**
   The exact kernel of the translation: two requests to one adapter print the same bytes exactly when
   they select the same instruction and agree on the fields that instruction keeps.
   */
  lemma Kernel(m: Name, a: U64, x: seq<Byte>, n: Name, b: U64, y: seq<Byte>)
    requires x != [] && y != [] && ProtocolOf(m) == ProtocolOf(n)
    requires MeaningOf(m, a, x).Ok? && MeaningOf(n, b, y).Ok?
    ensures Encode(MeaningOf(m, a, x).value) == Encode(MeaningOf(n, b, y).value) <==>
            m == n && (KeepsAmount(m) ==> a == b) && KeptExtra(m, x) == KeptExtra(m, y)
  {
    DecodeEncode(MeaningOf(m, a, x).value);
    DecodeEncode(MeaningOf(n, b, y).value);
    if m == n {
      SameMeaning(n, a, x, b, y);
    }
  }

  /** A deposit and a withdrawal select one instruction in exactly two ways. */
  lemma Coincidence(p: Protocol, s: Byte, t: Byte)
    ensures Select(p, Deposit, s).Some? && Select(p, Deposit, s) == Select(p, Withdraw, t) <==>
            (p == Kamino && s == 3 && t == 2) || (p == Maple && s == 0 && t == 0)
  {
  }

  /** Within one operation, selectors select distinct instructions. */
  lemma SelectorsDiffer(p: Protocol, op: Op, s: Byte, t: Byte)
    requires Select(p, op, s).Some? && Select(p, op, s) == Select(p, op, t)
    ensures s == t
  {
  }

  /** What each adapter reserves for its instruction data. */
  function Reserved(p: Protocol, extra: seq<Byte>): nat {
    match p
    case Drift => 16 + |extra|
    case Maple => 7 + |extra|
    case _ => 16
  }

  /**
   Drift's data never outgrows its reserve and Maple's fills it; the others reserve sixteen bytes,
   which suffices exactly when no tail is kept.
   */
  lemma Capacity(p: Protocol, n: Name, amount: U64, extra: seq<Byte>)
    requires extra != [] && ProtocolOf(n) == p && MeaningOf(n, amount, extra).Ok?
    ensures p == Drift ==> |Encode(MeaningOf(n, amount, extra).value)| <= Reserved(p, extra)
    ensures p == Maple ==> |Encode(MeaningOf(n, amount, extra).value)| == Reserved(p, extra)
    ensures p != Drift && p != Maple ==>
              (|Encode(MeaningOf(n, amount, extra).value)| <= Reserved(p, extra) <==> KeptExtra(n, extra) == [])
  {
  }
}
