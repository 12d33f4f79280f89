/** The Maple adapter: a cross-chain message without the amount, sent with the authority at account 3. */
module MapleAdapter {
  import opened Outcomes
  import opened Bytes
  import opened Machine
  import opened Protocols
  import opened AdapterSpec
  import opened AdapterKit
  import Borsh
  import opened Vectors

  method BuildCcip(message: seq<Byte>) returns (data: Vec<Byte>)
    ensures fresh(data) && fresh(data.buf) && data.Valid()
    ensures data.buf.Length == data.len == 8 + |message|
    ensures data.Contents() == Encode(Meaning(CcipSend, [], None, message))
  {
    data := new Vec<Byte>.WithCapacity(8 + |message|);
    data.ExtendFromSlice(DiscriminatorOf(CcipSend));
    data.ExtendFromSlice(message);
    assert DiscriminatorOf(CcipSend) + [] + [] == DiscriminatorOf(CcipSend);
  }

  method AdapterDeposit(ledger: Ledger, ctx: Context, args: Borsh.Args, below: Option<Effects>)
    returns (o: Outcome<()>)
    modifies ledger
    ensures (ledger.View(), o) == RunMove(old(ledger.View()), Deposit, Maple, ctx, args, below)
  {
    o := Validate(Maple, ctx, args.extraData);
    if !o.Ok? {
      return;
    }
    match args.extraData[0] {
      case 0 =>
        var data := BuildCcip(args.extraData[1..]);
        o := BuildAndInvoke(ledger, Deposit, Maple, ctx, data, args.amount, below);
      case _ =>
        o := Err(FromAdapter(UnknownFunction));
    }
  }

  method AdapterWithdraw(ledger: Ledger, ctx: Context, args: Borsh.Args, below: Option<Effects>)
    returns (o: Outcome<()>)
    modifies ledger
    ensures (ledger.View(), o) == RunMove(old(ledger.View()), Withdraw, Maple, ctx, args, below)
  {
    o := Validate(Maple, ctx, args.extraData);
    if !o.Ok? {
      return;
    }
    match args.extraData[0] {
      case 0 =>
        var data := BuildCcip(args.extraData[1..]);
        o := BuildAndInvoke(ledger, Withdraw, Maple, ctx, data, args.amount, below);
      case _ =>
        o := Err(FromAdapter(UnknownFunction));
    }
  }

  /** The account layout is foreign: `decoded` is what reading it gives. */
  method AdapterCurrentValue(ledger: Ledger, ctx: Context, decoded: Outcome<U64>) returns (o: Outcome<()>)
    modifies ledger
    ensures (ledger.View(), o) == RunValue(old(ledger.View()), Maple, ctx, decoded)
  {
    if ctx.remaining == [] {
      return Err(FromAdapter(AdapterError.InvalidAccount));
    }
    if !decoded.Ok? {
      return decoded.PropagateFailure();
    }
    ReturnAndReport(ledger, Maple, ctx, decoded.value);
    o := Ok(());
  }
}
