/** The Jupiter adapter: exactly fourteen accounts, and the tail only for selector 1. */
module JupiterAdapter {
  import opened Outcomes
  import opened Machine
  import opened Protocols
  import opened AdapterSpec
  import opened AdapterKit
  import Borsh
  import Layout

  method AdapterDeposit(ledger: Ledger, ctx: Context, args: Borsh.Args, below: Option<Effects>)
    returns (o: Outcome<()>)
    modifies ledger
    ensures (ledger.View(), o) == RunMove(old(ledger.View()), Deposit, Jupiter, ctx, args, below)
  {
    o := Validate(Jupiter, ctx, args.extraData);
    if !o.Ok? {
      return;
    }
    var tail := args.extraData[1..];
    match args.extraData[0] {
      case 0 =>
        o := AmountThenTail(ledger, Deposit, Jupiter, ctx, DepositCollateralForBorrows, args.amount, [], below);
      case 1 =>
        o := AmountThenTail(ledger, Deposit, Jupiter, ctx, AddLiquidity2, args.amount, tail, below);
      case _ =>
        o := Err(FromAdapter(UnknownFunction));
    }
  }

  method AdapterWithdraw(ledger: Ledger, ctx: Context, args: Borsh.Args, below: Option<Effects>)
    returns (o: Outcome<()>)
    modifies ledger
    ensures (ledger.View(), o) == RunMove(old(ledger.View()), Withdraw, Jupiter, ctx, args, below)
  {
    o := Validate(Jupiter, ctx, args.extraData);
    if !o.Ok? {
      return;
    }
    var tail := args.extraData[1..];
    match args.extraData[0] {
      case 0 =>
        o := AmountThenTail(ledger, Withdraw, Jupiter, ctx, WithdrawCollateralForBorrows, args.amount, [], below);
      case 1 =>
        o := AmountThenTail(ledger, Withdraw, Jupiter, ctx, RemoveLiquidity, args.amount, tail, below);
      case _ =>
        o := Err(FromAdapter(UnknownFunction));
    }
  }

  method AdapterCurrentValue(ledger: Ledger, ctx: Context) returns (o: Outcome<()>)
    modifies ledger
    ensures forall foreign :: (ledger.View(), o) == RunValue(old(ledger.View()), Jupiter, ctx, foreign)
  {
    if ctx.remaining == [] {
      return Abort;
    }
    var read := Layout.ReadU64Le(ctx.remaining[0].data, LOCKED_COLLATERAL);
    if !read.Ok? {
      return read.PropagateFailure();
    }
    ReturnAndReport(ledger, Jupiter, ctx, read.value);
    o := Ok(());
  }
}
