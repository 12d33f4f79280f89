/** The Kamino adapter: the tail is forwarded for three of its seven selectors. */
module KaminoAdapter {
  import opened Outcomes
  import opened Bytes
  import opened Machine
  import opened Protocols
  import opened AdapterSpec
  import opened AdapterKit
  import Borsh

  method AdapterDeposit(ledger: Ledger, ctx: Context, args: Borsh.Args, below: Option<Effects>)
    returns (o: Outcome<()>)
    modifies ledger
    ensures (ledger.View(), o) == RunMove(old(ledger.View()), Deposit, Kamino, ctx, args, below)
  {
    o := Validate(Kamino, ctx, args.extraData);
    if !o.Ok? {
      return;
    }
    var tail := args.extraData[1..];
    match args.extraData[0] {
      case 0 =>
        o := AmountThenTail(
          ledger, Deposit, Kamino, ctx, DepositReserveLiquidityAndObligationCollateralV2, args.amount, [], below);
      case 1 =>
        o := AmountThenTail(ledger, Deposit, Kamino, ctx, DepositReserveLiquidity, args.amount, [], below);
      case 2 =>
        o := AmountThenTail(ledger, Deposit, Kamino, ctx, DepositObligationCollateralV2, args.amount, [], below);
      case 3 =>
        o := AmountThenTail(ledger, Deposit, Kamino, ctx, DepositAndWithdraw, args.amount, tail, below);
      case _ =>
        o := Err(FromAdapter(UnknownFunction));
    }
  }

  method AdapterWithdraw(ledger: Ledger, ctx: Context, args: Borsh.Args, below: Option<Effects>)
    returns (o: Outcome<()>)
    modifies ledger
    ensures (ledger.View(), o) == RunMove(old(ledger.View()), Withdraw, Kamino, ctx, args, below)
  {
    o := Validate(Kamino, ctx, args.extraData);
    if !o.Ok? {
      return;
    }
    var tail := args.extraData[1..];
    match args.extraData[0] {
      case 0 =>
        o := AmountThenTail(
          ledger, Withdraw, Kamino, ctx, WithdrawObligationCollateralAndRedeemReserveCollateralV2,
          args.amount, [], below);
      case 1 =>
        o := AmountThenTail(ledger, Withdraw, Kamino, ctx, RedeemReserveCollateral, args.amount, tail, below);
      case 2 =>
        o := AmountThenTail(ledger, Withdraw, Kamino, ctx, DepositAndWithdraw, args.amount, tail, below);
      case _ =>
        o := Err(FromAdapter(UnknownFunction));
    }
  }

  /** The account layout is foreign: `decoded` is what reading it gives. */
  method AdapterCurrentValue(ledger: Ledger, ctx: Context, decoded: Outcome<U64>) returns (o: Outcome<()>)
    modifies ledger
    ensures (ledger.View(), o) == RunValue(old(ledger.View()), Kamino, ctx, decoded)
  {
    if ctx.remaining == [] {
      return Abort;
    }
    if !decoded.Ok? {
      return decoded.PropagateFailure();
    }
    ReturnAndReport(ledger, Kamino, ctx, decoded.value);
    o := Ok(());
  }
}
