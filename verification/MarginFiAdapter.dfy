/** The MarginFi adapter: one selector per operation; the value is a `u128` cut to a `u64`. */
module MarginFiAdapter {
  import opened Outcomes
  import opened Bytes
  import opened Machine
  import opened Protocols
  import opened AdapterSpec
  import opened AdapterKit
  import Borsh
  import Layout

  method AdapterDeposit(ledger: Ledger, ctx: Context, args: Borsh.Args, below: Option<Effects>)
    returns (o: Outcome<()>)
    modifies ledger
    ensures (ledger.View(), o) == RunMove(old(ledger.View()), Deposit, MarginFi, ctx, args, below)
  {
    o := Validate(MarginFi, ctx, args.extraData);
    if !o.Ok? {
      return;
    }
    var tail := args.extraData[1..];
    match args.extraData[0] {
      case 0 =>
        o := AmountThenTail(ledger, Deposit, MarginFi, ctx, LendingAccountDeposit, args.amount, tail, below);
      case _ =>
        o := Err(FromAdapter(UnknownFunction));
    }
  }

  method AdapterWithdraw(ledger: Ledger, ctx: Context, args: Borsh.Args, below: Option<Effects>)
    returns (o: Outcome<()>)
    modifies ledger
    ensures (ledger.View(), o) == RunMove(old(ledger.View()), Withdraw, MarginFi, ctx, args, below)
  {
    o := Validate(MarginFi, ctx, args.extraData);
    if !o.Ok? {
      return;
    }
    var tail := args.extraData[1..];
    match args.extraData[0] {
      case 0 =>
        o := AmountThenTail(ledger, Withdraw, MarginFi, ctx, LendingAccountWithdraw, args.amount, tail, below);
      case _ =>
        o := Err(FromAdapter(UnknownFunction));
    }
  }

  method AdapterCurrentValue(ledger: Ledger, ctx: Context) returns (o: Outcome<()>)
    modifies ledger
    ensures forall foreign :: (ledger.View(), o) == RunValue(old(ledger.View()), MarginFi, ctx, foreign)
  {
    if ctx.remaining == [] {
      return Abort;
    }
    var read := Layout.ReadU128Le(ctx.remaining[0].data, ASSET_SHARES);
    if !read.Ok? {
      return read.PropagateFailure();
    }
    ReturnAndReport(ledger, MarginFi, ctx, read.value % TWO_64);
    o := Ok(());
  }
}
