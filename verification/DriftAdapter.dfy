/** The Drift adapter: splices the amount into the arguments, appends it, or leaves it out. */
module DriftAdapter {
  import opened Outcomes
  import opened Bytes
  import opened Machine
  import opened Protocols
  import opened AdapterSpec
  import opened AdapterKit
  import opened Vectors
  import Borsh
  import Layout

  /** `deposit` and `withdraw`: two bytes, the amount, the rest. */
  method BuildSpliced(n: Name, args: Borsh.Args) returns (o: Outcome<()>, data: Vec<Byte>)
    requires ShapeOf(n) == AmountAfterTwo && args.extraData != []
    ensures fresh(data) && fresh(data.buf) && data.Valid()
    ensures data.buf.Length == 16 + |args.extraData|
    ensures o == if |args.extraData| < 3 then Abort else Ok(())
    ensures o.Ok? ==> var x := args.extraData;
                      data.Contents() == DiscriminatorOf(n) + x[1..3] + U64ToLe(args.amount) + x[3..]
    ensures o.Ok? ==> data.Contents() == Encode(MeaningOf(n, args.amount, args.extraData).value)
  {
    var extra := args.extraData;
    data := new Vec<Byte>.WithCapacity(16 + |extra|);
    data.ExtendFromSlice(DiscriminatorOf(n));
    assert data.Contents() == DiscriminatorOf(n);
    var head := Slice(extra, 1, 3);
    if !head.Ok? {
      return Abort, data;
    }
    data.ExtendFromSlice(head.value);
    data.ExtendFromSlice(U64ToLe(args.amount));
    var tail := Slice(extra, 3, |extra|);
    if !tail.Ok? {
      return Abort, data;
    }
    data.ExtendFromSlice(tail.value);
    assert data.Contents() == DiscriminatorOf(n) + extra[1..3] + U64ToLe(args.amount) + extra[3..];
    o := Ok(());
  }

  /** `add_insurance_fund_stake`: everything after the selector, then the amount. */
  method BuildAppended(args: Borsh.Args) returns (data: Vec<Byte>)
    requires args.extraData != []
    ensures fresh(data) && fresh(data.buf) && data.Valid()
    ensures data.buf.Length == 16 + |args.extraData|
    ensures data.Contents() == Encode(MeaningOf(AddInsuranceFundStake, args.amount, args.extraData).value)
  {
    data := new Vec<Byte>.WithCapacity(16 + |args.extraData|);
    data.ExtendFromSlice(DiscriminatorOf(AddInsuranceFundStake));
    assert data.Contents() == DiscriminatorOf(AddInsuranceFundStake);
    data.ExtendFromSlice(args.extraData[1..]);
    data.ExtendFromSlice(U64ToLe(args.amount));
    EncodeAmountLast(AddInsuranceFundStake, args.extraData[1..], args.amount);
  }

  /** `initialize_insurance_fund_stake`: everything after the selector. */
  method BuildWithoutAmount(args: Borsh.Args) returns (data: Vec<Byte>)
    requires args.extraData != []
    ensures fresh(data) && fresh(data.buf) && data.Valid()
    ensures data.buf.Length == 16 + |args.extraData|
    ensures data.Contents() == Encode(MeaningOf(InitializeInsuranceFundStake, args.amount, args.extraData).value)
  {
    data := new Vec<Byte>.WithCapacity(16 + |args.extraData|);
    data.ExtendFromSlice(DiscriminatorOf(InitializeInsuranceFundStake));
    data.ExtendFromSlice(args.extraData[1..]);
    assert data.Contents() == Encode(MeaningOf(InitializeInsuranceFundStake, args.amount, args.extraData).value);
  }

  /** The two withdrawals from the insurance fund keep two bytes, and the first also the amount. */
  method BuildTwoBytes(n: Name, args: Borsh.Args) returns (o: Outcome<()>, data: Vec<Byte>)
    requires n == RequestRemoveInsuranceFundStake || n == RemoveInsuranceFundStake
    requires args.extraData != []
    ensures fresh(data) && fresh(data.buf) && data.Valid()
    ensures data.buf.Length == 16 + |args.extraData|
    ensures o == if |args.extraData| < 3 then Abort else Ok(())
    ensures o.Ok? ==> data.Contents() == Encode(MeaningOf(n, args.amount, args.extraData).value)
  {
    data := new Vec<Byte>.WithCapacity(16 + |args.extraData|);
    data.ExtendFromSlice(DiscriminatorOf(n));
    var head := Slice(args.extraData, 1, 3);
    if !head.Ok? {
      return Abort, data;
    }
    data.ExtendFromSlice(head.value);
    if n == RequestRemoveInsuranceFundStake {
      data.ExtendFromSlice(U64ToLe(args.amount));
    }
    assert data.Contents() == Encode(MeaningOf(n, args.amount, args.extraData).value);
    o := Ok(());
  }

  method AdapterDeposit(ledger: Ledger, ctx: Context, args: Borsh.Args, below: Option<Effects>)
    returns (o: Outcome<()>)
    modifies ledger
    ensures (ledger.View(), o) == RunMove(old(ledger.View()), Deposit, Drift, ctx, args, below)
  {
    o := Validate(Drift, ctx, args.extraData);
    if !o.Ok? {
      return;
    }
    match args.extraData[0] {
      case 0 =>
        var built, data := BuildSpliced(DriftDeposit, args);
        if !built.Ok? {
          return Abort;
        }
        o := BuildAndInvoke(ledger, Deposit, Drift, ctx, data, args.amount, below);
      case 1 =>
        var data := BuildAppended(args);
        o := BuildAndInvoke(ledger, Deposit, Drift, ctx, data, args.amount, below);
      case 2 =>
        var data := BuildWithoutAmount(args);
        o := BuildAndInvoke(ledger, Deposit, Drift, ctx, data, 0, below);
      case _ =>
        o := Err(FromAdapter(UnknownFunction));
    }
  }

  method AdapterWithdraw(ledger: Ledger, ctx: Context, args: Borsh.Args, below: Option<Effects>)
    returns (o: Outcome<()>)
    modifies ledger
    ensures (ledger.View(), o) == RunMove(old(ledger.View()), Withdraw, Drift, ctx, args, below)
  {
    o := Validate(Drift, ctx, args.extraData);
    if !o.Ok? {
      return;
    }
    match args.extraData[0] {
      case 0 =>
        var built, data := BuildSpliced(DriftWithdraw, args);
        if !built.Ok? {
          return Abort;
        }
        o := BuildAndInvoke(ledger, Withdraw, Drift, ctx, data, args.amount, below);
      case 1 =>
        var built, data := BuildTwoBytes(RequestRemoveInsuranceFundStake, args);
        if !built.Ok? {
          return Abort;
        }
        o := BuildAndInvoke(ledger, Withdraw, Drift, ctx, data, args.amount, below);
      case 2 =>
        var built, data := BuildTwoBytes(RemoveInsuranceFundStake, args);
        if !built.Ok? {
          return Abort;
        }
        o := BuildAndInvoke(ledger, Withdraw, Drift, ctx, data, 0, below);
      case _ =>
        o := Err(FromAdapter(UnknownFunction));
    }
  }

  method AdapterCurrentValue(ledger: Ledger, ctx: Context) returns (o: Outcome<()>)
    modifies ledger
    ensures forall foreign :: (ledger.View(), o) == RunValue(old(ledger.View()), Drift, ctx, foreign)
  {
    if ctx.remaining == [] {
      return Abort;
    }
    var read := Layout.ReadU64Le(ctx.remaining[0].data, SPOT_0_SCALED_BALANCE);
    if !read.Ok? {
      return read.PropagateFailure();
    }
    ReturnAndReport(ledger, Drift, ctx, read.value);
    o := Ok(());
  }
}
