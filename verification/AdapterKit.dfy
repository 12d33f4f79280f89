/** The steps that every adapter program repeats: collect metas, fill the data, invoke, emit. */
module AdapterKit {
  import opened Outcomes
  import opened Bytes
  import opened Machine
  import opened Interface
  import opened Protocols
  import opened AdapterSpec
  import opened Vectors

  method CollectMetas(accounts: seq<AccountInfo>) returns (metas: Vec<Meta>)
    ensures fresh(metas) && fresh(metas.buf) && metas.Valid()
    ensures metas.Contents() == MetasOf(accounts)
  {
    metas := new Vec.WithCapacity(|accounts|);
    for i := 0 to |accounts|
      invariant fresh(metas) && fresh(metas.buf) && metas.Valid()
      invariant metas.Contents() == MetasOf(accounts)[..i]
    {
      metas.Push(Meta(accounts[i].key, accounts[i].isSigner, accounts[i].isWritable));
    }
  }

  method BuildAndInvoke(ledger: Ledger, op: Op, p: Protocol, ctx: Context, data: Vec<Byte>, amount: U64,
                        below: Option<Effects>)
    returns (o: Outcome<()>)
    requires data.Valid()
    modifies ledger
    ensures (ledger.View(), o) == Forward(old(ledger.View()), op, p, ctx, data.Contents(), amount, below)
  {
    var metas := CollectMetas(ctx.remaining);
    var programId := ProgramId(p);
    ledger.forwarded := ledger.forwarded + [Instruction(programId, metas.Contents(), data.Contents())];
    o := ledger.InvokeBelow(below);
    if o.Ok? {
      ledger.adapterEvents := ledger.adapterEvents + [Forwarded(op, ctx.authority.key, programId, amount)];
    }
  }

  /** Discriminator, amount, tail: the data of the adapters that put the amount first. */
  method BuildAmountFirst(n: Name, amount: U64, tail: seq<Byte>) returns (data: Vec<Byte>)
    ensures fresh(data) && fresh(data.buf) && data.Valid()
    ensures data.Contents() == Encode(Meaning(n, [], Some(amount), tail))
    ensures tail == [] ==> data.buf.Length == 16
  {
    data := new Vec<Byte>.WithCapacity(16);
    data.ExtendFromSlice(DiscriminatorOf(n));
    data.ExtendFromSlice(U64ToLe(amount));
    data.ExtendFromSlice(tail);
    EncodeAmountFirst(n, amount, tail);
  }

  method AmountThenTail(ledger: Ledger, op: Op, p: Protocol, ctx: Context, n: Name, amount: U64,
                        tail: seq<Byte>, below: Option<Effects>)
    returns (o: Outcome<()>)
    modifies ledger
    ensures (ledger.View(), o) ==
            Forward(old(ledger.View()), op, p, ctx, Encode(Meaning(n, [], Some(amount), tail)), amount, below)
  {
    var data := BuildAmountFirst(n, amount, tail);
    o := BuildAndInvoke(ledger, op, p, ctx, data, amount, below);
  }

  /** Returns and reports the value an adapter read. */
  method ReturnAndReport(ledger: Ledger, p: Protocol, ctx: Context, value: U64)
    modifies ledger
    ensures ledger.View() == old(ledger.View()).(
              returnData := Some(U64ToLe(value)),
              adapterEvents := old(ledger.adapterEvents) + [Valued(ctx.authority.key, ProgramId(p), value)])
  {
    SetReturnU64(ledger, value);
    ledger.adapterEvents := ledger.adapterEvents + [Valued(ctx.authority.key, ProgramId(p), value)];
  }
}
