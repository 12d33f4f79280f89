/** Which error a client gets, when the framework's own account checks pass. */
module Refusals {
  import opened Outcomes
  import opened Bytes
  import opened Machine
  import opened Protocols
  import opened AdapterSpec
  import opened Records
  import opened DispatcherSpec
  import opened TwoHops
  import opened Runs
  import opened Access
  import Borsh
  import Relays

  /** The answer to a registration at the right address, by whoever signs. */
  lemma RegistrationRefusals(env: Env, calls: seq<Call>, initializer: AccountInfo, args: InitArgs, now: I64)
    requires initializer.isSigner && initializer.isWritable && HasRegistry(env, After(env, calls).store)
    requires Canonical(env, AdapterSeeds(args.programId, args.authority)) !in After(env, calls).store
    ensures var adapter := Canonical(env, AdapterSeeds(args.programId, args.authority));
            var registry := Canonical(env, RegistrySeeds());
            Step(env, After(env, calls), AdapterInit(initializer, adapter, registry, args, now)).1 ==
            if initializer.key != INITIALIZER then Err(FromDispatcher(DispatcherError.Unauthorized))
            else if args.status > 2 then Err(FromDispatcher(InvalidStatus))
            else if DEFAULT_KEY in {args.authority, args.programId, args.supportedMint}
            then Err(FromDispatcher(DispatcherError.InvalidAccount))
            else Ok(())
  {
    SameSoundness(env, calls, Canonical(env, RegistrySeeds()));
  }

  /** The answer to a toggle of a stored record: the wrong authority is refused before a deprecated record is. */
  lemma ToggleRefusals(env: Env, calls: seq<Call>, authority: AccountInfo, address: Address)
    requires authority.isSigner && authority.isWritable && LoadAdapter(After(env, calls).store, address).Ok?
    ensures var a := LoadAdapter(After(env, calls).store, address).value;
            Step(env, After(env, calls), Toggle(authority, address, true)).1 ==
            if a.authority != authority.key then Err(FromDispatcher(DispatcherError.Unauthorized))
            else if a.status == 2 then Err(FromDispatcher(DispatcherError.Deprecated))
            else Ok(())
  {
    SameSoundness(env, calls, address);
  }

  /** The dispatcher's own refusals of a transfer and of a query to a stored record. */
  lemma RoutingRefusals(env: Env, calls: seq<Call>, op: Op, signer: AccountInfo, address: Address,
                        request: Borsh.Args, remaining: seq<AccountInfo>, world: World)
    requires signer.isSigner && signer.isWritable && LoadAdapter(After(env, calls).store, address).Ok?
    ensures var s := After(env, calls);
            var active := LoadAdapter(s.store, address).value.status == 0;
            var move := Step(env, s, Move(op, signer, address, request, remaining, world)).1;
            var query := Step(env, s, Value(signer, address, remaining, world)).1;
            && (!active ==> move == query == Err(FromDispatcher(Inactive)))
            && (active && |request.extraData| > 64 ==> move == Err(FromDispatcher(DispatcherError.Overflow)))
            && (active ==> CheckActive(s, signer, address).Ok?)
            && (active && |request.extraData| <= 64 ==> CheckMove(s, signer, address, request.extraData).Ok?)
  {
    SameSoundness(env, calls, address);
  }

  function LastSelector(p: Protocol, op: Op): Byte {
    match p
    case Drift => 2
    case Jupiter => 1
    case Kamino => if op == Deposit then 3 else 2
    case Maple | MarginFi => 0
  }

  /** What an adapter itself answers to an admitted request, in the order of its checks. */
  function Refusal(p: Protocol, op: Op, signer: Pubkey, x: seq<Byte>, remaining: seq<AccountInfo>): Outcome<()> {
    if p == Maple then
      if x == [] then Err(FromAdapter(InvalidArgs))
      else if |remaining| < 18 then Err(FromAdapter(AdapterError.InvalidAccount))
      else if remaining[3].key != signer || !remaining[3].isSigner then Err(FromAdapter(AdapterError.Unauthorized))
      else if x[0] != 0 then Err(FromAdapter(UnknownFunction))
      else Ok(())
    else if signer == DEFAULT_KEY || (p == Jupiter && |remaining| != 14) then
      Err(FromAdapter(AdapterError.InvalidAccount))
    else if x == [] then Err(FromAdapter(InvalidArgs))
    else if x[0] > LastSelector(p, op) then Err(FromAdapter(UnknownFunction))
    else if Slips(p, op, signer, x) then Abort
    else Ok(())
  }

  lemma AdmitRefuses(p: Protocol, op: Op, ctx: Context, args: Borsh.Args)
    ensures var r, o := Refusal(p, op, ctx.authority.key, args.extraData, ctx.remaining), Admit(p, op, ctx, args);
            (o.Ok? <==> r.Ok?) && (o.Err? <==> r.Err?) && (o.Err? ==> o.error == r.error)
  {
  }

  lemma SecondHopRefuses(s: State, p: Protocol, op: Op, signer: AccountInfo, request: Borsh.Args,
                         remaining: seq<AccountInfo>, world: World)
    requires |request.extraData| <= 64
    ensures var ins := MoveInstruction(AdapterId(p), op, signer, request, remaining);
            var r := Refusal(p, op, signer.key, request.extraData, remaining);
            CallProgram(s, ins, [signer] + remaining, world).1 ==
            if !world.authorityWritable then Err(FromFramework(ConstraintMut))
            else if !r.Ok? then r
            else if world.below.None? then Err(FromCallee)
            else Ok(())
  {
    AdapterHop(s, p, op, signer, request, remaining, world);
    AdmitRefuses(p, op, Context(AccountInfo(signer.key, true, true, signer.data), remaining), request);
  }

  /** The answer to every admitted transfer through the five adapters. */
  lemma TransferRefusals(env: Env, s: State, p: Protocol, op: Op, signer: AccountInfo, address: Address,
                         request: Borsh.Args, remaining: seq<AccountInfo>, world: World)
    requires CheckMove(s, signer, address, request.extraData).Ok?
    requires LoadAdapter(s.store, address).value.programId == AdapterId(p)
    ensures var r := Refusal(p, op, signer.key, request.extraData, remaining);
            Step(env, s, Move(op, signer, address, request, remaining, world)).1 ==
            if !world.authorityWritable then Err(FromFramework(ConstraintMut))
            else if !r.Ok? then r
            else if world.below.None? then Err(FromCallee)
            else Ok(())
  {
    SecondHopRefuses(s.(returnData := None), p, op, signer, request, remaining, world);
  }

  /** What an adapter answers to a query once it runs; only Maple checks for an empty list. */
  function QueryRefusal(p: Protocol, remaining: seq<AccountInfo>, decoded: Outcome<U64>): Outcome<()> {
    if remaining == [] then
      if p == Maple then Err(FromAdapter(AdapterError.InvalidAccount)) else Abort
    else if p == Kamino || p == Maple then
      if decoded.Ok? then Ok(()) else decoded.PropagateFailure()
    else if |remaining[0].data| < (match p case Drift => 112 case Jupiter => 160 case _ => 56) then
      Err(FromInterface(AccountDataTooShort))
    else Ok(())
  }

  lemma ValueRefuses(p: Protocol, ctx: Context, decoded: Outcome<U64>)
    ensures var r, o := QueryRefusal(p, ctx.remaining, decoded), ValueOf(p, ctx, decoded);
            (o.Ok? <==> r.Ok?) && (o.Err? <==> r.Err?) && (o.Err? ==> o.error == r.error)
  {
  }

  /** Whether the callee's own checks let a query pass, with the flag on the authority checked first. */
  function QueryAnswer(p: Protocol, remaining: seq<AccountInfo>, world: World): Outcome<()> {
    if p != Kamino && p != Jupiter && !world.authorityWritable then Err(FromFramework(ConstraintMut))
    else QueryRefusal(p, remaining, world.foreignValue)
  }

  lemma QueryHopRefuses(s: State, p: Protocol, authority: AccountInfo, remaining: seq<AccountInfo>, world: World)
    ensures var ins := ValueInstruction(AdapterId(p), authority, remaining);
            CallProgram(s, ins, [authority] + remaining, world).1 == QueryAnswer(p, remaining, world)
  {
    ProtocolAtAdapter(p);
    Relays.ValueHop(s, ValueInstruction(AdapterId(p), authority, remaining), authority, remaining, world);
    ValueRefuses(p, Context(AccountInfo(authority.key, true, world.authorityWritable, authority.data), remaining),
                 world.foreignValue);
  }

  /** The answer to every admitted query through the five adapters. */
  lemma QueryRefusals(env: Env, s: State, p: Protocol, authority: AccountInfo, address: Address,
                      remaining: seq<AccountInfo>, world: World)
    requires CheckActive(s, authority, address).Ok?
    requires CheckActive(s, authority, address).value.programId == AdapterId(p)
    ensures Step(env, s, Value(authority, address, remaining, world)).1 ==
            QueryAnswer(p, remaining, world)
  {
    if QueryAnswer(p, remaining, world).Ok? {
      ValueRefuses(p, Context(authority, remaining), world.foreignValue);
      Relays.RelayOfAdapter(env, s, p, authority, address, remaining, world);
    } else {
      QueryHopRefuses(s.(returnData := None), p, authority, remaining, world);
      Relays.FailedQuery(env, s, authority, address, remaining, world);
    }
  }
}
