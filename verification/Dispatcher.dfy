/** The dispatcher program, step by step, against its specification. */
module Dispatcher {
  import opened Outcomes
  import opened Bytes
  import opened Machine
  import opened Interface
  import opened Protocols
  import opened AdapterSpec
  import opened Records
  import opened DispatcherSpec
  import opened Vectors
  import AdapterPrograms
  import Borsh

  method RegistryInitialize(env: Env, ledger: Ledger, initializer: AccountInfo, registry: Address)
    returns (o: Outcome<()>)
    modifies ledger
    ensures (ledger.View(), o) == RegistryInitBody(env, old(ledger.View()), initializer, registry)
  {
    if !initializer.isSigner {
      return Err(FromFramework(AccountNotSigner));
    }
    var bump := env.bump(RegistrySeeds());
    if registry != Derive(RegistrySeeds(), bump) {
      return Err(FromFramework(ConstraintSeeds));
    }
    if registry in ledger.store {
      return Err(FromFramework(AlreadyInUse));
    }
    if !initializer.isWritable {
      return Err(FromFramework(ConstraintMut));
    }
    if initializer.key != INITIALIZER {
      return Err(FromDispatcher(DispatcherError.Unauthorized));
    }
    ledger.store := ledger.store[registry := RegistryAccount(Registry(initializer.key, bump))];
    o := RegistryInvariant(ledger.store[registry].registry);
  }

  /** Writes the record before it checks the record's invariant. */
  method AdapterInitialize(env: Env, ledger: Ledger, initializer: AccountInfo, adapter: Address, registry: Address,
                           args: InitArgs, now: I64)
    returns (o: Outcome<()>)
    modifies ledger
    ensures (ledger.View(), o) ==
            AdapterInitBody(env, old(ledger.View()), initializer, adapter, registry, args, now)
  {
    if !initializer.isSigner {
      return Err(FromFramework(AccountNotSigner));
    }
    var loaded := LoadRegistry(ledger.store, registry);
    if !loaded.Ok? {
      return loaded.PropagateFailure();
    }
    var seeds := AdapterSeeds(args.programId, args.authority);
    var bump := env.bump(seeds);
    if adapter != Derive(seeds, bump) {
      return Err(FromFramework(ConstraintSeeds));
    }
    if adapter in ledger.store {
      return Err(FromFramework(AlreadyInUse));
    }
    if !initializer.isWritable {
      return Err(FromFramework(ConstraintMut));
    }
    if registry != Derive(RegistrySeeds(), loaded.value.bump) {
      return Err(FromFramework(ConstraintSeeds));
    }
    if loaded.value.initializer != initializer.key {
      return Err(FromDispatcher(DispatcherError.Unauthorized));
    }
    if FromU8(args.status).None? {
      return Err(FromDispatcher(InvalidStatus));
    }
    ledger.store := ledger.store[
      adapter := AdapterAccount(Adapter(args.authority, args.programId, args.supportedMint, args.status, now, bump))];
    o := AdapterInvariant(ledger.store[adapter].adapter);
  }

  method ToggleAdapter(ledger: Ledger, authority: AccountInfo, adapter: Address, writable: bool)
    returns (o: Outcome<()>)
    modifies ledger
    ensures (ledger.View(), o) == ToggleBody(old(ledger.View()), authority, adapter, writable)
  {
    var loaded := CheckAccounts(ledger.View(), authority, adapter, writable);
    if !loaded.Ok? {
      return loaded.PropagateFailure();
    }
    if loaded.value.authority != authority.key {
      return Err(FromDispatcher(DispatcherError.Unauthorized));
    }
    var status := StatusOf(loaded.value);
    if !status.Ok? {
      return status.PropagateFailure();
    }
    var next;
    match status.value {
      case Active => next := Paused;
      case Paused => next := Active;
      case Deprecated => return Err(FromDispatcher(DispatcherError.Deprecated));
    }
    ledger.store := ledger.store[adapter := AdapterAccount(loaded.value.(status := AsU8(next)))];
    ledger.events := ledger.events + [Toggled(authority.key, adapter, loaded.value.programId, AsU8(next))];
    o := Ok(());
  }

  /** The metas that `invoke` takes; they fill their reserve exactly. */
  method CollectMetas(signer: AccountInfo, remaining: seq<AccountInfo>) returns (metas: Vec<Meta>)
    ensures fresh(metas) && fresh(metas.buf) && metas.Valid()
    ensures metas.Contents() == HopMetas(signer, remaining)
    ensures metas.buf.Length == metas.len == 1 + |remaining|
  {
    metas := new Vec.WithCapacity(1 + |remaining|);
    metas.Push(Meta(signer.key, true, false));
    for i := 0 to |remaining|
      invariant fresh(metas) && fresh(metas.buf) && metas.Valid()
      invariant metas.buf.Length == 1 + |remaining| && metas.len == 1 + i
      invariant metas.Contents() == HopMetas(signer, remaining)[..1 + i]
    {
      metas.Push(MetaOf(remaining[i]));
    }
  }

  /** The accounts that `invoke` takes; they fill their reserve exactly. */
  method CollectInfos(signer: AccountInfo, remaining: seq<AccountInfo>) returns (infos: Vec<AccountInfo>)
    ensures fresh(infos) && fresh(infos.buf) && infos.Valid()
    ensures infos.Contents() == [signer] + remaining
    ensures infos.buf.Length == infos.len == 1 + |remaining|
  {
    infos := new Vec.WithCapacity(1 + |remaining|);
    infos.Push(signer);
    infos.ExtendFromSlice(remaining);
  }

  /** Entry-point discriminator, then the Borsh form of the arguments; the reserve is filled exactly. */
  method BuildData(op: Op, request: Borsh.Args) returns (data: Vec<Byte>)
    ensures fresh(data) && fresh(data.buf) && data.Valid()
    ensures data.Contents() == EntryPoint(op) + Borsh.Encode(request)
    ensures data.buf.Length == data.len == 20 + |request.extraData|
  {
    var serialized := Borsh.Encode(request);
    data := new Vec<Byte>.WithCapacity(8 + |serialized|);
    data.ExtendFromSlice(EntryPoint(op));
    data.ExtendFromSlice(serialized);
  }

  method Invoke(ledger: Ledger, ins: Instruction, infos: seq<AccountInfo>, world: World) returns (o: Outcome<()>)
    requires |ins.metas| == |infos|
    modifies ledger
    ensures (ledger.View(), o) == CallProgram(old(ledger.View()), ins, infos, world)
  {
    ledger.routed := ledger.routed + [ins];
    ledger.returnData := None;
    match ProtocolAt(ins.programId) {
      case Some(p) =>
        o := AdapterPrograms.Enter(ledger, p, ins.data, Deliver(ins.metas, infos, world.authorityWritable), world);
      case None =>
        o := ledger.InvokeBelow(world.below);
    }
  }

  /** `deposit` and `withdraw`, which differ in the entry point they print and the event they emit. */
  method MoveFunds(ledger: Ledger, op: Op, signer: AccountInfo, adapter: Address, request: Borsh.Args,
                   remaining: seq<AccountInfo>, world: World)
    returns (o: Outcome<()>)
    modifies ledger
    ensures (ledger.View(), o) ==
            MoveBody(old(ledger.View()), op, signer, adapter, request, remaining, world)
  {
    var loaded := CheckAccounts(ledger.View(), signer, adapter, true);
    if !loaded.Ok? {
      return loaded.PropagateFailure();
    }
    var active := IsActive(loaded.value);
    if !active.Ok? {
      return active.PropagateFailure();
    }
    if !active.value {
      return Err(FromDispatcher(Inactive));
    }
    if |request.extraData| > EXTRA_DATA_MAX_LEN {
      return Err(FromDispatcher(Overflow));
    }
    var programId := loaded.value.programId;
    var data := BuildData(op, request);
    var metas := CollectMetas(signer, remaining);
    var infos := CollectInfos(signer, remaining);
    o := Invoke(ledger, Instruction(programId, metas.Contents(), data.Contents()), infos.Contents(), world);
    if o.Ok? {
      ledger.events := ledger.events + [Moved(op, signer.key, programId, request.amount)];
    }
  }

  method CurrentValue(ledger: Ledger, authority: AccountInfo, adapter: Address,
                      remaining: seq<AccountInfo>, world: World)
    returns (o: Outcome<()>)
    modifies ledger
    ensures (ledger.View(), o) == ValueBody(old(ledger.View()), authority, adapter, remaining, world)
  {
    var loaded := CheckAccounts(ledger.View(), authority, adapter, true);
    if !loaded.Ok? {
      return loaded.PropagateFailure();
    }
    var active := IsActive(loaded.value);
    if !active.Ok? {
      return active.PropagateFailure();
    }
    if !active.value {
      return Err(FromDispatcher(Inactive));
    }
    var data := new Vec<Byte>.WithCapacity(8);
    data.ExtendFromSlice(ADAPTER_CURRENT_VALUE);
    assert data.Contents() == ADAPTER_CURRENT_VALUE;
    var metas := CollectMetas(authority, remaining);
    var infos := CollectInfos(authority, remaining);
    var programId := loaded.value.programId;
    o := Invoke(ledger, Instruction(programId, metas.Contents(), data.Contents()), infos.Contents(), world);
    if o.Ok? {
      o := RelayReturn(ledger);
    }
  }

  method RelayReturn(ledger: Ledger) returns (o: Outcome<()>)
    modifies ledger
    ensures (ledger.View(), o) == Relay(old(ledger.View()))
  {
    var value := ReadReturnU64(ledger);
    if !value.Ok? {
      return value.PropagateFailure();
    }
    SetReturnU64(ledger, value.value);
    o := Ok(());
  }

  /** Runs one transaction: the runtime keeps the writes of a success and undoes those of a failure. */
  method Execute(env: Env, ledger: Ledger, call: Call) returns (o: Outcome<()>)
    modifies ledger
    ensures (ledger.View(), o) == Step(env, old(ledger.View()), call)
    ensures !o.Ok? ==> ledger.View() == old(ledger.View())
  {
    var before := ledger.View();
    ledger.returnData := None;
    match call {
      case RegistryInit(initializer, registry) => o := RegistryInitialize(env, ledger, initializer, registry);
      case AdapterInit(initializer, adapter, registry, args, now) =>
        o := AdapterInitialize(env, ledger, initializer, adapter, registry, args, now);
      case Toggle(authority, adapter, writable) => o := ToggleAdapter(ledger, authority, adapter, writable);
      case Move(op, signer, adapter, request, remaining, world) =>
        o := MoveFunds(ledger, op, signer, adapter, request, remaining, world);
      case Value(authority, adapter, remaining, world) =>
        o := CurrentValue(ledger, authority, adapter, remaining, world);
    }
    if !o.Ok? {
      ledger.Restore(before);
    }
  }
}
