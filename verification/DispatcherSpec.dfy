/** The six dispatcher instructions as functions from state to state. */
module DispatcherSpec {
  import opened Outcomes
  import opened Bytes
  import opened Machine
  import opened Interface
  import opened Protocols
  import opened AdapterSpec
  import opened Records
  import Borsh

  datatype InitArgs = InitArgs(authority: Pubkey, programId: Pubkey, supportedMint: Pubkey, status: Byte)

  /** A client's call, with the accounts it passes and whatever the outside world contributes. */
  datatype Call =
    | RegistryInit(initializer: AccountInfo, registry: Address)
    | AdapterInit(initializer: AccountInfo, adapter: Address, registry: Address, args: InitArgs, now: I64)
    | Toggle(authority: AccountInfo, adapter: Address, writable: bool)
    | Move(op: Op, signer: AccountInfo, adapter: Address, request: Borsh.Args, remaining: seq<AccountInfo>,
           world: World)
    | Value(authority: AccountInfo, adapter: Address, remaining: seq<AccountInfo>, world: World)

  function CheckRegistryInit(env: Env, s: State, initializer: AccountInfo, registry: Address): Outcome<Registry> {
    var _ :- Require(initializer.isSigner, FromFramework(AccountNotSigner));
    var _ :- Require(registry == Canonical(env, RegistrySeeds()), FromFramework(ConstraintSeeds));
    var _ :- Require(registry !in s.store, FromFramework(AlreadyInUse));
    var _ :- Require(initializer.isWritable, FromFramework(ConstraintMut));
    var _ :- Require(initializer.key == INITIALIZER, FromDispatcher(DispatcherError.Unauthorized));
    Ok(Registry(initializer.key, env.bump(RegistrySeeds())))
  }

  function LoadRegistry(store: map<Address, Account>, address: Address): Outcome<Registry> {
    if address !in store then Err(FromFramework(AccountNotInitialized))
    else
      match store[address]
      case RegistryAccount(r) => Ok(r)
      case AdapterAccount(_) => Err(FromFramework(AccountDiscriminatorMismatch))
  }

  function LoadAdapter(store: map<Address, Account>, address: Address): Outcome<Adapter> {
    if address !in store then Err(FromFramework(AccountNotInitialized))
    else
      match store[address]
      case RegistryAccount(_) => Err(FromFramework(AccountDiscriminatorMismatch))
      case AdapterAccount(a) => Ok(a)
  }

  function CheckAdapterInit(env: Env, s: State, initializer: AccountInfo, adapter: Address, registry: Address,
                            args: InitArgs, now: I64): Outcome<Adapter>
  {
    var _ :- Require(initializer.isSigner, FromFramework(AccountNotSigner));
    var r :- LoadRegistry(s.store, registry);
    var seeds := AdapterSeeds(args.programId, args.authority);
    var _ :- Require(adapter == Canonical(env, seeds), FromFramework(ConstraintSeeds));
    var _ :- Require(adapter !in s.store, FromFramework(AlreadyInUse));
    var _ :- Require(initializer.isWritable, FromFramework(ConstraintMut));
    var _ :- Require(registry == Derive(RegistrySeeds(), r.bump), FromFramework(ConstraintSeeds));
    var _ :- Require(r.initializer == initializer.key, FromDispatcher(DispatcherError.Unauthorized));
    var _ :- Require(FromU8(args.status).Some?, FromDispatcher(InvalidStatus));
    Ok(Adapter(args.authority, args.programId, args.supportedMint, args.status, now, env.bump(seeds)))
  }

  /** The record an instruction may act on: signed for, present, and at the address of its own fields. */
  function CheckAccounts(s: State, signer: AccountInfo, address: Address, writable: bool): Outcome<Adapter> {
    var _ :- Require(signer.isSigner, FromFramework(AccountNotSigner));
    var a :- LoadAdapter(s.store, address);
    var _ :- Require(signer.isWritable && writable, FromFramework(ConstraintMut));
    var _ :- Require(address == Derive(AdapterSeeds(a.programId, a.authority), a.bump), FromFramework(ConstraintSeeds));
    Ok(a)
  }

  /** The record after a toggle. */
  function CheckToggle(s: State, authority: AccountInfo, address: Address, writable: bool): Outcome<Adapter> {
    var a :- CheckAccounts(s, authority, address, writable);
    var _ :- Require(a.authority == authority.key, FromDispatcher(DispatcherError.Unauthorized));
    var status :- StatusOf(a);
    match status
    case Active => Ok(a.(status := AsU8(Paused)))
    case Paused => Ok(a.(status := AsU8(Active)))
    case Deprecated => Err(FromDispatcher(DispatcherError.Deprecated))
  }

  function CheckActive(s: State, signer: AccountInfo, address: Address): Outcome<Adapter> {
    var a :- CheckAccounts(s, signer, address, true);
    var active :- IsActive(a);
    var _ :- Require(active, FromDispatcher(Inactive));
    Ok(a)
  }

  function CheckMove(s: State, signer: AccountInfo, address: Address, extra: seq<Byte>): Outcome<Adapter> {
    var a :- CheckActive(s, signer, address);
    var _ :- Require(|extra| <= EXTRA_DATA_MAX_LEN, FromDispatcher(Overflow));
    Ok(a)
  }

  /** The account list of the first hop: the signer, read-only, before the client's list. */
  function HopMetas(signer: AccountInfo, remaining: seq<AccountInfo>): seq<Meta> {
    [Meta(signer.key, true, false)] + MetasOf(remaining)
  }

  function MoveInstruction(programId: Pubkey, op: Op, signer: AccountInfo, request: Borsh.Args,
                           remaining: seq<AccountInfo>): Instruction
  {
    Instruction(programId, HopMetas(signer, remaining), EntryPoint(op) + Borsh.Encode(request))
  }

  function ValueInstruction(programId: Pubkey, authority: AccountInfo, remaining: seq<AccountInfo>): Instruction {
    Instruction(programId, HopMetas(authority, remaining), ADAPTER_CURRENT_VALUE)
  }

  /** The accounts as the callee receives them: the keys, flags and data that were sent, except that
      the injected authority carries the writable flag the runtime gives it. */
  function Deliver(metas: seq<Meta>, infos: seq<AccountInfo>, authorityWritable: bool): seq<AccountInfo>
    requires |metas| == |infos|
  {
    seq(|metas|, i requires 0 <= i < |metas| =>
      AccountInfo(metas[i].key, metas[i].isSigner,
                  if i == 0 then authorityWritable else metas[i].isWritable, infos[i].data))
  }

  /** `invoke`: clears the return data and runs the program that the instruction names. */
  function CallProgram(s: State, ins: Instruction, infos: seq<AccountInfo>, world: World): (State, Outcome<()>)
    requires |ins.metas| == |infos|
  {
    var called := s.(routed := s.routed + [ins], returnData := None);
    match ProtocolAt(ins.programId)
    case Some(p) => RunAdapter(called, p, ins.data, Deliver(ins.metas, infos, world.authorityWritable), world)
    case None =>
      if world.below.None? then (called, Err(FromCallee))
      else (called.(returnData := Settle(world.below.value, None)), Ok(()))
  }

  function Fail<T>(s: State, o: Outcome<T>): (State, Outcome<()>)
    requires !o.Ok?
  {
    (s, o.PropagateFailure())
  }

  function RegistryInitBody(env: Env, s: State, initializer: AccountInfo, registry: Address): (State, Outcome<()>) {
    var r := CheckRegistryInit(env, s, initializer, registry);
    if !r.Ok? then Fail(s, r)
    else (s.(store := s.store[registry := RegistryAccount(r.value)]), RegistryInvariant(r.value))
  }

  /** The record is written before its invariant is checked. */
  function AdapterInitBody(env: Env, s: State, initializer: AccountInfo, adapter: Address, registry: Address,
                           args: InitArgs, now: I64): (State, Outcome<()>)
  {
    var a := CheckAdapterInit(env, s, initializer, adapter, registry, args, now);
    if !a.Ok? then Fail(s, a)
    else (s.(store := s.store[adapter := AdapterAccount(a.value)]), AdapterInvariant(a.value))
  }

  function ToggleBody(s: State, authority: AccountInfo, adapter: Address, writable: bool): (State, Outcome<()>) {
    var a := CheckToggle(s, authority, adapter, writable);
    if !a.Ok? then Fail(s, a)
    else (s.(store := s.store[adapter := AdapterAccount(a.value)],
             events := s.events + [Toggled(authority.key, adapter, a.value.programId, a.value.status)]), Ok(()))
  }

  function MoveBody(s: State, op: Op, signer: AccountInfo, adapter: Address, request: Borsh.Args,
                    remaining: seq<AccountInfo>, world: World): (State, Outcome<()>)
  {
    var a := CheckMove(s, signer, adapter, request.extraData);
    if !a.Ok? then Fail(s, a)
    else
      var programId := a.value.programId;
      var (t, o) := CallProgram(s, MoveInstruction(programId, op, signer, request, remaining),
                                [signer] + remaining, world);
      if !o.Ok? then (t, o)
      else (t.(events := t.events + [Moved(op, signer.key, programId, request.amount)]), o)
  }

  /** Reads the callee's return data and sets the same `u64` as its own. */
  function Relay(t: State): (State, Outcome<()>) {
    var v := ReturnU64(t.returnData);
    if !v.Ok? then Fail(t, v) else (t.(returnData := Some(U64ToLe(v.value))), Ok(()))
  }

  function ValueBody(s: State, authority: AccountInfo, adapter: Address, remaining: seq<AccountInfo>,
                     world: World): (State, Outcome<()>)
  {
    var a := CheckActive(s, authority, adapter);
    if !a.Ok? then Fail(s, a)
    else
      var (t, o) := CallProgram(s, ValueInstruction(a.value.programId, authority, remaining),
                                [authority] + remaining, world);
      if !o.Ok? then (t, o) else Relay(t)
  }

  /** What an instruction does before the runtime decides whether to keep it. */
  function Body(env: Env, s: State, call: Call): (State, Outcome<()>) {
    match call
    case RegistryInit(initializer, registry) => RegistryInitBody(env, s, initializer, registry)
    case AdapterInit(initializer, adapter, registry, args, now) =>
      AdapterInitBody(env, s, initializer, adapter, registry, args, now)
    case Toggle(authority, adapter, writable) => ToggleBody(s, authority, adapter, writable)
    case Move(op, signer, adapter, request, remaining, world) =>
      MoveBody(s, op, signer, adapter, request, remaining, world)
    case Value(authority, adapter, remaining, world) => ValueBody(s, authority, adapter, remaining, world)
  }

  /** A transaction: the instruction starts with an empty return buffer, and a failure undoes everything. */
  function Step(env: Env, s: State, call: Call): (State, Outcome<()>) {
    var (t, o) := Body(env, s.(returnData := None), call);
    if o.Ok? then (t, o) else (s, o)
  }
}
