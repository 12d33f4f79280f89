/** Theorems about every run of the dispatcher: any list of calls, by anyone, from the empty state. */
module Runs {
  import opened Outcomes
  import opened Bytes
  import opened Machine
  import opened Protocols
  import opened AdapterSpec
  import opened Records
  import opened DispatcherSpec
  import Borsh

  function Last<T>(s: seq<T>): T
    requires s != []
  {
    s[|s| - 1]
  }

  function Front<T>(s: seq<T>): (f: seq<T>)
    requires s != []
    ensures |f| == |s| - 1 && f + [Last(s)] == s
  {
    s[..|s| - 1]
  }

  /** The state after a run. */
  function After(env: Env, calls: seq<Call>): State {
    if calls == [] then EMPTY else Step(env, After(env, Front(calls)), Last(calls)).0
  }

  /** The outcome of the call at position `n` of a run. */
  predicate Succeeded(env: Env, calls: seq<Call>, n: nat)
    requires n < |calls|
  {
    Step(env, After(env, calls[..n]), calls[n]).1.Ok?
  }

  // ------------------------------------------------------------ frames

  lemma ProgramsLeaveTheStore(s: State, ins: Instruction, infos: seq<AccountInfo>, world: World)
    requires |ins.metas| == |infos|
    ensures CallProgram(s, ins, infos, world).0.store == s.store
    ensures CallProgram(s, ins, infos, world).0.events == s.events
    ensures CallProgram(s, ins, infos, world).0.routed == s.routed + [ins]
  {
    if ProtocolAt(ins.programId).Some? {
      AdapterKeepsDispatcher(s.(routed := s.routed + [ins], returnData := None), ProtocolAt(ins.programId).value,
                             ins.data, Deliver(ins.metas, infos, world.authorityWritable), world);
    }
  }

  /** The instruction a routed call hands to the program it names. */
  function InstructionOf(s: State, call: Call): Instruction
    requires call.Move? || call.Value?
    requires LoadAdapter(s.store, call.adapter).Ok?
  {
    var programId := LoadAdapter(s.store, call.adapter).value.programId;
    match call
    case Move(op, signer, _, request, remaining, _) => MoveInstruction(programId, op, signer, request, remaining)
    case Value(authority, _, remaining, _) => ValueInstruction(programId, authority, remaining)
  }

  lemma MoveFrame(s: State, op: Op, signer: AccountInfo, adapter: Address, request: Borsh.Args,
                  remaining: seq<AccountInfo>, world: World)
    ensures var (t, o) := MoveBody(s, op, signer, adapter, request, remaining, world);
            var a := CheckMove(s, signer, adapter, request.extraData);
            && t.store == s.store
            && (o.Ok? ==> a.Ok? && a.value.status == 0)
            && t.events == s.events +
               (if o.Ok? then [Moved(op, signer.key, a.value.programId, request.amount)] else [])
            && t.routed == s.routed +
               (if a.Ok? then [MoveInstruction(a.value.programId, op, signer, request, remaining)] else [])
  {
    var a := CheckMove(s, signer, adapter, request.extraData);
    if a.Ok? {
      ProgramsLeaveTheStore(s, MoveInstruction(a.value.programId, op, signer, request, remaining),
                            [signer] + remaining, world);
    }
  }

  lemma ValueFrame(s: State, authority: AccountInfo, adapter: Address, remaining: seq<AccountInfo>, world: World)
    ensures var (t, o) := ValueBody(s, authority, adapter, remaining, world);
            var a := CheckActive(s, authority, adapter);
            && t.store == s.store && t.events == s.events
            && (o.Ok? ==> a.Ok? && a.value.status == 0)
            && t.routed == s.routed +
               (if a.Ok? then [ValueInstruction(a.value.programId, authority, remaining)] else [])
  {
    var a := CheckActive(s, authority, adapter);
    if a.Ok? {
      ProgramsLeaveTheStore(s, ValueInstruction(a.value.programId, authority, remaining),
                            [authority] + remaining, world);
    }
  }

  /** Deposits, withdrawals and queries leave the store alone, and so does every failed call. */
  lemma Stutter(env: Env, s: State, call: Call)
    requires call.Move? || call.Value? || !Step(env, s, call).1.Ok?
    ensures Step(env, s, call).0.store == s.store
  {
    if call.Move? {
      MoveFrame(s.(returnData := None), call.op, call.signer, call.adapter, call.request, call.remaining, call.world);
    } else if call.Value? {
      ValueFrame(s.(returnData := None), call.authority, call.adapter, call.remaining, call.world);
    }
  }

  // ------------------------------------------------------------ the journal

  /** The changes of the store, in order. */
  datatype Entry =
    | Registered(address: Address, registry: Registry)
    | Created(address: Address, adapter: Adapter)
    | Flipped(address: Address)

  function EntriesOf(env: Env, s: State, call: Call): (e: seq<Entry>)
    ensures |e| <= 1
  {
    if !Step(env, s, call).1.Ok? then []
    else
      match call
      case RegistryInit(initializer, registry) =>
        [Registered(registry, Registry(initializer.key, env.bump(RegistrySeeds())))]
      case AdapterInit(_, adapter, _, args, now) =>
        [Created(adapter, Adapter(args.authority, args.programId, args.supportedMint, args.status, now,
                                  env.bump(AdapterSeeds(args.programId, args.authority))))]
      case Toggle(_, adapter, _) => [Flipped(adapter)]
      case _ => []
  }

  function Journal(env: Env, calls: seq<Call>): seq<Entry> {
    if calls == [] then []
    else Journal(env, Front(calls)) + EntriesOf(env, After(env, Front(calls)), Last(calls))
  }

  function Flip(status: Byte): Byte {
    if status == 0 then 1 else if status == 1 then 0 else status
  }

  function Apply(store: map<Address, Account>, e: Entry): map<Address, Account> {
    match e
    case Registered(address, r) => store[address := RegistryAccount(r)]
    case Created(address, a) => store[address := AdapterAccount(a)]
    case Flipped(address) =>
      if address in store && store[address].AdapterAccount?
      then store[address := AdapterAccount(store[address].adapter.(status := Flip(store[address].adapter.status)))]
      else store
  }

  function Rebuild(journal: seq<Entry>): map<Address, Account> {
    if journal == [] then map[] else Apply(Rebuild(Front(journal)), Last(journal))
  }

  /** A store after at most one change. */
  function ApplyAll(store: map<Address, Account>, entries: seq<Entry>): map<Address, Account>
    requires |entries| <= 1
  {
    if entries == [] then store else Apply(store, entries[0])
  }

  lemma StepIsItsEntries(env: Env, s: State, call: Call)
    ensures Step(env, s, call).0.store == ApplyAll(s.store, EntriesOf(env, s, call))
  {
    if call.Move? || call.Value? || !Step(env, s, call).1.Ok? {
      Stutter(env, s, call);
    }
  }

  // ------------------------------------------------------------ reachable states

  /** What holds of a stored account in every reachable store. */
  predicate Sound(env: Env, store: map<Address, Account>, address: Address) {
    address in store ==>
      match store[address]
      case RegistryAccount(r) =>
        address == Canonical(env, RegistrySeeds()) && r == Registry(INITIALIZER, env.bump(RegistrySeeds()))
      case AdapterAccount(a) =>
        var seeds := AdapterSeeds(a.programId, a.authority);
        && address == Canonical(env, seeds)
        && a.bump == env.bump(seeds)
        && AdapterInvariant(a).Ok?
        && HasRegistry(env, store)
  }

  predicate HasRegistry(env: Env, store: map<Address, Account>) {
    Canonical(env, RegistrySeeds()) in store && store[Canonical(env, RegistrySeeds())].RegistryAccount?
  }

  ghost predicate Inv(env: Env, s: State) {
    forall address :: Sound(env, s.store, address)
  }

  /** What a change of a sound store is allowed to be. */
  predicate Admissible(env: Env, store: map<Address, Account>, e: Entry) {
    match e
    case Registered(address, r) =>
      && address == Canonical(env, RegistrySeeds())
      && r == Registry(INITIALIZER, env.bump(RegistrySeeds()))
      && address !in store
    case Created(address, a) =>
      && address == Canonical(env, AdapterSeeds(a.programId, a.authority))
      && a.bump == env.bump(AdapterSeeds(a.programId, a.authority))
      && AdapterInvariant(a).Ok?
      && HasRegistry(env, store)
      && address !in store
    case Flipped(address) => address in store && store[address].AdapterAccount? && store[address].adapter.status <= 1
  }

  lemma EntriesAreAdmissible(env: Env, s: State, call: Call)
    requires Inv(env, s) && EntriesOf(env, s, call) != []
    ensures Admissible(env, s.store, EntriesOf(env, s, call)[0])
  {
    if call.AdapterInit? {
      assert Sound(env, s.store, call.registry);
    }
  }

  lemma AdmissibleKeepsSound(env: Env, store: map<Address, Account>, e: Entry, address: Address)
    requires forall x :: Sound(env, store, x)
    requires Admissible(env, store, e)
    ensures Sound(env, Apply(store, e), address)
  {
    assert Sound(env, store, address) && Sound(env, store, e.address);
    match e
    case Registered(_, _) =>
    case Created(_, a) =>
      SeedsSeparate(a.programId, a.authority, DEFAULT_KEY, DEFAULT_KEY, a.bump, env.bump(RegistrySeeds()));
    case Flipped(x) =>
      var a := store[x].adapter;
      SeedsSeparate(a.programId, a.authority, DEFAULT_KEY, DEFAULT_KEY, a.bump, env.bump(RegistrySeeds()));
  }

  lemma StepKeepsInv(env: Env, s: State, call: Call)
    requires Inv(env, s)
    ensures Inv(env, Step(env, s, call).0)
  {
    StepIsItsEntries(env, s, call);
    var entries := EntriesOf(env, s, call);
    if entries != [] {
      EntriesAreAdmissible(env, s, call);
      forall address ensures Sound(env, ApplyAll(s.store, entries), address) {
        AdmissibleKeepsSound(env, s.store, entries[0], address);
      }
    }
  }

  lemma {:induction false} Reachable(env: Env, calls: seq<Call>)
    ensures Inv(env, After(env, calls))
  {
    if calls != [] {
      Reachable(env, Front(calls));
      StepKeepsInv(env, After(env, Front(calls)), Last(calls));
    }
  }

  /** The two failures that a sound store rules out. */
  predicate RuledOut(error: Error) {
    error == FromDispatcher(InvalidStatus) || error == FromFramework(ConstraintSeeds)
  }

  lemma CalleeErrors(s: State, ins: Instruction, infos: seq<AccountInfo>, world: World)
    requires |ins.metas| == |infos|
    requires world.foreignValue.Err? ==> !RuledOut(world.foreignValue.error)
    ensures CallProgram(s, ins, infos, world).1.Err? ==> !RuledOut(CallProgram(s, ins, infos, world).1.error)
  {
    var p := ProtocolAt(ins.programId);
    var accounts := Deliver(ins.metas, infos, world.authorityWritable);
    if p.Some? && Parse(ins.data).Ok? {
      var request := Parse(ins.data).value;
      if Receive(p.value, request, accounts).Ok? {
        var ctx := Receive(p.value, request, accounts).value;
        match request
        case MoveRequest(op, args) => MoveErrors(op, p.value, ctx, args);
        case ValueRequest => ValueErrors(p.value, ctx, world.foreignValue);
      }
    }
  }

  lemma StoredRecordPassesItsChecks(env: Env, s: State, signer: AccountInfo, address: Address, writable: bool)
    requires Inv(env, s)
    ensures CheckAccounts(s, signer, address, writable) != Err(FromFramework(ConstraintSeeds))
    ensures CheckAccounts(s, signer, address, writable).Ok? ==>
              StatusOf(CheckAccounts(s, signer, address, writable).value).Ok?
  {
    assert Sound(env, s.store, address);
  }

  lemma ToggleErrors(env: Env, s: State, authority: AccountInfo, address: Address, writable: bool)
    requires Inv(env, s)
    ensures ToggleBody(s, authority, address, writable).1.Err? ==>
              !RuledOut(ToggleBody(s, authority, address, writable).1.error)
  {
    StoredRecordPassesItsChecks(env, s, authority, address, writable);
  }

  lemma RoutingErrors(env: Env, s: State, signer: AccountInfo, address: Address, extra: seq<Byte>)
    requires Inv(env, s)
    ensures CheckMove(s, signer, address, extra).Err? ==> !RuledOut(CheckMove(s, signer, address, extra).error)
    ensures CheckActive(s, signer, address).Err? ==> !RuledOut(CheckActive(s, signer, address).error)
  {
    StoredRecordPassesItsChecks(env, s, signer, address, true);
  }

  lemma RoutedErrors(env: Env, s: State, op: Op, signer: AccountInfo, address: Address, request: Borsh.Args,
                     remaining: seq<AccountInfo>, world: World)
    requires Inv(env, s)
    requires world.foreignValue.Err? ==> !RuledOut(world.foreignValue.error)
    ensures var o := MoveBody(s, op, signer, address, request, remaining, world).1; o.Err? ==> !RuledOut(o.error)
    ensures var o := ValueBody(s, signer, address, remaining, world).1; o.Err? ==> !RuledOut(o.error)
  {
    RoutingErrors(env, s, signer, address, request.extraData);
    var a := CheckMove(s, signer, address, request.extraData);
    if a.Ok? {
      CalleeErrors(s, MoveInstruction(a.value.programId, op, signer, request, remaining),
                   [signer] + remaining, world);
    }
    var b := CheckActive(s, signer, address);
    if b.Ok? {
      CalleeErrors(s, ValueInstruction(b.value.programId, signer, remaining), [signer] + remaining, world);
    }
  }

  /** In a reachable state no stored status is invalid and no stored record sits at a foreign address. */
  lemma StoredRecordsPassTheirChecks(env: Env, calls: seq<Call>, call: Call)
    requires call.Toggle? || call.Move? || call.Value?
    requires !call.Toggle? && call.world.foreignValue.Err? ==> !RuledOut(call.world.foreignValue.error)
    ensures Step(env, After(env, calls), call).1.Err? ==> !RuledOut(Step(env, After(env, calls), call).1.error)
  {
    Reachable(env, calls);
    var s := After(env, calls).(returnData := None);
    assert Inv(env, s) by {
      assert forall x :: Sound(env, After(env, calls).store, x);
    }
    match call
    case Toggle(authority, adapter, writable) =>
      ToggleErrors(env, s, authority, adapter, writable);
    case Move(op, signer, adapter, request, remaining, world) =>
      RoutedErrors(env, s, op, signer, adapter, request, remaining, world);
    case Value(authority, adapter, remaining, world) =>
      RoutedErrors(env, s, Deposit, authority, adapter, Borsh.Args(0, []), remaining, world);
  }

  /** One record per program and authority. */
  lemma OneRecordPerPair(env: Env, calls: seq<Call>, x: Address, y: Address)
    requires LoadAdapter(After(env, calls).store, x).Ok? && LoadAdapter(After(env, calls).store, y).Ok?
    ensures var store := After(env, calls).store;
            var a, b := LoadAdapter(store, x).value, LoadAdapter(store, y).value;
            x == y <==> a.programId == b.programId && a.authority == b.authority
  {
    Reachable(env, calls);
    assert Sound(env, After(env, calls).store, x) && Sound(env, After(env, calls).store, y);
    var a, b := LoadAdapter(After(env, calls).store, x).value, LoadAdapter(After(env, calls).store, y).value;
    SeedsSeparate(a.programId, a.authority, b.programId, b.authority, a.bump, b.bump);
  }

  // ------------------------------------------------------------ replay

  lemma RebuildExtended(journal: seq<Entry>, entries: seq<Entry>)
    requires |entries| <= 1
    ensures Rebuild(journal + entries) == ApplyAll(Rebuild(journal), entries)
  {
    if entries == [] {
      assert journal + entries == journal;
    } else {
      assert Front(journal + entries) == journal;
    }
  }

  /** Replaying the successful initialisations and toggles from the empty store rebuilds the store. */
  lemma {:induction false} Replay(env: Env, calls: seq<Call>)
    ensures After(env, calls).store == Rebuild(Journal(env, calls))
  {
    if calls != [] {
      var s := After(env, Front(calls));
      Replay(env, Front(calls));
      StepIsItsEntries(env, s, Last(calls));
      RebuildExtended(Journal(env, Front(calls)), EntriesOf(env, s, Last(calls)));
    }
  }

  /** The dispatcher events of one call. */
  function EventsOf(env: Env, s: State, call: Call): (e: seq<Event>)
    ensures |e| <= 1
  {
    if !Step(env, s, call).1.Ok? then []
    else
      match call
      case Toggle(authority, adapter, writable) =>
        var a := CheckToggle(s, authority, adapter, writable);
        if a.Ok? then [Toggled(authority.key, adapter, a.value.programId, a.value.status)] else []
      case Move(op, signer, adapter, request, _, _) =>
        var a := LoadAdapter(s.store, adapter);
        if a.Ok? then [Moved(op, signer.key, a.value.programId, request.amount)] else []
      case _ => []
  }

  lemma EventsOfStep(env: Env, s: State, call: Call)
    ensures Step(env, s, call).0.events == s.events + EventsOf(env, s, call)
    ensures (call.Toggle? || call.Move?) && Step(env, s, call).1.Ok? ==> EventsOf(env, s, call) != []
  {
    if call.Move? {
      MoveFrame(s.(returnData := None), call.op, call.signer, call.adapter, call.request, call.remaining, call.world);
    } else if call.Value? {
      ValueFrame(s.(returnData := None), call.authority, call.adapter, call.remaining, call.world);
    }
  }
}
