/** Who can register, toggle and route, stated as exact conditions in every reachable state. */
module Access {
  import opened Outcomes
  import opened Bytes
  import opened Machine
  import opened Records
  import opened DispatcherSpec
  import opened Runs

  lemma SameSoundness(env: Env, calls: seq<Call>, address: Address)
    ensures Sound(env, After(env, calls).(returnData := None).store, address)
  {
    Reachable(env, calls);
  }

  /** The registry can be created by its fixed initializer, at its one address, and only once. */
  lemma RegistryDomain(env: Env, calls: seq<Call>, initializer: AccountInfo, registry: Address)
    ensures var s := After(env, calls);
            var (t, o) := Step(env, s, RegistryInit(initializer, registry));
            var seeds := [100, 105, 115, 112, 97, 116, 99, 104, 101, 114, 114, 101, 103, 105, 115, 116, 114, 121];
            && (o.Ok? <==>
                && initializer.isSigner && initializer.isWritable
                && initializer.key == [225, 87, 96, 241, 53, 59, 181, 143, 250, 18, 145, 121, 205, 120, 41, 26,
                                       39, 141, 168, 230, 207, 226, 170, 115, 85, 21, 68, 90, 216, 51, 2, 178]
                && registry == Pda(seeds + [env.bump(seeds)])
                && !HasRegistry(env, s.store))
            && (o.Ok? ==>
                t == s.(store := s.store[registry := RegistryAccount(Registry(initializer.key, env.bump(seeds)))],
                        returnData := None))
  {
    InitializerIsNotDefault();
    SameSoundness(env, calls, Canonical(env, RegistrySeeds()));
    assert RegistrySeeds() == [100, 105, 115, 112, 97, 116, 99, 104, 101, 114, 114, 101, 103, 105, 115, 116, 114, 121];
  }

  lemma SoundRegistration(env: Env, s: State, initializer: AccountInfo, adapter: Address, registry: Address,
                          args: InitArgs, now: I64)
    requires Sound(env, s.store, registry)
    ensures CheckAdapterInit(env, s, initializer, adapter, registry, args, now).Ok? <==>
            && initializer.isSigner && initializer.isWritable && initializer.key == INITIALIZER
            && registry == Canonical(env, RegistrySeeds()) && HasRegistry(env, s.store)
            && adapter == Canonical(env, AdapterSeeds(args.programId, args.authority)) && adapter !in s.store
            && args.status <= 2
  {
  }

  /**
   Only the fixed initializer registers adapters: with a valid status, no default key, and a free pair. The
   record repeats the arguments, at the address derived from them.
   */
  lemma RegistrationDomain(env: Env, calls: seq<Call>, initializer: AccountInfo, adapter: Address, registry: Address,
                           args: InitArgs, now: I64)
    ensures var s := After(env, calls);
            var (t, o) := Step(env, s, AdapterInit(initializer, adapter, registry, args, now));
            var seeds := [100, 105, 115, 112, 97, 116, 99, 104, 101, 114] + args.programId +
                         [97, 100, 97, 112, 116, 101, 114, 95, 105, 110, 102, 111] + args.authority;
            && (o.Ok? <==>
                && initializer.isSigner && initializer.isWritable && initializer.key == INITIALIZER
                && registry == Canonical(env, RegistrySeeds()) && HasRegistry(env, s.store)
                && adapter == Pda(seeds + [env.bump(seeds)]) && adapter !in s.store
                && args.status <= 2
                && DEFAULT_KEY !in {args.authority, args.programId, args.supportedMint})
            && (o.Ok? ==>
                t == s.(store := s.store[adapter := AdapterAccount(Adapter(
                                   args.authority, args.programId, args.supportedMint, args.status, now,
                                   env.bump(seeds)))],
                        returnData := None))
  {
    SameSoundness(env, calls, registry);
    SoundRegistration(env, After(env, calls).(returnData := None), initializer, adapter, registry, args, now);
  }

  /** In every reachable state a record sits at the address derived from its own fields, and so does the registry. */
  lemma StoredAddresses(env: Env, calls: seq<Call>, x: Address)
    requires x in After(env, calls).store
    ensures match After(env, calls).store[x]
            case RegistryAccount(r) =>
              x == Pda([100, 105, 115, 112, 97, 116, 99, 104, 101, 114] + [114, 101, 103, 105, 115, 116, 114, 121] +
                       [r.bump])
            case AdapterAccount(a) =>
              x == Pda([100, 105, 115, 112, 97, 116, 99, 104, 101, 114] + a.programId +
                       [97, 100, 97, 112, 116, 101, 114, 95, 105, 110, 102, 111] + a.authority + [a.bump])
  {
    SameSoundness(env, calls, x);
  }

  lemma SoundToggle(env: Env, s: State, authority: AccountInfo, address: Address, writable: bool)
    requires Sound(env, s.store, address)
    ensures ToggleBody(s, authority, address, writable).1.Ok? <==>
            && authority.isSigner && authority.isWritable && writable
            && LoadAdapter(s.store, address).Ok?
            && LoadAdapter(s.store, address).value.authority == authority.key
            && LoadAdapter(s.store, address).value.status != 2
  {
  }

  /** Only a record's own authority toggles it, and never off Deprecated. */
  lemma ToggleDomain(env: Env, calls: seq<Call>, authority: AccountInfo, address: Address, writable: bool)
    ensures Step(env, After(env, calls), Toggle(authority, address, writable)).1.Ok? <==>
            && authority.isSigner && authority.isWritable && writable
            && LoadAdapter(After(env, calls).store, address).Ok?
            && LoadAdapter(After(env, calls).store, address).value.authority == authority.key
            && LoadAdapter(After(env, calls).store, address).value.status != 2
  {
    SameSoundness(env, calls, address);
    SoundToggle(env, After(env, calls).(returnData := None), authority, address, writable);
  }

  /** A toggle swaps Active and Paused, changes nothing else of the record, and reports the new status. */
  lemma ToggleEffect(env: Env, s: State, authority: AccountInfo, address: Address, writable: bool)
    requires Step(env, s, Toggle(authority, address, writable)).1.Ok?
    ensures var t := Step(env, s, Toggle(authority, address, writable)).0;
            && LoadAdapter(s.store, address).Ok?
            && var a := LoadAdapter(s.store, address).value;
               var status := 1 - a.status;
               && a.status <= 1
               && t == s.(store := s.store[address := AdapterAccount(a.(status := status))],
                          events := s.events + [Toggled(authority.key, address, a.programId, status)],
                          returnData := None)
  {
  }

  /** A query is admitted under the same conditions as a transfer, which has one more. */
  lemma QueryDomain(env: Env, calls: seq<Call>, authority: AccountInfo, address: Address)
    ensures CheckActive(After(env, calls), authority, address).Ok? <==>
            && authority.isSigner && authority.isWritable
            && LoadAdapter(After(env, calls).store, address).Ok?
            && LoadAdapter(After(env, calls).store, address).value.status == 0
  {
    SameSoundness(env, calls, address);
  }

  /** Anyone who signs may route through an active record; the dispatcher admits nothing else. */
  lemma RoutingDomain(env: Env, calls: seq<Call>, signer: AccountInfo, address: Address, extra: seq<Byte>)
    ensures CheckMove(After(env, calls), signer, address, extra).Ok? <==>
            && signer.isSigner && signer.isWritable
            && LoadAdapter(After(env, calls).store, address).Ok?
            && LoadAdapter(After(env, calls).store, address).value.status == 0
            && |extra| <= 64
  {
    SameSoundness(env, calls, address);
  }

  /** A toggle can be repeated, and the second undoes the first. */
  lemma ToggleUndoesItself(env: Env, s: State, authority: AccountInfo, address: Address, writable: bool)
    requires ToggleBody(s, authority, address, writable).1.Ok?
    ensures var t := ToggleBody(s, authority, address, writable).0;
            && ToggleBody(t, authority, address, writable).1.Ok?
            && ToggleBody(t, authority, address, writable).0.store == s.store
            && t.store != s.store
  {
  }
}
