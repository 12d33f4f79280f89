/** What a failing instruction has already written when it fails, and that none of it survives. */
module Atomicity {
  import opened Outcomes
  import opened Machine
  import opened Records
  import opened DispatcherSpec
  import opened Runs

  /**
   Which failures have already changed the store: exactly registrations that pass every check and name a
   default key. The transaction undoes them.
   */
  lemma WriteBeforeCheck(env: Env, s: State, call: Call)
    ensures !Body(env, s, call).1.Ok? && Body(env, s, call).0.store != s.store <==>
            && call.AdapterInit?
            && CheckAdapterInit(env, s, call.initializer, call.adapter, call.registry, call.args, call.now).Ok?
            && DEFAULT_KEY in {call.args.authority, call.args.programId, call.args.supportedMint}
    ensures !Step(env, s, call).1.Ok? ==> Step(env, s, call).0 == s
  {
    InitializerIsNotDefault();
    match call
    case Move(op, signer, adapter, request, remaining, world) =>
      MoveFrame(s, op, signer, adapter, request, remaining, world);
    case Value(authority, adapter, remaining, world) =>
      ValueFrame(s, authority, adapter, remaining, world);
    case AdapterInit(initializer, adapter, registry, args, now) =>
      var a := CheckAdapterInit(env, s, initializer, adapter, registry, args, now);
      if a.Ok? {
        assert adapter in s.store[adapter := AdapterAccount(a.value)] && adapter !in s.store;
      }
    case _ =>
  }

  /** A transfer that fails after its own checks has already logged its instruction; that is undone too. */
  lemma CallBeforeFailure(env: Env, s: State, op: Op, signer: AccountInfo, adapter: Address, request: Borsh.Args,
                          remaining: seq<AccountInfo>, world: World)
    ensures var (t, o) := MoveBody(s, op, signer, adapter, request, remaining, world);
            && (t.routed != s.routed <==> CheckMove(s, signer, adapter, request.extraData).Ok?)
            && (t.events != s.events <==> o.Ok?)
  {
    MoveFrame(s, op, signer, adapter, request, remaining, world);
  }
}
