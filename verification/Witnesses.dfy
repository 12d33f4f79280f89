/** Concrete runs that reach the outcomes for which the documentation leaves no room. */
module Witnesses {
  import opened Outcomes
  import opened Bytes
  import opened Machine
  import opened Protocols
  import opened Records
  import opened DispatcherSpec
  import opened TwoHops
  import opened Runs
  import Access
  import Borsh

  /** The initializer creates the registry and registers a program as active, for an authority and a mint. */
  function Setup(env: Env, programId: Pubkey, authority: Pubkey, mint: Pubkey): seq<Call> {
    var initializer := AccountInfo(INITIALIZER, true, true, []);
    var registry := Canonical(env, RegistrySeeds());
    [RegistryInit(initializer, registry),
     AdapterInit(initializer, Canonical(env, AdapterSeeds(programId, authority)), registry,
                 InitArgs(authority, programId, mint, 0), 0)]
  }

  lemma RegistryExists(env: Env, call: Call)
    requires call == RegistryInit(AccountInfo(INITIALIZER, true, true, []), Canonical(env, RegistrySeeds()))
    ensures Step(env, EMPTY, call).1.Ok?
    ensures Step(env, EMPTY, call).0.store.Keys == {Canonical(env, RegistrySeeds())}
    ensures HasRegistry(env, Step(env, EMPTY, call).0.store)
  {
    Access.RegistryDomain(env, [], call.initializer, call.registry);
  }

  /** After the setup the record is stored, active, and names the program. */
  lemma SetupIsActive(env: Env, programId: Pubkey, authority: Pubkey, mint: Pubkey)
    requires DEFAULT_KEY !in {programId, authority, mint}
    ensures var address := Canonical(env, AdapterSeeds(programId, authority));
            var a := LoadAdapter(After(env, Setup(env, programId, authority, mint)).store, address);
            a.Ok? && a.value.status == 0 && a.value.programId == programId
  {
    var calls := Setup(env, programId, authority, mint);
    var first := Front(calls);
    assert first == [calls[0]] && Front(first) == [];
    RegistryExists(env, calls[0]);
    SeedsSeparate(programId, authority, programId, authority, env.bump(AdapterSeeds(programId, authority)),
                  env.bump(RegistrySeeds()));
    Access.RegistrationDomain(env, first, calls[1].initializer, calls[1].adapter, calls[1].registry,
                              calls[1].args, calls[1].now);
  }

  /** After that setup, any client can make Drift's adapter panic by withdrawing with two bytes of extra data. */
  lemma PanicIsReachable(env: Env, authority: Pubkey, mint: Pubkey, client: Pubkey, amount: U64)
    requires DEFAULT_KEY !in {authority, mint, client}
    ensures var s := After(env, Setup(env, DRIFT_ADAPTER, authority, mint));
            Step(env, s, Move(Withdraw, AccountInfo(client, true, true, []),
                              Canonical(env, AdapterSeeds(DRIFT_ADAPTER, authority)),
                              Borsh.Args(amount, [0, 0]), [], World(true, Some(Done), Ok(0)))) == (s, Abort)
  {
    var calls := Setup(env, DRIFT_ADAPTER, authority, mint);
    var address := Canonical(env, AdapterSeeds(DRIFT_ADAPTER, authority));
    var signer := AccountInfo(client, true, true, []);
    assert DRIFT_ADAPTER[0] == 205 && DEFAULT_KEY[0] == 0;
    SetupIsActive(env, DRIFT_ADAPTER, authority, mint);
    Access.RoutingDomain(env, calls, signer, address, [0, 0]);
    PanicDomain(env, After(env, calls), Drift, Withdraw, signer, address, Borsh.Args(amount, [0, 0]), [],
                World(true, Some(Done), Ok(0)));
  }
}
