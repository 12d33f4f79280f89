/** The two account types of the dispatcher, their invariants and their addresses. */
module Records {
  import opened Outcomes
  import opened Bytes
  import opened Machine
  import opened Interface

  const SEED_PREFIX: seq<Byte> := [100, 105, 115, 112, 97, 116, 99, 104, 101, 114]              // dispatcher
  const SEED_REGISTRY: seq<Byte> := [114, 101, 103, 105, 115, 116, 114, 121]                    // registry
  const SEED_ADAPTER: seq<Byte> := [97, 100, 97, 112, 116, 101, 114, 95, 105, 110, 102, 111]    // adapter_info

  const INITIALIZER: Pubkey := [
    225, 87, 96, 241, 53, 59, 181, 143, 250, 18, 145, 121, 205, 120, 41, 26,
    39, 141, 168, 230, 207, 226, 170, 115, 85, 21, 68, 90, 216, 51, 2, 178]

  /** The runtime's choice of canonical bump for each list of seeds. */
  datatype Env = Env(bump: seq<Byte> -> Byte)

  function AdapterSeeds(programId: Pubkey, authority: Pubkey): seq<Byte> {
    SEED_PREFIX + programId + SEED_ADAPTER + authority
  }

  function RegistrySeeds(): seq<Byte> {
    SEED_PREFIX + SEED_REGISTRY
  }

  /** The address of seeds under a given bump. */
  function Derive(seeds: seq<Byte>, bump: Byte): Address {
    Pda(seeds + [bump])
  }

  function Canonical(env: Env, seeds: seq<Byte>): Address {
    Derive(seeds, env.bump(seeds))
  }

  /** The seeds written out; concatenated they keep their parts apart, whatever the bumps. */
  lemma SeedsSeparate(p: Pubkey, a: Pubkey, q: Pubkey, b: Pubkey, i: Byte, j: Byte)
    ensures AdapterSeeds(p, a) == [100, 105, 115, 112, 97, 116, 99, 104, 101, 114] + p +
                                  [97, 100, 97, 112, 116, 101, 114, 95, 105, 110, 102, 111] + a
    ensures RegistrySeeds() == [100, 105, 115, 112, 97, 116, 99, 104, 101, 114] +
                               [114, 101, 103, 105, 115, 116, 114, 121]
    ensures |AdapterSeeds(p, a)| == 86 && |RegistrySeeds()| == 18
    ensures Derive(AdapterSeeds(p, a), i) == Derive(AdapterSeeds(q, b), j) <==> p == q && a == b && i == j
    ensures Derive(AdapterSeeds(p, a), i) != Derive(RegistrySeeds(), j)
  {
    var s, t := AdapterSeeds(p, a) + [i], AdapterSeeds(q, b) + [j];
    assert s[10..42] == p && t[10..42] == q;
    assert s[54..86] == a && t[54..86] == b;
    assert s[86] == i && t[86] == j;
    assert |RegistrySeeds() + [j]| == 19;
  }

  lemma InitializerIsNotDefault()
    ensures INITIALIZER != DEFAULT_KEY
    ensures forall i :: 0 <= i < 32 ==> DEFAULT_KEY[i] == 0
  {
    assert INITIALIZER[0] == 225 && DEFAULT_KEY[0] == 0;
  }

  function StatusOf(a: Adapter): Outcome<AdapterStatus> {
    match FromU8(a.status)
    case Some(status) => Ok(status)
    case None => Err(FromDispatcher(InvalidStatus))
  }

  function IsActive(a: Adapter): Outcome<bool> {
    var status :- StatusOf(a);
    Ok(status == Active)
  }

  function RegistryInvariant(r: Registry): Outcome<()> {
    Require(r.initializer != DEFAULT_KEY, FromDispatcher(DispatcherError.InvalidAccount))
  }

  function AdapterInvariant(a: Adapter): Outcome<()> {
    var _ :- Require(a.authority != DEFAULT_KEY, FromDispatcher(DispatcherError.InvalidAccount));
    var _ :- Require(a.programId != DEFAULT_KEY, FromDispatcher(DispatcherError.InvalidAccount));
    var _ :- Require(a.supportedMint != DEFAULT_KEY, FromDispatcher(DispatcherError.InvalidAccount));
    Require(FromU8(a.status).Some?, FromDispatcher(InvalidStatus))
  }
}
