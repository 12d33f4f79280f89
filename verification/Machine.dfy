/** Accounts, instructions and the state that one transaction reads and writes. */
module Machine {
  import opened Outcomes
  import opened Bytes

  const DEFAULT_BYTES: seq<Byte> :=
    [0, 0, 0, 0, 0, 0, 0, 0, 0, 0, 0, 0, 0, 0, 0, 0, 0, 0, 0, 0, 0, 0, 0, 0, 0, 0, 0, 0, 0, 0, 0, 0]

  type Pubkey = k: seq<Byte> | |k| == 32 witness DEFAULT_BYTES

  const DEFAULT_KEY: Pubkey := DEFAULT_BYTES

  /** An address derived from concatenated seeds and a bump; derivation is ideal, hence injective. */
  datatype Address = Pda(seeds: seq<Byte>)

  datatype Meta = Meta(key: Pubkey, isSigner: bool, isWritable: bool)

  datatype AccountInfo = AccountInfo(key: Pubkey, isSigner: bool, isWritable: bool, data: seq<Byte>)

  datatype Instruction = Instruction(programId: Pubkey, metas: seq<Meta>, data: seq<Byte>)

  datatype Registry = Registry(initializer: Pubkey, bump: Byte)

  datatype Adapter = Adapter(
    authority: Pubkey, programId: Pubkey, supportedMint: Pubkey, status: Byte, registeredAt: I64, bump: Byte)

  datatype Account = RegistryAccount(registry: Registry) | AdapterAccount(adapter: Adapter)

  datatype Op = Deposit | Withdraw

  datatype Event =
    | Moved(op: Op, authority: Pubkey, programId: Pubkey, amount: U64)
    | Toggled(authority: Pubkey, adapter: Address, programId: Pubkey, status: Byte)

  datatype AdapterEvent =
    | Forwarded(op: Op, authority: Pubkey, programId: Pubkey, amount: U64)
    | Valued(authority: Pubkey, programId: Pubkey, value: U64)

  /** What a program does to the return-data buffer, in order, down through the programs it invokes. */
  datatype Effects = Done | Write(data: seq<Byte>, next: Effects) | Invoke(callee: Effects, next: Effects)

  /** What the buffer reads as after a write: an empty one leaves no data. */
  function Written(data: seq<Byte>): Option<seq<Byte>> {
    if data == [] then None else Some(data)
  }

  /** The buffer after the effects; every invocation starts by clearing it. */
  function Settle(effects: Effects, buffer: Option<seq<Byte>>): Option<seq<Byte>> {
    match effects
    case Done => buffer
    case Write(data, next) => Settle(next, Written(data))
    case Invoke(callee, next) => Settle(next, Settle(callee, None))
  }

  datatype State = State(
    store: map<Address, Account>,
    events: seq<Event>,
    routed: seq<Instruction>,            // instructions the dispatcher invoked
    adapterEvents: seq<AdapterEvent>,
    forwarded: seq<Instruction>,         // instructions the adapters invoked
    returnData: Option<seq<Byte>>)

  const EMPTY: State := State(map[], [], [], [], [], None)

  function MetaOf(account: AccountInfo): Meta {
    Meta(account.key, account.isSigner, account.isWritable)
  }

  function MetasOf(accounts: seq<AccountInfo>): (metas: seq<Meta>)
    ensures |metas| == |accounts|
    ensures forall i :: 0 <= i < |accounts| ==> metas[i] == MetaOf(accounts[i])
  {
    seq(|accounts|, i requires 0 <= i < |accounts| => MetaOf(accounts[i]))
  }

  /** What the model cannot see: the flag on the injected authority when the callee receives it, the
      program below (`None` when it fails), and the value a foreign account layout decodes to. */
  datatype World = World(authorityWritable: bool, below: Option<Effects>, foreignValue: Outcome<U64>)

  /** The accounts and logs of the running transaction. */
  class Ledger {
    var store: map<Address, Account>
    var events: seq<Event>
    var routed: seq<Instruction>
    var adapterEvents: seq<AdapterEvent>
    var forwarded: seq<Instruction>
    var returnData: Option<seq<Byte>>

    function View(): State
      reads this
    {
      State(store, events, routed, adapterEvents, forwarded, returnData)
    }

    constructor ()
      ensures View() == EMPTY
    {
      store, events, routed, adapterEvents, forwarded, returnData := map[], [], [], [], [], None;
    }

    /** Restores a snapshot: the runtime discards the writes of a failed instruction. */
    method Restore(s: State)
      modifies this
      ensures View() == s
    {
      store, events, routed, adapterEvents, forwarded, returnData :=
        s.store, s.events, s.routed, s.adapterEvents, s.forwarded, s.returnData;
    }

    /** Invokes a program that the model cannot see. */
    method InvokeBelow(below: Option<Effects>) returns (o: Outcome<()>)
      modifies this`returnData
      ensures o == if below.Some? then Ok(()) else Err(FromCallee)
      ensures returnData == if below.Some? then Settle(below.value, None) else None
    {
      returnData := None;
      if below.None? {
        return Err(FromCallee);
      }
      returnData := Settle(below.value, None);
      o := Ok(());
    }
  }
}
