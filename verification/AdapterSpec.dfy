/** What an adapter program does with the instruction data and accounts it receives. */
module AdapterSpec {
  import opened Outcomes
  import opened Bytes
  import opened Machine
  import opened Interface
  import opened Protocols
  import Borsh
  import Layout

  datatype Context = Context(authority: AccountInfo, remaining: seq<AccountInfo>)

  datatype Request = MoveRequest(op: Op, args: Borsh.Args) | ValueRequest

  const SPOT_0_SCALED_BALANCE: U64 := 8 + 32 + 32 + 32
  const LOCKED_COLLATERAL: U64 := 8 + 32 + 32 + 32 + 8 + 8 + 16 + 16
  const ASSET_SHARES: U64 := 8 + 32

  function ValidateMaple(ctx: Context, extra: seq<Byte>): Outcome<()> {
    var _ :- Require(extra != [], FromAdapter(InvalidArgs));
    var _ :- Require(|ctx.remaining| >= 18, FromAdapter(AdapterError.InvalidAccount));
    var _ :- Require(ctx.remaining[3].key == ctx.authority.key, FromAdapter(AdapterError.Unauthorized));
    Require(ctx.remaining[3].isSigner, FromAdapter(AdapterError.Unauthorized))
  }

  function Validate(p: Protocol, ctx: Context, extra: seq<Byte>): (o: Outcome<()>)
    ensures o.Ok? ==> extra != []
  {
    if p == Maple then ValidateMaple(ctx, extra)
    else
      var _ :- Require(ctx.authority.key != DEFAULT_KEY, FromAdapter(AdapterError.InvalidAccount));
      var _ :- Require(p == Jupiter ==> |ctx.remaining| == 14, FromAdapter(AdapterError.InvalidAccount));
      Require(extra != [], FromAdapter(InvalidArgs))
  }

  /** The protocol instruction a request is translated to, or how the adapter fails before invoking. */
  function Admit(p: Protocol, op: Op, ctx: Context, args: Borsh.Args): (o: Outcome<Meaning>)
    ensures o.Ok? ==> WellFormed(o.value) && ProtocolOf(o.value.name) == p
  {
    var _ :- Validate(p, ctx, args.extraData);
    match Select(p, op, args.extraData[0])
    case None => Err(FromAdapter(UnknownFunction))
    case Some(n) => MeaningOf(n, args.amount, args.extraData)
  }

  /** The amount an adapter reports: what it forwarded, except that Maple reports what it was told. */
  function EventAmount(p: Protocol, m: Meaning, amount: U64): U64 {
    match m.amount
    case Some(a) => a
    case None => if p == Maple then amount else 0
  }

  /** Invokes the protocol with the remaining accounts and, if that succeeds, reports the amount. */
  function Forward(s: State, op: Op, p: Protocol, ctx: Context, data: seq<Byte>, amount: U64,
                   below: Option<Effects>): (State, Outcome<()>)
  {
    var invoked := s.(
      forwarded := s.forwarded + [Instruction(ProgramId(p), MetasOf(ctx.remaining), data)],
      returnData := if below.Some? then Settle(below.value, None) else None);
    if below.None? then (invoked, Err(FromCallee))
    else
      (invoked.(adapterEvents := s.adapterEvents + [Forwarded(op, ctx.authority.key, ProgramId(p), amount)]), Ok(()))
  }

  function RunMove(s: State, op: Op, p: Protocol, ctx: Context, args: Borsh.Args,
                   below: Option<Effects>): (State, Outcome<()>)
  {
    match Admit(p, op, ctx, args)
    case Ok(m) => Forward(s, op, p, ctx, Encode(m), EventAmount(p, m, args.amount), below)
    case Err(e) => (s, Err(e))
    case Abort => (s, Abort)
  }

  /** The value an adapter reads from the first remaining account. */
  function ValueOf(p: Protocol, ctx: Context, foreignValue: Outcome<U64>): Outcome<U64> {
    if ctx.remaining == [] then
      if p == Maple then Err(FromAdapter(AdapterError.InvalidAccount)) else Abort
    else
      var data := ctx.remaining[0].data;
      match p
      case Drift => Layout.U64At(data, SPOT_0_SCALED_BALANCE)
      case Jupiter => Layout.U64At(data, LOCKED_COLLATERAL)
      case MarginFi =>
        var shares :- Layout.U128At(data, ASSET_SHARES);
        Ok(shares % TWO_64)
      case Kamino | Maple => foreignValue
  }

  function RunValue(s: State, p: Protocol, ctx: Context, foreignValue: Outcome<U64>): (State, Outcome<()>) {
    match ValueOf(p, ctx, foreignValue)
    case Ok(v) =>
      (s.(returnData := Some(U64ToLe(v)),
          adapterEvents := s.adapterEvents + [Valued(ctx.authority.key, ProgramId(p), v)]), Ok(()))
    case Err(e) => (s, Err(e))
    case Abort => (s, Abort)
  }

  /** The entry point named by the first eight bytes, with its arguments; trailing bytes are ignored. */
  function Parse(data: seq<Byte>): Outcome<Request> {
    var d := if |data| < 8 then [] else data[..8];
    if d == ADAPTER_CURRENT_VALUE then Ok(ValueRequest)
    else if d != ADAPTER_DEPOSIT && d != ADAPTER_WITHDRAW then Err(FromFramework(InstructionFallbackNotFound))
    else
      match Borsh.Decode(data[8..])
      case None => Err(FromFramework(InstructionDidNotDeserialize))
      case Some((args, _)) => Ok(MoveRequest(if d == ADAPTER_DEPOSIT then Deposit else Withdraw, args))
  }

  /** All entry points demand a writable authority except two read-only value queries. */
  predicate NeedsWritableAuthority(p: Protocol, request: Request) {
    request.ValueRequest? ==> p != Kamino && p != Jupiter
  }

  function Receive(p: Protocol, request: Request, accounts: seq<AccountInfo>): Outcome<Context> {
    if accounts == [] then Err(FromFramework(AccountNotEnoughKeys))
    else if !accounts[0].isSigner then Err(FromFramework(AccountNotSigner))
    else if NeedsWritableAuthority(p, request) && !accounts[0].isWritable then Err(FromFramework(ConstraintMut))
    else Ok(Context(accounts[0], accounts[1..]))
  }

  function RunAdapter(s: State, p: Protocol, data: seq<Byte>, accounts: seq<AccountInfo>,
                      world: World): (State, Outcome<()>)
  {
    match Parse(data)
    case Err(e) => (s, Err(e))
    case Abort => (s, Abort)
    case Ok(request) =>
      match Receive(p, request, accounts)
      case Err(e) => (s, Err(e))
      case Abort => (s, Abort)
      case Ok(ctx) =>
        match request
        case MoveRequest(op, args) => RunMove(s, op, p, ctx, args, world.below)
        case ValueRequest => RunValue(s, p, ctx, world.foreignValue)
  }

  /** Drift slices `extra_data` at three in its spot deposit and in every withdrawal. */
  predicate NeedsThreeBytes(p: Protocol, op: Op, selector: Byte) {
    p == Drift && (op == Withdraw || selector == 0)
  }

  /** The conditions under which an adapter invokes its protocol, for accounts it has accepted. */
  predicate Guards(p: Protocol, op: Op, ctx: Context, extra: seq<Byte>) {
    && |extra| >= 1
    && Select(p, op, extra[0]).Some?
    && (NeedsThreeBytes(p, op, extra[0]) ==> |extra| >= 3)
    && (p == Jupiter ==> |ctx.remaining| == 14)
    && (p == Maple ==>
          && |ctx.remaining| >= 18
          && ctx.remaining[3].key == ctx.authority.key
          && ctx.remaining[3].isSigner)
    && (p != Maple ==> ctx.authority.key != DEFAULT_KEY)
  }

  /** The exact domain of the adapters: they invoke their protocol iff the guards hold. */
  lemma SuccessDomain(s: State, op: Op, p: Protocol, ctx: Context, args: Borsh.Args, below: Option<Effects>)
    ensures Admit(p, op, ctx, args).Ok? <==> Guards(p, op, ctx, args.extraData)
    ensures |RunMove(s, op, p, ctx, args, below).0.forwarded| == |s.forwarded| + 1 <==>
            Guards(p, op, ctx, args.extraData)
    ensures RunMove(s, op, p, ctx, args, below).1.Ok? <==> Guards(p, op, ctx, args.extraData) && below.Some?
    ensures !Guards(p, op, ctx, args.extraData) ==> RunMove(s, op, p, ctx, args, below).0 == s
  {
  }

  /** An adapter panics exactly when Drift slices an `extra_data` that is too short. */
  lemma AbortDomain(op: Op, p: Protocol, ctx: Context, args: Borsh.Args)
    ensures Admit(p, op, ctx, args) == Abort <==>
            && Validate(p, ctx, args.extraData).Ok?
            && Select(p, op, args.extraData[0]).Some?
            && NeedsThreeBytes(p, op, args.extraData[0])
            && |args.extraData| < 3
  {
  }

  /** Errors that an adapter's own checks can raise while it moves funds. */
  lemma MoveErrors(op: Op, p: Protocol, ctx: Context, args: Borsh.Args)
    ensures Admit(p, op, ctx, args).Err? ==> Admit(p, op, ctx, args).error.FromAdapter?
  {
  }

  /** Errors that an adapter can raise while it reads a value. */
  lemma ValueErrors(p: Protocol, ctx: Context, foreignValue: Outcome<U64>)
    ensures ValueOf(p, ctx, foreignValue).Err? ==>
              || ValueOf(p, ctx, foreignValue).error.FromAdapter?
              || ValueOf(p, ctx, foreignValue).error.FromInterface?
              || ((p == Kamino || p == Maple) && ValueOf(p, ctx, foreignValue) == foreignValue)
  {
  }

  /** An adapter touches its own logs and the return data, nothing of the dispatcher's. */
  predicate SameDispatcher(s: State, t: State) {
    t.store == s.store && t.events == s.events && t.routed == s.routed
  }

  lemma MoveKeepsDispatcher(s: State, op: Op, p: Protocol, ctx: Context, args: Borsh.Args, below: Option<Effects>)
    ensures SameDispatcher(s, RunMove(s, op, p, ctx, args, below).0)
  {
  }

  lemma AdapterKeepsDispatcher(s: State, p: Protocol, data: seq<Byte>, accounts: seq<AccountInfo>, world: World)
    ensures SameDispatcher(s, RunAdapter(s, p, data, accounts, world).0)
  {
    if Parse(data).Ok? && Receive(p, Parse(data).value, accounts).Ok? {
      var ctx := Receive(p, Parse(data).value, accounts).value;
      match Parse(data).value
      case MoveRequest(op, args) => MoveKeepsDispatcher(s, op, p, ctx, args, world.below);
      case ValueRequest =>
    }
  }
}
