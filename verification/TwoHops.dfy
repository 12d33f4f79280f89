/**
 A client's request crosses two programs. The dispatcher prints it, the adapter parses it and prints
 a protocol instruction: together they equal one direct reading of the request.
 */
module TwoHops {
  import opened Outcomes
  import opened Bytes
  import opened Machine
  import opened Interface
  import opened Protocols
  import opened AdapterSpec
  import opened Records
  import opened DispatcherSpec
  import Borsh
  import Layout

  /** The adapter parses what the dispatcher printed, and nothing else prints the same bytes. */
  lemma FirstHop(op: Op, request: Borsh.Args)
    requires |request.extraData| < 0x1_0000_0000
    ensures Parse(EntryPoint(op) + Borsh.Encode(request)) == Ok(MoveRequest(op, request))
  {
    var data := EntryPoint(op) + Borsh.Encode(request);
    assert data[..8] == EntryPoint(op) && data[8..] == Borsh.Encode(request);
    assert Borsh.Encode(request) + [] == Borsh.Encode(request);
    Borsh.RoundTrip(request, []);
    EntryPointsDiffer();
  }

  /** An entry point ignores whatever follows the arguments it reads. */
  lemma TrailingBytesAreIgnored(op: Op, request: Borsh.Args, rest: seq<Byte>)
    requires |request.extraData| < 0x1_0000_0000
    ensures Parse(EntryPoint(op) + (Borsh.Encode(request) + rest)) == Ok(MoveRequest(op, request))
  {
    var data := EntryPoint(op) + (Borsh.Encode(request) + rest);
    assert data[..8] == EntryPoint(op) && data[8..] == Borsh.Encode(request) + rest;
    Borsh.RoundTrip(request, rest);
    EntryPointsDiffer();
  }

  lemma ShortLength(n: nat)
    requires n < 256
    ensures ToLe(n, 4) == [n, 0, 0, 0]
  {
    assert ToLe(0, 3) == [0] + ToLe(0, 2) && ToLe(0, 2) == [0] + ToLe(0, 1) && ToLe(0, 1) == [0] + [];
  }

  /** The message of an admitted request, byte for byte: at most 84, with the selector at byte 20. */
  lemma MessageLayout(s: State, signer: AccountInfo, adapter: Address, op: Op, request: Borsh.Args,
                      remaining: seq<AccountInfo>)
    requires CheckMove(s, signer, adapter, request.extraData).Ok?
    ensures var data := MoveInstruction(LoadAdapter(s.store, adapter).value.programId, op, signer, request,
                                        remaining).data;
            && data == (if op == Deposit then [190, 207, 72, 186, 232, 106, 46, 72]
                        else [121, 55, 72, 46, 185, 100, 173, 236]) +
                       U64ToLe(request.amount) + [|request.extraData|, 0, 0, 0] + request.extraData
            && |data| == 20 + |request.extraData| <= 84
            && data[20..] == request.extraData
            && U64FromLe(data[8..16]) == request.amount
  {
    ShortLength(|request.extraData|);
    var data := EntryPoint(op) + Borsh.Encode(request);
    assert data[8..16] == U64ToLe(request.amount);
    assert data == EntryPoint(op) + U64ToLe(request.amount) + ToLe(|request.extraData|, 4) + request.extraData;
  }

  /** The message of a query is the entry point alone. */
  lemma QueryLayout(programId: Pubkey, authority: AccountInfo, remaining: seq<AccountInfo>)
    ensures ValueInstruction(programId, authority, remaining).data == [67, 200, 59, 238, 163, 138, 170, 179]
    ensures ValueInstruction(programId, authority, remaining).metas == HopMetas(authority, remaining)
    ensures Parse(ValueInstruction(programId, authority, remaining).data) == Ok(ValueRequest)
  {
    assert ADAPTER_CURRENT_VALUE[..8] == ADAPTER_CURRENT_VALUE;
  }

  /** The adapter receives the signer, with the runtime's writable flag, and then the client's own list. */
  lemma Delivered(signer: AccountInfo, remaining: seq<AccountInfo>, w: bool)
    ensures Deliver(HopMetas(signer, remaining), [signer] + remaining, w) ==
            [AccountInfo(signer.key, true, w, signer.data)] + remaining
  {
  }

  /** What one successful request leaves behind. */
  function Routed(s: State, p: Protocol, op: Op, signer: AccountInfo, request: Borsh.Args,
                  remaining: seq<AccountInfo>, fx: Effects, m: Meaning): State
  {
    State(
      s.store,
      s.events + [Moved(op, signer.key, AdapterId(p), request.amount)],
      s.routed + [MoveInstruction(AdapterId(p), op, signer, request, remaining)],
      s.adapterEvents + [Forwarded(op, signer.key, ProgramId(p), EventAmount(p, m, request.amount))],
      s.forwarded + [Instruction(ProgramId(p), MetasOf(remaining), Encode(m))],
      Settle(fx, None))
  }

  /** The request as the protocol is meant to read it. */
  function Intent(p: Protocol, op: Op, request: Borsh.Args): Outcome<Meaning>
    requires request.extraData != [] && Select(p, op, request.extraData[0]).Some?
  {
    MeaningOf(Select(p, op, request.extraData[0]).value, request.amount, request.extraData)
  }

  lemma AdapterHop(s: State, p: Protocol, op: Op, signer: AccountInfo, request: Borsh.Args,
                   remaining: seq<AccountInfo>, world: World)
    requires |request.extraData| <= EXTRA_DATA_MAX_LEN
    ensures var ins := MoveInstruction(AdapterId(p), op, signer, request, remaining);
            var ctx := Context(AccountInfo(signer.key, true, true, signer.data), remaining);
            CallProgram(s, ins, [signer] + remaining, world) ==
            var called := s.(routed := s.routed + [ins], returnData := None);
            if world.authorityWritable then RunMove(called, op, p, ctx, request, world.below)
            else (called, Err(FromFramework(ConstraintMut)))
  {
    ProtocolAtAdapter(p);
    FirstHop(op, request);
    Delivered(signer, remaining, world.authorityWritable);
    var accounts := [AccountInfo(signer.key, true, world.authorityWritable, signer.data)] + remaining;
    assert accounts[1..] == remaining;
  }

  /** The protocol decodes what is printed for a request to what the request asks for. */
  lemma IntentIsDecoded(p: Protocol, op: Op, request: Borsh.Args)
    ensures request.extraData != [] && Select(p, op, request.extraData[0]).Some? && Intent(p, op, request).Ok? ==>
              Decode(p, Encode(Intent(p, op, request).value)) == Some(Intent(p, op, request).value)
  {
    if request.extraData != [] && Select(p, op, request.extraData[0]).Some? && Intent(p, op, request).Ok? {
      DecodeEncode(Intent(p, op, request).value);
    }
  }

  /** The adapter's answer to an admitted request: refused without a trace in its logs, or forwarded. */
  lemma SecondHop(s: State, p: Protocol, op: Op, signer: AccountInfo, request: Borsh.Args,
                  remaining: seq<AccountInfo>, world: World)
    requires |request.extraData| <= EXTRA_DATA_MAX_LEN
    ensures var ins := MoveInstruction(AdapterId(p), op, signer, request, remaining);
            var (t, o) := CallProgram(s, ins, [signer] + remaining, world);
            && (o.Ok? <==>
                && world.authorityWritable
                && Guards(p, op, Context(signer, remaining), request.extraData)
                && world.below.Some?)
            && (o.Ok? ==>
                && Intent(p, op, request).Ok?
                && var m := Intent(p, op, request).value;
                   t == State(
                     s.store, s.events, s.routed + [ins],
                     s.adapterEvents + [Forwarded(op, signer.key, ProgramId(p), EventAmount(p, m, request.amount))],
                     s.forwarded + [Instruction(ProgramId(p), MetasOf(remaining), Encode(m))],
                     Settle(world.below.value, None)))
  {
    AdapterHop(s, p, op, signer, request, remaining, world);
    var ctx := Context(AccountInfo(signer.key, true, true, signer.data), remaining);
    var ins := MoveInstruction(AdapterId(p), op, signer, request, remaining);
    SuccessDomain(s.(routed := s.routed + [ins], returnData := None), op, p, ctx, request, world.below);
  }

  /**
   End to end: a request to one of the five adapters succeeds exactly under the stated conditions, and
   then the protocol receives the client's own account list, in order and with the same flags, and data
   that it decodes to what the request asks for.
   */
  lemma EndToEnd(env: Env, s: State, p: Protocol, op: Op, signer: AccountInfo, adapter: Address,
                 request: Borsh.Args, remaining: seq<AccountInfo>, world: World)
    requires LoadAdapter(s.store, adapter).Ok? && LoadAdapter(s.store, adapter).value.programId == AdapterId(p)
    ensures var (t, o) := Step(env, s, Move(op, signer, adapter, request, remaining, world));
            && (o.Ok? <==>
                && CheckMove(s, signer, adapter, request.extraData).Ok?
                && world.authorityWritable
                && Guards(p, op, Context(signer, remaining), request.extraData)
                && world.below.Some?)
            && (o.Ok? ==>
                && Intent(p, op, request).Ok?
                && t == Routed(s, p, op, signer, request, remaining, world.below.value, Intent(p, op, request).value)
                && Decode(p, Encode(Intent(p, op, request).value)) == Some(Intent(p, op, request).value))
  {
    if CheckMove(s, signer, adapter, request.extraData).Ok? {
      SecondHop(s.(returnData := None), p, op, signer, request, remaining, world);
      IntentIsDecoded(p, op, request);
    }
  }

  /** Drift is sent one or two bytes that select an instruction built from three. */
  predicate Slips(p: Protocol, op: Op, signer: Pubkey, extra: seq<Byte>) {
    && p == Drift
    && signer != DEFAULT_KEY
    && 1 <= |extra| <= 2
    && (extra[0] == 0 || (op == Withdraw && extra[0] <= 2))
  }

  lemma SlipAborts(p: Protocol, op: Op, ctx: Context, args: Borsh.Args)
    ensures Admit(p, op, ctx, args) == Abort <==> Slips(p, op, ctx.authority.key, args.extraData)
  {
    AbortDomain(op, p, ctx, args);
  }

  lemma SecondHopPanics(s: State, p: Protocol, op: Op, signer: AccountInfo, request: Borsh.Args,
                        remaining: seq<AccountInfo>, world: World)
    requires |request.extraData| <= EXTRA_DATA_MAX_LEN
    ensures var ins := MoveInstruction(AdapterId(p), op, signer, request, remaining);
            CallProgram(s, ins, [signer] + remaining, world).1 == Abort <==>
            world.authorityWritable && Slips(p, op, signer.key, request.extraData)
  {
    AdapterHop(s, p, op, signer, request, remaining, world);
    SlipAborts(p, op, Context(AccountInfo(signer.key, true, true, signer.data), remaining), request);
  }

  /** A client makes an adapter panic exactly by such a request through an active record; the transaction is undone. */
  lemma PanicDomain(env: Env, s: State, p: Protocol, op: Op, signer: AccountInfo, adapter: Address,
                    request: Borsh.Args, remaining: seq<AccountInfo>, world: World)
    requires LoadAdapter(s.store, adapter).Ok? && LoadAdapter(s.store, adapter).value.programId == AdapterId(p)
    ensures var (t, o) := Step(env, s, Move(op, signer, adapter, request, remaining, world));
            && (o == Abort <==>
                && CheckMove(s, signer, adapter, request.extraData).Ok?
                && world.authorityWritable
                && Slips(p, op, signer.key, request.extraData))
            && (o == Abort ==> t == s)
  {
    if CheckMove(s, signer, adapter, request.extraData).Ok? {
      SecondHopPanics(s.(returnData := None), p, op, signer, request, remaining, world);
    }
  }

  /** The first hop names the client as a read-only signer; both repeat the flags of the client's list. */
  lemma NoEscalation(s: State, signer: AccountInfo, adapter: Address, extra: seq<Byte>,
                     remaining: seq<AccountInfo>, w: bool)
    requires CheckMove(s, signer, adapter, extra).Ok?
    ensures HopMetas(signer, remaining)[0] == Meta(signer.key, true, false) && signer.isSigner && signer.isWritable
    ensures Repeats(HopMetas(signer, remaining)[1..], remaining)
    ensures Deliver(HopMetas(signer, remaining), [signer] + remaining, w)[1..] == remaining
    ensures Repeats(MetasOf(Deliver(HopMetas(signer, remaining), [signer] + remaining, w)[1..]), remaining)
  {
    Delivered(signer, remaining, w);
    assert ([AccountInfo(signer.key, true, w, signer.data)] + remaining)[1..] == remaining;
    assert HopMetas(signer, remaining)[1..] == MetasOf(remaining);
  }

  /** A list of metas that repeats a list of accounts: same keys, same flags, same order. */
  predicate Repeats(metas: seq<Meta>, accounts: seq<AccountInfo>) {
    && |metas| == |accounts|
    && forall i :: 0 <= i < |accounts| ==>
         && metas[i].key == accounts[i].key
         && metas[i].isSigner == accounts[i].isSigner
         && metas[i].isWritable == accounts[i].isWritable
  }

  // ------------------------------------------------------------ other programs

  lemma ForeignHop(s: State, ins: Instruction, infos: seq<AccountInfo>, world: World)
    requires |ins.metas| == |infos| && ProtocolAt(ins.programId).None?
    ensures CallProgram(s, ins, infos, world) ==
            match world.below
            case None => (s.(routed := s.routed + [ins], returnData := None), Err(FromCallee))
            case Some(fx) => (s.(routed := s.routed + [ins], returnData := Settle(fx, None)), Ok(()))
  {
  }

  /** An admitted transfer to any other program succeeds exactly when the program does, and leaves only this. */
  lemma ForeignTransfer(env: Env, s: State, op: Op, signer: AccountInfo, adapter: Address, request: Borsh.Args,
                        remaining: seq<AccountInfo>, world: World)
    requires LoadAdapter(s.store, adapter).Ok?
    requires ProtocolAt(LoadAdapter(s.store, adapter).value.programId).None?
    ensures var (t, o) := Step(env, s, Move(op, signer, adapter, request, remaining, world));
            var id := LoadAdapter(s.store, adapter).value.programId;
            && (o.Ok? <==> CheckMove(s, signer, adapter, request.extraData).Ok? && world.below.Some?)
            && (CheckMove(s, signer, adapter, request.extraData).Ok? && world.below.None? ==>
                t == s && o == Err(FromCallee))
            && (o.Ok? ==>
                t == s.(events := s.events + [Moved(op, signer.key, id, request.amount)],
                        routed := s.routed + [MoveInstruction(id, op, signer, request, remaining)],
                        returnData := Settle(world.below.value, None)))
  {
    var id := LoadAdapter(s.store, adapter).value.programId;
    if CheckMove(s, signer, adapter, request.extraData).Ok? {
      ForeignHop(s.(returnData := None), MoveInstruction(id, op, signer, request, remaining), [signer] + remaining,
                 world);
    }
  }

  /**
   Two successful requests through one adapter, from any two states, hand the protocol the same data
   exactly when they select the same instruction and agree on the fields it keeps.
   */
  lemma Collisions(p: Protocol, op: Op, r: Borsh.Args, op': Op, r': Borsh.Args, ctx: Context, ctx': Context)
    requires Guards(p, op, ctx, r.extraData) && Guards(p, op', ctx', r'.extraData)
    ensures Intent(p, op, r).Ok? && Intent(p, op', r').Ok?
    ensures var (x, y) := (r.extraData, r'.extraData);
            var n := Select(p, op, x[0]).value;
            Encode(Intent(p, op, r).value) == Encode(Intent(p, op', r').value) <==>
            && ((op == op' && x[0] == y[0])
                || (p == Kamino && op == Deposit && op' == Withdraw && x[0] == 3 && y[0] == 2)
                || (p == Kamino && op == Withdraw && op' == Deposit && x[0] == 2 && y[0] == 3)
                || (p == Maple && op != op'))
            && (KeepsAmount(n) ==> r.amount == r'.amount)
            && KeptExtra(n, x) == KeptExtra(n, y)
  {
    var x, y := r.extraData, r'.extraData;
    var n, n' := Select(p, op, x[0]).value, Select(p, op', y[0]).value;
    Kernel(n, r.amount, x, n', r'.amount, y);
    if op == op' {
      if n == n' {
        SelectorsDiffer(p, op, x[0], y[0]);
      }
    } else if op == Deposit {
      Coincidence(p, x[0], y[0]);
    } else {
      Coincidence(p, y[0], x[0]);
    }
  }

  /** Data accepted by an adapter's entry point is the printed form of one request, then ignored bytes. */
  lemma ParseIsCanonical(data: seq<Byte>) returns (rest: seq<Byte>)
    requires Parse(data).Ok? && Parse(data).value.MoveRequest?
    ensures var r := Parse(data).value; data == EntryPoint(r.op) + (Borsh.Encode(r.args) + rest)
  {
    Borsh.Canonical(data[8..]);
    rest := Borsh.Decode(data[8..]).value.1;
    assert data == data[..8] + data[8..];
  }

  lemma FirstByteOfAmount(amount: U64)
    ensures U64ToLe(amount)[0] == amount % 256
  {
  }

  /** Drift's spot instructions carry the amount at byte ten, whatever else the request holds. */
  lemma SpotAmountPosition(n: Name, amount: U64, extra: seq<Byte>)
    requires ShapeOf(n) == AmountAfterTwo && |extra| >= 3
    ensures Layout.U64At(Encode(MeaningOf(n, amount, extra).value), 10) == Ok(amount)
  {
  }

  lemma DisplacedAmount(extra: seq<Byte>) returns (amount: U64)
    requires |extra| > 3
    ensures Layout.U64At(Encode(MeaningOf(AddInsuranceFundStake, amount, extra).value), 10) != Ok(amount)
  {
    amount := if extra[3] == 0 then 1 else 0;
    FirstByteOfAmount(amount);
    assert Encode(MeaningOf(AddInsuranceFundStake, amount, extra).value)[10..18][0] == extra[3];
  }

  lemma UndisplacedAmount(extra: seq<Byte>, amount: U64)
    requires |extra| == 3
    ensures Layout.U64At(Encode(MeaningOf(AddInsuranceFundStake, amount, extra).value), 10) == Ok(amount)
  {
  }

  /**
   The instruction that appends the amount carries it at that same position, for every amount, exactly when
   `extra_data` is the selector and two more bytes; a longer one displaces it.
   */
  lemma AppendedAmountPosition(extra: seq<Byte>)
    requires |extra| >= 3
    ensures (forall amount: U64 ::
               Layout.U64At(Encode(MeaningOf(AddInsuranceFundStake, amount, extra).value), 10) == Ok(amount)) <==>
            |extra| == 3
  {
    if |extra| == 3 {
      forall amount: U64
        ensures Layout.U64At(Encode(MeaningOf(AddInsuranceFundStake, amount, extra).value), 10) == Ok(amount)
      {
        UndisplacedAmount(extra, amount);
      }
    } else {
      var amount := DisplacedAmount(extra);
    }
  }
}
