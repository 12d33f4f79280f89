/** What the dispatcher's `current_value` returns, for any callee. */
module Relays {
  import opened Outcomes
  import opened Bytes
  import opened Machine
  import opened Interface
  import opened Protocols
  import opened AdapterSpec
  import opened Records
  import opened DispatcherSpec
  import opened TwoHops
  import Layout

  /** The contents the return buffer takes on, in order: data for a write, none for an invocation or an empty write. */
  function Trace(effects: Effects): seq<Option<seq<Byte>>> {
    match effects
    case Done => []
    case Write(data, next) => [Written(data)] + Trace(next)
    case Invoke(callee, next) => [None] + Trace(callee) + Trace(next)
  }

  /** Whatever the nesting, only the last write or clearing counts. */
  lemma {:induction false} LastEffectWins(effects: Effects, buffer: Option<seq<Byte>>)
    ensures Settle(effects, buffer) == if Trace(effects) == [] then buffer else Trace(effects)[|Trace(effects)| - 1]
  {
    match effects
    case Done =>
    case Write(data, next) => LastEffectWins(next, Written(data));
    case Invoke(callee, next) =>
      LastEffectWins(callee, None);
      LastEffectWins(next, Settle(callee, None));
  }

  lemma ValueHop(s: State, ins: Instruction, authority: AccountInfo, remaining: seq<AccountInfo>, world: World)
    requires ins == ValueInstruction(ins.programId, authority, remaining)
    ensures ProtocolAt(ins.programId).Some? ==>
              CallProgram(s, ins, [authority] + remaining, world) ==
              var p := ProtocolAt(ins.programId).value;
              var called := s.(routed := s.routed + [ins], returnData := None);
              var ctx := Context(AccountInfo(authority.key, true, world.authorityWritable, authority.data), remaining);
              if NeedsWritableAuthority(p, ValueRequest) && !world.authorityWritable
              then (called, Err(FromFramework(ConstraintMut)))
              else RunValue(called, p, ctx, world.foreignValue)
  {
  }

  /** The last write or clearing of a buffer that starts empty. */
  function Final(trace: seq<Option<seq<Byte>>>): Option<seq<Byte>> {
    if trace == [] then None else trace[|trace| - 1]
  }

  lemma RelayOfBuffer(t: State)
    ensures match t.returnData
            case None => Relay(t) == (t, Err(FromInterface(MissingReturnData)))
            case Some(data) =>
              if |data| < 8 then Relay(t) == (t, Err(FromInterface(InvalidReturnData)))
              else Relay(t) == (t.(returnData := Some(data[..8])), Ok(()))
  {
  }

  /** The dispatcher's answer once an unseen program has returned. */
  lemma RelayOfEffects(called: State, fx: Effects)
    ensures var (t, o) := Relay(called.(returnData := Settle(fx, None)));
            match Final(Trace(fx))
            case None => o == Err(FromInterface(MissingReturnData))
            case Some(data) =>
              if |data| < 8 then o == Err(FromInterface(InvalidReturnData))
              else o.Ok? && t == called.(returnData := Some(data[..8]))
  {
    LastEffectWins(fx, None);
    RelayOfBuffer(called.(returnData := Settle(fx, None)));
  }

  /**
   For a program the model cannot see, the query answers exactly when the last thing that happened to the
   buffer, anywhere in the tree of invocations, is a write of at least eight bytes; it answers with the
   first eight. A write followed by another invocation, or by an empty write, is lost.
   */
  lemma RelayOfForeignProgram(env: Env, s: State, authority: AccountInfo, adapter: Address,
                              remaining: seq<AccountInfo>, world: World)
    requires CheckActive(s, authority, adapter).Ok?
    requires ProtocolAt(CheckActive(s, authority, adapter).value.programId).None?
    ensures var (t, o) := Step(env, s, Value(authority, adapter, remaining, world));
            var id := CheckActive(s, authority, adapter).value.programId;
            match world.below
            case None => o == Err(FromCallee) && t == s
            case Some(fx) =>
              match Final(Trace(fx))
              case None => o == Err(FromInterface(MissingReturnData)) && t == s
              case Some(data) =>
                if |data| < 8 then o == Err(FromInterface(InvalidReturnData)) && t == s
                else
                  && o.Ok?
                  && t == s.(routed := s.routed + [ValueInstruction(id, authority, remaining)],
                             returnData := Some(data[..8]))
  {
    var start := s.(returnData := None);
    var ins := ValueInstruction(CheckActive(s, authority, adapter).value.programId, authority, remaining);
    ForeignHop(start, ins, [authority] + remaining, world);
    if world.below.Some? {
      RelayOfEffects(start.(routed := s.routed + [ins], returnData := None), world.below.value);
    }
  }

  /**
   A callee that writes its value and then invokes a silent program, or writes nothing over it, answers nothing;
   one that writes last, or lets the program it invokes last write, answers.
   */
  lemma WriteBeforeInvokeIsLost(data: seq<Byte>)
    ensures ReturnU64(Settle(Write(data, Invoke(Done, Done)), None)) == Err(FromInterface(MissingReturnData))
    ensures ReturnU64(Settle(Write(data, Write([], Done)), None)) == Err(FromInterface(MissingReturnData))
    ensures |data| >= 8 ==> ReturnU64(Settle(Invoke(Done, Write(data, Done)), None)) == Ok(U64FromLe(data[..8]))
    ensures |data| >= 8 ==>
              ReturnU64(Settle(Write([], Invoke(Write(data, Done), Done)), None)) == Ok(U64FromLe(data[..8]))
    ensures |data| >= 8 ==>
              ReturnU64(Settle(Invoke(Write([], Done), Write(data, Done)), None)) == Ok(U64FromLe(data[..8]))
  {
    var last := Write(data, Done);
    assert Settle(last, None) == Settle(Done, Written(data));
    assert Settle(Write([], Invoke(last, Done)), None) == Settle(Invoke(last, Done), None);
    assert Settle(Invoke(last, Done), None) == Settle(Done, Settle(last, None));
    assert Settle(Invoke(Write([], Done), last), None) == Settle(last, Settle(Write([], Done), None));
    assert Settle(last, Settle(Write([], Done), None)) == Settle(Done, Written(data));
    assert Settle(Invoke(Done, Done), Written(data)) == Settle(Done, Settle(Done, None));
    assert Settle(Write([], Done), Written(data)) == Settle(Done, None);
    assert Settle(Invoke(Done, Write(data, Done)), None) == Settle(Done, Written(data));
  }

  /** What an adapter's answer leaves for the dispatcher to relay. */
  lemma AnswerOfAdapter(s: State, p: Protocol, authority: AccountInfo, remaining: seq<AccountInfo>, world: World)
    ensures var ins := ValueInstruction(AdapterId(p), authority, remaining);
            var (t, o) := CallProgram(s, ins, [authority] + remaining, world);
            var value := ValueOf(p, Context(authority, remaining), world.foreignValue);
            && (o.Ok? <==> (p == Kamino || p == Jupiter || world.authorityWritable) && value.Ok?)
            && (o.Ok? ==>
                t == s.(routed := s.routed + [ins], returnData := Some(U64ToLe(value.value)),
                        adapterEvents := s.adapterEvents + [Valued(authority.key, ProgramId(p), value.value)]))
  {
    ProtocolAtAdapter(p);
    ValueHop(s, ValueInstruction(AdapterId(p), authority, remaining), authority, remaining, world);
  }

  lemma RelayKeepsAnswer(t: State, value: U64)
    requires t.returnData == Some(U64ToLe(value))
    ensures Relay(t) == (t, Ok(()))
  {
    assert U64ToLe(value)[..8] == U64ToLe(value);
  }

  /** Through any of the five adapters the dispatcher returns, and the adapter reports, the value that it read. */
  lemma RelayOfAdapter(env: Env, s: State, p: Protocol, authority: AccountInfo, adapter: Address,
                       remaining: seq<AccountInfo>, world: World)
    requires CheckActive(s, authority, adapter).Ok?
    requires CheckActive(s, authority, adapter).value.programId == AdapterId(p)
    ensures var (t, o) := Step(env, s, Value(authority, adapter, remaining, world));
            var value := ValueOf(p, Context(authority, remaining), world.foreignValue);
            && (o.Ok? <==> (p == Kamino || p == Jupiter || world.authorityWritable) && value.Ok?)
            && (o.Ok? ==>
                t == s.(routed := s.routed + [ValueInstruction(AdapterId(p), authority, remaining)],
                        returnData := Some(U64ToLe(value.value)),
                        adapterEvents := s.adapterEvents + [Valued(authority.key, ProgramId(p), value.value)]))
  {
    var start := s.(returnData := None);
    AnswerOfAdapter(start, p, authority, remaining, world);
    var ins := ValueInstruction(AdapterId(p), authority, remaining);
    var (t, o) := CallProgram(start, ins, [authority] + remaining, world);
    if o.Ok? {
      RelayKeepsAnswer(t, ValueOf(p, Context(authority, remaining), world.foreignValue).value);
    }
  }

  /** A callee's failure is the query's, and undoes it. */
  lemma FailedQuery(env: Env, s: State, authority: AccountInfo, adapter: Address, remaining: seq<AccountInfo>,
                    world: World)
    requires CheckActive(s, authority, adapter).Ok?
    ensures var ins := ValueInstruction(CheckActive(s, authority, adapter).value.programId, authority, remaining);
            var o := CallProgram(s.(returnData := None), ins, [authority] + remaining, world).1;
            !o.Ok? ==> Step(env, s, Value(authority, adapter, remaining, world)) == (s, o)
  {
  }

  /** Where an adapter reads its value, and how many bytes it insists on. */
  function FieldOffset(p: Protocol): U64
    requires p == Drift || p == Jupiter || p == MarginFi
  {
    if p == Drift then 104 else if p == Jupiter then 152 else 40
  }

  function FieldWidth(p: Protocol): U64 {
    if p == MarginFi then 16 else 8
  }

  lemma ValueIsField(p: Protocol, ctx: Context, foreignValue: Outcome<U64>)
    requires p == Drift || p == Jupiter || p == MarginFi
    ensures var value, at := ValueOf(p, ctx, foreignValue), FieldOffset(p);
            && (value.Ok? <==> ctx.remaining != [] && |ctx.remaining[0].data| >= at + FieldWidth(p))
            && (value.Ok? ==> U64ToLe(value.value) == ctx.remaining[0].data[at..at + 8])
  {
    if ctx.remaining != [] && |ctx.remaining[0].data| >= FieldOffset(p) + FieldWidth(p) {
      var data := ctx.remaining[0].data;
      var field := data[FieldOffset(p)..FieldOffset(p) + 8];
      assert U64ToLe(U64FromLe(field)) == field;
      if p == MarginFi {
        TruncatedShares(data);
      }
    }
  }

  /**
   Through the three adapters that read account data themselves, the dispatcher returns, and the adapter reports,
   the eight bytes found at the field's offset in the first remaining account; it fails when the field is not there.
   */
  lemma RelayOfField(env: Env, s: State, p: Protocol, authority: AccountInfo, adapter: Address,
                     remaining: seq<AccountInfo>, world: World)
    requires p == Drift || p == Jupiter || p == MarginFi
    requires CheckActive(s, authority, adapter).Ok?
    requires CheckActive(s, authority, adapter).value.programId == AdapterId(p)
    ensures var (t, o) := Step(env, s, Value(authority, adapter, remaining, world));
            var at := if p == Drift then 104 else if p == Jupiter then 152 else 40;
            && (o.Ok? <==>
                && (p == Jupiter || world.authorityWritable)
                && remaining != []
                && |remaining[0].data| >= (if p == Drift then 112 else if p == Jupiter then 160 else 56))
            && (o.Ok? ==>
                var field := remaining[0].data[at..at + 8];
                t == s.(routed := s.routed + [ValueInstruction(AdapterId(p), authority, remaining)],
                        returnData := Some(field),
                        adapterEvents := s.adapterEvents + [Valued(authority.key, ProgramId(p), U64FromLe(field))]))
  {
    RelayOfAdapter(env, s, p, authority, adapter, remaining, world);
    ValueIsField(p, Context(authority, remaining), world.foreignValue);
  }

  /** Through the other two, it returns and reports what the foreign layout decodes to. */
  lemma RelayOfLayout(env: Env, s: State, p: Protocol, authority: AccountInfo, adapter: Address,
                      remaining: seq<AccountInfo>, world: World)
    requires p == Kamino || p == Maple
    requires CheckActive(s, authority, adapter).Ok?
    requires CheckActive(s, authority, adapter).value.programId == AdapterId(p)
    ensures var (t, o) := Step(env, s, Value(authority, adapter, remaining, world));
            && (o.Ok? <==>
                (p == Kamino || world.authorityWritable) && remaining != [] && world.foreignValue.Ok?)
            && (o.Ok? ==>
                var value := world.foreignValue.value;
                t == s.(routed := s.routed + [ValueInstruction(AdapterId(p), authority, remaining)],
                        returnData := Some(U64ToLe(value)),
                        adapterEvents := s.adapterEvents + [Valued(authority.key, ProgramId(p), value)]))
  {
    RelayOfAdapter(env, s, p, authority, adapter, remaining, world);
  }

  /** The value MarginFi returns is its `u128` modulo 2^64: the `u64` at the same offset. */
  lemma TruncatedShares(data: seq<Byte>)
    requires |data| >= 56
    ensures Layout.U128At(data, 40).Ok?
    ensures Layout.U64At(data, 40) == Ok(Layout.U128At(data, 40).value % TWO_64)
  {
    Layout.WideSplit(data, 40);
    LowHalf(Layout.U64At(data, 40).value, Layout.U64At(data, 48).value);
  }

  lemma LowHalf(low: U64, high: U64)
    ensures (low + TWO_64 * high) % TWO_64 == low
  {
  }

  /**
   Read as unsigned fixed point with 48 fractional bits, the returned value keeps the fraction and the
   integer part modulo 2^16; nothing is lost exactly when the integer part is below 65536.
   */
  lemma TruncationLaw(shares: U128)
    ensures var fraction := 0x1_0000_0000_0000;
            var returned := shares % TWO_64;
            && returned % fraction == shares % fraction
            && returned / fraction == (shares / fraction) % 0x1_0000
            && (returned == shares <==> shares / fraction < 0x1_0000)
  {
    var high, low := shares / TWO_64, shares % TWO_64;
    assert shares == high * TWO_64 + low;
    assert shares / 0x1_0000_0000_0000 == high * 0x1_0000 + low / 0x1_0000_0000_0000;
  }
}
