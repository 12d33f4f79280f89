/**
 The bytes on the wire: what each adapter hands its protocol for each selector, written out. These
 tables are used by no program; the theorems say that every transfer produces exactly what they list.
 */
module Wire {
  import opened Outcomes
  import opened Bytes
  import opened Machine
  import opened Protocols
  import opened AdapterSpec
  import opened Records
  import opened DispatcherSpec
  import opened TwoHops
  import Borsh

  /** The record at an address names a program. */
  predicate Names(s: State, address: Address, programId: seq<Byte>) {
    LoadAdapter(s.store, address).Ok? && LoadAdapter(s.store, address).value.programId == programId
  }

  /** One more protocol instruction: to this program, with these accounts and these bytes. */
  predicate Sent(s: State, t: State, programId: seq<Byte>, accounts: seq<AccountInfo>, data: seq<Byte>) {
    && |t.forwarded| == |s.forwarded| + 1 && t.forwarded[..|s.forwarded|] == s.forwarded
    && t.forwarded[|s.forwarded|].programId == programId
    && Repeats(t.forwarded[|s.forwarded|].metas, accounts)
    && t.forwarded[|s.forwarded|].data == data
  }

  /** One more adapter event: this transfer, to this program, of this amount. */
  predicate Announces(s: State, t: State, op: Op, authority: Pubkey, programId: seq<Byte>, amount: U64) {
    && |t.adapterEvents| == |s.adapterEvents| + 1 && t.adapterEvents[..|s.adapterEvents|] == s.adapterEvents
    && var e := t.adapterEvents[|s.adapterEvents|];
    && e.Forwarded? && e.op == op && e.authority == authority && e.programId == programId && e.amount == amount
  }

  /** What the adapter leaves in its logs after a successful transfer. */
  lemma Logged(env: Env, s: State, p: Protocol, op: Op, signer: AccountInfo, adapter: Address, request: Borsh.Args,
               remaining: seq<AccountInfo>, world: World)
    requires LoadAdapter(s.store, adapter).Ok? && LoadAdapter(s.store, adapter).value.programId == AdapterId(p)
    ensures var (t, o) := Step(env, s, Move(op, signer, adapter, request, remaining, world));
            && (o.Ok? <==>
                && CheckMove(s, signer, adapter, request.extraData).Ok?
                && world.authorityWritable
                && Guards(p, op, Context(signer, remaining), request.extraData)
                && world.below.Some?)
            && (o.Ok? ==>
                && Intent(p, op, request).Ok?
                && var m := Intent(p, op, request).value;
                   && Sent(s, t, ProgramId(p), remaining, Encode(m))
                   && Announces(s, t, op, signer.key, ProgramId(p), EventAmount(p, m, request.amount)))
  {
    EndToEnd(env, s, p, op, signer, adapter, request, remaining, world);
  }

  /** A request whose selector is known and whose bytes suffice. */
  predicate Guarded(p: Protocol, op: Op, request: Borsh.Args) {
    request.extraData != [] && Select(p, op, request.extraData[0]).Some? && Intent(p, op, request).Ok?
  }

  // ------------------------------------------------------------ Drift

  function DriftData(op: Op, x: seq<Byte>, n: seq<Byte>): seq<Byte>
    requires x != [] && x[0] <= 2 && (op == Withdraw || x[0] == 0 ==> |x| >= 3)
  {
    match op
    case Deposit =>
      if x[0] == 0 then [242, 35, 198, 137, 82, 225, 242, 182] + x[1..3] + n + x[3..]
      else if x[0] == 1 then [251, 144, 115, 11, 222, 47, 62, 236] + x[1..] + n
      else [187, 179, 243, 70, 248, 90, 92, 147] + x[1..]
    case Withdraw =>
      if x[0] == 0 then [183, 18, 70, 156, 148, 109, 161, 34] + x[1..3] + n + x[3..]
      else if x[0] == 1 then [142, 70, 204, 92, 73, 106, 180, 52] + x[1..3] + n
      else [128, 166, 142, 9, 254, 187, 143, 174] + x[1..3]
  }

  lemma DriftBytes(op: Op, request: Borsh.Args)
    requires Guarded(Drift, op, request)
    ensures var x, m := request.extraData, Intent(Drift, op, request).value;
            && Encode(m) == DriftData(op, x, U64ToLe(request.amount))
            && EventAmount(Drift, m, request.amount) == (if x[0] == 2 then 0 else request.amount)
  {
  }

  /** Every transfer through Drift's adapter: when it succeeds, and what the protocol then receives. */
  lemma DriftTransfer(env: Env, s: State, op: Op, signer: AccountInfo, adapter: Address, request: Borsh.Args,
                      remaining: seq<AccountInfo>, world: World)
    requires Names(s, adapter, [205, 32, 122, 245, 58, 166, 26, 27, 89, 221, 210, 14, 0, 200, 167, 228,
                             139, 153, 175, 229, 181, 191, 159, 181, 5, 72, 218, 129, 26, 224, 14, 122])
    ensures var (t, o) := Step(env, s, Move(op, signer, adapter, request, remaining, world));
            var x := request.extraData;
            var protocol := [9, 84, 219, 190, 158, 201, 96, 201, 138, 122, 41, 63, 226, 19, 54, 150,
                             111, 225, 128, 209, 81, 174, 75, 129, 121, 86, 31, 137, 133, 74, 83, 246];
            && (o.Ok? <==>
                && CheckMove(s, signer, adapter, x).Ok? && world.authorityWritable && world.below.Some?
                && x != [] && signer.key != DEFAULT_KEY && x[0] <= 2
                && (op == Withdraw || x[0] == 0 ==> |x| >= 3))
            && (o.Ok? ==>
                && Sent(s, t, protocol, remaining, DriftData(op, x, U64ToLe(request.amount)))
                && Announces(s, t, op, signer.key, protocol, if x[0] == 2 then 0 else request.amount))
  {
    Logged(env, s, Drift, op, signer, adapter, request, remaining, world);
    if Step(env, s, Move(op, signer, adapter, request, remaining, world)).1.Ok? {
      DriftBytes(op, request);
    }
  }

  // ------------------------------------------------------------ Jupiter

  function JupiterData(op: Op, x: seq<Byte>, n: seq<Byte>): seq<Byte>
    requires x != [] && x[0] <= 1
  {
    match op
    case Deposit =>
      if x[0] == 0 then [17, 2, 195, 190, 76, 16, 238, 74] + n
      else [228, 162, 78, 28, 70, 219, 116, 115] + n + x[1..]
    case Withdraw =>
      if x[0] == 0 then [117, 160, 60, 82, 237, 233, 46, 182] + n
      else [230, 215, 82, 127, 241, 101, 227, 146] + n + x[1..]
  }

  lemma JupiterBytes(op: Op, request: Borsh.Args)
    requires Guarded(Jupiter, op, request)
    ensures var x, m := request.extraData, Intent(Jupiter, op, request).value;
            && Encode(m) == JupiterData(op, x, U64ToLe(request.amount))
            && EventAmount(Jupiter, m, request.amount) == request.amount
  {
  }

  /** Every transfer through Jupiter's adapter: when it succeeds, and what the protocol then receives. */
  lemma JupiterTransfer(env: Env, s: State, op: Op, signer: AccountInfo, adapter: Address, request: Borsh.Args,
                        remaining: seq<AccountInfo>, world: World)
    requires Names(s, adapter, [175, 212, 183, 157, 142, 139, 149, 65, 108, 65, 28, 191, 20, 179, 78, 99,
                             120, 111, 182, 191, 132, 208, 246, 155, 155, 195, 207, 62, 126, 75, 212, 89])
    ensures var (t, o) := Step(env, s, Move(op, signer, adapter, request, remaining, world));
            var x := request.extraData;
            var protocol := [5, 177, 243, 202, 241, 148, 98, 239, 135, 96, 240, 171, 222, 117, 205, 61,
                             158, 227, 27, 58, 50, 198, 32, 232, 148, 18, 46, 156, 155, 129, 69, 250];
            && (o.Ok? <==>
                && CheckMove(s, signer, adapter, x).Ok? && world.authorityWritable && world.below.Some?
                && x != [] && signer.key != DEFAULT_KEY && x[0] <= 1 && |remaining| == 14)
            && (o.Ok? ==>
                && Sent(s, t, protocol, remaining, JupiterData(op, x, U64ToLe(request.amount)))
                && Announces(s, t, op, signer.key, protocol, request.amount))
  {
    Logged(env, s, Jupiter, op, signer, adapter, request, remaining, world);
    if Step(env, s, Move(op, signer, adapter, request, remaining, world)).1.Ok? {
      JupiterBytes(op, request);
    }
  }

  // ------------------------------------------------------------ Kamino

  function KaminoData(op: Op, x: seq<Byte>, n: seq<Byte>): seq<Byte>
    requires x != [] && x[0] <= (if op == Deposit then 3 else 2)
  {
    match op
    case Deposit =>
      if x[0] == 0 then [216, 224, 191, 27, 204, 151, 102, 175] + n
      else if x[0] == 1 then [169, 201, 30, 126, 6, 205, 102, 68] + n
      else if x[0] == 2 then [108, 209, 4, 72, 21, 22, 118, 133] + n
      else [141, 153, 39, 15, 64, 61, 88, 84] + n + x[1..]
    case Withdraw =>
      if x[0] == 0 then [235, 52, 119, 152, 149, 197, 20, 7] + n
      else if x[0] == 1 then [234, 117, 181, 125, 185, 142, 220, 29] + n + x[1..]
      else [141, 153, 39, 15, 64, 61, 88, 84] + n + x[1..]
  }

  lemma KaminoBytes(op: Op, request: Borsh.Args)
    requires Guarded(Kamino, op, request)
    ensures var x, m := request.extraData, Intent(Kamino, op, request).value;
            && Encode(m) == KaminoData(op, x, U64ToLe(request.amount))
            && EventAmount(Kamino, m, request.amount) == request.amount
  {
  }

  /** Every transfer through Kamino's adapter: when it succeeds, and what the protocol then receives. */
  lemma KaminoTransfer(env: Env, s: State, op: Op, signer: AccountInfo, adapter: Address, request: Borsh.Args,
                       remaining: seq<AccountInfo>, world: World)
    requires Names(s, adapter, [157, 71, 141, 158, 129, 149, 186, 102, 98, 149, 99, 116, 215, 224, 83, 185,
                             230, 248, 223, 41, 136, 203, 160, 176, 81, 166, 43, 95, 205, 126, 148, 192])
    ensures var (t, o) := Step(env, s, Move(op, signer, adapter, request, remaining, world));
            var x := request.extraData;
            var protocol := [4, 178, 172, 177, 18, 88, 204, 227, 104, 44, 65, 139, 168, 114, 255, 61,
                             249, 17, 2, 113, 47, 21, 175, 18, 182, 190, 105, 179, 67, 91, 0, 8];
            && (o.Ok? <==>
                && CheckMove(s, signer, adapter, x).Ok? && world.authorityWritable && world.below.Some?
                && x != [] && signer.key != DEFAULT_KEY && x[0] <= (if op == Deposit then 3 else 2))
            && (o.Ok? ==>
                && Sent(s, t, protocol, remaining, KaminoData(op, x, U64ToLe(request.amount)))
                && Announces(s, t, op, signer.key, protocol, request.amount))
  {
    Logged(env, s, Kamino, op, signer, adapter, request, remaining, world);
    if Step(env, s, Move(op, signer, adapter, request, remaining, world)).1.Ok? {
      KaminoBytes(op, request);
    }
  }

  // ------------------------------------------------------------ Maple

  function MapleData(x: seq<Byte>): seq<Byte>
    requires x != [] && x[0] == 0
  {
    [108, 216, 134, 191, 249, 234, 33, 84] + x[1..]
  }

  lemma MapleBytes(op: Op, request: Borsh.Args)
    requires Guarded(Maple, op, request)
    ensures var x, m := request.extraData, Intent(Maple, op, request).value;
            && Encode(m) == MapleData(x)
            && EventAmount(Maple, m, request.amount) == request.amount
  {
  }

  /** Every transfer through Maple's adapter: when it succeeds, and what the protocol then receives. */
  lemma MapleTransfer(env: Env, s: State, op: Op, signer: AccountInfo, adapter: Address, request: Borsh.Args,
                      remaining: seq<AccountInfo>, world: World)
    requires Names(s, adapter, [91, 116, 145, 122, 141, 78, 231, 10, 12, 157, 198, 112, 113, 92, 252, 224,
                             248, 88, 122, 223, 242, 103, 252, 168, 34, 185, 5, 104, 42, 70, 120, 59])
    ensures var (t, o) := Step(env, s, Move(op, signer, adapter, request, remaining, world));
            var x := request.extraData;
            var protocol := [172, 151, 41, 119, 225, 186, 181, 255, 246, 198, 134, 41, 31, 153, 79, 245,
                             47, 52, 171, 237, 27, 199, 223, 136, 247, 111, 67, 249, 38, 89, 44, 143];
            && (o.Ok? <==>
                && CheckMove(s, signer, adapter, x).Ok? && world.authorityWritable && world.below.Some?
                && x != [] && x[0] == 0 && |remaining| >= 18
                && remaining[3].key == signer.key && remaining[3].isSigner)
            && (o.Ok? ==>
                && Sent(s, t, protocol, remaining, MapleData(x))
                && Announces(s, t, op, signer.key, protocol, request.amount))
  {
    Logged(env, s, Maple, op, signer, adapter, request, remaining, world);
    if Step(env, s, Move(op, signer, adapter, request, remaining, world)).1.Ok? {
      MapleBytes(op, request);
    }
  }

  // ------------------------------------------------------------ MarginFi

  function MarginFiData(op: Op, x: seq<Byte>, n: seq<Byte>): seq<Byte>
    requires x != [] && x[0] == 0
  {
    match op
    case Deposit => [171, 94, 235, 103, 82, 64, 212, 140] + n + x[1..]
    case Withdraw => [36, 72, 74, 19, 210, 210, 192, 192] + n + x[1..]
  }

  lemma MarginFiBytes(op: Op, request: Borsh.Args)
    requires Guarded(MarginFi, op, request)
    ensures var x, m := request.extraData, Intent(MarginFi, op, request).value;
            && Encode(m) == MarginFiData(op, x, U64ToLe(request.amount))
            && EventAmount(MarginFi, m, request.amount) == request.amount
  {
  }

  /** Every transfer through MarginFi's adapter: when it succeeds, and what the protocol then receives. */
  lemma MarginFiTransfer(env: Env, s: State, op: Op, signer: AccountInfo, adapter: Address, request: Borsh.Args,
                         remaining: seq<AccountInfo>, world: World)
    requires Names(s, adapter, [45, 82, 116, 233, 130, 124, 63, 216, 54, 154, 80, 163, 136, 64, 68, 92,
                             201, 136, 114, 99, 58, 187, 165, 198, 7, 204, 7, 164, 13, 28, 228, 250])
    ensures var (t, o) := Step(env, s, Move(op, signer, adapter, request, remaining, world));
            var x := request.extraData;
            var protocol := [5, 48, 122, 214, 69, 75, 188, 94, 30, 78, 146, 5, 146, 83, 161, 139,
                             184, 200, 134, 140, 88, 166, 49, 46, 200, 106, 57, 230, 34, 78, 55, 59];
            && (o.Ok? <==>
                && CheckMove(s, signer, adapter, x).Ok? && world.authorityWritable && world.below.Some?
                && x != [] && signer.key != DEFAULT_KEY && x[0] == 0)
            && (o.Ok? ==>
                && Sent(s, t, protocol, remaining, MarginFiData(op, x, U64ToLe(request.amount)))
                && Announces(s, t, op, signer.key, protocol, request.amount))
  {
    Logged(env, s, MarginFi, op, signer, adapter, request, remaining, world);
    if Step(env, s, Move(op, signer, adapter, request, remaining, world)).1.Ok? {
      MarginFiBytes(op, request);
    }
  }
}
