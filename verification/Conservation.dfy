/** Amounts reported by the dispatcher, reported by the adapters, and handed to the protocols. */
module Conservation {
  import opened Outcomes
  import opened Bytes
  import opened Machine
  import opened Protocols
  import opened AdapterSpec
  import opened Records
  import opened DispatcherSpec
  import opened TwoHops
  import opened Runs
  import opened StatusLaw
  import Borsh
  import Relays

  /** The sum of the amounts the dispatcher reported for a program. */
  function Reported(events: seq<Event>, programId: Pubkey): nat {
    if events == [] then 0 else Reported(Front(events), programId) + ReportedBy(Last(events), programId)
  }

  function ReportedBy(e: Event, programId: Pubkey): nat {
    if e.Moved? && e.programId == programId then e.amount else 0
  }

  /** The sum of the amounts the adapter of a protocol reported. */
  function AdapterReported(events: seq<AdapterEvent>, p: Protocol): nat {
    if events == [] then 0 else AdapterReported(Front(events), p) + AdapterReportedBy(Last(events), p)
  }

  function AdapterReportedBy(e: AdapterEvent, p: Protocol): nat {
    if e.Forwarded? && e.programId == ProgramId(p) then e.amount else 0
  }

  /** The sum of the amounts a protocol decodes from the instructions it was sent. */
  function Received(instructions: seq<Instruction>, p: Protocol): nat {
    if instructions == [] then 0 else Received(Front(instructions), p) + ReceivedBy(Last(instructions), p)
  }

  function ReceivedBy(ins: Instruction, p: Protocol): nat {
    if ins.programId == ProgramId(p) && Decode(p, ins.data).Some? && Decode(p, ins.data).value.amount.Some?
    then Decode(p, ins.data).value.amount.value else 0
  }

  /** The amount of a successful call that Drift's selector 2 leaves out of the protocol instruction. */
  function DroppedBy(env: Env, s: State, call: Call): nat {
    if call.Move? && Step(env, s, call).1.Ok?
       && LoadAdapter(s.store, call.adapter).Ok?
       && LoadAdapter(s.store, call.adapter).value.programId == AdapterId(Drift)
       && call.request.extraData != [] && call.request.extraData[0] == 2
    then call.request.amount else 0
  }

  function Dropped(env: Env, calls: seq<Call>): nat {
    if calls == [] then 0
    else Dropped(env, Front(calls)) + DroppedBy(env, After(env, Front(calls)), Last(calls))
  }

  /** The logs of one call for one protocol: at most one entry each, and these amounts. */
  ghost predicate Balanced(s: State, t: State, p: Protocol, dropped: nat) {
    var reported := Reported(t.events, AdapterId(p)) - Reported(s.events, AdapterId(p));
    var forwarded := AdapterReported(t.adapterEvents, p) - AdapterReported(s.adapterEvents, p);
    var received := Received(t.forwarded, p) - Received(s.forwarded, p);
    && reported == forwarded + (if p == Drift then dropped else 0)
    && (p != Maple ==> forwarded == received)
    && (p == Maple ==> received == 0)
  }

  /** Whether the amount of a request reaches the protocol. */
  predicate Carries(q: Protocol, selector: Byte) {
    q != Maple && !(q == Drift && selector == 2)
  }

  lemma CarriedAmount(q: Protocol, op: Op, request: Borsh.Args)
    requires request.extraData != [] && Select(q, op, request.extraData[0]).Some? && Intent(q, op, request).Ok?
    ensures Intent(q, op, request).value.amount ==
            if Carries(q, request.extraData[0]) then Some(request.amount) else None
  {
  }

  /** What the amounts of one request to `q` contribute to the logs of `p`. */
  lemma RequestAmounts(p: Protocol, q: Protocol, op: Op, signer: AccountInfo, request: Borsh.Args,
                       remaining: seq<AccountInfo>)
    requires request.extraData != [] && Select(q, op, request.extraData[0]).Some? && Intent(q, op, request).Ok?
    ensures var m, here := Intent(q, op, request).value, p == q;
            var carried := here && Carries(q, request.extraData[0]);
            && ReportedBy(Moved(op, signer.key, AdapterId(q), request.amount), AdapterId(p)) ==
               (if here then request.amount else 0)
            && AdapterReportedBy(Forwarded(op, signer.key, ProgramId(q), EventAmount(q, m, request.amount)), p) ==
               (if carried || (here && q == Maple) then request.amount else 0)
            && ReceivedBy(Instruction(ProgramId(q), MetasOf(remaining), Encode(m)), p) ==
               (if carried then request.amount else 0)
  {
    IdsDiffer(p, q);
    CarriedAmount(q, op, request);
    DecodeEncode(Intent(q, op, request).value);
  }

  lemma RoutedIsBalanced(s: State, p: Protocol, q: Protocol, op: Op, signer: AccountInfo, request: Borsh.Args,
                         remaining: seq<AccountInfo>, fx: Effects)
    requires request.extraData != [] && Select(q, op, request.extraData[0]).Some? && Intent(q, op, request).Ok?
    ensures Balanced(s, Routed(s, q, op, signer, request, remaining, fx, Intent(q, op, request).value), p,
                     if q == Drift && request.extraData[0] == 2 then request.amount else 0)
  {
    var m := Intent(q, op, request).value;
    Appended(s.events, Moved(op, signer.key, AdapterId(q), request.amount));
    Appended(s.adapterEvents, Forwarded(op, signer.key, ProgramId(q), EventAmount(q, m, request.amount)));
    Appended(s.forwarded, Instruction(ProgramId(q), MetasOf(remaining), Encode(m)));
    RequestAmounts(p, q, op, signer, request, remaining);
  }

  /** Logs that gained nothing that counts: a toggle, a value, or a transfer by a program other than the five. */
  ghost predicate Quiet(s: State, t: State) {
    && t.forwarded == s.forwarded
    && (t.adapterEvents == s.adapterEvents
        || (Extends(s.adapterEvents, t.adapterEvents) && Last(t.adapterEvents).Valued?))
    && (t.events == s.events
        || (Extends(s.events, t.events)
            && (Last(t.events).Moved? ==> ProtocolAt(Last(t.events).programId).None?)))
  }

  ghost predicate Extends<T>(s: seq<T>, t: seq<T>) {
    t != [] && t == s + [Last(t)]
  }

  lemma QuietIsBalanced(s: State, t: State, p: Protocol)
    requires Quiet(s, t)
    ensures Balanced(s, t, p, 0)
  {
    ProtocolAtAdapter(p);
    if t.events != s.events {
      Appended(s.events, Last(t.events));
    }
    if t.adapterEvents != s.adapterEvents {
      Appended(s.adapterEvents, Last(t.adapterEvents));
    }
  }

  lemma ForeignMoveIsQuiet(env: Env, s: State, call: Call)
    requires call.Move? && Step(env, s, call).1.Ok? && LoadAdapter(s.store, call.adapter).Ok?
    requires ProtocolAt(LoadAdapter(s.store, call.adapter).value.programId).None?
    ensures Quiet(s, Step(env, s, call).0)
  {
    var Move(op, signer, adapter, request, remaining, world) := call;
    ForeignTransfer(env, s, op, signer, adapter, request, remaining, world);
  }

  /** A value query makes its callee emit at most a value event. */
  lemma QueryCall(s: State, ins: Instruction, authority: AccountInfo, remaining: seq<AccountInfo>, world: World)
    requires ins == ValueInstruction(ins.programId, authority, remaining)
    ensures Quiet(s, CallProgram(s, ins, [authority] + remaining, world).0)
  {
    if ProtocolAt(ins.programId).Some? {
      Relays.ValueHop(s, ins, authority, remaining, world);
    } else {
      ForeignHop(s, ins, [authority] + remaining, world);
    }
  }

  lemma QueryIsQuiet(env: Env, s: State, call: Call)
    requires call.Value?
    ensures Quiet(s, Step(env, s, call).0)
  {
    var Value(authority, adapter, remaining, world) := call;
    var start := s.(returnData := None);
    if CheckActive(start, authority, adapter).Ok? {
      var ins := ValueInstruction(CheckActive(start, authority, adapter).value.programId, authority, remaining);
      QueryCall(start, ins, authority, remaining, world);
    }
  }

  lemma AdministrationIsQuiet(env: Env, s: State, call: Call)
    requires !call.Move? && !call.Value?
    ensures Quiet(s, Step(env, s, call).0)
  {
  }

  lemma DropsOnlyThroughDrift(env: Env, s: State, call: Call, q: Protocol)
    requires call.Move? && Step(env, s, call).1.Ok? && LoadAdapter(s.store, call.adapter).Ok?
    requires LoadAdapter(s.store, call.adapter).value.programId == AdapterId(q) && call.request.extraData != []
    ensures DroppedBy(env, s, call) == if q == Drift && call.request.extraData[0] == 2 then call.request.amount else 0
  {
    IdsDiffer(q, Drift);
  }

  lemma MoveIsBalanced(env: Env, s: State, call: Call, p: Protocol)
    requires call.Move? && Step(env, s, call).1.Ok?
    ensures Balanced(s, Step(env, s, call).0, p, DroppedBy(env, s, call))
  {
    var Move(op, signer, adapter, request, remaining, world) := call;
    var programId := LoadAdapter(s.store, adapter).value.programId;
    match ProtocolAt(programId)
    case Some(q) =>
      EndToEnd(env, s, q, op, signer, adapter, request, remaining, world);
      RoutedIsBalanced(s, p, q, op, signer, request, remaining, world.below.value);
      DropsOnlyThroughDrift(env, s, call, q);
    case None =>
      ForeignMoveIsQuiet(env, s, call);
      QuietIsBalanced(s, Step(env, s, call).0, p);
      ProtocolAtAdapter(Drift);
  }

  lemma StepIsBalanced(env: Env, s: State, call: Call, p: Protocol)
    ensures Balanced(s, Step(env, s, call).0, p, DroppedBy(env, s, call))
  {
    if call.Move? && Step(env, s, call).1.Ok? {
      MoveIsBalanced(env, s, call, p);
    } else {
      if call.Value? {
        QueryIsQuiet(env, s, call);
      } else if !call.Move? {
        AdministrationIsQuiet(env, s, call);
      }
      QuietIsBalanced(s, Step(env, s, call).0, p);
    }
  }

  /**
   Over every run and for every adapter: what the dispatcher reports is what the adapter reports plus, for
   Drift alone, what selector 2 drops; and what the adapter reports is what the protocol decodes, except for
   Maple, whose protocol instruction carries no amount.
   */
  lemma {:induction false} AmountsAreConserved(env: Env, calls: seq<Call>, p: Protocol)
    ensures var s := After(env, calls);
            && Reported(s.events, AdapterId(p)) ==
               AdapterReported(s.adapterEvents, p) + (if p == Drift then Dropped(env, calls) else 0)
            && (p != Maple ==> AdapterReported(s.adapterEvents, p) == Received(s.forwarded, p))
            && (p == Maple ==> Received(s.forwarded, p) == 0)
  {
    if calls != [] {
      AmountsAreConserved(env, Front(calls), p);
      StepIsBalanced(env, After(env, Front(calls)), Last(calls), p);
    }
  }
}
