/**
 What a run leaves in its other logs is a function of the instructions that the dispatcher invoked: each
 deposit or withdrawal is echoed once by the dispatcher, once by the adapter and once to the protocol.
 */
module Traces {
  import opened Outcomes
  import opened Machine
  import opened Interface
  import opened Protocols
  import opened AdapterSpec
  import opened Records
  import opened DispatcherSpec
  import opened TwoHops
  import opened Runs
  import opened StatusLaw
  import opened Gating
  import opened Conservation
  import Borsh

  function FlatMap<T, U>(f: T -> seq<U>, s: seq<T>): seq<U> {
    if s == [] then [] else FlatMap(f, Front(s)) + f(Last(s))
  }

  function Keep<T>(p: T -> bool, s: seq<T>): seq<T> {
    if s == [] then [] else Keep(p, Front(s)) + if p(Last(s)) then [Last(s)] else []
  }

  predicate IsMoved(e: Event) {
    e.Moved?
  }

  predicate IsForwarded(e: AdapterEvent) {
    e.Forwarded?
  }

  /** The deposit or withdrawal an instruction asks for, read off its bytes. */
  function RequestIn(ins: Instruction): Option<(Op, Borsh.Args)> {
    match Parse(ins.data)
    case Ok(MoveRequest(op, args)) => Some((op, args))
    case _ => None
  }

  /** An instruction that asks one of the five adapters to deposit or withdraw. */
  predicate IsTransfer(ins: Instruction) {
    ProtocolAt(ins.programId).Some? && RequestIn(ins).Some?
  }

  /** What an adapter invoked by this instruction is meant to tell its protocol. */
  function MeaningIn(ins: Instruction): Option<Meaning>
    requires IsTransfer(ins)
  {
    var p, (op, args) := ProtocolAt(ins.programId).value, RequestIn(ins).value;
    if args.extraData == [] || Select(p, op, args.extraData[0]).None? || !Intent(p, op, args).Ok? then None
    else Some(Intent(p, op, args).value)
  }

  /** The protocol instruction that follows from an instruction to an adapter: its own metas without the first. */
  function Translation(ins: Instruction): seq<Instruction> {
    if !IsTransfer(ins) || ins.metas == [] || MeaningIn(ins).None? then []
    else [Instruction(ProgramId(ProtocolAt(ins.programId).value), ins.metas[1..], Encode(MeaningIn(ins).value))]
  }

  function DispatcherEcho(ins: Instruction): seq<Event> {
    if RequestIn(ins).None? || ins.metas == [] then []
    else
      var (op, args) := RequestIn(ins).value;
      [Moved(op, ins.metas[0].key, ins.programId, args.amount)]
  }

  function AdapterEcho(ins: Instruction): seq<AdapterEvent> {
    if !IsTransfer(ins) || ins.metas == [] || MeaningIn(ins).None? then []
    else
      var p, (op, args) := ProtocolAt(ins.programId).value, RequestIn(ins).value;
      [Forwarded(op, ins.metas[0].key, ProgramId(p), EventAmount(p, MeaningIn(ins).value, args.amount))]
  }

  /** The logs of a state, as functions of the instructions invoked; by the equal lengths no transfer is skipped. */
  ghost predicate Echoed(s: State) {
    && s.forwarded == FlatMap(Translation, s.routed)
    && Keep(IsMoved, s.events) == FlatMap(DispatcherEcho, s.routed)
    && Keep(IsForwarded, s.adapterEvents) == FlatMap(AdapterEcho, s.routed)
    && |s.forwarded| == |Keep(IsTransfer, s.routed)|
  }

  lemma FlatMapAppended<T, U>(f: T -> seq<U>, s: seq<T>, x: T)
    ensures FlatMap(f, s + [x]) == FlatMap(f, s) + f(x)
  {
    Appended(s, x);
  }

  lemma KeepAppended<T>(p: T -> bool, s: seq<T>, x: T)
    ensures Keep(p, s + [x]) == Keep(p, s) + if p(x) then [x] else []
  {
    Appended(s, x);
  }

  lemma RequestOfMove(programId: Pubkey, op: Op, signer: AccountInfo, request: Borsh.Args, remaining: seq<AccountInfo>)
    requires |request.extraData| <= EXTRA_DATA_MAX_LEN
    ensures var ins := MoveInstruction(programId, op, signer, request, remaining);
            && RequestIn(ins) == Some((op, request))
            && DispatcherEcho(ins) == [Moved(op, signer.key, programId, request.amount)]
  {
    FirstHop(op, request);
  }

  lemma EchoesOfMove(p: Protocol, op: Op, signer: AccountInfo, request: Borsh.Args, remaining: seq<AccountInfo>)
    requires 1 <= |request.extraData| <= EXTRA_DATA_MAX_LEN
    requires Select(p, op, request.extraData[0]).Some? && Intent(p, op, request).Ok?
    ensures var ins, m := MoveInstruction(AdapterId(p), op, signer, request, remaining), Intent(p, op, request).value;
            && Translation(ins) == [Instruction(ProgramId(p), MetasOf(remaining), Encode(m))]
            && AdapterEcho(ins) == [Forwarded(op, signer.key, ProgramId(p), EventAmount(p, m, request.amount))]
  {
    ProtocolAtAdapter(p);
    RequestOfMove(AdapterId(p), op, signer, request, remaining);
    assert HopMetas(signer, remaining)[1..] == MetasOf(remaining);
  }

  lemma EchoesOfQuery(programId: Pubkey, authority: AccountInfo, remaining: seq<AccountInfo>)
    ensures RequestIn(ValueInstruction(programId, authority, remaining)).None?
  {
    QueryLayout(programId, authority, remaining);
  }

  /** One more instruction, with its echoes. */
  lemma EchoedOneMore(s: State, t: State, ins: Instruction)
    requires Echoed(s) && t.routed == s.routed + [ins]
    requires t.forwarded == s.forwarded + Translation(ins)
    requires Keep(IsMoved, t.events) == Keep(IsMoved, s.events) + DispatcherEcho(ins)
    requires Keep(IsForwarded, t.adapterEvents) == Keep(IsForwarded, s.adapterEvents) + AdapterEcho(ins)
    requires IsTransfer(ins) ==> |Translation(ins)| == 1
    ensures Echoed(t)
  {
    KeepAppended(IsTransfer, s.routed, ins);
    FlatMapAppended(Translation, s.routed, ins);
    FlatMapAppended(DispatcherEcho, s.routed, ins);
    FlatMapAppended(AdapterEcho, s.routed, ins);
  }

  lemma QuietKeepsTransfers(s: State, t: State)
    requires Quiet(s, t)
    ensures t.forwarded == s.forwarded && Keep(IsForwarded, t.adapterEvents) == Keep(IsForwarded, s.adapterEvents)
  {
    if t.adapterEvents != s.adapterEvents {
      KeepAppended(IsForwarded, s.adapterEvents, Last(t.adapterEvents));
    }
  }

  lemma TransferKeepsEchoed(env: Env, s: State, call: Call, p: Protocol)
    requires Echoed(s) && call.Move? && Step(env, s, call).1.Ok? && LoadAdapter(s.store, call.adapter).Ok?
    requires LoadAdapter(s.store, call.adapter).value.programId == AdapterId(p)
    ensures Echoed(Step(env, s, call).0)
  {
    var Move(op, signer, adapter, request, remaining, world) := call;
    EndToEnd(env, s, p, op, signer, adapter, request, remaining, world);
    EchoesOfMove(p, op, signer, request, remaining);
    RequestOfMove(AdapterId(p), op, signer, request, remaining);
    var m := Intent(p, op, request).value;
    KeepAppended(IsMoved, s.events, Moved(op, signer.key, AdapterId(p), request.amount));
    KeepAppended(IsForwarded, s.adapterEvents,
                 Forwarded(op, signer.key, ProgramId(p), EventAmount(p, m, request.amount)));
    EchoedOneMore(s, Step(env, s, call).0, MoveInstruction(AdapterId(p), op, signer, request, remaining));
  }

  /** An instruction that is not a transfer through the five is echoed by the dispatcher at most. */
  lemma OnlyDispatcherEchoes(s: State, t: State, ins: Instruction, events: seq<Event>)
    requires Echoed(s) && Quiet(s, t) && !IsTransfer(ins)
    requires t.routed == s.routed + [ins] && t.events == s.events + events
    requires DispatcherEcho(ins) == events && (events == [] || (|events| == 1 && events[0].Moved?))
    ensures Echoed(t)
  {
    QuietKeepsTransfers(s, t);
    if events == [] {
      assert t.events == s.events;
    } else {
      KeepAppended(IsMoved, s.events, events[0]);
    }
    EchoedOneMore(s, t, ins);
  }

  lemma ForeignMoveKeepsEchoed(env: Env, s: State, call: Call)
    requires Echoed(s) && call.Move? && Step(env, s, call).1.Ok? && LoadAdapter(s.store, call.adapter).Ok?
    requires ProtocolAt(LoadAdapter(s.store, call.adapter).value.programId).None?
    ensures Echoed(Step(env, s, call).0)
  {
    ForeignMoveIsQuiet(env, s, call);
    RoutedByStep(env, s, call);
    EventsOfStep(env, s, call);
    assert |call.request.extraData| <= EXTRA_DATA_MAX_LEN;
    RequestOfMove(LoadAdapter(s.store, call.adapter).value.programId, call.op, call.signer, call.request,
                  call.remaining);
    OnlyDispatcherEchoes(s, Step(env, s, call).0, InstructionOf(s, call), EventsOf(env, s, call));
  }

  lemma QueryKeepsEchoed(env: Env, s: State, call: Call)
    requires Echoed(s) && call.Value? && Step(env, s, call).1.Ok?
    ensures Echoed(Step(env, s, call).0)
  {
    QueryIsQuiet(env, s, call);
    RoutedByStep(env, s, call);
    EventsOfStep(env, s, call);
    EchoesOfQuery(LoadAdapter(s.store, call.adapter).value.programId, call.authority, call.remaining);
    OnlyDispatcherEchoes(s, Step(env, s, call).0, InstructionOf(s, call), []);
  }

  lemma NothingToEcho(s: State, t: State, events: seq<Event>)
    requires Echoed(s) && Quiet(s, t) && t.routed == s.routed
    requires t.events == s.events + events && (events == [] || (|events| == 1 && !events[0].Moved?))
    ensures Echoed(t)
  {
    QuietKeepsTransfers(s, t);
    if events == [] {
      assert t.events == s.events;
    } else {
      KeepAppended(IsMoved, s.events, events[0]);
    }
  }

  lemma AdministrationKeepsEchoed(env: Env, s: State, call: Call)
    requires Echoed(s) && !call.Move? && !call.Value?
    ensures Echoed(Step(env, s, call).0)
  {
    AdministrationIsQuiet(env, s, call);
    RoutedByStep(env, s, call);
    EventsOfStep(env, s, call);
    NothingToEcho(s, Step(env, s, call).0, EventsOf(env, s, call));
  }

  lemma StepKeepsEchoed(env: Env, s: State, call: Call)
    requires Echoed(s)
    ensures Echoed(Step(env, s, call).0)
  {
    if !call.Move? && !call.Value? {
      AdministrationKeepsEchoed(env, s, call);
    } else if Step(env, s, call).1.Ok? {
      RoutedByStep(env, s, call);
      var p := ProtocolAt(LoadAdapter(s.store, call.adapter).value.programId);
      if call.Value? {
        QueryKeepsEchoed(env, s, call);
      } else if p.Some? {
        TransferKeepsEchoed(env, s, call, p.value);
      } else {
        ForeignMoveKeepsEchoed(env, s, call);
      }
    }
  }

  /**
   In every run the instructions received by the protocols are, in order, the translations of the deposits and
   withdrawals sent to the five adapters, one each; and the transfers that the dispatcher and the adapters
   report are, in order, the ones those instructions ask for.
   */
  lemma {:induction false} LogsEchoTheTrace(env: Env, calls: seq<Call>)
    ensures Echoed(After(env, calls))
  {
    if calls != [] {
      LogsEchoTheTrace(env, Front(calls));
      StepKeepsEchoed(env, After(env, Front(calls)), Last(calls));
    }
  }
}
