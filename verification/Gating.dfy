/** Every program the dispatcher invokes was registered by the initializer and active at that moment. */
module Gating {
  import opened Outcomes
  import opened Machine
  import opened Records
  import opened DispatcherSpec
  import opened Runs
  import opened StatusLaw

  predicate Routes(call: Call) {
    call.Move? || call.Value?
  }

  /** The call at position `k` registered a program at an address, signed by the initializer. */
  predicate Registers(env: Env, calls: seq<Call>, k: nat, address: Address, programId: Pubkey)
    requires k < |calls|
  {
    && Succeeded(env, calls, k)
    && calls[k].AdapterInit?
    && calls[k].adapter == address
    && calls[k].args.programId == programId
    && calls[k].initializer.key == INITIALIZER
    && calls[k].initializer.isSigner
  }

  /** The call at position `n` may invoke a program: registered earlier in the run, and active by its history. */
  ghost predicate Gated(env: Env, calls: seq<Call>, n: nat, programId: Pubkey)
    requires n < |calls|
  {
    && Routes(calls[n])
    && Succeeded(env, calls, n)
    && var address, journal := calls[n].adapter, Journal(env, calls[..n]);
    && Origin(journal, address).Some?
    && Evolved(Origin(journal, address).value, Flips(journal, address)).status == 0
    && exists k: nat :: k < n && Registers(env, calls, k, address, programId)
  }

  lemma RegistrationStep(env: Env, s: State, call: Call)
    requires Inv(env, s) && EntriesOf(env, s, call) != [] && EntriesOf(env, s, call)[0].Created?
    ensures call.AdapterInit? && call.initializer.isSigner && call.initializer.key == INITIALIZER
    ensures EntriesOf(env, s, call)[0].address == call.adapter
    ensures EntriesOf(env, s, call)[0].adapter.programId == call.args.programId
  {
    assert Sound(env, s.store, call.registry);
  }

  lemma OriginExtended(journal: seq<Entry>, entries: seq<Entry>, address: Address)
    requires |entries| <= 1
    ensures Origin(journal + entries, address) ==
            if entries != [] && entries[0].Created? && entries[0].address == address then Some(entries[0].adapter)
            else Origin(journal, address)
  {
    if entries == [] {
      assert journal + entries == journal;
    } else {
      Appended(journal, entries[0]);
    }
  }

  /** A record in the journal was put there by a call of the run. */
  lemma {:induction false} OriginIsACall(env: Env, calls: seq<Call>, address: Address) returns (k: nat)
    requires Origin(Journal(env, calls), address).Some?
    ensures k < |calls|
    ensures Registers(env, calls, k, address, Origin(Journal(env, calls), address).value.programId)
  {
    var before := Front(calls);
    var entries := EntriesOf(env, After(env, before), Last(calls));
    OriginExtended(Journal(env, before), entries, address);
    if entries != [] && entries[0].Created? && entries[0].address == address {
      k := |before|;
      assert calls[..k] == before;
      Reachable(env, before);
      RegistrationStep(env, After(env, before), Last(calls));
    } else {
      k := OriginIsACall(env, before, address);
      RegistersInLongerRun(env, calls, k, address, Origin(Journal(env, calls), address).value.programId);
    }
  }

  lemma RegistersInLongerRun(env: Env, calls: seq<Call>, k: nat, address: Address, programId: Pubkey)
    requires calls != [] && k < |Front(calls)| && Registers(env, Front(calls), k, address, programId)
    ensures Registers(env, calls, k, address, programId)
  {
    assert Front(calls)[..k] == calls[..k];
  }

  /** One call routes at most one instruction, and only to the active record it names. */
  lemma RoutedByStep(env: Env, s: State, call: Call)
    ensures Step(env, s, call).1.Ok? && Routes(call) ==>
              && LoadAdapter(s.store, call.adapter).Ok?
              && LoadAdapter(s.store, call.adapter).value.status == 0
    ensures Step(env, s, call).0.routed == s.routed +
              if Step(env, s, call).1.Ok? && Routes(call) then [InstructionOf(s, call)] else []
  {
    if call.Move? {
      MoveFrame(s.(returnData := None), call.op, call.signer, call.adapter, call.request, call.remaining, call.world);
    } else if call.Value? {
      ValueFrame(s.(returnData := None), call.authority, call.adapter, call.remaining, call.world);
    }
  }

  function SuccessfulRoutes(env: Env, calls: seq<Call>): nat {
    if calls == [] then 0
    else SuccessfulRoutes(env, Front(calls)) +
         if Routes(Last(calls)) && Step(env, After(env, Front(calls)), Last(calls)).1.Ok? then 1 else 0
  }

  /** The trace holds one instruction per successful deposit, withdrawal or query. */
  lemma {:induction false} TraceLength(env: Env, calls: seq<Call>)
    ensures |After(env, calls).routed| == SuccessfulRoutes(env, calls)
  {
    if calls != [] {
      TraceLength(env, Front(calls));
      RoutedByStep(env, After(env, Front(calls)), Last(calls));
    }
  }

  lemma GatedInLongerRun(env: Env, calls: seq<Call>, n: nat, programId: Pubkey)
    requires calls != [] && n < |Front(calls)| && Gated(env, Front(calls), n, programId)
    ensures Gated(env, calls, n, programId)
  {
    var before := Front(calls);
    assert before[..n] == calls[..n];
    var k: nat :| k < n && Registers(env, before, k, before[n].adapter, programId);
    RegistersInLongerRun(env, calls, k, calls[n].adapter, programId);
  }

  lemma LastIsGated(env: Env, calls: seq<Call>)
    requires calls != [] && Routes(Last(calls)) && Step(env, After(env, Front(calls)), Last(calls)).1.Ok?
    ensures After(env, calls).routed != []
    ensures Gated(env, calls, |calls| - 1, Last(After(env, calls).routed).programId)
  {
    var before, n := Front(calls), |calls| - 1;
    assert calls[..n] == before;
    RoutedByStep(env, After(env, before), Last(calls));
    StatusIsHistory(env, before, Last(calls).adapter);
    var k := OriginIsACall(env, before, Last(calls).adapter);
    RegistersInLongerRun(env, calls, k, calls[n].adapter, Last(After(env, calls).routed).programId);
  }

  /** The call at position `n` of a run issued the instruction at position `i` of its trace. */
  predicate Issued(env: Env, calls: seq<Call>, n: nat, i: nat)
    requires n < |calls| && i < |After(env, calls).routed|
  {
    var s := After(env, calls[..n]);
    && Routes(calls[n])
    && |s.routed| == i
    && LoadAdapter(s.store, calls[n].adapter).Ok?
    && After(env, calls).routed[i] == InstructionOf(s, calls[n])
  }

  /**
   Every instruction in the trace of a run was issued by one call of the run, from the record that the call
   names as it stood at that moment; the record was active then, by its stored status and by its history, and
   the initializer had registered it earlier in the run.
   */
  lemma {:induction false} EveryRoutedCallIsGated(env: Env, calls: seq<Call>, i: nat) returns (n: nat)
    requires i < |After(env, calls).routed|
    ensures n < |calls| && Issued(env, calls, n, i)
    ensures LoadAdapter(After(env, calls[..n]).store, calls[n].adapter).value.status == 0
    ensures Gated(env, calls, n, After(env, calls).routed[i].programId)
  {
    var before := Front(calls);
    RoutedByStep(env, After(env, before), Last(calls));
    if i < |After(env, before).routed| {
      n := EveryRoutedCallIsGated(env, before, i);
      assert before[..n] == calls[..n];
      GatedInLongerRun(env, calls, n, After(env, calls).routed[i].programId);
    } else {
      n := |before|;
      assert calls[..n] == before;
      LastIsGated(env, calls);
    }
  }

  /** No two instructions of a trace were issued by one call, and later ones by later calls. */
  lemma {:induction false} IssuedInOrder(env: Env, calls: seq<Call>, m: nat, i: nat, n: nat, j: nat)
    requires i < |After(env, calls).routed| && j < |After(env, calls).routed|
    requires m < |calls| && n < |calls| && Issued(env, calls, m, i) && Issued(env, calls, n, j)
    ensures i < j ==> m < n
  {
    if n <= m {
      TraceGrows(env, calls[..m], n);
      assert calls[..m][..n] == calls[..n];
    }
  }

  lemma {:induction false} TraceGrows(env: Env, calls: seq<Call>, n: nat)
    requires n <= |calls|
    ensures |After(env, calls[..n]).routed| <= |After(env, calls).routed|
  {
    if n == |calls| {
      assert calls[..n] == calls;
    } else {
      assert Front(calls)[..n] == calls[..n];
      TraceGrows(env, Front(calls), n);
      RoutedByStep(env, After(env, Front(calls)), Last(calls));
    }
  }
}
