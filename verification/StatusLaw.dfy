/** The status of an adapter is a function of how it was registered and how often it was toggled. */
module StatusLaw {
  import opened Outcomes
  import opened Bytes
  import opened Machine
  import opened Records
  import opened DispatcherSpec
  import opened Runs

  /** The record with which an address was registered, if it was. */
  function Origin(journal: seq<Entry>, address: Address): Option<Adapter> {
    if journal == [] then None
    else
      match Last(journal)
      case Created(x, a) => if x == address then Some(a) else Origin(Front(journal), address)
      case _ => Origin(Front(journal), address)
  }

  function Registrations(journal: seq<Entry>, address: Address): nat {
    if journal == [] then 0
    else Registrations(Front(journal), address) +
         if Last(journal).Created? && Last(journal).address == address then 1 else 0
  }

  function Flips(journal: seq<Entry>, address: Address): nat {
    if journal == [] then 0
    else Flips(Front(journal), address) + if Last(journal) == Flipped(address) then 1 else 0
  }

  /** A record `flips` toggles after its registration: only the status moves, and only off Deprecated. */
  function Evolved(origin: Adapter, flips: nat): Adapter {
    if origin.status == 2 then origin else origin.(status := (origin.status + flips) % 2)
  }

  function Toggles(events: seq<Event>, address: Address): nat {
    if events == [] then 0
    else Toggles(Front(events), address) +
         if Last(events).Toggled? && Last(events).adapter == address then 1 else 0
  }

  /** The status in the last toggle event of an address. */
  function LastToggle(events: seq<Event>, address: Address): Option<Byte> {
    if events == [] then None
    else if Last(events).Toggled? && Last(events).adapter == address then Some(Last(events).status)
    else LastToggle(Front(events), address)
  }

  /** The store against the journal, at one address. */
  predicate RecordLaw(store: map<Address, Account>, journal: seq<Entry>, address: Address) {
    var origin, flips := Origin(journal, address), Flips(journal, address);
    match origin
    case None => LoadAdapter(store, address).Err? && flips == 0 && Registrations(journal, address) == 0
    case Some(a) =>
      && LoadAdapter(store, address) == Ok(Evolved(a, flips))
      && Registrations(journal, address) == 1
      && a.status <= 2
      && (a.status == 2 ==> flips == 0)
  }

  /** The events against the journal and the store, at one address. */
  predicate EventLaw(s: State, journal: seq<Entry>, address: Address) {
    && Toggles(s.events, address) == Flips(journal, address)
    && match LastToggle(s.events, address)
       case None => Flips(journal, address) == 0
       case Some(status) =>
         && Flips(journal, address) > 0
         && LoadAdapter(s.store, address).Ok?
         && LoadAdapter(s.store, address).value.status == status
  }

  lemma Appended<T>(s: seq<T>, x: T)
    ensures Front(s + [x]) == s && Last(s + [x]) == x
  {
  }

  lemma ApplyKeepsRecordLaw(env: Env, store: map<Address, Account>, journal: seq<Entry>, e: Entry, address: Address)
    requires RecordLaw(store, journal, address) && Admissible(env, store, e)
    ensures RecordLaw(Apply(store, e), journal + [e], address)
  {
  }

  lemma StepKeepsRecordLaw(env: Env, s: State, call: Call, journal: seq<Entry>, address: Address)
    requires Inv(env, s) && RecordLaw(s.store, journal, address)
    ensures RecordLaw(Step(env, s, call).0.store, journal + EntriesOf(env, s, call), address)
  {
    StepIsItsEntries(env, s, call);
    var entries := EntriesOf(env, s, call);
    if entries == [] {
      assert journal + entries == journal;
    } else {
      EntriesAreAdmissible(env, s, call);
      ApplyKeepsRecordLaw(env, s.store, journal, entries[0], address);
    }
  }

  /** A change and an event belong together: a flip with its toggle event, anything else with none. */
  ghost predicate Announced(store: map<Address, Account>, entries: seq<Entry>, events: seq<Event>) {
    if entries != [] && entries[0].Flipped? then
      && |events| == 1 && events[0].Toggled? && events[0].adapter == entries[0].address
      && LoadAdapter(store, events[0].adapter).Ok?
      && LoadAdapter(store, events[0].adapter).value.status == events[0].status
    else
      events == [] || (|events| == 1 && events[0].Moved? && entries == [])
  }

  lemma ToggleIsAnnounced(env: Env, s: State, call: Call)
    ensures Announced(Step(env, s, call).0.store, EntriesOf(env, s, call), EventsOf(env, s, call))
  {
  }

  /** A toggle and its event, seen from one address. */
  lemma FlipKeepsEventLaw(s: State, t: State, journal: seq<Entry>, e: Entry, event: Event, address: Address)
    requires EventLaw(s, journal, address)
    requires e.Flipped? && t.store == Apply(s.store, e) && t.events == s.events + [event]
    requires event.Toggled? && event.adapter == e.address
    requires LoadAdapter(t.store, event.adapter).Ok? && LoadAdapter(t.store, event.adapter).value.status == event.status
    ensures EventLaw(t, journal + [e], address)
  {
    Appended(journal, e);
    Appended(s.events, event);
  }

  /** A registration happens where nothing was toggled before. */
  lemma CreationKeepsEventLaw(env: Env, s: State, t: State, journal: seq<Entry>, e: Entry, address: Address)
    requires RecordLaw(s.store, journal, address) && EventLaw(s, journal, address)
    requires !e.Flipped? && Admissible(env, s.store, e) && t.store == Apply(s.store, e) && t.events == s.events
    ensures EventLaw(t, journal + [e], address)
  {
    Appended(journal, e);
  }

  lemma QuietKeepsEventLaw(s: State, t: State, journal: seq<Entry>, events: seq<Event>, address: Address)
    requires EventLaw(s, journal, address) && t.store == s.store && t.events == s.events + events
    requires events == [] || (|events| == 1 && events[0].Moved?)
    ensures EventLaw(t, journal, address)
  {
    if events == [] {
      assert t.events == s.events;
    } else {
      Appended(s.events, events[0]);
    }
  }

  lemma AnnouncedKeepsEventLaw(env: Env, s: State, t: State, journal: seq<Entry>, entries: seq<Entry>,
                               events: seq<Event>, address: Address)
    requires RecordLaw(s.store, journal, address) && EventLaw(s, journal, address)
    requires |entries| <= 1 && (entries != [] ==> Admissible(env, s.store, entries[0]))
    requires t.store == ApplyAll(s.store, entries) && t.events == s.events + events
    requires Announced(t.store, entries, events)
    ensures EventLaw(t, journal + entries, address)
  {
    if entries == [] {
      assert journal + entries == journal;
      QuietKeepsEventLaw(s, t, journal, events, address);
    } else {
      var e := entries[0];
      assert entries == [e];
      if e.Flipped? {
        assert events == [events[0]];
        FlipKeepsEventLaw(s, t, journal, e, events[0], address);
      } else {
        CreationKeepsEventLaw(env, s, t, journal, e, address);
      }
    }
  }

  lemma StepKeepsEventLaw(env: Env, s: State, call: Call, journal: seq<Entry>, address: Address)
    requires Inv(env, s) && RecordLaw(s.store, journal, address) && EventLaw(s, journal, address)
    ensures EventLaw(Step(env, s, call).0, journal + EntriesOf(env, s, call), address)
  {
    StepIsItsEntries(env, s, call);
    EventsOfStep(env, s, call);
    ToggleIsAnnounced(env, s, call);
    if EntriesOf(env, s, call) != [] {
      EntriesAreAdmissible(env, s, call);
    }
    AnnouncedKeepsEventLaw(env, s, Step(env, s, call).0, journal, EntriesOf(env, s, call),
                           EventsOf(env, s, call), address);
  }

  /**
   In every reachable state, for every address: an adapter is stored there iff it was registered, once; its
   record is the registered one with the status flipped once per toggle, or untouched and never toggled if
   it was registered Deprecated; toggles and toggle events agree, and the last event carries the status.
   */
  lemma {:induction false} StatusIsHistory(env: Env, calls: seq<Call>, address: Address)
    ensures RecordLaw(After(env, calls).store, Journal(env, calls), address)
    ensures EventLaw(After(env, calls), Journal(env, calls), address)
  {
    if calls != [] {
      StatusIsHistory(env, Front(calls), address);
      Reachable(env, Front(calls));
      var s, journal := After(env, Front(calls)), Journal(env, Front(calls));
      StepKeepsRecordLaw(env, s, Last(calls), journal, address);
      StepKeepsEventLaw(env, s, Last(calls), journal, address);
    }
  }

  lemma StepKeepsRecords(env: Env, s: State, call: Call, address: Address)
    requires Inv(env, s) && LoadAdapter(s.store, address).Ok?
    ensures var a, b := LoadAdapter(s.store, address).value, LoadAdapter(Step(env, s, call).0.store, address);
            && b.Ok?
            && b.value == a.(status := b.value.status)
            && (a.status == 2 ==> b.value.status == 2)
  {
    StepIsItsEntries(env, s, call);
    if EntriesOf(env, s, call) != [] {
      EntriesAreAdmissible(env, s, call);
    }
  }

  /** From any point of a run to its end a record is never lost, and only its status can change. */
  lemma {:induction false} FrozenFields(env: Env, calls: seq<Call>, n: nat, address: Address)
    requires n <= |calls| && LoadAdapter(After(env, calls[..n]).store, address).Ok?
    ensures var a, b := LoadAdapter(After(env, calls[..n]).store, address).value,
                        LoadAdapter(After(env, calls).store, address);
            && b.Ok?
            && b.value == a.(status := b.value.status)
            && (a.status == 2 ==> b.value.status == 2)
  {
    if n == |calls| {
      assert calls[..n] == calls;
    } else {
      assert Front(calls)[..n] == calls[..n];
      FrozenFields(env, Front(calls), n, address);
      Reachable(env, Front(calls));
      StepKeepsRecords(env, After(env, Front(calls)), Last(calls), address);
    }
  }

  lemma InitStores(env: Env, s: State, call: Call)
    requires call.AdapterInit? && Step(env, s, call).1.Ok?
    ensures LoadAdapter(Step(env, s, call).0.store, call.adapter).Ok?
    ensures call.adapter == Canonical(env, AdapterSeeds(call.args.programId, call.args.authority))
  {
  }

  lemma InitNeedsFreeAddress(env: Env, s: State, call: Call)
    requires call.AdapterInit? && Step(env, s, call).1.Ok?
    ensures Canonical(env, AdapterSeeds(call.args.programId, call.args.authority)) !in s.store
  {
  }

  /** Once a program and authority are registered, registering them again fails. */
  lemma RepeatedInitFails(env: Env, calls: seq<Call>, k: nat, call: Call)
    requires k < |calls| && Succeeded(env, calls, k)
    requires calls[k].AdapterInit? && call.AdapterInit?
    requires calls[k].args.programId == call.args.programId && calls[k].args.authority == call.args.authority
    ensures !Step(env, After(env, calls), call).1.Ok?
  {
    InitStores(env, After(env, calls[..k]), calls[k]);
    assert Front(calls[..k + 1]) == calls[..k] && Last(calls[..k + 1]) == calls[k];
    FrozenFields(env, calls, k + 1, calls[k].adapter);
    if Step(env, After(env, calls), call).1.Ok? {
      InitNeedsFreeAddress(env, After(env, calls), call);
    }
  }
}
