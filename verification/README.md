# Yield adapter dispatcher and adapters: a verified model

The system routes a client's request to a yield protocol through two programs. The **dispatcher** keeps a
registry of adapters, checks that the named adapter is active, prints the request in Borsh form and invokes the
adapter. The **adapter** parses the request, picks a protocol instruction by the first byte of `extra_data`, prints
it and invokes the protocol. A value query travels the same way and comes back through the return-data buffer.

The project has two layers.

* A specification of every instruction as a function from state to state: `AdapterSpec.dfy` for the adapters,
  `DispatcherSpec.dfy` for the dispatcher, where `Step` is one transaction with rollback.
* The programs themselves, as methods over a mutable `Ledger` and growable buffers (`Vectors.dfy`), in the order of
  the programs' own statements: `Dispatcher.dfy`, `DriftAdapter.dfy`, `JupiterAdapter.dfy`, `KaminoAdapter.dfy`,
  `MapleAdapter.dfy`, `MarginFiAdapter.dfy`. Each method is proved to reach the state and outcome of its specification.

The theorems are about the specification. `TwoHops.dfy` follows a request across both programs, `Wire.dfy` writes out
every byte that each adapter sends for each selector, `Protocols.dfy` says what those bytes mean and which requests
collide, `Relays.dfy` covers the return data, `Refusals.dfy` names the error of every refused request, and `Runs.dfy`,
`StatusLaw.dfy`, `Gating.dfy`, `Traces.dfy`, `Conservation.dfy`, `Access.dfy` and `Atomicity.dfy` speak of every run:
any list of calls, by any signer, with any arguments, including the ones that fail. `Witnesses.dfy` builds concrete runs.

## What is taken as given

* An address is an ideal, injective function of the concatenated seeds and the bump (`Pda`), because no injective
  function into 32 bytes exists; the canonical bump is an arbitrary function of the seeds (`Env`).
* The runtime undoes a failed transaction, clears the return data at the start of every invocation, and hands the callee
  the keys, flags and data that were sent. The one flag it may raise is the writable flag of the injected authority,
  which the dispatcher sends read-only and most adapter entry points demand: it is a parameter of each call
  (`World.authorityWritable`), and a condition of every end-to-end result.
* A program the model cannot see is an arbitrary tree of return-data writes and invocations, or a failure
  (`World.below`). It cannot change the dispatcher's accounts. A write of zero bytes leaves no return data
  behind it, whatever was there before.
* The timestamp of a registration is an arbitrary `i64`; a `usize` has 64 bits.
* The five adapters sit at the addresses they declare; every other registered program is one the model cannot see, and
  does not itself invoke one of the five.
* A protocol reads an instruction by its discriminator and finds the amount where the adapter put it: after two
  bytes, first, or in the last eight bytes. `TwoHops.AppendedAmountPosition` says when the last reading agrees with
  a fixed position.

## Where code and documentation disagree

* `docs/adapter-standard.md:498` asks adapters to validate the minimum length before slicing. Drift does not: it panics on
  an `extra_data` of one or two bytes in its spot deposit and all its withdrawals (`AdapterSpec.AbortDomain`).
  `TwoHops.PanicDomain` says exactly which client requests reach that panic, and `Witnesses.PanicIsReachable` is one.
* `programs/kamino-adapter/src/lib.rs` announces a forwarded tail only for `deposit_and_withdraw`; the code forwards it
  for `redeem_reserve_collateral` too. The model follows the code.
* `docs/adapter-standard.md:430-431` expects missing return data only when the adapter sets none, and invalid return
  data whenever there are fewer than eight bytes. A value that is set and then followed by another invocation, or
  overwritten by an empty one, is missing as well, and so are zero bytes; one to seven bytes are invalid
  (`Relays.WriteBeforeInvokeIsLost`). `Relays.RelayOfForeignProgram` gives the exact condition.

## Model

| member | source | states |
|---|---|---|
| TwoHops.EndToEnd | programs/dispatcher/src/instructions/deposit.rs:41-78 | For every request to one of the five adapters: it succeeds exactly when the dispatcher admits it, the injected authority arrives writable, the adapter's guards hold and the protocol accepts; then the new state is fully determined: each log grows by one stated entry, and the protocol decodes what the request asks for. The five `Wire` theorems write the bytes out |
| Wire.DriftTransfer | programs/drift-adapter/src/instructions/adapter_deposit.rs:36-119 | Every transfer through Drift: the literal conditions under which it succeeds; then one instruction to the literal program id, the client's keys and flags in order, and for each of the six selectors the literal discriminator, the slices of the extra data and the little-endian amount in their places; the reported amount is zero for selector 2 alone |
| Wire.JupiterTransfer | programs/jupiter-adapter/src/instructions/adapter_withdraw.rs:41-116 | The same for Jupiter's four selectors, with its fourteen accounts: which instruction is sent for a deposit and which for a withdrawal, literally |
| Wire.KaminoTransfer | programs/kamino-adapter/src/instructions/adapter_withdraw.rs:36-121 | The same for Kamino's seven selectors; the tail follows the amount for deposit 3 and withdrawals 1 and 2 |
| Wire.MapleTransfer | programs/maple-adapter/src/instructions/adapter_deposit.rs:22-109 | The same for Maple: eighteen accounts, the client as signer at index 3, the message without the amount, and the amount in the event |
| Wire.MarginFiTransfer | programs/marginfi-adapter/src/instructions/adapter_deposit.rs:36-97 | The same for MarginFi's deposit and withdrawal: amount, then tail |
| TwoHops.ForeignTransfer | programs/dispatcher/src/instructions/withdraw.rs:40-77 | Every transfer through a registered program other than the five: it succeeds exactly when the dispatcher admits it and the program succeeds; then one event, one instruction and the program's return data are all that changed; an admitted one whose program fails answers that failure and changes nothing |
| Refusals.TransferRefusals | programs/jupiter-adapter/src/instructions/adapter_deposit.rs:22-52 | The answer to every admitted transfer through the five adapters: the failing check is named in order, with the adapter's own error code, the panic, or the protocol's failure |
| Refusals.RoutingRefusals | programs/dispatcher/src/instructions/deposit.rs:29-39 | In every reachable state, to a signing and writable client: an inactive record answers Inactive to transfers and queries, more than 64 bytes answers Overflow, and anything else is admitted |
| Refusals.ToggleRefusals | programs/dispatcher/src/instructions/toggle_adapter.rs:29-46 | In every reachable state: a toggle by another authority answers Unauthorized, one of a deprecated record Deprecated, any other succeeds |
| Refusals.RegistrationRefusals | programs/dispatcher/src/instructions/adapter_init.rs:44-90 | In every reachable state with a registry, for a free pair at its address: another initializer answers Unauthorized, a status above 2 InvalidStatus, a default key InvalidAccount, any other succeeds |
| Refusals.QueryRefusals | programs/drift-adapter/src/instructions/adapter_current_value.rs:19-36 | The answer to every admitted query through the five adapters: an empty list panics except in Maple, which answers InvalidAccount; a short account answers AccountDataTooShort; a foreign layout passes its own error on |
| TwoHops.PanicDomain | programs/drift-adapter/src/instructions/adapter_deposit.rs:88-93 | For every request to one of the five adapters: the call panics if and only if the dispatcher admits it, the authority arrives writable and the adapter is Drift, for a non-default client, with one or two bytes of extra data whose first selects an instruction built from three; nothing is changed then |
| Witnesses.PanicIsReachable | programs/drift-adapter/src/instructions/adapter_withdraw.rs:84-94 | After the registry is created and Drift's adapter registered as active, a withdrawal with two bytes of extra data panics and changes nothing, for any client and amount |
| Witnesses.SetupIsActive | programs/dispatcher/src/instructions/adapter_init.rs:70-91 | From the empty state two calls of the initializer store an active record for any program, authority and mint but the default key |
| TwoHops.FirstHop | programs/dispatcher/src/instructions/deposit.rs:45-49 | The adapter's entry point parses exactly the operation, amount and extra data that the dispatcher printed |
| TwoHops.AdapterHop | programs/drift-adapter/src/instructions/adapter_deposit.rs:15-19 | The `mut` constraint on the authority decides whether the adapter runs: with the flag it runs on the client's accounts, without it the call fails before the adapter's own checks |
| TwoHops.SecondHop | programs/kamino-adapter/src/instructions/adapter_deposit.rs:36-123 | The adapter's answer to any admitted message: it succeeds exactly when the authority arrives writable, its guards hold and the protocol accepts, and then one instruction and one event are added |
| TwoHops.MessageLayout | programs/dispatcher/src/instructions/withdraw.rs:34-48 | The message of an admitted request byte for byte: the eight literal bytes of the entry point, the little-endian amount, the length in four bytes, the extra data; 20 bytes plus the extra data, at most 84 |
| TwoHops.QueryLayout | programs/dispatcher/src/instructions/current_value.rs:36-60 | The message of a query is the eight literal bytes of its entry point, sent with the same account list, and the adapter parses it as a query |
| TwoHops.TrailingBytesAreIgnored | programs/drift-adapter/src/instructions/adapter_deposit.rs:9-13 | The printed form of a request followed by any bytes is accepted as that request |
| Bytes.Weights | crates/yield-adapter-interface/src/layout.rs:13-18 | The eight bytes of a `u64` weigh 1, 2^8, up to 2^56, first byte least |
| TwoHops.ParseIsCanonical | programs/drift-adapter/src/instructions/adapter_withdraw.rs:9-13 | Whatever an adapter accepts as deposit or withdraw data is the printed form of one request followed by ignored bytes |
| TwoHops.NoEscalation | programs/dispatcher/src/instructions/deposit.rs:51-67 | The first hop names the client, who signed and is writable, as a read-only signer, then each remaining account with its own key, signer flag and writable flag; whatever flag the authority is delivered with, the second hop repeats the same keys and flags |
| TwoHops.Collisions | programs/kamino-adapter/src/instructions/adapter_withdraw.rs:37-121 | Two admitted requests through one adapter print the same protocol bytes if and only if they are the same operation and selector, or one of the listed cross-operation pairs, and agree on the fields the instruction keeps |
| TwoHops.SpotAmountPosition | programs/drift-adapter/src/instructions/adapter_deposit.rs:88-98 | Drift's spliced amount sits at byte 10 for every amount and extra data |
| TwoHops.AppendedAmountPosition | programs/drift-adapter/src/instructions/adapter_deposit.rs:100-109 | Drift's appended amount sits at that same byte for every amount if and only if the extra data has exactly three bytes |
| Protocols.DecodeEncode | programs/drift-adapter/src/instructions/adapter_deposit.rs:88-119 | Reading a printed protocol instruction returns its meaning, for all 19 instructions |
| Protocols.EncodeDecode | programs/drift-adapter/src/instructions/adapter_withdraw.rs:84-115 | Every byte string a protocol reads is the printed form of what it reads: no meaning has two spellings |
| Protocols.Kernel | programs/kamino-adapter/src/instructions/adapter_deposit.rs:53-123 | Two requests print the same bytes if and only if they select the same instruction and agree on exactly the kept amount and kept extra bytes |
| Protocols.Coincidence | programs/maple-adapter/src/instructions/adapter_withdraw.rs:47-56 | A deposit and a withdrawal share an instruction only for Kamino 3 and 2 and for Maple 0 and 0 |
| Protocols.SelectorsDiffer | programs/kamino-adapter/src/instructions/adapter_deposit.rs:37-51 | Within one operation distinct selectors select distinct instructions |
| Protocols.DiscriminatorsDiffer | programs/kamino-adapter/src/constants.rs:3-16 | Within one protocol a discriminator names one instruction |
| Protocols.Capacity | programs/drift-adapter/src/instructions/adapter_withdraw.rs:84-115 | Drift's data never outgrows its reserve, Maple's fills it exactly, and the sixteen bytes the others reserve suffice if and only if no tail is kept |
| AdapterSpec.SuccessDomain | programs/jupiter-adapter/src/instructions/adapter_deposit.rs:22-52 | An adapter invokes its protocol if and only if its guards hold, and succeeds if and only if the protocol does too; otherwise the state is untouched |
| AdapterSpec.AbortDomain | programs/drift-adapter/src/instructions/adapter_withdraw.rs:84-113 | While moving funds an adapter panics if and only if it is Drift, slicing an extra data shorter than three bytes |
| AdapterSpec.MoveErrors | programs/maple-adapter/src/instructions/adapter_deposit.rs:22-56 | While moving funds an adapter raises only its own error codes |
| AdapterSpec.ValueErrors | programs/drift-adapter/src/instructions/adapter_current_value.rs:19-36 | While reading a value an adapter raises only its own or the reader's errors, or the foreign decoder's |
| AdapterKit.CollectMetas | programs/drift-adapter/src/instructions/adapter_deposit.rs:59-67 | The loop produces one meta per remaining account, in order, with its flags |
| AdapterKit.BuildAndInvoke | programs/drift-adapter/src/instructions/adapter_deposit.rs:54-86 | Invokes the protocol with the given data and, only on success, reports the given amount |
| AdapterKit.BuildAmountFirst | programs/kamino-adapter/src/instructions/adapter_deposit.rs:59-62 | Fills the buffer with discriminator, amount and tail, without reallocation when there is no tail |
| AdapterKit.AmountThenTail | programs/marginfi-adapter/src/instructions/adapter_deposit.rs:50-88 | Builds, invokes and reports for the adapters that put the amount first |
| DriftAdapter.BuildSpliced | programs/drift-adapter/src/instructions/adapter_deposit.rs:88-93 | Discriminator, bytes 1 and 2 of the extra data in that order, amount, the rest from byte 3, in the reserved buffer; aborts exactly below three bytes |
| DriftAdapter.BuildAppended | programs/drift-adapter/src/instructions/adapter_deposit.rs:100-104 | Everything after the selector, then the amount, in the reserved buffer |
| DriftAdapter.BuildWithoutAmount | programs/drift-adapter/src/instructions/adapter_deposit.rs:111-114 | Everything after the selector and no amount, in the reserved buffer |
| DriftAdapter.BuildTwoBytes | programs/drift-adapter/src/instructions/adapter_withdraw.rs:96-112 | Two bytes and, for the request alone, the amount; aborts exactly below three bytes |
| DriftAdapter.AdapterDeposit | programs/drift-adapter/src/instructions/adapter_deposit.rs:36-119 | The deposit handler, step by step, reaches the state and outcome that `Wire.DriftTransfer` and `Refusals.TransferRefusals` write out |
| DriftAdapter.AdapterWithdraw | programs/drift-adapter/src/instructions/adapter_withdraw.rs:36-115 | The withdraw handler, step by step, reaches the state and outcome that `Wire.DriftTransfer` and `Refusals.TransferRefusals` write out |
| KaminoAdapter.AdapterDeposit | programs/kamino-adapter/src/instructions/adapter_deposit.rs:36-123 | The deposit handler, step by step, reaches the state and outcome that `Wire.KaminoTransfer` and `Refusals.TransferRefusals` write out |
| KaminoAdapter.AdapterWithdraw | programs/kamino-adapter/src/instructions/adapter_withdraw.rs:36-121 | The withdraw handler, step by step, reaches the state and outcome that `Wire.KaminoTransfer` and `Refusals.TransferRefusals` write out |
| JupiterAdapter.AdapterDeposit | programs/jupiter-adapter/src/instructions/adapter_deposit.rs:41-108 | The deposit handler, step by step, reaches the state and outcome that `Wire.JupiterTransfer` and `Refusals.TransferRefusals` write out |
| JupiterAdapter.AdapterWithdraw | programs/jupiter-adapter/src/instructions/adapter_withdraw.rs:41-116 | The withdraw handler, step by step, reaches the state and outcome that `Wire.JupiterTransfer` and `Refusals.TransferRefusals` write out |
| MapleAdapter.AdapterDeposit | programs/maple-adapter/src/instructions/adapter_deposit.rs:46-109 | The deposit handler, step by step, reaches the state and outcome that `Wire.MapleTransfer` and `Refusals.TransferRefusals` write out |
| MapleAdapter.AdapterWithdraw | programs/maple-adapter/src/instructions/adapter_withdraw.rs:46-109 | The withdraw handler, step by step, reaches the state and outcome that `Wire.MapleTransfer` and `Refusals.TransferRefusals` write out |
| MarginFiAdapter.AdapterDeposit | programs/marginfi-adapter/src/instructions/adapter_deposit.rs:36-97 | The deposit handler, step by step, reaches the state and outcome that `Wire.MarginFiTransfer` and `Refusals.TransferRefusals` write out |
| MarginFiAdapter.AdapterWithdraw | programs/marginfi-adapter/src/instructions/adapter_withdraw.rs:36-98 | The withdraw handler, step by step, reaches the state and outcome that `Wire.MarginFiTransfer` and `Refusals.TransferRefusals` write out |
| MapleAdapter.BuildCcip | programs/maple-adapter/src/instructions/adapter_deposit.rs:69-71 | Discriminator and message fill the reserve exactly |
| DriftAdapter.AdapterCurrentValue | programs/drift-adapter/src/instructions/adapter_current_value.rs:19-37 | Reads the `u64` at byte 104 of the first remaining account, returns and reports it; an empty list aborts |
| JupiterAdapter.AdapterCurrentValue | programs/jupiter-adapter/src/instructions/adapter_current_value.rs:18-36 | Reads the `u64` at byte 152, returns and reports it; an empty list aborts |
| MarginFiAdapter.AdapterCurrentValue | programs/marginfi-adapter/src/instructions/adapter_current_value.rs:19-38 | Reads the `u128` at byte 40, truncates, returns and reports it; an empty list aborts |
| KaminoAdapter.AdapterCurrentValue | programs/kamino-adapter/src/instructions/adapter_current_value.rs:15-32 | Returns and reports exactly what the foreign layout decodes to (`Relays.RelayOfLayout`); an empty list aborts |
| MapleAdapter.AdapterCurrentValue | programs/maple-adapter/src/instructions/adapter_current_value.rs:26-45 | Returns and reports exactly what the foreign layout decodes to (`Relays.RelayOfLayout`); an empty list is an invalid account |
| AdapterPrograms.Enter | programs/drift-adapter/src/lib.rs:14-56 | The entry point parses, checks the authority account and runs the handler of the named instruction |
| Vectors.Vec.ExtendFromSlice | programs/dispatcher/src/instructions/deposit.rs:47-49 | Appends a slice to the contents; while the reserve suffices the buffer does not move |
| Vectors.Vec.Push | programs/dispatcher/src/instructions/deposit.rs:51-52 | Appends one element; while the reserve suffices the buffer does not move |
| Dispatcher.BuildData | programs/dispatcher/src/instructions/deposit.rs:46-49 | Entry point and Borsh arguments fill the reserve exactly |
| Dispatcher.CollectMetas | programs/dispatcher/src/instructions/deposit.rs:51-57 | The signer, read-only, then one meta per remaining account, filling the reserve exactly |
| Dispatcher.CollectInfos | programs/dispatcher/src/instructions/deposit.rs:65-67 | The signer and the remaining accounts fill the reserve exactly |
| Dispatcher.MoveFunds | programs/dispatcher/src/instructions/withdraw.rs:40-77 | `deposit` and `withdraw` through any registered program: check, print, collect, invoke, and emit only on success; the outcome is `TwoHops.EndToEnd` for the five adapters and `TwoHops.ForeignTransfer` for every other program |
| Dispatcher.CurrentValue | programs/dispatcher/src/instructions/current_value.rs:36-68 | Check, invoke, read the return data and set it again |
| Dispatcher.ToggleAdapter | programs/dispatcher/src/instructions/toggle_adapter.rs:29-46 | Assigns the next status in place and emits the event, or fails with the stated error |
| Dispatcher.AdapterInitialize | programs/dispatcher/src/instructions/adapter_init.rs:70-91 | Writes the record at the address of dispatcher, program, adapter_info, authority and then checks its invariant, leaving the write behind on failure; `Access.RegistrationDomain` writes address and record out |
| Dispatcher.RegistryInitialize | programs/dispatcher/src/instructions/registry_init.rs:39-50 | Writes the registry and then checks its invariant |
| Dispatcher.Execute | programs/dispatcher/src/lib.rs:17-72 | One transaction: the state of the specification's step, and the state before it if the instruction fails |
| Atomicity.WriteBeforeCheck | programs/dispatcher/src/instructions/adapter_init.rs:79-90 | A failing instruction has changed the store if and only if it is a registration that passes every check but names a default key; no failure survives the transaction |
| Atomicity.CallBeforeFailure | programs/dispatcher/src/instructions/deposit.rs:69-75 | A transfer has invoked its program if and only if the dispatcher admitted it, and has emitted its event if and only if it succeeds |
| Runs.Reachable | programs/dispatcher/src/state/adapter.rs:36-61 | In every reachable state every record satisfies its invariant, sits at the canonical address of its own fields, and implies a registry owned by the fixed initializer |
| Runs.StoredRecordsPassTheirChecks | programs/dispatcher/src/state/adapter.rs:28-34 | In no reachable state does toggle, deposit, withdraw or current_value fail for an invalid stored status or a misplaced record (unless the foreign account decoder itself reports one of the two) |
| Runs.OneRecordPerPair | programs/dispatcher/src/instructions/adapter_init.rs:30-42 | Two stored adapters have the same program and authority if and only if they are one record |
| Runs.Replay | programs/dispatcher/src/instructions/adapter_init.rs:70-91 | Replaying the successful initialisations and toggles of any run from the empty store rebuilds the store |
| Runs.Stutter | programs/dispatcher/src/instructions/current_value.rs:36-68 | Deposits, withdrawals, queries and failed calls leave the store alone |
| Runs.StepIsItsEntries | programs/dispatcher/src/instructions/toggle_adapter.rs:36-46 | Each call changes the store by its journal entry and nothing else |
| Runs.EventsOfStep | programs/dispatcher/src/event.rs:3-23 | Each call emits the stated event, and only if it succeeds |
| StatusLaw.StatusIsHistory | programs/dispatcher/src/instructions/toggle_adapter.rs:29-46 | After any run an adapter is stored iff registered, exactly once; its status is the registered one flipped by the parity of its toggles, Deprecated is never toggled, and the last toggle event carries the status |
| StatusLaw.FrozenFields | programs/dispatcher/src/state/adapter.rs:7-25 | From any point of a run to its end no record disappears, only its status changes, and Deprecated stays |
| StatusLaw.RepeatedInitFails | programs/dispatcher/src/instructions/adapter_init.rs:30-42 | After a successful registration every later one of the same program and authority fails |
| Gating.EveryRoutedCallIsGated | programs/dispatcher/src/instructions/deposit.rs:29-69 | Every instruction in the trace of any run was issued by one call of that run: at the moment of that call the trace had exactly the instructions before it, the record that the call names was active by its stored status and by its toggle history, the instruction is the one that record and call determine, and the initializer had registered that program at that address earlier in the run |
| Gating.IssuedInOrder | programs/dispatcher/src/instructions/current_value.rs:36-62 | Later instructions of the trace were issued by later calls, so no call issued two |
| Gating.TraceLength | programs/dispatcher/src/instructions/withdraw.rs:68 | The trace holds exactly one instruction per successful deposit, withdrawal or query |
| Gating.RoutedByStep | programs/dispatcher/src/instructions/current_value.rs:28-62 | A call routes the one instruction its record determines, only if the record is active and the call succeeds |
| Traces.LogsEchoTheTrace | programs/dispatcher/src/instructions/deposit.rs:41-78 | In every run the instructions the protocols receive are, in order and one each, the translations of the deposits and withdrawals that the dispatcher sent to the five adapters, read off the bytes and metas of those instructions alone; the transfers that the dispatcher and the adapters report are, in order, the ones those bytes ask for |
| Traces.EchoesOfMove | programs/drift-adapter/src/instructions/adapter_deposit.rs:54-86 | The translation and the adapter's report, read off the bytes of a printed request, are the protocol instruction and the event of that request |
| Conservation.AmountsAreConserved | programs/drift-adapter/src/instructions/adapter_withdraw.rs:107-115 | Over every run and for each adapter: dispatcher amounts equal adapter amounts plus, for Drift alone, what selector 2 drops; adapter amounts equal the amounts the protocol decodes, except Maple, whose instruction carries none |
| Conservation.RequestAmounts | programs/drift-adapter/src/instructions/adapter_deposit.rs:79-83 | One request contributes its amount to the three logs of its own adapter only, as its selector decides |
| Access.RegistryDomain | programs/dispatcher/src/instructions/registry_init.rs:12-50 | In every reachable state: the registry can be created if and only if the fixed initializer, whose key is written out, signs, at the address of the literal seeds, and none exists; the new state differs by that one account |
| Access.RegistrationDomain | programs/dispatcher/src/instructions/adapter_init.rs:23-91 | In every reachable state: a registration succeeds if and only if the fixed initializer signs, the registry exists, the address is the one of the literal seeds with the program before the authority, it is free, the status is valid and no key is default; the new state differs by one record that repeats the arguments |
| Access.StoredAddresses | programs/dispatcher/src/instructions/deposit.rs:17-22 | In every reachable state every record sits at the address of dispatcher, its program, adapter_info, its authority and its bump, and the registry at that of dispatcher, registry and its bump |
| Access.ToggleDomain | programs/dispatcher/src/instructions/toggle_adapter.rs:8-34 | In every reachable state: a toggle succeeds if and only if the record's own authority signs and the record is not Deprecated |
| Access.ToggleEffect | programs/dispatcher/src/instructions/toggle_adapter.rs:36-46 | A successful toggle turns status 0 into 1 and 1 into 0, changes no other field and no other account, and reports authority, address, program and new status |
| Access.RoutingDomain | programs/dispatcher/src/instructions/deposit.rs:11-39 | In every reachable state: a transfer is admitted if and only if a writable signer signs, the record is active and the extra data has at most 64 bytes |
| Access.QueryDomain | programs/dispatcher/src/instructions/current_value.rs:9-34 | In every reachable state: a query is admitted if and only if a writable signer signs and the record is active |
| Access.ToggleUndoesItself | programs/dispatcher/src/instructions/toggle_adapter.rs:30-36 | After a toggle the same call succeeds again and restores the store |
| Records.SeedsSeparate | programs/dispatcher/src/constants.rs:7-9 | The seeds written out: dispatcher, program, adapter_info, authority in 86 bytes and dispatcher, registry in 18; with their bumps they are injective in program, authority and bump and never meet |
| Records.InitializerIsNotDefault | programs/dispatcher/src/instructions/registry_init.rs:6-7 | The fixed initializer passes the registry's invariant; the default key is 32 zeros |
| Relays.RelayOfForeignProgram | programs/dispatcher/src/instructions/current_value.rs:62-65 | For any finite tree of invocations under the callee: the query returns the first eight bytes if and only if the callee succeeds and the last event of the buffer is a write of at least eight; it reports missing data if the last event is an invocation or an empty write or there is none, and invalid data for one to seven bytes; every failure changes nothing |
| Relays.LastEffectWins | crates/yield-adapter-interface/src/lib.rs:64-81 | Over nested invocations that each clear the buffer, its final content is that of the last write or clearing; an empty write is a clearing |
| Relays.WriteBeforeInvokeIsLost | crates/yield-adapter-interface/src/lib.rs:68-71 | A value written before a further invocation or an empty write is lost; written after an invocation, or by the invoked program itself, it is returned |
| Relays.RelayOfAdapter | programs/dispatcher/src/instructions/current_value.rs:36-68 | Through each of the five adapters the query succeeds exactly when the adapter reads a value, and returns and reports that value; `RelayOfField` and `RelayOfLayout` say which value |
| Relays.RelayOfField | programs/jupiter-adapter/src/instructions/adapter_current_value.rs:6-36 | Through Drift, Jupiter and MarginFi the dispatcher returns, and the adapter reports, the eight bytes at 104, 152 or 40 of the first remaining account, if and only if the field lies inside it and the authority constraint holds; nothing else changes |
| Relays.RelayOfLayout | programs/kamino-adapter/src/instructions/adapter_current_value.rs:15-32 | Through Kamino and Maple the query succeeds if and only if there is an account, the foreign layout decodes and the authority constraint holds; it returns and reports exactly the decoded value |
| Relays.TruncatedShares | programs/marginfi-adapter/src/instructions/adapter_current_value.rs:26-29 | The `u128` modulo 2^64 is the `u64` at the same offset |
| Relays.TruncationLaw | programs/marginfi-adapter/src/instructions/adapter_current_value.rs:23-29 | The truncation keeps the 48 fraction bits and the integer part modulo 2^16, and loses nothing if and only if the integer part is below 65536 |
| Layout.ReadDomain | crates/yield-adapter-interface/src/layout.rs:3-11 | Each reader succeeds if and only if its field is in bounds without overflow, and overflow is told apart from shortness |
| Layout.ReadBack | crates/yield-adapter-interface/src/layout.rs:13-40 | A `u64`, `u128`, `i128` or key written at any offset reads back, whatever surrounds it |
| Layout.ReadIsContent | crates/yield-adapter-interface/src/layout.rs:13-18 | Writing back what was read leaves the data unchanged |
| Layout.WideSplit | crates/yield-adapter-interface/src/layout.rs:20-25 | A `u128` is its low `u64` plus 2^64 times its high `u64` |
| Layout.SignedReading | crates/yield-adapter-interface/src/layout.rs:27-32 | An `i128` is the two's-complement reading of the same sixteen bytes |
| Layout.ReadU64Le | crates/yield-adapter-interface/src/layout.rs:13-18 | The buffer-filling reader computes the `u64` at the offset or the error |
| Layout.ReadU128Le | crates/yield-adapter-interface/src/layout.rs:20-25 | The buffer-filling reader computes the `u128` at the offset or the error |
| Layout.ReadI128Le | crates/yield-adapter-interface/src/layout.rs:27-32 | The buffer-filling reader computes the `i128` at the offset or the error |
| Layout.CopyFromSlice | crates/yield-adapter-interface/src/layout.rs:16 | Fills the array with the slice |
| Borsh.RoundTrip | crates/yield-adapter-interface/src/lib.rs:22-32 | Decoding the encoding of any arguments, with any bytes after it, returns the arguments and those bytes |
| Borsh.Canonical | programs/kamino-adapter/src/instructions/adapter_deposit.rs:9-13 | Every accepted buffer is the encoding of what was parsed followed by the rest |
| Borsh.PrefixFree | programs/dispatcher/src/instructions/deposit.rs:45-46 | No encoding is a proper prefix of another |
| Interface.ReadReturnU64 | crates/yield-adapter-interface/src/lib.rs:68-81 | The first eight bytes of the return data as a `u64`, or the error for none or fewer |
| Interface.SetReturnU64 | crates/yield-adapter-interface/src/lib.rs:64-66 | The return data becomes the eight bytes of the value |
| Interface.AsU8 | crates/yield-adapter-interface/src/lib.rs:41-57 | Decoding the byte of a status returns the status |
| Interface.EntryPointsDiffer | crates/yield-adapter-interface/src/lib.rs:5-20 | The three entry points have different discriminators |

## Left out

- Account creation, rent, space and account discriminators: an account is absent, a registry or an adapter.
- The order in which the framework reports several failing account checks at once: the model fixes one order, and no result depends on which error is named first.
- The search for the canonical bump, and derivation failures.
- Privilege merging for an account listed twice: see `World.authorityWritable`.
- The dispatcher's own parsing of client bytes: a client call is a typed value.
- Direct calls of an adapter by a client: runs consist of dispatcher calls.
- A registered program other than the five that itself invokes one of the five: such an invocation would add to the adapters' logs without passing the dispatcher, so the whole-run statements about those logs speak of runs without it.
- KaminoAdapter.AdapterCurrentValue: does not model the layout of the Kamino reserve, which is a foreign account type; the decoded value is a parameter (`World.foreignValue`), and only the guard before it and the relay after it are stated.
- MapleAdapter.AdapterCurrentValue: does not model the layout of the token account, which is a foreign account type; the decoded value is a parameter (`World.foreignValue`), and only the guard before it and the relay after it are stated.
- The downstream protocols: only the metas and bytes handed to them, and whether they succeed.
- The CCIP message inside Maple's `extra_data`: opaque bytes.
- The mock adapter: it is one of the programs the model cannot see.
- Vec growth: the standard library leaves the growth policy open; the model doubles or fits, and results speak only of contents and of not moving within the reserve.
- Borsh.RoundTrip: does not cover `extra_data` of 2^32 bytes or more, which the length prefix cannot express and `to_vec` rejects; the dispatcher admits at most 64.
- Clock, logs of failed transactions, compute limits and call depth.
- TypeScript tests, scripts and migrations.
