/** The entry points of the five adapter programs. */
module AdapterPrograms {
  import opened Outcomes
  import opened Bytes
  import opened Machine
  import opened Protocols
  import opened AdapterSpec
  import DriftAdapter
  import JupiterAdapter
  import KaminoAdapter
  import MapleAdapter
  import MarginFiAdapter

  /** Runs an adapter on the instruction data and accounts the runtime hands it. */
  method Enter(ledger: Ledger, p: Protocol, data: seq<Byte>, accounts: seq<AccountInfo>, world: World)
    returns (o: Outcome<()>)
    modifies ledger
    ensures (ledger.View(), o) == RunAdapter(old(ledger.View()), p, data, accounts, world)
  {
    var request := Parse(data);
    if !request.Ok? {
      return request.PropagateFailure();
    }
    var context := Receive(p, request.value, accounts);
    if !context.Ok? {
      return context.PropagateFailure();
    }
    var ctx := context.value;
    match (p, request.value) {
      case (Drift, MoveRequest(Deposit, args)) =>
        o := DriftAdapter.AdapterDeposit(ledger, ctx, args, world.below);
      case (Drift, MoveRequest(Withdraw, args)) =>
        o := DriftAdapter.AdapterWithdraw(ledger, ctx, args, world.below);
      case (Drift, ValueRequest) =>
        o := DriftAdapter.AdapterCurrentValue(ledger, ctx);
      case (Jupiter, MoveRequest(Deposit, args)) =>
        o := JupiterAdapter.AdapterDeposit(ledger, ctx, args, world.below);
      case (Jupiter, MoveRequest(Withdraw, args)) =>
        o := JupiterAdapter.AdapterWithdraw(ledger, ctx, args, world.below);
      case (Jupiter, ValueRequest) =>
        o := JupiterAdapter.AdapterCurrentValue(ledger, ctx);
      case (Kamino, MoveRequest(Deposit, args)) =>
        o := KaminoAdapter.AdapterDeposit(ledger, ctx, args, world.below);
      case (Kamino, MoveRequest(Withdraw, args)) =>
        o := KaminoAdapter.AdapterWithdraw(ledger, ctx, args, world.below);
      case (Kamino, ValueRequest) =>
        o := KaminoAdapter.AdapterCurrentValue(ledger, ctx, world.foreignValue);
      case (Maple, MoveRequest(Deposit, args)) =>
        o := MapleAdapter.AdapterDeposit(ledger, ctx, args, world.below);
      case (Maple, MoveRequest(Withdraw, args)) =>
        o := MapleAdapter.AdapterWithdraw(ledger, ctx, args, world.below);
      case (Maple, ValueRequest) =>
        o := MapleAdapter.AdapterCurrentValue(ledger, ctx, world.foreignValue);
      case (MarginFi, MoveRequest(Deposit, args)) =>
        o := MarginFiAdapter.AdapterDeposit(ledger, ctx, args, world.below);
      case (MarginFi, MoveRequest(Withdraw, args)) =>
        o := MarginFiAdapter.AdapterWithdraw(ledger, ctx, args, world.below);
      case (MarginFi, ValueRequest) =>
        o := MarginFiAdapter.AdapterCurrentValue(ledger, ctx);
    }
  }
}
