/** The constants, status codes and return-data helpers shared by the dispatcher and the adapters. */
module Interface {
  import opened Outcomes
  import opened Bytes
  import opened Machine
  import Layout

  const EXTRA_DATA_MAX_LEN: nat := 64

  const ADAPTER_DEPOSIT: seq<Byte> := [190, 207, 72, 186, 232, 106, 46, 72]
  const ADAPTER_WITHDRAW: seq<Byte> := [121, 55, 72, 46, 185, 100, 173, 236]
  const ADAPTER_CURRENT_VALUE: seq<Byte> := [67, 200, 59, 238, 163, 138, 170, 179]

  function EntryPoint(op: Op): (d: seq<Byte>)
    ensures |d| == 8
  {
    match op
    case Deposit => ADAPTER_DEPOSIT
    case Withdraw => ADAPTER_WITHDRAW
  }

  lemma EntryPointsDiffer()
    ensures EntryPoint(Deposit) != EntryPoint(Withdraw)
    ensures forall op :: EntryPoint(op) != ADAPTER_CURRENT_VALUE
  {
  }

  datatype AdapterStatus = Active | Paused | Deprecated

  function FromU8(value: Byte): Option<AdapterStatus> {
    match value
    case 0 => Some(Active)
    case 1 => Some(Paused)
    case 2 => Some(AdapterStatus.Deprecated)
    case _ => None
  }

  function AsU8(status: AdapterStatus): (b: Byte)
    ensures FromU8(b) == Some(status)
  {
    match status
    case Active => 0
    case Paused => 1
    case Deprecated => 2
  }

  method SetReturnU64(ledger: Ledger, value: U64)
    modifies ledger`returnData
    ensures ledger.returnData == Some(U64ToLe(value))
  {
    ledger.returnData := Some(U64ToLe(value));
  }

  /** The `u64` in the first eight bytes of the return data. */
  function ReturnU64(buffer: Option<seq<Byte>>): Outcome<U64> {
    match buffer
    case None => Err(FromInterface(MissingReturnData))
    case Some(data) =>
      if |data| < 8 then Err(FromInterface(InvalidReturnData)) else Ok(U64FromLe(data[..8]))
  }

  method ReadReturnU64(ledger: Ledger) returns (r: Outcome<U64>)
    ensures r == ReturnU64(ledger.returnData)
  {
    if ledger.returnData.None? {
      return Err(FromInterface(MissingReturnData));
    }
    var data := ledger.returnData.value;
    if |data| < 8 {
      return Err(FromInterface(InvalidReturnData));
    }
    var value := new Byte[8];
    Layout.CopyFromSlice(value, data[..8]);
    r := Ok(U64FromLe(value[..]));
  }
}
