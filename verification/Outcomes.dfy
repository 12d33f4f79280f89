/** Results of an instruction: success, a named error, or a program abort. */
module Outcomes {
  datatype Option<+T> = None | Some(value: T)

  datatype DispatcherError =
    | InvalidAccount | Unauthorized | Overflow | Inactive | InvalidStatus | Deprecated

  datatype AdapterError = UnknownFunction | InvalidAccount | InvalidArgs | Unauthorized

  datatype InterfaceError = MissingReturnData | InvalidReturnData | AccountDataTooShort | OffsetOverflow

  /** Errors raised by the account checks that the framework derives from the context declarations. */
  datatype FrameworkError =
    | InstructionFallbackNotFound | InstructionDidNotDeserialize
    | AccountNotEnoughKeys | AccountNotSigner | AccountNotInitialized | AccountDiscriminatorMismatch
    | AlreadyInUse | ConstraintMut | ConstraintSeeds

  datatype Error =
    | FromDispatcher(dispatcher: DispatcherError)
    | FromAdapter(adapter: AdapterError)
    | FromInterface(interface: InterfaceError)
    | FromFramework(framework: FrameworkError)
    | FromCallee

  /** `Abort` is a panic: an index or a slice bound out of range. */
  datatype Outcome<+T> = Ok(value: T) | Err(error: Error) | Abort {
    predicate IsFailure() {
      !Ok?
    }

    function PropagateFailure<U>(): Outcome<U>
      requires !Ok?
    {
      match this
      case Err(e) => Err(e)
      case _ => Abort
    }

    function Extract(): T
      requires Ok?
    {
      value
    }
  }

  /** The `require!` macro. */
  function Require(condition: bool, error: Error): Outcome<()> {
    if condition then Ok(()) else Err(error)
  }
}
