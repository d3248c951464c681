/** Results of instructions: a new state, or the error that makes the runtime roll back. */
module Outcomes {

  datatype Option<+T> = None | Some(value: T)

  /** The errors the processors return. Panic stands for a failed unwrap, a slice copy of unequal lengths or, where
      the build checks for it, an unchecked operation that overflows. */
  datatype Error =
    | MissingRequiredSignature
    | InvalidAccountOwner
    | InvalidSeeds
    | AccountAlreadyInitialized
    | InvalidAccountData
    | InvalidArgument
    | InsufficientFunds
    | ExternalLamportSpend
    | ModifiedProgramId
    | WriteZero
    | Overflow
    | Panic
    | NotUndelegatable
    | Unauthorized
    | InvalidDelegatedAccount
    | InvalidDelegatedState
    | InvalidReimbursementAccount
    | InvalidAccountDataAfterCpi
    | InvalidValidatorBalanceAfterCpi
    | InvalidReimbursementAddress
    | InvalidWhitelistProgramConfig
    | AlreadyUndelegated
    | CpiFailed

  datatype Result<+T> = Ok(value: T) | Err(error: Error) {
    predicate IsFailure() {
      Err?
    }

    function PropagateFailure<U>(): Result<U>
      requires Err?
    {
      Err(error)
    }

    function Extract(): T
      requires Ok?
    {
      value
    }
  }

  /** A check that either passes or fails with an error. */
  datatype Check = Pass | Fail(error: Error) {
    predicate IsFailure() {
      Fail?
    }

    function PropagateFailure<U>(): Result<U>
      requires Fail?
    {
      Err(error)
    }
  }

  function Need(condition: bool, error: Error): Check {
    if condition then Pass else Fail(error)
  }
}
