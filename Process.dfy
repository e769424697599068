/** Shared vocabulary of the `process` package as the factories see it:
    the named errors they return, injected dependencies that are either
    present or absent, and the Option/Result wrappers used for Go's
    `(value, error)` returns. */
module Process {

  /** Go's `uint32`, used for shard ids, epochs and transaction versions. */
  type uint32 = x: int | 0 <= x < 0x1_0000_0000

  /** A byte of a Go `[]byte` (the chain id). */
  type byte = x: int | 0 <= x < 0x100

  /** The identity of an injected collaborator (marshalizer, hasher, pool
      holder, ...). Two equal handles denote the same instance. */
  type Handle = nat

  /** An injected interface value: `Absent` is what `check.IfNil` (or
      `== nil`) reports as nil. */
  datatype Dep = Absent | Present(id: Handle)

  /** The error values of the `process` package that the modelled
      factories return, plus the errors of code outside the model. */
  datatype Error =
    | ErrNilArgumentStruct
    | ErrNilMarshalizer
    | ErrNilHasher
    | ErrNilKeyGen
    | ErrNilSingleSigner
    | ErrNilPubkeyConverter
    | ErrNilShardCoordinator
    | ErrNilEconomicsFeeHandler
    | ErrNilWhiteListHandler
    | ErrNilArgumentParser
    | ErrInvalidChainID
    | ErrInvalidTransactionVersion
    | ErrNilEpochStartTrigger
    | ErrNilEpochNotifier
    | ErrNilAddressConverter
    | ErrNilHeaderSigVerifier
    | ErrNilValidityAttester
    | ErrNilStore
    | ErrNilDataPoolHolder
    | ErrNilTxProcessor
    | ErrNilAccountsAdapter
    | ErrNilSmartContractProcessor
    | ErrNilSmartContractResultProcessor
    | ErrNilRewardsTxProcessor
    | ErrNilRequestHandler
    | ErrNilGasHandler
    | ErrNilBlockTracker
    | ErrNilBlockSizeComputationHandler
    | ErrNilSpecialAddressHandler
    | ErrContainerKeyAlreadyExists
    | ErrLenMismatch
      /** An error produced by a collaborator whose code is not modelled. */
    | CollaboratorError(code: nat)

  datatype Option<+T> = None | Some(value: T)

  /** A Go `(value, error)` pair where exactly one side is meaningful:
      a failing constructor returns no object. */
  datatype Result<+T> = Success(value: T) | Failure(error: Error)
}
