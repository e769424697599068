# Container factories of the elrond-go `process` package, in Dafny

This project models four factories that wire up block and transaction
processing at node start-up, and proves properties of the model:

- **`metaInterceptorsContainerFactory`** (metachain). The constructor checks
  its dependencies in a fixed order. `Create` runs seven generators in order.
  Each generator builds one interceptor per gossip topic and registers them in
  the factory's key-unique container.
- **`preProcessorsContainerFactory`** (shard). The constructor checks 16
  dependencies. `Create` builds the transaction, smart-contract-result,
  rewards and validator-info preprocessors and registers them by block type.
- **`intermediateProcessorsContainerFactory`** (shard). The constructor checks
  5 dependencies. `Create` registers the smart-contract-results processor and
  the transaction-fee handler.
- **`interceptedTxDataFactory`**. The constructor checks its argument struct
  and registers the factory with the epoch notifier. `EpochConfirmed`
  overwrites the "signed with hash" flag. `Create` passes that flag, the chain
  id and the version checker to the intercepted-transaction constructor.

Files:

- `Process.dfy`: errors, present/absent dependencies, `Option`/`Result`.
- `Guards.dfy`: the first-failing-guard discipline shared by the constructors.
- `Containers.dfy`: the key-unique container, a class with `Add` and
  `AddMultiple`.
- `BlockContainers.dfy`: block types and the create-then-`Add` step lists of
  the two shard factories.
- One file per factory.

State that the source changes in place is modelled as classes:

- the meta factory's container;
- the container each `Create` fills;
- the flag of the intercepted-transaction factory;
- the notifier's list of handlers.

Each method is proved against a specification function:

- `RunSteps`/`RunStep` for the meta generators;
- `Build`/`Attempted` for the shard `Create`s;
- `FlagAfter` for the epoch flag.

The properties are then proved about those functions.

Code outside the four factory source files is a parameter of the model:

- `checkBaseParams` is the error it returns.
- Creating the interceptor of a topic, or a preprocessor or processor, either
  succeeds or fails with the error a `failures` map gives for its key.
- The transaction, unsigned-transaction and miniblock generators are
  `GeneratorOutcome` values.
- `CommunicationIdentifier` is an uninterpreted function.
- The container's `Add` and `AddMultiple` are not in the four factory source
  files. The
  model assumes:
  - `Add` rejects a key that is already present with
    `ErrContainerKeyAlreadyExists` and changes nothing;
  - `AddMultiple` first checks that the two slices have the same length, then
    `Add`s the pairs in order and stops at the first error.

Three behaviours of the code are worth stating plainly:

- **The epoch flag is not monotone.** `EpochConfirmed` overwrites the flag
  with `epoch >= enableSignedTxWithHashEpoch` on every call. A later, lower
  epoch therefore clears it (`LowerEpochClearsFlag`).
- **Several dependencies share an error.** In the intercepted-transaction
  factory, both marshalizers give `ErrNilMarshalizer` and both hashers give
  `ErrNilHasher`. In the meta factory, a nil `BlockKeyGen` gives
  `ErrNilKeyGen` and a nil `BlockSingleSigner` gives `ErrNilSingleSigner`.
  The error alone does not tell which of the two was nil.
- **Check order is not parameter order.** The preprocessor factory checks its
  16 dependencies in an order that differs from its parameter order.

## Model

| member | source | states |
|---|---|---|
| Guards.FirstFailure | process/factory/shard/preProcessorsContainerFactory.go:55-102 | the guard chain yields no error exactly when every check passes; otherwise its error is that of a failing check with every earlier check passing |
| Guards.FirstFailureAt | process/factory/shard/preProcessorsContainerFactory.go:55-102 | when check i fails and all earlier ones pass, check i's error is returned, whatever the later checks say |
| MetaInterceptors.MetaArgsCheck | process/factory/interceptorscontainer/metaInterceptorsContainerFactory.go:32-78 | the meta constructor reports no error exactly when the base parameters pass, every dependency is present and the chain id is not empty |
| MetaInterceptors.FirstFailingCheckReported | process/factory/interceptorscontainer/metaInterceptorsContainerFactory.go:32-78 | the first failing check in the order base params, AddrConverter, SingleSigner, KeyGen, TxFeeHandler, BlockKeyGen, BlockSingleSigner, HeaderSigVerifier, EpochStartTrigger, ChainID, ValidityAttester decides the error |
| MetaInterceptors.BaseParamsCheckedFirst | process/factory/interceptorscontainer/metaInterceptorsContainerFactory.go:32-48 | a failing `checkBaseParams` is reported before any other check |
| MetaInterceptors.BlockKeyGenSharesKeyGenError | process/factory/interceptorscontainer/metaInterceptorsContainerFactory.go:55-63 | a nil KeyGen, or a nil BlockKeyGen reached after KeyGen and TxFeeHandler pass, both give `ErrNilKeyGen` |
| MetaInterceptors.BlockSingleSignerSharesSingleSignerError | process/factory/interceptorscontainer/metaInterceptorsContainerFactory.go:52-66 | a nil SingleSigner, or a nil BlockSingleSigner reached in order, both give `ErrNilSingleSigner` |
| MetaInterceptors.EmptyChainIdRejected | process/factory/interceptorscontainer/metaInterceptorsContainerFactory.go:73-75 | once the earlier checks pass, an empty chain id gives `ErrInvalidChainID` whatever the validity attester is |
| MetaInterceptors.NewMetaInterceptorsContainerFactory | process/factory/interceptorscontainer/metaInterceptorsContainerFactory.go:25-127 | fails exactly when an argument is missing, with the guard chain's error and no factory; on success the factory has a fresh, empty container and the given shard coordinator |
| MetaInterceptors.PerShardTopicsShape | process/factory/interceptorscontainer/metaInterceptorsContainerFactory.go:225-226 | the per-shard key list for n shards has n keys, key i being the base topic followed by `CommunicationIdentifier(i)` |
| MetaInterceptors.ShardHeaderAndRewardTopicsShape | process/factory/interceptorscontainer/metaInterceptorsContainerFactory.go:218-346 | for N shards there are exactly N shard-header keys `ShardBlocksTopic + CommunicationIdentifier(i)` and N reward keys `RewardsTransactionTopic + CommunicationIdentifier(i)` |
| MetaInterceptors.TrieShardTopicsShape | process/factory/interceptorscontainer/metaInterceptorsContainerFactory.go:282-300 | the per-shard trie keys are, for each shard s, the validator key at 2s and the account key at 2s+1 |
| MetaInterceptors.TrieNodesTopicsShape | process/factory/interceptorscontainer/metaInterceptorsContainerFactory.go:276-321 | for N shards there are 2N+2 trie keys: validator then account key per shard, then validator and account key of `MetachainShardId` |
| MetaInterceptors.InterceptorsFor | process/factory/interceptorscontainer/metaInterceptorsContainerFactory.go:225-236 | one interceptor per topic: the interceptor list is as long as the key list |
| MetaInterceptors.BuildInterceptorsOutcome | process/factory/interceptorscontainer/metaInterceptorsContainerFactory.go:225-234 | building the interceptors succeeds exactly when no topic's interceptor fails, and then yields the interceptor of each topic in order |
| MetaInterceptors.BuildInterceptorsFirstFailure | process/factory/interceptorscontainer/metaInterceptorsContainerFactory.go:227-231 | the first topic whose interceptor fails decides the error |
| MetaInterceptors.PerTopicAllBuilt | process/factory/interceptorscontainer/metaInterceptorsContainerFactory.go:218-236 | when every interceptor is built, a per-topic generator is exactly one `AddMultiple` of its keys and interceptors |
| MetaInterceptors.PerTopicFirstFailure | process/factory/interceptorscontainer/metaInterceptorsContainerFactory.go:225-236 | when topic i is the first to fail, the generator reports that error and leaves the container's entries unchanged |
| MetaInterceptors.PerTopicFailureLeavesEntries | process/factory/interceptorscontainer/metaInterceptorsContainerFactory.go:282-320 | any failing interceptor makes the generator return an error before `AddMultiple`: nothing is added |
| MetaInterceptors.RunPrefixThenRest | process/factory/interceptorscontainer/metaInterceptorsContainerFactory.go:130-167 | running all generators is running the first k and, if none failed, the rest on the entries they left |
| MetaInterceptors.StopsAtFirstFailedStep | process/factory/interceptorscontainer/metaInterceptorsContainerFactory.go:130-167 | when generator k is the first to fail, its error is `Create`'s result and no later generator changes the container |
| MetaInterceptors.StepOutcome | process/factory/interceptorscontainer/metaInterceptorsContainerFactory.go:218-346 | a generator whose collaborators succeed is one `AddMultiple` of its keys; one whose collaborators fail reports an error |
| MetaInterceptors.RunStepsOutcome | process/factory/interceptorscontainer/metaInterceptorsContainerFactory.go:130-167 | the generators succeed exactly when every collaborator succeeds and one `AddMultiple` of all their keys would, and then have the effect of that `AddMultiple` |
| MetaInterceptors.CreateTopicsOrder | process/factory/interceptorscontainer/metaInterceptorsContainerFactory.go:130-167 | `Create`'s keys are the metablock, shard-header, transaction, unsigned, reward, miniblock and trie-node keys, in that order |
| MetaInterceptors.CreateOutcome | process/factory/interceptorscontainer/metaInterceptorsContainerFactory.go:130-167 | `Create` succeeds exactly when every collaborator succeeds and all keys are distinct and new; the container then keeps every old entry unchanged, adds exactly those keys in order, and binds the i-th key to the i-th interceptor built |
| MetaInterceptors.CreateTopicCount | process/factory/interceptorscontainer/metaInterceptorsContainerFactory.go:130-346 | on an empty container, a successful `Create` for N shards holds 4N+3 keys plus those of the three generators outside the model |
| MetaInterceptors.MetaInterceptorsContainerFactory.constructor | process/factory/interceptorscontainer/metaInterceptorsContainerFactory.go:99-119 | the new factory keeps the shard coordinator it was given and owns a fresh, empty container with nothing yet added |
| MetaInterceptors.MetaInterceptorsContainerFactory.GenerateMetablockInterceptors | process/factory/interceptorscontainer/metaInterceptorsContainerFactory.go:171-214 | builds one interceptor keyed `MetachainBlocksTopic` and `Add`s it; the new container state and error are those of the generator's specification |
| MetaInterceptors.MetaInterceptorsContainerFactory.GenerateShardHeaderInterceptors | process/factory/interceptorscontainer/metaInterceptorsContainerFactory.go:218-237 | the loop fills the key and interceptor arrays per shard, returns at the first failure, then calls `AddMultiple`; the container ends as the specification says |
| MetaInterceptors.MetaInterceptorsContainerFactory.GenerateTrieNodesInterceptors | process/factory/interceptorscontainer/metaInterceptorsContainerFactory.go:276-321 | the loop appends the validator and account interceptor of each shard, then those of the metachain, and calls `AddMultiple`; the container ends as the specification says |
| MetaInterceptors.MetaInterceptorsContainerFactory.GenerateRewardTxInterceptors | process/factory/interceptorscontainer/metaInterceptorsContainerFactory.go:325-346 | the loop fills the reward keys and interceptors per shard, returns at the first failure, then calls `AddMultiple`; the container ends as the specification says |
| MetaInterceptors.MetaInterceptorsContainerFactory.GenerateFromOutcome | process/factory/interceptorscontainer/metaInterceptorsContainerFactory.go:141-158 | stands for the transaction, unsigned-transaction and miniblock generators called at lines 141, 146 and 156: either it fails with its error and leaves the container untouched, or its keys and interceptors go through one `AddMultiple`, and the new state equals `ApplyOutcome` of the old one |
| MetaInterceptors.MetaInterceptorsContainerFactory.Create | process/factory/interceptorscontainer/metaInterceptorsContainerFactory.go:130-167 | runs the seven generators in order and stops at the first error, returning no container; the container's entries, insertion order and result are those of `RunSteps` |
| Containers.Container.Add | process/factory/interceptorscontainer/metaInterceptorsContainerFactory.go:213 | inserts a new key; a key already present gives `ErrContainerKeyAlreadyExists` and changes nothing; keys stay unique |
| Containers.Container.AddMultiple | process/factory/interceptorscontainer/metaInterceptorsContainerFactory.go:236 | checks the lengths, then inserts pairs in order, stopping at the first error; the result is the `AddAll` specification |
| Containers.AddAllOutcome | process/factory/interceptorscontainer/metaInterceptorsContainerFactory.go:320 | an `AddMultiple` succeeds exactly when the lengths match and its keys are distinct and new; it then binds every key to its own value and keeps the old entries |
| Containers.AddEachAppend | process/factory/interceptorscontainer/metaInterceptorsContainerFactory.go:345 | inserting two batches one after the other equals inserting their concatenation |
| Containers.DistinctCardinality | process/factory/interceptorscontainer/metaInterceptorsContainerFactory.go:236 | a list of distinct keys inserts as many entries as it has keys |
| BlockContainers.BuildSucceeds | process/factory/shard/preProcessorsContainerFactory.go:125-169 | a create-then-`Add` sequence with distinct, new keys succeeds exactly when no constructor fails |
| BlockContainers.BuildContents | process/factory/shard/preProcessorsContainerFactory.go:125-169 | when no constructor fails, every key is bound to its own object, old entries are kept, and every constructor is called |
| BlockContainers.BuildFirstFailure | process/factory/shard/preProcessorsContainerFactory.go:128-166 | when constructor i is the first to fail, its error is returned |
| BlockContainers.AttemptedUpToFailure | process/factory/shard/preProcessorsContainerFactory.go:128-166 | when constructor i is the first to fail, no later constructor is called |
| ShardPreProcessors.NewPreProcessorsContainerFactory | process/factory/shard/preProcessorsContainerFactory.go:36-122 | succeeds exactly when all 16 dependencies are present, and then stores every one of them unchanged |
| ShardPreProcessors.PreProcessorsChecksPass | process/factory/shard/preProcessorsContainerFactory.go:55-102 | the 16 guards all pass exactly when every dependency is present |
| ShardPreProcessors.FirstNilReported | process/factory/shard/preProcessorsContainerFactory.go:55-102 | the first nil dependency in the check order shardCoordinator, store, marshalizer, hasher, dataPool, addressConverter, txProcessor, accounts, scProcessor, scResultProcessor, rewardsTxProcessor, requestHandler, economicsFee, gasHandler, blockTracker, blockSizeComputation decides the error |
| ShardPreProcessors.TxProcessorCheckedBeforeAccounts | process/factory/shard/preProcessorsContainerFactory.go:73-78 | a nil txProcessor is reported before a nil accounts adapter, although accounts is the earlier parameter |
| ShardPreProcessors.RequestHandlerCheckedAfterProcessors | process/factory/shard/preProcessorsContainerFactory.go:79-90 | a nil scProcessor is reported even when the request handler, an earlier parameter, is nil too |
| ShardPreProcessors.StepsKeys | process/factory/shard/preProcessorsContainerFactory.go:125-169 | the keys are `TxBlock`, `SmartContractResultBlock`, `RewardsBlock`, `PeerBlock`, in that order, all distinct |
| ShardPreProcessors.CreateOutcome | process/factory/shard/preProcessorsContainerFactory.go:125-169 | `Create` succeeds exactly when no preprocessor constructor fails; the container then maps exactly the four block types to their preprocessors |
| ShardPreProcessors.CreateStopsAtFirstFailure | process/factory/shard/preProcessorsContainerFactory.go:128-166 | when preprocessor i is the first that cannot be built, its error is returned and no later preprocessor is created |
| ShardPreProcessors.PreProcessorsContainerFactory.Create | process/factory/shard/preProcessorsContainerFactory.go:125-169 | builds a fresh container; on success it holds the `Build` result with keys logged in step order; on failure the first error is returned with no container; the constructors called are `Attempted` |
| ShardPreProcessors.PreProcessorsContainerFactory.TxPreProcessor | process/factory/shard/preProcessorsContainerFactory.go:171-190 | the transaction preprocessor is tagged `TxBlock`, reads the `Transactions` pool of the pools holder, is given `RequestTransaction` of the request handler, and processes with the factory's transaction processor, hasher and marshalizer |
| ShardPreProcessors.PreProcessorsContainerFactory.SmartContractResultPreProcessor | process/factory/shard/preProcessorsContainerFactory.go:192-208 | the smart contract result preprocessor reads the `UnsignedTransactions` pool, is given `RequestUnsignedTransactions`, and processes with the smart contract results processor (not the smart contract processor) |
| ShardPreProcessors.PreProcessorsContainerFactory.RewardsTransactionPreProcessor | process/factory/shard/preProcessorsContainerFactory.go:210-224 | the rewards preprocessor reads the `RewardTransactions` pool, is given `RequestRewardTransactions`, and processes with the rewards transaction processor |
| ShardPreProcessors.PreProcessorsContainerFactory.ValidatorInfoPreProcessor | process/factory/shard/preProcessorsContainerFactory.go:226-233 | the validator info preprocessor receives only the hasher and the marshalizer; its block type `PeerBlock` has no pool and no request |
| ShardPreProcessors.PreProcessorsMatchTheirKeys | process/factory/shard/preProcessorsContainerFactory.go:171-233 | each preprocessor reads the pool and issues the request that belong to its block type; the tx preprocessor is tagged `TxBlock`; the validator-info preprocessor takes only the hasher and the marshalizer |
| ShardPreProcessors.ScProcessorNotUsedByCreate | process/factory/shard/preProcessorsContainerFactory.go:171-233 | the smart contract processor is checked but no preprocessor receives it |
| ShardIntermediateProcessors.NewIntermediateProcessorsContainerFactory | process/factory/shard/intermediateProcessorsContainerFactory.go:24-55 | succeeds exactly when all 5 dependencies are present, and then stores every one of them unchanged |
| ShardIntermediateProcessors.IntermediateProcessorsChecksPass | process/factory/shard/intermediateProcessorsContainerFactory.go:32-46 | the 5 guards all pass exactly when every dependency is present |
| ShardIntermediateProcessors.FirstNilReported | process/factory/shard/intermediateProcessorsContainerFactory.go:32-46 | the first nil dependency in the order shardCoordinator, marshalizer, hasher, addrConverter, specialAddressHandler decides the error |
| ShardIntermediateProcessors.SpecialAddressHandlerCheckedLast | process/factory/shard/intermediateProcessorsContainerFactory.go:32-46 | a nil special address handler is reported as such exactly when the other four are present |
| ShardIntermediateProcessors.StepsKeys | process/factory/shard/intermediateProcessorsContainerFactory.go:58-82 | the keys are `SmartContractResultBlock` then `TxFeeBlock`, distinct |
| ShardIntermediateProcessors.CreateOutcome | process/factory/shard/intermediateProcessorsContainerFactory.go:58-82 | `Create` succeeds exactly when neither constructor fails, and the container then maps exactly the two block types to their processors |
| ShardIntermediateProcessors.CreateStopsAtFirstFailure | process/factory/shard/intermediateProcessorsContainerFactory.go:61-80 | if the results processor fails, its error is returned and the fee handler is never created |
| ShardIntermediateProcessors.IntermediateProcessorsContainerFactory.Create | process/factory/shard/intermediateProcessorsContainerFactory.go:58-82 | builds a fresh container; on success it holds the `Build` result in step order; on failure the first error is returned with no container; the constructors called are `Attempted` |
| ShardIntermediateProcessors.IntermediateProcessorsContainerFactory.SmartContractResultsIntermediateProcessor | process/factory/shard/intermediateProcessorsContainerFactory.go:84-94 | the results processor is built for `SmartContractResultBlock` from the factory's hasher, marshalizer, shard coordinator and address converter |
| ShardIntermediateProcessors.IntermediateProcessorsContainerFactory.TxFeeIntermediateProcessor | process/factory/shard/intermediateProcessorsContainerFactory.go:96-104 | the fee handler is built from the factory's special address handler, hasher and marshalizer |
| ShardIntermediateProcessors.IntermediateProcessorsMatchTheirKeys | process/factory/shard/intermediateProcessorsContainerFactory.go:66-101 | the results processor is tagged with the block type it is keyed under; both processors share the factory's hasher and marshalizer |
| InterceptedTxData.ArgumentCheck | process/interceptors/factory/interceptedTxDataFactory.go:43-90 | no error exactly when the argument struct is given, every dependency is present, the chain id is not empty and the minimum version is not 0 |
| InterceptedTxData.NilArgumentStructFirst | process/interceptors/factory/interceptedTxDataFactory.go:43-45 | `ErrNilArgumentStruct` is reported exactly when the argument struct is nil |
| InterceptedTxData.FirstFailingCheckReported | process/interceptors/factory/interceptedTxDataFactory.go:46-90 | the first failing guard in source order decides the error |
| InterceptedTxData.MarshalizersShareError | process/interceptors/factory/interceptedTxDataFactory.go:46-51 | a nil proto marshalizer or a nil signing marshalizer both give `ErrNilMarshalizer` |
| InterceptedTxData.HashersShareError | process/interceptors/factory/interceptedTxDataFactory.go:52-87 | a nil hasher, or a nil signing hasher reached in order, both give `ErrNilHasher` |
| InterceptedTxData.EmptyChainIdRejected | process/interceptors/factory/interceptedTxDataFactory.go:76-78 | once the earlier guards pass, an empty chain id gives `ErrInvalidChainID` |
| InterceptedTxData.ZeroMinTransactionVersionRejected | process/interceptors/factory/interceptedTxDataFactory.go:79-81 | once the earlier guards pass, a minimum transaction version of 0 gives `ErrInvalidTransactionVersion` |
| InterceptedTxData.NewInterceptedTxDataFactory | process/interceptors/factory/interceptedTxDataFactory.go:42-114 | fails exactly when a check fails, with its error and nothing registered; on success the factory stores every argument, its flag is unset, and it is registered with the notifier exactly once |
| InterceptedTxData.InterceptedTxDataFactory.constructor | process/interceptors/factory/interceptedTxDataFactory.go:92-109 | every argument is stored; the version checker is built from the minimum version; the flag starts unset |
| InterceptedTxData.EpochNotifier.RegisterNotifyHandler | process/interceptors/factory/interceptedTxDataFactory.go:111 | the handler is appended once to the notifier's handlers |
| InterceptedTxData.FlagAfterLatest | process/interceptors/factory/interceptedTxDataFactory.go:143-146 | after a series of confirmations the flag depends only on the latest epoch: it is set exactly when that epoch reaches the activation epoch |
| InterceptedTxData.LowerEpochClearsFlag | process/interceptors/factory/interceptedTxDataFactory.go:144 | confirming an epoch below the activation epoch clears the flag, whatever came before |
| InterceptedTxData.RepeatedEpochIdempotent | process/interceptors/factory/interceptedTxDataFactory.go:144 | confirming the same epoch twice leaves the flag as confirming it once |
| InterceptedTxData.InterceptedTxDataFactory.EpochConfirmed | process/interceptors/factory/interceptedTxDataFactory.go:143-146 | the flag becomes `epoch >= enableSignedTxWithHashEpoch` and the epoch is recorded, so the flag stays what the confirmed epochs made of it |
| InterceptedTxData.InterceptedTxDataFactory.Create | process/interceptors/factory/interceptedTxDataFactory.go:117-135 | passes the buffer, the stored chain id, the version checker of the minimum version, and a flag that is set exactly when the latest confirmed epoch reaches the activation epoch |

## Left out

- Marshalizer wrapping when `SizeCheckDelta > 0` and the goroutine throttler of the meta constructor: library constructors, and the throttler exists only for concurrency. The throttler's own creation error is not modelled.
- `checkBaseParams`: its code is in another file; it is the `baseParamsErr` argument.
- `generateTxInterceptors`, `generateUnsignedTxsInterceptors`, `generateMiniBlocksInterceptors`, `createOneTrieNodesInterceptor`, `createOneRewardTxInterceptor` and `createTopicAndAssignHandler`: their code is outside the four factory source files, and `createTopicAndAssignHandler` is network subscription (messenger I/O). The first three are `GeneratorOutcome` values; the others are folded into the per-topic success or failure.
- `createOneShardHeaderInterceptor` (metaInterceptorsContainerFactory.go:239-274) and the inline interceptor construction in `generateMetablockInterceptors` (lines 176-211): both bodies only call foreign constructors (header validator, data factory, processor, `NewSingleDataInterceptor`) and `createTopicAndAssignHandler`, returning at the first error. Both are reduced to one success-or-failure outcome per topic, `CreateOneInterceptor`. An interceptor is reduced to its topic and data family.
- The container implementation (`process/factory/containers`) is not part of this model; its behaviour is the assumption stated above.
- The `preprocess.*` and `unsigned.*` constructors: each is reduced to its arguments and a possible failure. Pools and request callbacks are reduced to the holder or handler and the pool or method chosen.
- ShardPreProcessors.PreProcessorsContainerFactory.Create: the `Add` error branches after each constructor are not modelled as code. `Add` into a fresh container under distinct keys cannot fail, which the method asserts. The `Build` specification still includes that error case.
- ShardIntermediateProcessors.IntermediateProcessorsContainerFactory.Create: same as above, for its two `Add` calls.
- `transaction.NewInterceptedTransaction`: decoding, hashing and signature checks are foreign calls and crypto. `Create` returns the arguments it passes.
- The epoch notifier's dispatch of `EpochConfirmed` calls, and the notifier's own nil-typed checks: the notifier's code is not part of this model. The notifier is reduced to its list of handlers.
- InterceptedTxData.EpochNotifier.RegisterNotifyHandler: modelled as a plain append. Registration is assumed not to call `EpochConfirmed` on the new handler; the promise that the flag is unset after `NewInterceptedTxDataFactory` rests on that assumption.
- InterceptedTxData.InterceptedTxDataFactory.EpochConfirmed: `atomic.Flag.Toggle(b)` is read as "set the flag to `b`". The `atomic` package is not part of this model.
- The atomicity of `flagEnableSignedTxWithHash` and its concurrent readers: the flag is a plain field updated sequentially. Logging in `EpochConfirmed` is left out.
- The Go typed-nil difference between `check.IfNil` and `== nil`: every dependency is either present or absent.
- `IsInterfaceNil` methods: trivial nil checks on the receiver.
- The topic-name constants and `MetachainShardId` come from packages outside the model; their values are written as constants.
