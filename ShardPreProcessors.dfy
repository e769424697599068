/** The shard's preprocessors container factory
    (`process/factory/shard/preProcessorsContainerFactory.go`): a
    constructor that rejects nil dependencies in a fixed order, and a
    `Create` that builds one preprocessor per kind of block content and
    registers it under its block type. */
module ShardPreProcessors {
  import opened Process
  import opened Guards
  import opened Containers
  import opened BlockContainers

  /** The constructor's arguments, in parameter order. */
  datatype PreProcessorsArgs = PreProcessorsArgs(
    shardCoordinator: Dep,
    store: Dep,
    marshalizer: Dep,
    hasher: Dep,
    dataPool: Dep,
    addressConverter: Dep,
    accounts: Dep,
    requestHandler: Dep,
    txProcessor: Dep,
    scProcessor: Dep,
    scResultProcessor: Dep,
    rewardsTxProcessor: Dep,
    economicsFee: Dep,
    gasHandler: Dep,
    blockTracker: Dep,
    blockSizeComputation: Dep)

  /** The constructor's guards, in the order the source runs them (which is
      not the parameter order). */
  function PreProcessorsChecks(args: PreProcessorsArgs): seq<Check>
  {
    [ RequirePresent(args.shardCoordinator, ErrNilShardCoordinator),
      RequirePresent(args.store, ErrNilStore),
      RequirePresent(args.marshalizer, ErrNilMarshalizer),
      RequirePresent(args.hasher, ErrNilHasher),
      RequirePresent(args.dataPool, ErrNilDataPoolHolder),
      RequirePresent(args.addressConverter, ErrNilAddressConverter),
      RequirePresent(args.txProcessor, ErrNilTxProcessor),
      RequirePresent(args.accounts, ErrNilAccountsAdapter),
      RequirePresent(args.scProcessor, ErrNilSmartContractProcessor),
      RequirePresent(args.scResultProcessor, ErrNilSmartContractResultProcessor),
      RequirePresent(args.rewardsTxProcessor, ErrNilRewardsTxProcessor),
      RequirePresent(args.requestHandler, ErrNilRequestHandler),
      RequirePresent(args.economicsFee, ErrNilEconomicsFeeHandler),
      RequirePresent(args.gasHandler, ErrNilGasHandler),
      RequirePresent(args.blockTracker, ErrNilBlockTracker),
      RequirePresent(args.blockSizeComputation, ErrNilBlockSizeComputationHandler) ]
  }

  /** Every dependency is present. */
  ghost predicate PreProcessorsArgsComplete(args: PreProcessorsArgs)
  {
    && args.shardCoordinator.Present?
    && args.store.Present?
    && args.marshalizer.Present?
    && args.hasher.Present?
    && args.dataPool.Present?
    && args.addressConverter.Present?
    && args.accounts.Present?
    && args.requestHandler.Present?
    && args.txProcessor.Present?
    && args.scProcessor.Present?
    && args.scResultProcessor.Present?
    && args.rewardsTxProcessor.Present?
    && args.economicsFee.Present?
    && args.gasHandler.Present?
    && args.blockTracker.Present?
    && args.blockSizeComputation.Present?
  }

  /** Where a pool of transactions comes from: the pools holder, and which
      of its pools was asked for. */
  datatype PoolKind = Transactions | UnsignedTransactions | RewardTransactions
  datatype Pool = Pool(holder: Handle, kind: PoolKind)

  /** A method value of the request handler, passed as the callback that
      asks the network for missing transactions. */
  datatype RequestKind = RequestTransaction | RequestUnsignedTransactions | RequestRewardTransactions
  datatype RequestCallback = RequestCallback(handler: Handle, kind: RequestKind)

  /** The preprocessors `Create` builds, with the arguments each
      constructor of `process/block/preprocess` receives (that package is
      not part of this model). */
  datatype PreProcessor =
    | TransactionPreprocessor(
        txPool: Pool, store: Handle, hasher: Handle, marshalizer: Handle,
        txProcessor: Handle, shardCoordinator: Handle, accounts: Handle,
        onRequest: RequestCallback, economicsFee: Handle, gasHandler: Handle,
        blockTracker: Handle, blockType: BlockType, addressConverter: Handle,
        blockSizeComputation: Handle)
    | SmartContractResultPreprocessor(
        scrPool: Pool, store: Handle, hasher: Handle, marshalizer: Handle,
        scrProcessor: Handle, shardCoordinator: Handle, accounts: Handle,
        onRequest: RequestCallback, gasHandler: Handle, economicsFee: Handle,
        blockSizeComputation: Handle)
    | RewardTxPreprocessor(
        rewardTxPool: Pool, store: Handle, hasher: Handle, marshalizer: Handle,
        rewardProcessor: Handle, shardCoordinator: Handle,
        onRequest: RequestCallback, gasHandler: Handle, blockSizeComputation: Handle)
    | ValidatorInfoPreprocessor(hasher: Handle, marshalizer: Handle)

  /** The pool a preprocessor for block type `key` must read from. */
  function PoolFor(key: BlockType): Option<PoolKind>
  {
    match key
    case TxBlock => Some(Transactions)
    case SmartContractResultBlock => Some(UnsignedTransactions)
    case RewardsBlock => Some(RewardTransactions)
    case _ => None
  }

  /** The request a preprocessor for block type `key` must issue. */
  function RequestFor(key: BlockType): Option<RequestKind>
  {
    match key
    case TxBlock => Some(RequestTransaction)
    case SmartContractResultBlock => Some(RequestUnsignedTransactions)
    case RewardsBlock => Some(RequestRewardTransactions)
    case _ => None
  }

  /** The factory built by a successful constructor: every dependency,
      present, under the struct's field names. */
  datatype PreProcessorsContainerFactory = PreProcessorsContainerFactory(
    shardCoordinator: Handle,
    store: Handle,
    marshalizer: Handle,
    hasher: Handle,
    dataPool: Handle,
    addressConverter: Handle,
    txProcessor: Handle,
    scProcessor: Handle,
    scResultProcessor: Handle,
    rewardsTxProcessor: Handle,
    accounts: Handle,
    requestHandler: Handle,
    economicsFee: Handle,
    gasHandler: Handle,
    blockTracker: Handle,
    blockSizeComputation: Handle)
  {
    /** The arguments this factory was built from. */
    function Args(): PreProcessorsArgs
    {
      PreProcessorsArgs(
        Present(shardCoordinator), Present(store), Present(marshalizer), Present(hasher),
        Present(dataPool), Present(addressConverter), Present(accounts), Present(requestHandler),
        Present(txProcessor), Present(scProcessor), Present(scResultProcessor),
        Present(rewardsTxProcessor), Present(economicsFee), Present(gasHandler),
        Present(blockTracker), Present(blockSizeComputation))
    }

    /** `createTxPreProcessor`: a transaction preprocessor tagged `TxBlock`,
        reading the pool and issuing the request that belong to that block
        type, with the factory's transaction processor. */
    function TxPreProcessor(): (p: PreProcessor)
      ensures p.TransactionPreprocessor? && p.blockType == TxBlock
      ensures p.txPool.holder == dataPool && PoolFor(p.blockType) == Some(p.txPool.kind)
      ensures p.onRequest.handler == requestHandler && RequestFor(p.blockType) == Some(p.onRequest.kind)
      ensures p.txProcessor == txProcessor && p.hasher == hasher && p.marshalizer == marshalizer
    {
      TransactionPreprocessor(
        Pool(dataPool, Transactions), store, hasher, marshalizer, txProcessor,
        shardCoordinator, accounts, RequestCallback(requestHandler, RequestTransaction),
        economicsFee, gasHandler, blockTracker, TxBlock, addressConverter, blockSizeComputation)
    }

    /** `createSmartContractResultPreProcessor`: reads the unsigned
        transactions pool, requests unsigned transactions and processes
        with the smart contract results processor. */
    function SmartContractResultPreProcessor(): (p: PreProcessor)
      ensures p.SmartContractResultPreprocessor?
      ensures p.scrPool.holder == dataPool && PoolFor(SmartContractResultBlock) == Some(p.scrPool.kind)
      ensures p.onRequest.handler == requestHandler && RequestFor(SmartContractResultBlock) == Some(p.onRequest.kind)
      ensures p.scrProcessor == scResultProcessor && p.hasher == hasher && p.marshalizer == marshalizer
    {
      SmartContractResultPreprocessor(
        Pool(dataPool, UnsignedTransactions), store, hasher, marshalizer, scResultProcessor,
        shardCoordinator, accounts, RequestCallback(requestHandler, RequestUnsignedTransactions),
        gasHandler, economicsFee, blockSizeComputation)
    }

    /** `createRewardsTransactionPreProcessor`: reads the reward
        transactions pool, requests reward transactions and processes with
        the rewards processor. */
    function RewardsTransactionPreProcessor(): (p: PreProcessor)
      ensures p.RewardTxPreprocessor?
      ensures p.rewardTxPool.holder == dataPool && PoolFor(RewardsBlock) == Some(p.rewardTxPool.kind)
      ensures p.onRequest.handler == requestHandler && RequestFor(RewardsBlock) == Some(p.onRequest.kind)
      ensures p.rewardProcessor == rewardsTxProcessor && p.hasher == hasher && p.marshalizer == marshalizer
    {
      RewardTxPreprocessor(
        Pool(dataPool, RewardTransactions), store, hasher, marshalizer, rewardsTxProcessor,
        shardCoordinator, RequestCallback(requestHandler, RequestRewardTransactions),
        gasHandler, blockSizeComputation)
    }

    /** `createValidatorInfoPreProcessor`: needs only the hasher and the
        marshalizer; block type `PeerBlock` has no pool and no request. */
    function ValidatorInfoPreProcessor(): (p: PreProcessor)
      ensures p.ValidatorInfoPreprocessor? && p.hasher == hasher && p.marshalizer == marshalizer
      ensures PoolFor(PeerBlock).None? && RequestFor(PeerBlock).None?
    {
      ValidatorInfoPreprocessor(hasher, marshalizer)
    }

    /** The steps of `Create`, in order. */
    function Steps(): seq<Binding<PreProcessor>>
    {
      [ Binding(TxBlock, TxPreProcessor()),
        Binding(SmartContractResultBlock, SmartContractResultPreProcessor()),
        Binding(RewardsBlock, RewardsTransactionPreProcessor()),
        Binding(PeerBlock, ValidatorInfoPreProcessor()) ]
    }

    /** Builds a new container and adds the four preprocessors, returning at
        the first error. A preprocessor constructor fails with
        `failures[key]` when its block type is in `failures`. `attempted`
        records which constructors were called. */
    method Create(failures: map<BlockType, Error>) returns (r: Result<Container<BlockType, PreProcessor>>, attempted: seq<BlockType>)
      ensures var b := Build(Steps(), failures, map[], 0);
        && (r.Success? <==> b.Success?)
        && (r.Success? ==>
              fresh(r.value) && r.value.Valid() && r.value.entries == b.value && r.value.log == Keys(Steps()))
        && (r.Failure? ==> r.error == b.error)
      ensures attempted == Attempted(Steps(), failures, map[], 0)
    {
      var steps := Steps();
      StepsKeys(this);
      var container := new Container<BlockType, PreProcessor>();

      attempted := [TxBlock];
      var preproc := Construct(steps[0], failures);
      if preproc.Failure? {
        CreateStopsAtFirstFailure(this, failures, 0);
        return Failure(preproc.error), attempted;
      }
      var err := container.Add(TxBlock, preproc.value);
      assert err == None;

      attempted := [TxBlock, SmartContractResultBlock];
      preproc := Construct(steps[1], failures);
      if preproc.Failure? {
        CreateStopsAtFirstFailure(this, failures, 1);
        return Failure(preproc.error), attempted;
      }
      err := container.Add(SmartContractResultBlock, preproc.value);
      assert err == None;

      attempted := [TxBlock, SmartContractResultBlock, RewardsBlock];
      preproc := Construct(steps[2], failures);
      if preproc.Failure? {
        CreateStopsAtFirstFailure(this, failures, 2);
        return Failure(preproc.error), attempted;
      }
      err := container.Add(RewardsBlock, preproc.value);
      assert err == None;

      attempted := [TxBlock, SmartContractResultBlock, RewardsBlock, PeerBlock];
      preproc := Construct(steps[3], failures);
      if preproc.Failure? {
        CreateStopsAtFirstFailure(this, failures, 3);
        return Failure(preproc.error), attempted;
      }
      err := container.Add(PeerBlock, preproc.value);
      assert err == None;
      CreateOutcome(this, failures);
      return Success(container), attempted;
    }
  }

  /** `NewPreProcessorsContainerFactory`: the guards of
      `PreProcessorsChecks` in order; on success a factory holding every
      argument. */
  function NewPreProcessorsContainerFactory(args: PreProcessorsArgs): (r: Result<PreProcessorsContainerFactory>)
    ensures r.Success? <==> PreProcessorsArgsComplete(args)
    ensures r.Success? ==> r.value.Args() == args
  {
    var err := FirstFailure(PreProcessorsChecks(args));
    PreProcessorsChecksPass(args);
    if err.Some? then Failure(err.value)
    else
      Success(PreProcessorsContainerFactory(
        args.shardCoordinator.id, args.store.id, args.marshalizer.id, args.hasher.id,
        args.dataPool.id, args.addressConverter.id, args.txProcessor.id, args.scProcessor.id,
        args.scResultProcessor.id, args.rewardsTxProcessor.id, args.accounts.id,
        args.requestHandler.id, args.economicsFee.id, args.gasHandler.id,
        args.blockTracker.id, args.blockSizeComputation.id))
  }

  /** All guards pass exactly when every dependency is present. */
  lemma PreProcessorsChecksPass(args: PreProcessorsArgs)
    ensures FirstFailure(PreProcessorsChecks(args)).None? <==> PreProcessorsArgsComplete(args)
  {
    var cs := PreProcessorsChecks(args);
    if PreProcessorsArgsComplete(args) {
      forall i | 0 <= i < |cs| ensures cs[i].Pass? {
        if i < 8 {
          assert i == 0 || i == 1 || i == 2 || i == 3 || i == 4 || i == 5 || i == 6 || i == 7;
        } else {
          assert i == 8 || i == 9 || i == 10 || i == 11 || i == 12 || i == 13 || i == 14 || i == 15;
        }
      }
    } else {
      assert !cs[0].Pass? || !cs[1].Pass? || !cs[2].Pass? || !cs[3].Pass? || !cs[4].Pass? || !cs[5].Pass?
        || !cs[6].Pass? || !cs[7].Pass? || !cs[8].Pass? || !cs[9].Pass? || !cs[10].Pass? || !cs[11].Pass?
        || !cs[12].Pass? || !cs[13].Pass? || !cs[14].Pass? || !cs[15].Pass?;
    }
  }

  /** The first nil dependency in check order is the one reported, whatever
      the later ones are. */
  lemma FirstNilReported(args: PreProcessorsArgs, i: nat)
    requires i < 16 && PreProcessorsChecks(args)[i].Fail?
    requires forall j :: 0 <= j < i ==> PreProcessorsChecks(args)[j].Pass?
    ensures NewPreProcessorsContainerFactory(args) == Failure(PreProcessorsChecks(args)[i].err)
  {
    FirstFailureAt(PreProcessorsChecks(args), i);
  }

  /** The transaction processor is checked before the accounts adapter,
      although it comes after it in the parameter list. */
  lemma TxProcessorCheckedBeforeAccounts(args: PreProcessorsArgs)
    requires && args.shardCoordinator.Present? && args.store.Present? && args.marshalizer.Present?
             && args.hasher.Present? && args.dataPool.Present? && args.addressConverter.Present?
    requires args.txProcessor.Absent?
    ensures NewPreProcessorsContainerFactory(args) == Failure(ErrNilTxProcessor)
  {
    FirstNilReported(args, 6);
  }

  /** The request handler, the eighth parameter, is only checked after the
      four processors. */
  lemma RequestHandlerCheckedAfterProcessors(args: PreProcessorsArgs)
    requires && args.shardCoordinator.Present? && args.store.Present? && args.marshalizer.Present?
             && args.hasher.Present? && args.dataPool.Present? && args.addressConverter.Present?
             && args.txProcessor.Present? && args.accounts.Present?
    requires args.scProcessor.Absent?
    ensures NewPreProcessorsContainerFactory(args) == Failure(ErrNilSmartContractProcessor)
  {
    FirstNilReported(args, 8);
  }

  /** The four steps are keyed by distinct block types, in the order
      transactions, smart contract results, rewards, peer changes. */
  lemma StepsKeys(f: PreProcessorsContainerFactory)
    ensures Keys(f.Steps()) == [TxBlock, SmartContractResultBlock, RewardsBlock, PeerBlock]
    ensures Distinct(Keys(f.Steps()))
  {
    assert Keys(f.Steps())[..] == [TxBlock, SmartContractResultBlock, RewardsBlock, PeerBlock];
  }

  /** `Create` succeeds exactly when no preprocessor constructor fails; the
      container then maps each of the four block types to its preprocessor,
      and every constructor was called. */
  lemma CreateOutcome(f: PreProcessorsContainerFactory, failures: map<BlockType, Error>)
    ensures Build(f.Steps(), failures, map[], 0).Success? <==>
      TxBlock !in failures && SmartContractResultBlock !in failures && RewardsBlock !in failures && PeerBlock !in failures
    ensures Build(f.Steps(), failures, map[], 0).Success? ==>
      && Build(f.Steps(), failures, map[], 0).value == map[
           TxBlock := f.TxPreProcessor(),
           SmartContractResultBlock := f.SmartContractResultPreProcessor(),
           RewardsBlock := f.RewardsTransactionPreProcessor(),
           PeerBlock := f.ValidatorInfoPreProcessor()]
      && Attempted(f.Steps(), failures, map[], 0) == [TxBlock, SmartContractResultBlock, RewardsBlock, PeerBlock]
  {
    var steps := f.Steps();
    StepsKeys(f);
    BuildSucceeds(steps, failures, map[], 0);
    if Build(steps, failures, map[], 0).Success? {
      assert forall j :: 0 <= j < 4 ==> steps[j].key !in failures;
      BuildContents(steps, failures, map[], 0);
      var built := Build(steps, failures, map[], 0).value;
      assert (set j | 0 <= j < 4 :: steps[j].key) == {TxBlock, SmartContractResultBlock, RewardsBlock, PeerBlock} by {
        assert steps[0].key == TxBlock && steps[1].key == SmartContractResultBlock;
        assert steps[2].key == RewardsBlock && steps[3].key == PeerBlock;
      }
      assert built[TxBlock] == steps[0].value && built[SmartContractResultBlock] == steps[1].value;
      assert built[RewardsBlock] == steps[2].value && built[PeerBlock] == steps[3].value;
    }
  }

  /** When the constructor for step `i` is the first to fail, `Create`
      returns its error and calls no later constructor. */
  lemma CreateStopsAtFirstFailure(f: PreProcessorsContainerFactory, failures: map<BlockType, Error>, i: nat)
    requires i < 4 && Keys(f.Steps())[i] in failures
    requires forall j :: 0 <= j < i ==> Keys(f.Steps())[j] !in failures
    ensures Build(f.Steps(), failures, map[], 0) == Failure(failures[Keys(f.Steps())[i]])
    ensures Attempted(f.Steps(), failures, map[], 0) == Keys(f.Steps())[..i + 1]
  {
    StepsKeys(f);
    BuildFirstFailure(f.Steps(), failures, map[], 0, i);
    AttemptedUpToFailure(f.Steps(), failures, map[], 0, i);
  }

  /** Each preprocessor reads the pool and issues the request that belong
      to the block type it is registered under, and the transaction
      preprocessor is told it handles `TxBlock`. */
  lemma PreProcessorsMatchTheirKeys(f: PreProcessorsContainerFactory)
    ensures forall b :: b in f.Steps() && b.value.TransactionPreprocessor? ==>
      Some(b.value.txPool.kind) == PoolFor(b.key) && Some(b.value.onRequest.kind) == RequestFor(b.key)
      && b.value.blockType == b.key
    ensures forall b :: b in f.Steps() && b.value.SmartContractResultPreprocessor? ==>
      Some(b.value.scrPool.kind) == PoolFor(b.key) && Some(b.value.onRequest.kind) == RequestFor(b.key)
    ensures forall b :: b in f.Steps() && b.value.RewardTxPreprocessor? ==>
      Some(b.value.rewardTxPool.kind) == PoolFor(b.key) && Some(b.value.onRequest.kind) == RequestFor(b.key)
    ensures forall b :: b in f.Steps() && b.value.ValidatorInfoPreprocessor? ==>
      PoolFor(b.key).None? && RequestFor(b.key).None? && b.value == ValidatorInfoPreprocessor(f.hasher, f.marshalizer)
    ensures forall b :: b in f.Steps() ==>
      (b.value.TransactionPreprocessor? || b.value.SmartContractResultPreprocessor? || b.value.RewardTxPreprocessor?) ==>
        b.value.hasher == f.hasher && b.value.marshalizer == f.marshalizer && b.value.store == f.store
  {
  }

  /** The smart contract processor is checked for nil but never used by
      `Create`: replacing it changes none of the preprocessors. */
  lemma ScProcessorNotUsedByCreate(f: PreProcessorsContainerFactory, other: Handle)
    ensures f.(scProcessor := other).Steps() == f.Steps()
  {
  }
}
