/** The shard's intermediate processors container factory
    (`process/factory/shard/intermediateProcessorsContainerFactory.go`):
    a constructor that rejects nil dependencies in a fixed order, and a
    `Create` that registers the smart contract results processor and the
    transaction fee handler under their block types. */
module ShardIntermediateProcessors {
  import opened Process
  import opened Guards
  import opened Containers
  import opened BlockContainers

  /** The constructor's arguments, in parameter order (which is also the
      order of the guards). */
  datatype IntermediateProcessorsArgs = IntermediateProcessorsArgs(
    shardCoordinator: Dep,
    marshalizer: Dep,
    hasher: Dep,
    addrConverter: Dep,
    specialAddressHandler: Dep)

  /** The constructor's guards, in the order the source runs them. */
  function IntermediateProcessorsChecks(args: IntermediateProcessorsArgs): seq<Check>
  {
    [ RequirePresent(args.shardCoordinator, ErrNilShardCoordinator),
      RequirePresent(args.marshalizer, ErrNilMarshalizer),
      RequirePresent(args.hasher, ErrNilHasher),
      RequirePresent(args.addrConverter, ErrNilAddressConverter),
      RequirePresent(args.specialAddressHandler, ErrNilSpecialAddressHandler) ]
  }

  /** Every dependency is present. */
  ghost predicate IntermediateProcessorsArgsComplete(args: IntermediateProcessorsArgs)
  {
    && args.shardCoordinator.Present?
    && args.marshalizer.Present?
    && args.hasher.Present?
    && args.addrConverter.Present?
    && args.specialAddressHandler.Present?
  }

  /** The processors `Create` builds, with the arguments their constructors
      receive (`process/block/preprocess` and `process/unsigned` are not
      part of this model). */
  datatype IntermediateProcessor =
    | IntermediateResultsProcessor(
        hasher: Handle, marshalizer: Handle, shardCoordinator: Handle,
        addrConverter: Handle, blockType: BlockType)
    | FeeTxHandler(specialAddressHandler: Handle, hasher: Handle, marshalizer: Handle)

  /** The factory built by a successful constructor. */
  datatype IntermediateProcessorsContainerFactory = IntermediateProcessorsContainerFactory(
    shardCoordinator: Handle,
    marshalizer: Handle,
    hasher: Handle,
    addrConverter: Handle,
    specialAddressHandler: Handle)
  {
    /** The arguments this factory was built from. */
    function Args(): IntermediateProcessorsArgs
    {
      IntermediateProcessorsArgs(
        Present(shardCoordinator), Present(marshalizer), Present(hasher),
        Present(addrConverter), Present(specialAddressHandler))
    }

    /** `createSmartContractResultsIntermediateProcessor`: a results
        processor for `SmartContractResultBlock` over the factory's hasher,
        marshalizer, shard coordinator and address converter. */
    function SmartContractResultsIntermediateProcessor(): (p: IntermediateProcessor)
      ensures p.IntermediateResultsProcessor? && p.blockType == SmartContractResultBlock
      ensures p.hasher == hasher && p.marshalizer == marshalizer
      ensures p.shardCoordinator == shardCoordinator && p.addrConverter == addrConverter
    {
      IntermediateResultsProcessor(hasher, marshalizer, shardCoordinator, addrConverter, SmartContractResultBlock)
    }

    /** `createTxFeeIntermediateProcessor`: a fee handler over the
        factory's special address handler, hasher and marshalizer. */
    function TxFeeIntermediateProcessor(): (p: IntermediateProcessor)
      ensures p.FeeTxHandler? && p.specialAddressHandler == specialAddressHandler
      ensures p.hasher == hasher && p.marshalizer == marshalizer
    {
      FeeTxHandler(specialAddressHandler, hasher, marshalizer)
    }

    /** The steps of `Create`, in order. */
    function Steps(): seq<Binding<IntermediateProcessor>>
    {
      [ Binding(SmartContractResultBlock, SmartContractResultsIntermediateProcessor()),
        Binding(TxFeeBlock, TxFeeIntermediateProcessor()) ]
    }

    /** Builds a new container and adds the two processors, returning at
        the first error. A processor constructor fails with
        `failures[key]` when its block type is in `failures`. `attempted`
        records which constructors were called. */
    method Create(failures: map<BlockType, Error>) returns (r: Result<Container<BlockType, IntermediateProcessor>>, attempted: seq<BlockType>)
      ensures var b := Build(Steps(), failures, map[], 0);
        && (r.Success? <==> b.Success?)
        && (r.Success? ==>
              fresh(r.value) && r.value.Valid() && r.value.entries == b.value && r.value.log == Keys(Steps()))
        && (r.Failure? ==> r.error == b.error)
      ensures attempted == Attempted(Steps(), failures, map[], 0)
    {
      var steps := Steps();
      StepsKeys(this);
      var container := new Container<BlockType, IntermediateProcessor>();

      attempted := [SmartContractResultBlock];
      var interproc := Construct(steps[0], failures);
      if interproc.Failure? {
        CreateStopsAtFirstFailure(this, failures, 0);
        return Failure(interproc.error), attempted;
      }
      var err := container.Add(SmartContractResultBlock, interproc.value);
      assert err == None;

      attempted := [SmartContractResultBlock, TxFeeBlock];
      interproc := Construct(steps[1], failures);
      if interproc.Failure? {
        CreateStopsAtFirstFailure(this, failures, 1);
        return Failure(interproc.error), attempted;
      }
      err := container.Add(TxFeeBlock, interproc.value);
      assert err == None;
      CreateOutcome(this, failures);
      return Success(container), attempted;
    }
  }

  /** `NewIntermediateProcessorsContainerFactory`: the guards of
      `IntermediateProcessorsChecks` in order; on success a factory holding
      every argument. */
  function NewIntermediateProcessorsContainerFactory(args: IntermediateProcessorsArgs): (r: Result<IntermediateProcessorsContainerFactory>)
    ensures r.Success? <==> IntermediateProcessorsArgsComplete(args)
    ensures r.Success? ==> r.value.Args() == args
  {
    var err := FirstFailure(IntermediateProcessorsChecks(args));
    IntermediateProcessorsChecksPass(args);
    if err.Some? then Failure(err.value)
    else
      Success(IntermediateProcessorsContainerFactory(
        args.shardCoordinator.id, args.marshalizer.id, args.hasher.id,
        args.addrConverter.id, args.specialAddressHandler.id))
  }

  /** All guards pass exactly when every dependency is present. */
  lemma IntermediateProcessorsChecksPass(args: IntermediateProcessorsArgs)
    ensures FirstFailure(IntermediateProcessorsChecks(args)).None? <==> IntermediateProcessorsArgsComplete(args)
  {
    var cs := IntermediateProcessorsChecks(args);
    if !IntermediateProcessorsArgsComplete(args) {
      assert !cs[0].Pass? || !cs[1].Pass? || !cs[2].Pass? || !cs[3].Pass? || !cs[4].Pass?;
    }
  }

  /** The first nil dependency in check order is the one reported, whatever
      the later ones are. */
  lemma FirstNilReported(args: IntermediateProcessorsArgs, i: nat)
    requires i < 5 && IntermediateProcessorsChecks(args)[i].Fail?
    requires forall j :: 0 <= j < i ==> IntermediateProcessorsChecks(args)[j].Pass?
    ensures NewIntermediateProcessorsContainerFactory(args) == Failure(IntermediateProcessorsChecks(args)[i].err)
  {
    FirstFailureAt(IntermediateProcessorsChecks(args), i);
  }

  /** A nil special address handler is only reported once every other
      dependency is present. */
  lemma SpecialAddressHandlerCheckedLast(args: IntermediateProcessorsArgs)
    requires args.specialAddressHandler.Absent?
    ensures NewIntermediateProcessorsContainerFactory(args).Failure?
    ensures NewIntermediateProcessorsContainerFactory(args) == Failure(ErrNilSpecialAddressHandler) <==>
      args.shardCoordinator.Present? && args.marshalizer.Present? && args.hasher.Present? && args.addrConverter.Present?
  {
    if args.shardCoordinator.Absent? {
      FirstNilReported(args, 0);
    } else if args.marshalizer.Absent? {
      FirstNilReported(args, 1);
    } else if args.hasher.Absent? {
      FirstNilReported(args, 2);
    } else if args.addrConverter.Absent? {
      FirstNilReported(args, 3);
    } else {
      FirstNilReported(args, 4);
    }
  }

  /** The two steps are keyed by distinct block types: smart contract
      results first, then transaction fees. */
  lemma StepsKeys(f: IntermediateProcessorsContainerFactory)
    ensures Keys(f.Steps()) == [SmartContractResultBlock, TxFeeBlock]
    ensures Distinct(Keys(f.Steps()))
  {
    assert Keys(f.Steps())[..] == [SmartContractResultBlock, TxFeeBlock];
  }

  /** `Create` succeeds exactly when neither constructor fails; the
      container then maps each block type to its processor, and both
      constructors were called. */
  lemma CreateOutcome(f: IntermediateProcessorsContainerFactory, failures: map<BlockType, Error>)
    ensures Build(f.Steps(), failures, map[], 0).Success? <==>
      SmartContractResultBlock !in failures && TxFeeBlock !in failures
    ensures Build(f.Steps(), failures, map[], 0).Success? ==>
      && Build(f.Steps(), failures, map[], 0).value == map[
           SmartContractResultBlock := f.SmartContractResultsIntermediateProcessor(),
           TxFeeBlock := f.TxFeeIntermediateProcessor()]
      && Attempted(f.Steps(), failures, map[], 0) == [SmartContractResultBlock, TxFeeBlock]
  {
    var steps := f.Steps();
    StepsKeys(f);
    BuildSucceeds(steps, failures, map[], 0);
    if Build(steps, failures, map[], 0).Success? {
      assert forall j :: 0 <= j < 2 ==> steps[j].key !in failures;
      BuildContents(steps, failures, map[], 0);
      var built := Build(steps, failures, map[], 0).value;
      assert (set j | 0 <= j < 2 :: steps[j].key) == {SmartContractResultBlock, TxFeeBlock} by {
        assert steps[0].key == SmartContractResultBlock && steps[1].key == TxFeeBlock;
      }
      assert built[SmartContractResultBlock] == steps[0].value && built[TxFeeBlock] == steps[1].value;
    }
  }

  /** When the constructor for step `i` is the first to fail, `Create`
      returns its error and calls no later constructor. */
  lemma CreateStopsAtFirstFailure(f: IntermediateProcessorsContainerFactory, failures: map<BlockType, Error>, i: nat)
    requires i < 2 && Keys(f.Steps())[i] in failures
    requires forall j :: 0 <= j < i ==> Keys(f.Steps())[j] !in failures
    ensures Build(f.Steps(), failures, map[], 0) == Failure(failures[Keys(f.Steps())[i]])
    ensures Attempted(f.Steps(), failures, map[], 0) == Keys(f.Steps())[..i + 1]
  {
    StepsKeys(f);
    BuildFirstFailure(f.Steps(), failures, map[], 0, i);
    AttemptedUpToFailure(f.Steps(), failures, map[], 0, i);
  }

  /** The results processor is told the block type it is registered
      under, and both processors share the factory's hasher and
      marshalizer. */
  lemma IntermediateProcessorsMatchTheirKeys(f: IntermediateProcessorsContainerFactory)
    ensures forall b :: b in f.Steps() && b.value.IntermediateResultsProcessor? ==> b.value.blockType == b.key
    ensures forall b :: b in f.Steps() ==> b.value.hasher == f.hasher && b.value.marshalizer == f.marshalizer
  {
  }
}
