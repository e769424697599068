/** The metachain interceptors container factory
    (process/factory/interceptorscontainer/metaInterceptorsContainerFactory.go):
    the constructor's dependency checks, and `Create`, which wires one
    interceptor per gossip topic into the factory's container.

    Code outside this factory source file is a parameter of the model:
    - `checkBaseParams` is represented by the error it returns
      (`MetaArgs.baseParamsErr`);
    - building one interceptor for a topic (header validator, data factory,
      processor, `NewSingleDataInterceptor`, and the messenger subscription
      of `createTopicAndAssignHandler`) either yields an interceptor for that
      topic or fails with the error `Collaborators.creationFailures` gives
      for the topic;
    - `generateTxInterceptors`, `generateUnsignedTxsInterceptors` and
      `generateMiniBlocksInterceptors` either fail before touching the
      container or hand a key list and an interceptor list to
      `AddMultiple` (`GeneratorOutcome`). */
module MetaInterceptors {
  import opened Process
  import opened Guards
  import opened Containers

  // Topic names defined in process/factory, and the metachain's shard id
  // defined in core; neither package is part of this model.
  const MetachainBlocksTopic: string := "metachainBlocks"
  const ShardBlocksTopic: string := "shardBlocks"
  const RewardsTransactionTopic: string := "rewardsTransactions"
  const ValidatorTrieNodesTopic: string := "validatorTrieNodes"
  const AccountTrieNodesTopic: string := "accountTrieNodes"
  const MetachainShardId: uint32 := 0xFFFF_FFFF

  /** What the factory asks its shard coordinator: the number of shards and
      the topic suffix for talking to a given shard (left uninterpreted). */
  datatype ShardCoordinator = ShardCoordinator(numberOfShards: uint32, communicationIdentifier: uint32 -> string)

  /** The category of data an interceptor handles. */
  datatype Family = MetaHeader | ShardHeader | Transaction | UnsignedTransaction | RewardTransaction | MiniBlock | TrieNodes

  /** An interceptor registered for `topic`. */
  datatype Interceptor = Interceptor(topic: string, family: Family)

  /** What one of the generators whose code is not part of this model does. */
  datatype GeneratorOutcome =
    | Generated(keys: seq<string>, interceptors: seq<Interceptor>)
    | GenerationFailed(err: Error)

  /** The behaviour of the collaborators `Create` calls. */
  datatype Collaborators = Collaborators(
    creationFailures: map<string, Error>,
    txInterceptors: GeneratorOutcome,
    unsignedTxInterceptors: GeneratorOutcome,
    miniBlocksInterceptors: GeneratorOutcome)

  //------- Constructor

  /** The arguments the constructor checks. */
  datatype MetaArgs = MetaArgs(
    shardCoordinator: ShardCoordinator,
    baseParamsErr: Option<Error>,
    addrConverter: Dep,
    singleSigner: Dep,
    keyGen: Dep,
    txFeeHandler: Dep,
    blockKeyGen: Dep,
    blockSingleSigner: Dep,
    headerSigVerifier: Dep,
    epochStartTrigger: Dep,
    chainID: seq<byte>,
    validityAttester: Dep)

  /** The constructor's guards, in the order the source runs them. */
  function MetaChecks(args: MetaArgs): seq<Check>
  {
    [ if args.baseParamsErr.Some? then Fail(args.baseParamsErr.value) else Pass,
      RequirePresent(args.addrConverter, ErrNilAddressConverter),
      RequirePresent(args.singleSigner, ErrNilSingleSigner),
      RequirePresent(args.keyGen, ErrNilKeyGen),
      RequirePresent(args.txFeeHandler, ErrNilEconomicsFeeHandler),
      RequirePresent(args.blockKeyGen, ErrNilKeyGen),
      RequirePresent(args.blockSingleSigner, ErrNilSingleSigner),
      RequirePresent(args.headerSigVerifier, ErrNilHeaderSigVerifier),
      RequirePresent(args.epochStartTrigger, ErrNilEpochStartTrigger),
      Require(|args.chainID| != 0, ErrInvalidChainID),
      RequirePresent(args.validityAttester, ErrNilValidityAttester) ]
  }

  /** Every argument is usable: the base parameters pass, every dependency
      is present and the chain id is not empty. */
  ghost predicate MetaArgsComplete(args: MetaArgs)
  {
    && args.baseParamsErr.None?
    && args.addrConverter.Present?
    && args.singleSigner.Present?
    && args.keyGen.Present?
    && args.txFeeHandler.Present?
    && args.blockKeyGen.Present?
    && args.blockSingleSigner.Present?
    && args.headerSigVerifier.Present?
    && args.epochStartTrigger.Present?
    && |args.chainID| != 0
    && args.validityAttester.Present?
  }

  /** The error `NewMetaInterceptorsContainerFactory` returns, if any. */
  function MetaArgsCheck(args: MetaArgs): (r: Option<Error>)
    ensures r.None? <==> MetaArgsComplete(args)
  {
    var cs := MetaChecks(args);
    assert MetaArgsComplete(args) <==> forall i :: 0 <= i < |cs| ==> cs[i].Pass? by {
      if !MetaArgsComplete(args) {
        assert !cs[0].Pass? || !cs[1].Pass? || !cs[2].Pass? || !cs[3].Pass? || !cs[4].Pass? || !cs[5].Pass?
          || !cs[6].Pass? || !cs[7].Pass? || !cs[8].Pass? || !cs[9].Pass? || !cs[10].Pass?;
      }
    }
    FirstFailure(cs)
  }

  /** The first failing guard in order is the one reported, whatever the
      later ones say. */
  lemma FirstFailingCheckReported(args: MetaArgs, i: nat)
    requires i < 11 && MetaChecks(args)[i].Fail?
    requires forall j :: 0 <= j < i ==> MetaChecks(args)[j].Pass?
    ensures MetaArgsCheck(args) == Some(MetaChecks(args)[i].err)
  {
    FirstFailureAt(MetaChecks(args), i);
  }

  /** A failing `checkBaseParams` decides the outcome before any other guard. */
  lemma BaseParamsCheckedFirst(args: MetaArgs)
    requires args.baseParamsErr.Some?
    ensures MetaArgsCheck(args) == args.baseParamsErr
  {
    FirstFailureAt(MetaChecks(args), 0);
  }

  /** A nil `BlockKeyGen` is reported with the same error as a nil `KeyGen`. */
  lemma BlockKeyGenSharesKeyGenError(args: MetaArgs)
    requires args.baseParamsErr.None? && args.addrConverter.Present? && args.singleSigner.Present?
    requires args.keyGen.Absent? || (args.keyGen.Present? && args.txFeeHandler.Present? && args.blockKeyGen.Absent?)
    ensures MetaArgsCheck(args) == Some(ErrNilKeyGen)
  {
    if args.keyGen.Absent? {
      FirstFailureAt(MetaChecks(args), 3);
    } else {
      FirstFailureAt(MetaChecks(args), 5);
    }
  }

  /** A nil `BlockSingleSigner` is reported with the same error as a nil `SingleSigner`. */
  lemma BlockSingleSignerSharesSingleSignerError(args: MetaArgs)
    requires args.baseParamsErr.None? && args.addrConverter.Present?
    requires args.singleSigner.Absent? ||
      (&& args.singleSigner.Present? && args.keyGen.Present? && args.txFeeHandler.Present?
       && args.blockKeyGen.Present? && args.blockSingleSigner.Absent?)
    ensures MetaArgsCheck(args) == Some(ErrNilSingleSigner)
  {
    if args.singleSigner.Absent? {
      FirstFailureAt(MetaChecks(args), 2);
    } else {
      FirstFailureAt(MetaChecks(args), 6);
    }
  }

  /** Once every dependency before it is present, an empty chain id is
      rejected with `ErrInvalidChainID`, whatever the validity attester is. */
  lemma EmptyChainIdRejected(args: MetaArgs)
    requires args.baseParamsErr.None? && args.addrConverter.Present? && args.singleSigner.Present?
    requires args.keyGen.Present? && args.txFeeHandler.Present? && args.blockKeyGen.Present?
    requires args.blockSingleSigner.Present? && args.headerSigVerifier.Present? && args.epochStartTrigger.Present?
    requires args.chainID == []
    ensures MetaArgsCheck(args) == Some(ErrInvalidChainID)
  {
    FirstFailureAt(MetaChecks(args), 9);
  }

  //------- Topic lists

  /** `base + CommunicationIdentifier(i)` for the shards `i < n`, in order. */
  function PerShardTopics(base: string, sc: ShardCoordinator, n: nat): seq<string>
    requires n <= sc.numberOfShards
  {
    if n == 0 then [] else PerShardTopics(base, sc, n - 1) + [base + sc.communicationIdentifier(n - 1)]
  }

  lemma {:induction false} PerShardTopicsShape(base: string, sc: ShardCoordinator, n: nat)
    requires n <= sc.numberOfShards
    ensures |PerShardTopics(base, sc, n)| == n
    ensures forall i :: 0 <= i < n ==> PerShardTopics(base, sc, n)[i] == base + sc.communicationIdentifier(i)
  {
    if n > 0 {
      PerShardTopicsShape(base, sc, n - 1);
    }
  }

  /** The keys of `generateShardHeaderInterceptors`. */
  function ShardHeaderTopics(sc: ShardCoordinator): seq<string>
  {
    PerShardTopics(ShardBlocksTopic, sc, sc.numberOfShards)
  }

  /** The keys of `generateRewardTxInterceptors`. */
  function RewardTxTopics(sc: ShardCoordinator): seq<string>
  {
    PerShardTopics(RewardsTransactionTopic, sc, sc.numberOfShards)
  }

  /** For N shards there are exactly N shard-header keys and N reward keys,
      key i being the base topic followed by `CommunicationIdentifier(i)`. */
  lemma ShardHeaderAndRewardTopicsShape(sc: ShardCoordinator)
    ensures |ShardHeaderTopics(sc)| == sc.numberOfShards
    ensures |RewardTxTopics(sc)| == sc.numberOfShards
    ensures forall i :: 0 <= i < sc.numberOfShards ==>
      ShardHeaderTopics(sc)[i] == ShardBlocksTopic + sc.communicationIdentifier(i)
    ensures forall i :: 0 <= i < sc.numberOfShards ==>
      RewardTxTopics(sc)[i] == RewardsTransactionTopic + sc.communicationIdentifier(i)
  {
    PerShardTopicsShape(ShardBlocksTopic, sc, sc.numberOfShards);
    PerShardTopicsShape(RewardsTransactionTopic, sc, sc.numberOfShards);
  }

  /** The validator-trie then account-trie key of each shard `i < n`. */
  function TrieShardTopics(sc: ShardCoordinator, n: nat): seq<string>
    requires n <= sc.numberOfShards
  {
    if n == 0 then []
    else
      var shard := sc.communicationIdentifier(n - 1);
      TrieShardTopics(sc, n - 1) + [ValidatorTrieNodesTopic + shard, AccountTrieNodesTopic + shard]
  }

  /** The keys of `generateTrieNodesInterceptors`. */
  function TrieNodesTopics(sc: ShardCoordinator): seq<string>
  {
    TrieShardTopics(sc, sc.numberOfShards) +
      [ValidatorTrieNodesTopic + sc.communicationIdentifier(MetachainShardId),
       AccountTrieNodesTopic + sc.communicationIdentifier(MetachainShardId)]
  }

  lemma {:induction false} TrieShardTopicsShape(sc: ShardCoordinator, n: nat)
    requires n <= sc.numberOfShards
    ensures |TrieShardTopics(sc, n)| == 2 * n
    ensures forall s :: 0 <= s < n ==>
      && TrieShardTopics(sc, n)[2 * s] == ValidatorTrieNodesTopic + sc.communicationIdentifier(s)
      && TrieShardTopics(sc, n)[2 * s + 1] == AccountTrieNodesTopic + sc.communicationIdentifier(s)
  {
    if n > 0 {
      TrieShardTopicsShape(sc, n - 1);
      var t := TrieShardTopics(sc, n);
      var prev := TrieShardTopics(sc, n - 1);
      assert forall s :: 0 <= s < n - 1 ==> t[2 * s] == prev[2 * s] && t[2 * s + 1] == prev[2 * s + 1];
    }
  }

  /** For N shards there are 2N+2 trie keys: the validator then the account
      key of each shard in order, then those of the metachain. */
  lemma TrieNodesTopicsShape(sc: ShardCoordinator)
    ensures |TrieNodesTopics(sc)| == 2 * sc.numberOfShards + 2
    ensures forall s :: 0 <= s < sc.numberOfShards ==>
      && TrieNodesTopics(sc)[2 * s] == ValidatorTrieNodesTopic + sc.communicationIdentifier(s)
      && TrieNodesTopics(sc)[2 * s + 1] == AccountTrieNodesTopic + sc.communicationIdentifier(s)
    ensures TrieNodesTopics(sc)[2 * sc.numberOfShards] ==
      ValidatorTrieNodesTopic + sc.communicationIdentifier(MetachainShardId)
    ensures TrieNodesTopics(sc)[2 * sc.numberOfShards + 1] ==
      AccountTrieNodesTopic + sc.communicationIdentifier(MetachainShardId)
  {
    TrieShardTopicsShape(sc, sc.numberOfShards);
  }

  //------- One generator

  /** Building the interceptor of one topic (`createOne...Interceptor`). */
  function CreateOneInterceptor(topic: string, family: Family, failures: map<string, Error>): Result<Interceptor>
  {
    if topic in failures then Failure(failures[topic]) else Success(Interceptor(topic, family))
  }

  /** Building the interceptors of `topics` one after the other, stopping
      at the first that cannot be built (the loop of a per-topic generator). */
  function BuildInterceptors(topics: seq<string>, family: Family, failures: map<string, Error>): Result<seq<Interceptor>>
  {
    if topics == [] then Success([])
    else
      var one := CreateOneInterceptor(topics[0], family, failures);
      if one.Failure? then Failure(one.error)
      else
        var rest := BuildInterceptors(topics[1..], family, failures);
        if rest.Failure? then rest else Success([one.value] + rest.value)
  }

  /** The interceptors built for `topics`. */
  function InterceptorsFor(topics: seq<string>, family: Family): (r: seq<Interceptor>)
    ensures |r| == |topics|
  {
    seq(|topics|, i requires 0 <= i < |topics| => Interceptor(topics[i], family))
  }

  /** One of `Create`'s seven generators. */
  datatype Step =
    | PerTopic(topics: seq<string>, family: Family)
    | Opaque(outcome: GeneratorOutcome)

  /** A generator whose code is not part of this model, applied to the
      container entries `m`. */
  function ApplyOutcome(m: map<string, Interceptor>, outcome: GeneratorOutcome): Insertion<string, Interceptor>
  {
    match outcome
    case GenerationFailed(e) => Insertion(m, [], Some(e))
    case Generated(keys, interceptors) => AddAll(m, keys, interceptors)
  }

  /** A generator applied to the container entries `m`: a per-topic
      generator first builds every interceptor, returning the first error
      without touching the container, and only then calls `AddMultiple`. */
  function RunStep(m: map<string, Interceptor>, step: Step, failures: map<string, Error>): Insertion<string, Interceptor>
  {
    match step
    case PerTopic(topics, family) =>
      (match BuildInterceptors(topics, family, failures)
       case Failure(e) => Insertion(m, [], Some(e))
       case Success(built) => AddAll(m, topics, built))
    case Opaque(outcome) => ApplyOutcome(m, outcome)
  }

  /** Generators `k..` run in order, stopping at the first error. */
  function RunSteps(m: map<string, Interceptor>, steps: seq<Step>, failures: map<string, Error>, k: nat): Insertion<string, Interceptor>
    requires k <= |steps|
    decreases |steps| - k
  {
    if k == |steps| then Insertion(m, [], None)
    else
      var first := RunStep(m, steps[k], failures);
      if first.err.Some? then first
      else Followed(first, RunSteps(first.entries, steps, failures, k + 1))
  }

  /** `Create`'s generators, in the order it runs them. */
  function CreateSteps(sc: ShardCoordinator, env: Collaborators): seq<Step>
  {
    [ PerTopic([MetachainBlocksTopic], MetaHeader),
      PerTopic(ShardHeaderTopics(sc), ShardHeader),
      Opaque(env.txInterceptors),
      Opaque(env.unsignedTxInterceptors),
      PerTopic(RewardTxTopics(sc), RewardTransaction),
      Opaque(env.miniBlocksInterceptors),
      PerTopic(TrieNodesTopics(sc), TrieNodes) ]
  }

  /** Building succeeds exactly when no topic's interceptor fails, and then
      yields one interceptor per topic, in order. */
  lemma {:induction false} BuildInterceptorsOutcome(topics: seq<string>, family: Family, failures: map<string, Error>)
    ensures BuildInterceptors(topics, family, failures).Success? <==>
      forall i :: 0 <= i < |topics| ==> topics[i] !in failures
    ensures BuildInterceptors(topics, family, failures).Success? ==>
      BuildInterceptors(topics, family, failures).value == InterceptorsFor(topics, family)
  {
    if topics != [] {
      var tail := topics[1..];
      BuildInterceptorsOutcome(tail, family, failures);
      assert forall i :: 1 <= i < |topics| ==> topics[i] == tail[i - 1];
      var r := BuildInterceptors(topics, family, failures);
      if r.Success? {
        assert r.value == [Interceptor(topics[0], family)] + InterceptorsFor(tail, family);
      }
    }
  }

  /** The first topic whose interceptor cannot be built decides the error. */
  lemma {:induction false} BuildInterceptorsFirstFailure(topics: seq<string>, family: Family, failures: map<string, Error>, i: nat)
    requires i < |topics| && topics[i] in failures
    requires forall j :: 0 <= j < i ==> topics[j] !in failures
    ensures BuildInterceptors(topics, family, failures) == Failure(failures[topics[i]])
  {
    if i > 0 {
      BuildInterceptorsFirstFailure(topics[1..], family, failures, i - 1);
    }
  }

  /** When every interceptor is built, a per-topic generator is one `AddMultiple`. */
  lemma PerTopicAllBuilt(m: map<string, Interceptor>, topics: seq<string>, family: Family, failures: map<string, Error>)
    requires forall i :: 0 <= i < |topics| ==> topics[i] !in failures
    ensures RunStep(m, PerTopic(topics, family), failures) == AddAll(m, topics, InterceptorsFor(topics, family))
  {
    BuildInterceptorsOutcome(topics, family, failures);
  }

  /** A per-topic generator whose topic `i` is the first that cannot be
      built reports that topic's error and leaves the entries as they were. */
  lemma PerTopicFirstFailure(m: map<string, Interceptor>, topics: seq<string>, family: Family, failures: map<string, Error>, i: nat)
    requires i < |topics| && topics[i] in failures
    requires forall j :: 0 <= j < i ==> topics[j] !in failures
    ensures RunStep(m, PerTopic(topics, family), failures) == Insertion(m, [], Some(failures[topics[i]]))
  {
    BuildInterceptorsFirstFailure(topics, family, failures, i);
  }

  lemma ConcatAssoc(a: seq<string>, b: seq<string>, c: seq<string>)
    ensures (a + b) + c == a + (b + c)
  {
  }

  /** The first `k` generators run in order, stopping at the first error. */
  function RunPrefix(m: map<string, Interceptor>, steps: seq<Step>, failures: map<string, Error>, k: nat): Insertion<string, Interceptor>
    requires k <= |steps|
  {
    if k == 0 then Insertion(m, [], None)
    else
      var p := RunPrefix(m, steps, failures, k - 1);
      if p.err.Some? then p else Followed(p, RunStep(p.entries, steps[k - 1], failures))
  }

  /** Running all generators is running the first `k` and, if none of
      them failed, the rest on the entries they left. */
  lemma {:induction false} RunPrefixThenRest(m: map<string, Interceptor>, steps: seq<Step>, failures: map<string, Error>, k: nat)
    requires k <= |steps|
    ensures var p := RunPrefix(m, steps, failures, k);
      RunSteps(m, steps, failures, 0) ==
        if p.err.Some? then p else Followed(p, RunSteps(p.entries, steps, failures, k))
  {
    if k == 0 {
      assert [] + RunSteps(m, steps, failures, 0).added == RunSteps(m, steps, failures, 0).added;
    } else {
      RunPrefixThenRest(m, steps, failures, k - 1);
      var p := RunPrefix(m, steps, failures, k - 1);
      if p.err.None? {
        var first := RunStep(p.entries, steps[k - 1], failures);
        if first.err.None? {
          var rest := RunSteps(first.entries, steps, failures, k);
          assert p.added + (first.added + rest.added) == (p.added + first.added) + rest.added;
        }
      }
    }
  }

  /** When the generators before `k` succeed and generator `k` fails, the
      run ends there: its error is the result, and no later generator
      changes the entries. */
  lemma StopsAtFirstFailedStep(m: map<string, Interceptor>, steps: seq<Step>, failures: map<string, Error>, k: nat)
    requires k < |steps|
    requires RunPrefix(m, steps, failures, k).err.None?
    requires RunStep(RunPrefix(m, steps, failures, k).entries, steps[k], failures).err.Some?
    ensures var failed := RunStep(RunPrefix(m, steps, failures, k).entries, steps[k], failures);
      RunSteps(m, steps, failures, 0).err == failed.err &&
      RunSteps(m, steps, failures, 0).entries == failed.entries
  {
    RunPrefixThenRest(m, steps, failures, k + 1);
  }

  /** If building any interceptor of a per-topic generator fails, the
      generator reports the first such error and leaves the entries as they were. */
  lemma PerTopicFailureLeavesEntries(m: map<string, Interceptor>, topics: seq<string>, family: Family, failures: map<string, Error>, i: nat)
    requires i < |topics| && topics[i] in failures
    ensures var r := RunStep(m, PerTopic(topics, family), failures);
      r.entries == m && r.added == [] && r.err.Some?
  {
    BuildInterceptorsOutcome(topics, family, failures);
  }

  //------- What Create builds

  function StepTopics(step: Step): seq<string>
  {
    match step
    case PerTopic(topics, _) => topics
    case Opaque(Generated(keys, _)) => keys
    case Opaque(GenerationFailed(_)) => []
  }

  function StepInterceptors(step: Step): seq<Interceptor>
  {
    match step
    case PerTopic(topics, family) => InterceptorsFor(topics, family)
    case Opaque(Generated(_, interceptors)) => interceptors
    case Opaque(GenerationFailed(_)) => []
  }

  /** Every collaborator of this generator succeeds. */
  ghost predicate StepBuilds(step: Step, failures: map<string, Error>)
  {
    match step
    case PerTopic(topics, _) => forall i :: 0 <= i < |topics| ==> topics[i] !in failures
    case Opaque(Generated(keys, interceptors)) => |keys| == |interceptors|
    case Opaque(GenerationFailed(_)) => false
  }

  function TopicsFrom(steps: seq<Step>, k: nat): seq<string>
    requires k <= |steps|
    decreases |steps| - k
  {
    if k == |steps| then [] else StepTopics(steps[k]) + TopicsFrom(steps, k + 1)
  }

  function InterceptorsFrom(steps: seq<Step>, k: nat): seq<Interceptor>
    requires k <= |steps|
    decreases |steps| - k
  {
    if k == |steps| then [] else StepInterceptors(steps[k]) + InterceptorsFrom(steps, k + 1)
  }

  /** A generator whose collaborators succeed is one `AddMultiple` of its
      keys; one whose collaborators fail reports an error. */
  lemma StepOutcome(m: map<string, Interceptor>, step: Step, failures: map<string, Error>)
    ensures StepBuilds(step, failures) ==>
      RunStep(m, step, failures) == AddAll(m, StepTopics(step), StepInterceptors(step))
    ensures !StepBuilds(step, failures) ==> RunStep(m, step, failures).err.Some?
  {
    if step.PerTopic? {
      BuildInterceptorsOutcome(step.topics, step.family, failures);
    }
  }

  lemma {:induction false} AlignedFrom(steps: seq<Step>, failures: map<string, Error>, k: nat)
    requires k <= |steps|
    requires forall j :: k <= j < |steps| ==> StepBuilds(steps[j], failures)
    decreases |steps| - k
    ensures |TopicsFrom(steps, k)| == |InterceptorsFrom(steps, k)|
  {
    if k < |steps| {
      AlignedFrom(steps, failures, k + 1);
    }
  }

  /** Running generators `k..` succeeds exactly when all their
      collaborators succeed and one `AddMultiple` of all their keys would;
      it then has the same effect as that `AddMultiple`. */
  lemma {:induction false} RunStepsOutcome(m: map<string, Interceptor>, steps: seq<Step>, failures: map<string, Error>, k: nat)
    requires k <= |steps|
    decreases |steps| - k
    ensures var r := RunSteps(m, steps, failures, k);
      r.err.None? <==>
        (forall j :: k <= j < |steps| ==> StepBuilds(steps[j], failures)) &&
        AddAll(m, TopicsFrom(steps, k), InterceptorsFrom(steps, k)).err.None?
    ensures var r := RunSteps(m, steps, failures, k);
      r.err.None? ==> r == AddAll(m, TopicsFrom(steps, k), InterceptorsFrom(steps, k))
  {
    if k < |steps| {
      var step := steps[k];
      var first := RunStep(m, step, failures);
      StepOutcome(m, step, failures);
      if StepBuilds(step, failures) {
        RunStepsOutcome(first.entries, steps, failures, k + 1);
        if forall j :: k + 1 <= j < |steps| ==> StepBuilds(steps[j], failures) {
          AlignedFrom(steps, failures, k + 1);
          AddEachAppend(m, StepTopics(step), StepInterceptors(step), TopicsFrom(steps, k + 1), InterceptorsFrom(steps, k + 1));
        }
      }
    }
  }

  /** The keys `Create` inserts, in order. */
  function CreateTopics(sc: ShardCoordinator, env: Collaborators): seq<string>
  {
    TopicsFrom(CreateSteps(sc, env), 0)
  }

  /** Every collaborator `Create` calls succeeds. */
  ghost predicate CollaboratorsSucceed(sc: ShardCoordinator, env: Collaborators)
  {
    forall j :: 0 <= j < 7 ==> StepBuilds(CreateSteps(sc, env)[j], env.creationFailures)
  }

  /** The keys are the metachain block topic, the N shard-header topics, the
      transaction, unsigned-transaction keys, the N reward topics, the
      miniblock keys and the 2N+2 trie-node topics, in that order. */
  lemma CreateTopicsOrder(sc: ShardCoordinator, env: Collaborators)
    ensures CreateTopics(sc, env) ==
      [MetachainBlocksTopic] + ShardHeaderTopics(sc)
      + StepTopics(Opaque(env.txInterceptors)) + StepTopics(Opaque(env.unsignedTxInterceptors))
      + RewardTxTopics(sc) + StepTopics(Opaque(env.miniBlocksInterceptors)) + TrieNodesTopics(sc)
  {
    var steps := CreateSteps(sc, env);
    assert TopicsFrom(steps, 7) == [];
    assert TopicsFrom(steps, 6) == TrieNodesTopics(sc);
    assert TopicsFrom(steps, 5) == StepTopics(steps[5]) + TopicsFrom(steps, 6);
    assert TopicsFrom(steps, 4) == StepTopics(steps[4]) + TopicsFrom(steps, 5);
    assert TopicsFrom(steps, 3) == StepTopics(steps[3]) + TopicsFrom(steps, 4);
    assert TopicsFrom(steps, 2) == StepTopics(steps[2]) + TopicsFrom(steps, 3);
    assert TopicsFrom(steps, 1) == StepTopics(steps[1]) + TopicsFrom(steps, 2);
    assert TopicsFrom(steps, 0) == StepTopics(steps[0]) + TopicsFrom(steps, 1);
  }

  /** `Create` succeeds on the entries `m` exactly when every collaborator
      succeeds and its keys are pairwise distinct and new; the container
      then holds exactly the old entries, unchanged, plus those keys, added
      in order, each bound to the interceptor built for it. */
  lemma CreateOutcome(m: map<string, Interceptor>, sc: ShardCoordinator, env: Collaborators)
    ensures var r := RunSteps(m, CreateSteps(sc, env), env.creationFailures, 0);
      var topics := CreateTopics(sc, env);
      r.err.None? <==>
        CollaboratorsSucceed(sc, env) && Distinct(topics) && forall i :: 0 <= i < |topics| ==> topics[i] !in m
    ensures var r := RunSteps(m, CreateSteps(sc, env), env.creationFailures, 0);
      r.err.None? ==>
        && r.added == CreateTopics(sc, env)
        && r.entries.Keys == m.Keys + Elements(CreateTopics(sc, env))
        && (forall k :: k in m ==> r.entries[k] == m[k])
        && |InterceptorsFrom(CreateSteps(sc, env), 0)| == |CreateTopics(sc, env)|
        && (forall i :: 0 <= i < |CreateTopics(sc, env)| ==>
              r.entries[CreateTopics(sc, env)[i]] == InterceptorsFrom(CreateSteps(sc, env), 0)[i])
  {
    var steps := CreateSteps(sc, env);
    RunStepsOutcome(m, steps, env.creationFailures, 0);
    AddAllOutcome(m, TopicsFrom(steps, 0), InterceptorsFrom(steps, 0));
    if CollaboratorsSucceed(sc, env) {
      AlignedFrom(steps, env.creationFailures, 0);
    }
  }

  /** On an empty container with all collaborators succeeding and distinct
      keys, N shards give 4N+3 topics of their own, plus those of the
      transaction, unsigned-transaction and miniblock generators. */
  lemma CreateTopicCount(sc: ShardCoordinator, env: Collaborators)
    requires RunSteps(map[], CreateSteps(sc, env), env.creationFailures, 0).err.None?
    ensures |RunSteps(map[], CreateSteps(sc, env), env.creationFailures, 0).entries| ==
      4 * sc.numberOfShards + 3
      + |StepTopics(Opaque(env.txInterceptors))| + |StepTopics(Opaque(env.unsignedTxInterceptors))|
      + |StepTopics(Opaque(env.miniBlocksInterceptors))|
  {
    var r := RunSteps(map[], CreateSteps(sc, env), env.creationFailures, 0);
    CreateOutcome(map[], sc, env);
    CreateTopicsOrder(sc, env);
    ShardHeaderAndRewardTopicsShape(sc);
    TrieNodesTopicsShape(sc);
    DistinctCardinality(CreateTopics(sc, env));
    assert r.entries.Keys == Elements(CreateTopics(sc, env));
  }

  //------- The factory

  class MetaInterceptorsContainerFactory {
    const shardCoordinator: ShardCoordinator
    const container: Container<string, Interceptor>

    constructor (sc: ShardCoordinator)
      ensures shardCoordinator == sc
      ensures fresh(container) && container.Valid() && container.entries == map[] && container.log == []
    {
      shardCoordinator := sc;
      container := new Container();
    }

    /** `generateMetablockInterceptors`: one interceptor, keyed
        `MetachainBlocksTopic`, added with `Add`. The inline construction
        of the interceptor is reduced to `CreateOneInterceptor`. */
    method GenerateMetablockInterceptors(env: Collaborators) returns (err: Option<Error>)
      requires container.Valid()
      modifies container
      ensures container.Valid()
      ensures var r := RunStep(old(container.entries), PerTopic([MetachainBlocksTopic], MetaHeader), env.creationFailures);
        container.entries == r.entries && container.log == old(container.log) + r.added && err == r.err
    {
      ghost var m := container.entries;
      var identifierHdr := MetachainBlocksTopic;
      var interceptor := CreateOneInterceptor(identifierHdr, MetaHeader, env.creationFailures);
      if interceptor.Failure? {
        PerTopicFirstFailure(m, [identifierHdr], MetaHeader, env.creationFailures, 0);
        return Some(interceptor.error);
      }
      PerTopicAllBuilt(m, [identifierHdr], MetaHeader, env.creationFailures);
      assert InterceptorsFor([identifierHdr], MetaHeader) == [interceptor.value];
      AddAllSingle(m, identifierHdr, interceptor.value);
      err := container.Add(identifierHdr, interceptor.value);
    }

    /** `generateShardHeaderInterceptors`: one interceptor per shard, then one `AddMultiple`. */
    method GenerateShardHeaderInterceptors(env: Collaborators) returns (err: Option<Error>)
      requires container.Valid()
      modifies container
      ensures container.Valid()
      ensures var r := RunStep(old(container.entries), PerTopic(ShardHeaderTopics(shardCoordinator), ShardHeader), env.creationFailures);
        container.entries == r.entries && container.log == old(container.log) + r.added && err == r.err
    {
      ghost var m := container.entries;
      var shardC := shardCoordinator;
      var noOfShards := shardC.numberOfShards;
      var keys := new string[noOfShards];
      var interceptorsSlice := new Interceptor[noOfShards];
      ghost var topics := ShardHeaderTopics(shardC);
      ShardHeaderAndRewardTopicsShape(shardC);

      var idx: uint32 := 0;
      while idx < noOfShards
        invariant 0 <= idx <= noOfShards
        invariant forall j :: 0 <= j < idx ==> keys[j] == topics[j]
        invariant forall j :: 0 <= j < idx ==> interceptorsSlice[j] == Interceptor(topics[j], ShardHeader)
        invariant forall j :: 0 <= j < idx ==> topics[j] !in env.creationFailures
        modifies keys, interceptorsSlice
      {
        var identifierHeader := ShardBlocksTopic + shardC.communicationIdentifier(idx);
        var interceptor := CreateOneInterceptor(identifierHeader, ShardHeader, env.creationFailures);
        if interceptor.Failure? {
          PerTopicFirstFailure(m, topics, ShardHeader, env.creationFailures, idx);
          return Some(interceptor.error);
        }
        keys[idx] := identifierHeader;
        interceptorsSlice[idx] := interceptor.value;
        idx := idx + 1;
      }

      assert keys[..] == topics;
      assert interceptorsSlice[..] == InterceptorsFor(topics, ShardHeader);
      PerTopicAllBuilt(m, topics, ShardHeader, env.creationFailures);
      err := container.AddMultiple(keys[..], interceptorsSlice[..]);
    }

    /** `generateTrieNodesInterceptors`: validator and account trie
        interceptors for every shard, then for the metachain, then one
        `AddMultiple`. */
    method GenerateTrieNodesInterceptors(env: Collaborators) returns (err: Option<Error>)
      requires container.Valid()
      modifies container
      ensures container.Valid()
      ensures var r := RunStep(old(container.entries), PerTopic(TrieNodesTopics(shardCoordinator), TrieNodes), env.creationFailures);
        container.entries == r.entries && container.log == old(container.log) + r.added && err == r.err
    {
      ghost var m := container.entries;
      var shardC := shardCoordinator;
      var keys: seq<string> := [];
      var trieInterceptors: seq<Interceptor> := [];
      ghost var topics := TrieNodesTopics(shardC);
      var failures := env.creationFailures;
      TrieNodesTopicsShape(shardC);

      var i: uint32 := 0;
      while i < shardC.numberOfShards
        invariant 0 <= i <= shardC.numberOfShards
        invariant |keys| == |trieInterceptors| == 2 * i
        invariant forall j :: 0 <= j < |keys| ==> keys[j] == topics[j] && topics[j] !in failures
        invariant forall j :: 0 <= j < |keys| ==> trieInterceptors[j] == Interceptor(topics[j], TrieNodes)
      {
        var identifierTrieNodes := ValidatorTrieNodesTopic + shardC.communicationIdentifier(i);
        var interceptor := CreateOneInterceptor(identifierTrieNodes, TrieNodes, failures);
        if interceptor.Failure? {
          PerTopicFirstFailure(m, topics, TrieNodes, failures, 2 * i);
          return Some(interceptor.error);
        }
        keys := keys + [identifierTrieNodes];
        trieInterceptors := trieInterceptors + [interceptor.value];

        identifierTrieNodes := AccountTrieNodesTopic + shardC.communicationIdentifier(i);
        interceptor := CreateOneInterceptor(identifierTrieNodes, TrieNodes, failures);
        if interceptor.Failure? {
          PerTopicFirstFailure(m, topics, TrieNodes, failures, 2 * i + 1);
          return Some(interceptor.error);
        }
        keys := keys + [identifierTrieNodes];
        trieInterceptors := trieInterceptors + [interceptor.value];
        i := i + 1;
      }

      ghost var n: nat := shardC.numberOfShards;
      var identifierTrieNodes := ValidatorTrieNodesTopic + shardC.communicationIdentifier(MetachainShardId);
      var interceptor := CreateOneInterceptor(identifierTrieNodes, TrieNodes, failures);
      if interceptor.Failure? {
        PerTopicFirstFailure(m, topics, TrieNodes, failures, 2 * n);
        return Some(interceptor.error);
      }
      keys := keys + [identifierTrieNodes];
      trieInterceptors := trieInterceptors + [interceptor.value];

      identifierTrieNodes := AccountTrieNodesTopic + shardC.communicationIdentifier(MetachainShardId);
      interceptor := CreateOneInterceptor(identifierTrieNodes, TrieNodes, failures);
      if interceptor.Failure? {
        PerTopicFirstFailure(m, topics, TrieNodes, failures, 2 * n + 1);
        return Some(interceptor.error);
      }
      keys := keys + [identifierTrieNodes];
      trieInterceptors := trieInterceptors + [interceptor.value];

      assert keys == topics;
      assert trieInterceptors == InterceptorsFor(topics, TrieNodes);
      PerTopicAllBuilt(m, topics, TrieNodes, failures);
      err := container.AddMultiple(keys, trieInterceptors);
    }

    /** `generateRewardTxInterceptors`: one reward-transaction interceptor per shard, then one `AddMultiple`. */
    method GenerateRewardTxInterceptors(env: Collaborators) returns (err: Option<Error>)
      requires container.Valid()
      modifies container
      ensures container.Valid()
      ensures var r := RunStep(old(container.entries), PerTopic(RewardTxTopics(shardCoordinator), RewardTransaction), env.creationFailures);
        container.entries == r.entries && container.log == old(container.log) + r.added && err == r.err
    {
      ghost var m := container.entries;
      var shardC := shardCoordinator;
      var noOfShards := shardC.numberOfShards;
      var keys := new string[noOfShards];
      var interceptorSlice := new Interceptor[noOfShards];
      ghost var topics := RewardTxTopics(shardC);
      ShardHeaderAndRewardTopicsShape(shardC);

      var idx: uint32 := 0;
      while idx < noOfShards
        invariant 0 <= idx <= noOfShards
        invariant forall j :: 0 <= j < idx ==> keys[j] == topics[j]
        invariant forall j :: 0 <= j < idx ==> interceptorSlice[j] == Interceptor(topics[j], RewardTransaction)
        invariant forall j :: 0 <= j < idx ==> topics[j] !in env.creationFailures
        modifies keys, interceptorSlice
      {
        var identifierScr := RewardsTransactionTopic + shardC.communicationIdentifier(idx);
        var interceptor := CreateOneInterceptor(identifierScr, RewardTransaction, env.creationFailures);
        if interceptor.Failure? {
          PerTopicFirstFailure(m, topics, RewardTransaction, env.creationFailures, idx);
          return Some(interceptor.error);
        }
        keys[idx] := identifierScr;
        interceptorSlice[idx] := interceptor.value;
        idx := idx + 1;
      }

      assert keys[..] == topics;
      assert interceptorSlice[..] == InterceptorsFor(topics, RewardTransaction);
      PerTopicAllBuilt(m, topics, RewardTransaction, env.creationFailures);
      err := container.AddMultiple(keys[..], interceptorSlice[..]);
    }

    /** A generator whose code is not part of this model (transactions,
        unsigned transactions, miniblocks), applied through its outcome. */
    method GenerateFromOutcome(outcome: GeneratorOutcome) returns (err: Option<Error>)
      requires container.Valid()
      modifies container
      ensures container.Valid()
      ensures var r := ApplyOutcome(old(container.entries), outcome);
        container.entries == r.entries && container.log == old(container.log) + r.added && err == r.err
    {
      match outcome
      case GenerationFailed(e) =>
        err := Some(e);
      case Generated(keys, interceptors) =>
        err := container.AddMultiple(keys, interceptors);
    }

    /** `Create`: the seven generators in order, stopping at the first
        error, which is returned with no container. */
    method Create(env: Collaborators) returns (r: Result<Container<string, Interceptor>>)
      requires container.Valid()
      modifies container
      ensures container.Valid()
      ensures var ins := RunSteps(old(container.entries), CreateSteps(shardCoordinator, env), env.creationFailures, 0);
        (container.entries, container.log, r) ==
          (ins.entries, old(container.log) + ins.added, if ins.err.Some? then Failure(ins.err.value) else Success(container))
    {
      ghost var steps := CreateSteps(shardCoordinator, env);
      ghost var failures := env.creationFailures;
      ghost var m0 := container.entries;
      ghost var log0 := container.log;
      // `done` is what the generators run so far have done.
      ghost var done := RunPrefix(m0, steps, failures, 0);
      assert container.log == log0 + done.added;

      var err := GenerateMetablockInterceptors(env);
      ConcatAssoc(log0, done.added, RunStep(done.entries, steps[0], failures).added);
      done := RunPrefix(m0, steps, failures, 1);
      if err.Some? {
        RunPrefixThenRest(m0, steps, failures, 1);
        return Failure(err.value);
      }

      err := GenerateShardHeaderInterceptors(env);
      ConcatAssoc(log0, done.added, RunStep(done.entries, steps[1], failures).added);
      done := RunPrefix(m0, steps, failures, 2);
      if err.Some? {
        RunPrefixThenRest(m0, steps, failures, 2);
        return Failure(err.value);
      }

      err := GenerateFromOutcome(env.txInterceptors);
      ConcatAssoc(log0, done.added, RunStep(done.entries, steps[2], failures).added);
      done := RunPrefix(m0, steps, failures, 3);
      if err.Some? {
        RunPrefixThenRest(m0, steps, failures, 3);
        return Failure(err.value);
      }

      err := GenerateFromOutcome(env.unsignedTxInterceptors);
      ConcatAssoc(log0, done.added, RunStep(done.entries, steps[3], failures).added);
      done := RunPrefix(m0, steps, failures, 4);
      if err.Some? {
        RunPrefixThenRest(m0, steps, failures, 4);
        return Failure(err.value);
      }

      err := GenerateRewardTxInterceptors(env);
      ConcatAssoc(log0, done.added, RunStep(done.entries, steps[4], failures).added);
      done := RunPrefix(m0, steps, failures, 5);
      if err.Some? {
        RunPrefixThenRest(m0, steps, failures, 5);
        return Failure(err.value);
      }

      err := GenerateFromOutcome(env.miniBlocksInterceptors);
      ConcatAssoc(log0, done.added, RunStep(done.entries, steps[5], failures).added);
      done := RunPrefix(m0, steps, failures, 6);
      if err.Some? {
        RunPrefixThenRest(m0, steps, failures, 6);
        return Failure(err.value);
      }

      err := GenerateTrieNodesInterceptors(env);
      ConcatAssoc(log0, done.added, RunStep(done.entries, steps[6], failures).added);
      done := RunPrefix(m0, steps, failures, 7);
      if err.Some? {
        RunPrefixThenRest(m0, steps, failures, 7);
        return Failure(err.value);
      }
      RunPrefixThenRest(m0, steps, failures, 7);
      assert done.added + [] == done.added;
      return Success(container);
    }
  }

  /** `NewMetaInterceptorsContainerFactory`: the guards of `MetaChecks` in order; on success a
      factory with a fresh, empty container. */
  method NewMetaInterceptorsContainerFactory(args: MetaArgs) returns (r: Result<MetaInterceptorsContainerFactory>)
    ensures r.Failure? <==> !MetaArgsComplete(args)
    ensures r.Failure? ==> MetaArgsCheck(args) == Some(r.error)
    ensures r.Success? ==>
      && fresh(r.value) && fresh(r.value.container)
      && r.value.shardCoordinator == args.shardCoordinator
      && r.value.container.Valid() && r.value.container.entries == map[]
  {
    var err := MetaArgsCheck(args);
    if err.Some? {
      return Failure(err.value);
    }
    var icf := new MetaInterceptorsContainerFactory(args.shardCoordinator);
    return Success(icf);
  }
}
