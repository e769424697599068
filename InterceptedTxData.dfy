/** The factory of intercepted transactions
    (`process/interceptors/factory/interceptedTxDataFactory.go`): a
    constructor that checks its argument struct and registers the new
    factory with the epoch notifier, an `EpochConfirmed` handler that
    overwrites the "signed with hash" flag, and a `Create` that hands the
    current flag to the intercepted-transaction constructor. */
module InterceptedTxData {
  import opened Process
  import opened Guards

  /** The epoch notifier, reduced to the handlers registered with it (its
      dispatch of epoch changes is not part of this model). */
  class EpochNotifier {
    var handlers: seq<InterceptedTxDataFactory>

    constructor ()
      ensures handlers == []
    {
      handlers := [];
    }

    method RegisterNotifyHandler(handler: InterceptedTxDataFactory)
      modifies this
      ensures handlers == old(handlers) + [handler]
    {
      handlers := handlers + [handler];
    }
  }

  /** The fields of `ArgInterceptedDataFactory` the constructor reads. */
  datatype ArgInterceptedDataFactory = ArgInterceptedDataFactory(
    protoMarshalizer: Dep,
    txSignMarshalizer: Dep,
    hasher: Dep,
    keyGen: Dep,
    signer: Dep,
    addressPubkeyConv: Dep,
    shardCoordinator: Dep,
    feeHandler: Dep,
    whiteListerVerifiedTxs: Dep,
    argsParser: Dep,
    chainID: seq<byte>,
    minTransactionVersion: uint32,
    epochStartTrigger: Dep,
    txSignHasher: Dep,
    epochNotifier: EpochNotifier?,
    enableSignTxWithHashEpoch: uint32)

  /** The constructor's guards on a non-nil argument struct, in the order
      the source runs them. */
  function InterceptedTxChecks(a: ArgInterceptedDataFactory): seq<Check>
  {
    [ RequirePresent(a.protoMarshalizer, ErrNilMarshalizer),
      RequirePresent(a.txSignMarshalizer, ErrNilMarshalizer),
      RequirePresent(a.hasher, ErrNilHasher),
      RequirePresent(a.keyGen, ErrNilKeyGen),
      RequirePresent(a.signer, ErrNilSingleSigner),
      RequirePresent(a.addressPubkeyConv, ErrNilPubkeyConverter),
      RequirePresent(a.shardCoordinator, ErrNilShardCoordinator),
      RequirePresent(a.feeHandler, ErrNilEconomicsFeeHandler),
      RequirePresent(a.whiteListerVerifiedTxs, ErrNilWhiteListHandler),
      RequirePresent(a.argsParser, ErrNilArgumentParser),
      Require(|a.chainID| != 0, ErrInvalidChainID),
      Require(a.minTransactionVersion != 0, ErrInvalidTransactionVersion),
      RequirePresent(a.epochStartTrigger, ErrNilEpochStartTrigger),
      RequirePresent(a.txSignHasher, ErrNilHasher),
      Require(a.epochNotifier != null, ErrNilEpochNotifier) ]
  }

  /** The argument struct is given, every dependency in it is present, the
      chain id is not empty and the minimum transaction version is not 0. */
  ghost predicate ArgumentComplete(argument: Option<ArgInterceptedDataFactory>)
  {
    && argument.Some?
    && var a := argument.value;
    && a.protoMarshalizer.Present?
    && a.txSignMarshalizer.Present?
    && a.hasher.Present?
    && a.keyGen.Present?
    && a.signer.Present?
    && a.addressPubkeyConv.Present?
    && a.shardCoordinator.Present?
    && a.feeHandler.Present?
    && a.whiteListerVerifiedTxs.Present?
    && a.argsParser.Present?
    && |a.chainID| != 0
    && a.minTransactionVersion != 0
    && a.epochStartTrigger.Present?
    && a.txSignHasher.Present?
    && a.epochNotifier != null
  }

  /** The error `NewInterceptedTxDataFactory` returns, if any: a nil
      argument struct first, then the guards in order. */
  function ArgumentCheck(argument: Option<ArgInterceptedDataFactory>): (r: Option<Error>)
    ensures r.None? <==> ArgumentComplete(argument)
  {
    if argument.None? then Some(ErrNilArgumentStruct)
    else
      var cs := InterceptedTxChecks(argument.value);
      assert ArgumentComplete(argument) <==> forall i :: 0 <= i < |cs| ==> cs[i].Pass? by {
        if ArgumentComplete(argument) {
          forall i | 0 <= i < |cs| ensures cs[i].Pass? {
            if i < 8 {
              assert i == 0 || i == 1 || i == 2 || i == 3 || i == 4 || i == 5 || i == 6 || i == 7;
            } else {
              assert i == 8 || i == 9 || i == 10 || i == 11 || i == 12 || i == 13 || i == 14;
            }
          }
        } else {
          assert !cs[0].Pass? || !cs[1].Pass? || !cs[2].Pass? || !cs[3].Pass? || !cs[4].Pass?
            || !cs[5].Pass? || !cs[6].Pass? || !cs[7].Pass? || !cs[8].Pass? || !cs[9].Pass?
            || !cs[10].Pass? || !cs[11].Pass? || !cs[12].Pass? || !cs[13].Pass? || !cs[14].Pass?;
        }
      }
      FirstFailure(cs)
  }

  /** A nil argument struct is reported before anything else is looked at. */
  lemma NilArgumentStructFirst(argument: Option<ArgInterceptedDataFactory>)
    ensures argument.None? <==> ArgumentCheck(argument) == Some(ErrNilArgumentStruct)
  {
    if argument.Some? {
      var cs := InterceptedTxChecks(argument.value);
      if ArgumentCheck(argument).Some? {
        var i :| 0 <= i < |cs| && cs[i] == Fail(ArgumentCheck(argument).value);
        assert i < 15;
        assert cs[i].err != ErrNilArgumentStruct by {
          if i < 8 {
            assert i == 0 || i == 1 || i == 2 || i == 3 || i == 4 || i == 5 || i == 6 || i == 7;
          } else {
            assert i == 8 || i == 9 || i == 10 || i == 11 || i == 12 || i == 13 || i == 14;
          }
        }
      }
    }
  }

  /** The first failing guard in order is the one reported, whatever the
      later ones say. */
  lemma FirstFailingCheckReported(a: ArgInterceptedDataFactory, i: nat)
    requires i < 15 && InterceptedTxChecks(a)[i].Fail?
    requires forall j :: 0 <= j < i ==> InterceptedTxChecks(a)[j].Pass?
    ensures ArgumentCheck(Some(a)) == Some(InterceptedTxChecks(a)[i].err)
  {
    FirstFailureAt(InterceptedTxChecks(a), i);
  }

  /** Both marshalizers are reported with `ErrNilMarshalizer`. */
  lemma MarshalizersShareError(a: ArgInterceptedDataFactory)
    requires a.protoMarshalizer.Absent? || a.txSignMarshalizer.Absent?
    ensures ArgumentCheck(Some(a)) == Some(ErrNilMarshalizer)
  {
    if a.protoMarshalizer.Absent? {
      FirstFailureAt(InterceptedTxChecks(a), 0);
    } else {
      FirstFailureAt(InterceptedTxChecks(a), 1);
    }
  }

  /** The hasher and the transaction-signing hasher are both reported with
      `ErrNilHasher`, at their own places in the order. */
  lemma HashersShareError(a: ArgInterceptedDataFactory)
    requires a.protoMarshalizer.Present? && a.txSignMarshalizer.Present?
    requires a.hasher.Absent? ||
      (&& a.hasher.Present? && a.keyGen.Present? && a.signer.Present? && a.addressPubkeyConv.Present?
       && a.shardCoordinator.Present? && a.feeHandler.Present? && a.whiteListerVerifiedTxs.Present?
       && a.argsParser.Present? && |a.chainID| != 0 && a.minTransactionVersion != 0
       && a.epochStartTrigger.Present? && a.txSignHasher.Absent?)
    ensures ArgumentCheck(Some(a)) == Some(ErrNilHasher)
  {
    if a.hasher.Absent? {
      FirstFailureAt(InterceptedTxChecks(a), 2);
    } else {
      FirstFailureAt(InterceptedTxChecks(a), 13);
    }
  }

  /** Once every dependency before it is present, an empty chain id is
      rejected, whatever the later arguments are. */
  lemma EmptyChainIdRejected(a: ArgInterceptedDataFactory)
    requires && a.protoMarshalizer.Present? && a.txSignMarshalizer.Present? && a.hasher.Present?
             && a.keyGen.Present? && a.signer.Present? && a.addressPubkeyConv.Present?
             && a.shardCoordinator.Present? && a.feeHandler.Present? && a.whiteListerVerifiedTxs.Present?
             && a.argsParser.Present?
    requires a.chainID == []
    ensures ArgumentCheck(Some(a)) == Some(ErrInvalidChainID)
  {
    FirstFailureAt(InterceptedTxChecks(a), 10);
  }

  /** Once every check before it passes, a minimum transaction version of 0
      is rejected, whatever the later arguments are. */
  lemma ZeroMinTransactionVersionRejected(a: ArgInterceptedDataFactory)
    requires && a.protoMarshalizer.Present? && a.txSignMarshalizer.Present? && a.hasher.Present?
             && a.keyGen.Present? && a.signer.Present? && a.addressPubkeyConv.Present?
             && a.shardCoordinator.Present? && a.feeHandler.Present? && a.whiteListerVerifiedTxs.Present?
             && a.argsParser.Present? && |a.chainID| != 0
    requires a.minTransactionVersion == 0
    ensures ArgumentCheck(Some(a)) == Some(ErrInvalidTransactionVersion)
  {
    FirstFailureAt(InterceptedTxChecks(a), 11);
  }

  //------- The signed-with-hash flag

  /** The flag after `EpochConfirmed` was called with each of `epochs` in
      turn, starting from `flag`: every call overwrites it. */
  function FlagAfter(flag: bool, enableEpoch: uint32, epochs: seq<uint32>): bool
    decreases |epochs|
  {
    if epochs == [] then flag
    else FlagAfter(epochs[0] >= enableEpoch, enableEpoch, epochs[1..])
  }

  /** Only the latest confirmed epoch matters. */
  lemma {:induction false} FlagAfterLatest(flag: bool, enableEpoch: uint32, epochs: seq<uint32>)
    decreases |epochs|
    ensures FlagAfter(flag, enableEpoch, epochs) ==
      if epochs == [] then flag else epochs[|epochs| - 1] >= enableEpoch
  {
    if |epochs| > 1 {
      FlagAfterLatest(epochs[0] >= enableEpoch, enableEpoch, epochs[1..]);
    }
  }

  /** The flag is not monotone: confirming an epoch below the activation
      epoch clears it, whatever came before. */
  lemma LowerEpochClearsFlag(flag: bool, enableEpoch: uint32, epochs: seq<uint32>, epoch: uint32)
    requires epoch < enableEpoch
    ensures !FlagAfter(flag, enableEpoch, epochs + [epoch])
  {
    FlagAfterLatest(flag, enableEpoch, epochs + [epoch]);
  }

  /** Confirming the same epoch twice is the same as confirming it once. */
  lemma RepeatedEpochIdempotent(flag: bool, enableEpoch: uint32, epochs: seq<uint32>, epoch: uint32)
    ensures FlagAfter(flag, enableEpoch, epochs + [epoch, epoch]) == FlagAfter(flag, enableEpoch, epochs + [epoch])
  {
    FlagAfterLatest(flag, enableEpoch, epochs + [epoch, epoch]);
    FlagAfterLatest(flag, enableEpoch, epochs + [epoch]);
  }

  //------- The factory

  /** `versioning.NewTxVersionChecker(minTxVersion)` (that package is not
      part of this model). */
  datatype TxVersionChecker = TxVersionChecker(minTxVersion: uint32)

  /** The arguments `Create` hands to `transaction.NewInterceptedTransaction`,
      which decodes and checks the transaction (not part of this model). */
  datatype InterceptedTransactionArgs = InterceptedTransactionArgs(
    buff: seq<byte>,
    protoMarshalizer: Handle,
    signMarshalizer: Handle,
    hasher: Handle,
    keyGen: Handle,
    singleSigner: Handle,
    pubkeyConverter: Handle,
    shardCoordinator: Handle,
    feeHandler: Handle,
    whiteListerVerifiedTxs: Handle,
    argsParser: Handle,
    chainID: seq<byte>,
    enableSignedTxWithHash: bool,
    txSignHasher: Handle,
    txVersionChecker: TxVersionChecker)

  class InterceptedTxDataFactory {
    const protoMarshalizer: Handle
    const signMarshalizer: Handle
    const hasher: Handle
    const keyGen: Handle
    const singleSigner: Handle
    const pubkeyConverter: Handle
    const shardCoordinator: Handle
    const feeHandler: Handle
    const whiteListerVerifiedTxs: Handle
    const argsParser: Handle
    const chainID: seq<byte>
    const minTransactionVersion: uint32
    const enableSignedTxWithHashEpoch: uint32
    const epochStartTrigger: Handle
    const txSignHasher: Handle
    const txVersionChecker: TxVersionChecker
    var flagEnableSignedTxWithHash: bool
    /** The epochs confirmed so far, in order. */
    ghost var confirmed: seq<uint32>

    /** The version checker is the one of the minimum version, and the flag
        is what the confirmed epochs made of the initial, unset flag. */
    ghost predicate Valid()
      reads this
    {
      && txVersionChecker == TxVersionChecker(minTransactionVersion)
      && flagEnableSignedTxWithHash == FlagAfter(false, enableSignedTxWithHashEpoch, confirmed)
    }

    /** The argument struct this factory was built from, given the notifier
        it was registered with. */
    function Arguments(notifier: EpochNotifier?): ArgInterceptedDataFactory
    {
      ArgInterceptedDataFactory(
        Present(protoMarshalizer), Present(signMarshalizer), Present(hasher), Present(keyGen),
        Present(singleSigner), Present(pubkeyConverter), Present(shardCoordinator),
        Present(feeHandler), Present(whiteListerVerifiedTxs), Present(argsParser), chainID,
        minTransactionVersion, Present(epochStartTrigger), Present(txSignHasher), notifier,
        enableSignedTxWithHashEpoch)
    }

    /** The struct literal: every argument stored, the version checker
        built from the minimum version, the flag left at its zero value. */
    constructor (a: ArgInterceptedDataFactory)
      requires ArgumentComplete(Some(a))
      ensures Arguments(a.epochNotifier) == a
      ensures txVersionChecker == TxVersionChecker(a.minTransactionVersion)
      ensures !flagEnableSignedTxWithHash && confirmed == [] && Valid()
    {
      protoMarshalizer := a.protoMarshalizer.id;
      signMarshalizer := a.txSignMarshalizer.id;
      hasher := a.hasher.id;
      keyGen := a.keyGen.id;
      singleSigner := a.signer.id;
      pubkeyConverter := a.addressPubkeyConv.id;
      shardCoordinator := a.shardCoordinator.id;
      feeHandler := a.feeHandler.id;
      whiteListerVerifiedTxs := a.whiteListerVerifiedTxs.id;
      argsParser := a.argsParser.id;
      chainID := a.chainID;
      minTransactionVersion := a.minTransactionVersion;
      epochStartTrigger := a.epochStartTrigger.id;
      enableSignedTxWithHashEpoch := a.enableSignTxWithHashEpoch;
      txSignHasher := a.txSignHasher.id;
      txVersionChecker := TxVersionChecker(a.minTransactionVersion);
      flagEnableSignedTxWithHash := false;
      confirmed := [];
    }

    /** Overwrites the flag with `epoch >= enableSignedTxWithHashEpoch`. */
    method EpochConfirmed(epoch: uint32)
      requires Valid()
      modifies this
      ensures Valid() && confirmed == old(confirmed) + [epoch]
      ensures flagEnableSignedTxWithHash <==> epoch >= enableSignedTxWithHashEpoch
    {
      flagEnableSignedTxWithHash := epoch >= enableSignedTxWithHashEpoch;
      confirmed := confirmed + [epoch];
      FlagAfterLatest(false, enableSignedTxWithHashEpoch, confirmed);
    }

    /** The arguments of the intercepted transaction built from `buff`: the
        stored collaborators and chain id, the version checker of the
        minimum version, and whether the latest confirmed epoch has reached
        the activation epoch. */
    function Create(buff: seq<byte>): (t: InterceptedTransactionArgs)
      requires Valid()
      reads this
      ensures t.buff == buff && t.chainID == chainID
      ensures t.txVersionChecker == TxVersionChecker(minTransactionVersion)
      ensures t.enableSignedTxWithHash <==>
        confirmed != [] && confirmed[|confirmed| - 1] >= enableSignedTxWithHashEpoch
    {
      FlagAfterLatest(false, enableSignedTxWithHashEpoch, confirmed);
      InterceptedTransactionArgs(
        buff, protoMarshalizer, signMarshalizer, hasher, keyGen, singleSigner, pubkeyConverter,
        shardCoordinator, feeHandler, whiteListerVerifiedTxs, argsParser, chainID,
        flagEnableSignedTxWithHash, txSignHasher, txVersionChecker)
    }
  }

  /** The notifier named by the argument struct, if any. */
  function NotifierOf(argument: Option<ArgInterceptedDataFactory>): set<EpochNotifier>
  {
    if argument.Some? && argument.value.epochNotifier != null then {argument.value.epochNotifier} else {}
  }

  /** `NewInterceptedTxDataFactory`: the checks of `ArgumentCheck`; on
      success a factory holding the arguments, with the flag unset,
      registered with the epoch notifier exactly once. On failure nothing
      is registered. */
  method NewInterceptedTxDataFactory(argument: Option<ArgInterceptedDataFactory>) returns (r: Result<InterceptedTxDataFactory>)
    modifies NotifierOf(argument)
    ensures r.Failure? <==> !ArgumentComplete(argument)
    ensures r.Failure? ==> ArgumentCheck(argument) == Some(r.error)
    ensures r.Failure? ==> forall n :: n in NotifierOf(argument) ==> n.handlers == old(n.handlers)
    ensures r.Success? ==>
      var a := argument.value;
      && fresh(r.value) && r.value.Valid() && r.value.confirmed == []
      && !r.value.flagEnableSignedTxWithHash
      && r.value.Arguments(a.epochNotifier) == a
      && r.value.txVersionChecker == TxVersionChecker(a.minTransactionVersion)
      && a.epochNotifier.handlers == old(a.epochNotifier.handlers) + [r.value]
  {
    var err := ArgumentCheck(argument);
    if err.Some? {
      return Failure(err.value);
    }
    var a := argument.value;
    var itdf := new InterceptedTxDataFactory(a);
    a.epochNotifier.RegisterNotifyHandler(itdf);
    return Success(itdf);
  }
}
