/** What the shard preprocessor and intermediate-processor factories share:
    the block types their containers are keyed by, and the shape of their
    `Create`: a fixed list of steps, each of which first calls a
    constructor (which may fail) and then `Add`s the result to a new,
    empty container, returning at the first error. */
module BlockContainers {
  import opened Process
  import opened Containers

  /** The block types of `data/block` used as container keys (that
      package is not part of this model). */
  datatype BlockType = TxBlock | SmartContractResultBlock | RewardsBlock | PeerBlock | TxFeeBlock

  /** One step of a `Create`: the object a constructor builds when it
      succeeds, and the key it is then added under. */
  datatype Binding<V> = Binding(key: BlockType, value: V)

  /** The keys of the steps, in order. */
  function Keys<V>(steps: seq<Binding<V>>): (ks: seq<BlockType>)
    ensures |ks| == |steps|
    ensures forall i :: 0 <= i < |steps| ==> ks[i] == steps[i].key
  {
    if steps == [] then [] else [steps[0].key] + Keys(steps[1..])
  }

  /** The constructor of a step: it fails with `failures[key]` when its key
      is in `failures`, and otherwise builds the step's object. */
  function Construct<V>(b: Binding<V>, failures: map<BlockType, Error>): (r: Result<V>)
    ensures r.Success? <==> b.key !in failures
  {
    if b.key in failures then Failure(failures[b.key]) else Success(b.value)
  }

  /** Steps `k..` run on a container holding `m`. The constructor of a
      step fails with `failures[key]` when its key is in `failures`
      (the constructors are not part of this model); `Add` fails on a key
      already present. */
  function Build<V>(steps: seq<Binding<V>>, failures: map<BlockType, Error>, m: map<BlockType, V>, k: nat): Result<map<BlockType, V>>
    requires k <= |steps|
    decreases |steps| - k
  {
    if k == |steps| then Success(m)
    else if steps[k].key in failures then Failure(failures[steps[k].key])
    else if steps[k].key in m then Failure(ErrContainerKeyAlreadyExists)
    else Build(steps, failures, m[steps[k].key := steps[k].value], k + 1)
  }

  /** The keys of the steps `k..` whose constructor is called, in order:
      every step up to and including the first that fails. */
  function Attempted<V>(steps: seq<Binding<V>>, failures: map<BlockType, Error>, m: map<BlockType, V>, k: nat): seq<BlockType>
    requires k <= |steps|
    decreases |steps| - k
  {
    if k == |steps| then []
    else if steps[k].key in failures || steps[k].key in m then [steps[k].key]
    else [steps[k].key] + Attempted(steps, failures, m[steps[k].key := steps[k].value], k + 1)
  }

  /** With distinct keys that are not yet present, the steps `k..`
      succeed exactly when no constructor fails. */
  lemma {:induction false} BuildSucceeds<V>(steps: seq<Binding<V>>, failures: map<BlockType, Error>, m: map<BlockType, V>, k: nat)
    requires k <= |steps|
    requires Distinct(Keys(steps))
    requires forall j :: k <= j < |steps| ==> steps[j].key !in m
    decreases |steps| - k
    ensures Build(steps, failures, m, k).Success? <==> forall j :: k <= j < |steps| ==> steps[j].key !in failures
  {
    if k < |steps| && steps[k].key !in failures {
      var m' := m[steps[k].key := steps[k].value];
      forall j | k + 1 <= j < |steps| ensures steps[j].key !in m' {
        assert Keys(steps)[k] != Keys(steps)[j];
      }
      BuildSucceeds(steps, failures, m', k + 1);
    }
  }

  /** When no constructor of the steps `k..` fails (and their keys are
      distinct and not yet present), the container ends up with the old
      entries plus each step's object under its key, and every constructor
      was called. */
  lemma {:induction false} BuildContents<V>(steps: seq<Binding<V>>, failures: map<BlockType, Error>, m: map<BlockType, V>, k: nat)
    requires k <= |steps|
    requires Distinct(Keys(steps))
    requires forall j :: k <= j < |steps| ==> steps[j].key !in m && steps[j].key !in failures
    decreases |steps| - k
    ensures Build(steps, failures, m, k).Success?
    ensures var built := Build(steps, failures, m, k).value;
      && built.Keys == m.Keys + (set j | k <= j < |steps| :: steps[j].key)
      && (forall j :: k <= j < |steps| ==> built[steps[j].key] == steps[j].value)
      && (forall key :: key in m ==> built[key] == m[key])
    ensures Attempted(steps, failures, m, k) == Keys(steps)[k..]
  {
    if k < |steps| {
      var key := steps[k].key;
      var m' := m[key := steps[k].value];
      forall j | k + 1 <= j < |steps| ensures steps[j].key !in m' {
        assert Keys(steps)[k] != Keys(steps)[j];
      }
      BuildContents(steps, failures, m', k + 1);
      assert Keys(steps)[k..] == [key] + Keys(steps)[k + 1..];
      assert (set j | k <= j < |steps| :: steps[j].key) == {key} + (set j | k + 1 <= j < |steps| :: steps[j].key);
    }
  }

  /** When the constructor of step `i` is the first to fail, that error is
      returned. */
  lemma {:induction false} BuildFirstFailure<V>(steps: seq<Binding<V>>, failures: map<BlockType, Error>, m: map<BlockType, V>, k: nat, i: nat)
    requires k <= i < |steps| && steps[i].key in failures
    requires Distinct(Keys(steps))
    requires forall j :: k <= j < |steps| ==> steps[j].key !in m
    requires forall j :: k <= j < i ==> steps[j].key !in failures
    decreases i - k
    ensures Build(steps, failures, m, k) == Failure(failures[steps[i].key])
  {
    if k < i {
      var m' := m[steps[k].key := steps[k].value];
      forall j | k + 1 <= j < |steps| ensures steps[j].key !in m' {
        assert Keys(steps)[k] != Keys(steps)[j];
      }
      BuildFirstFailure(steps, failures, m', k + 1, i);
    }
  }

  /** When the constructor of step `i` is the first to fail, the
      constructors called are those of the steps up to `i`: none after it. */
  lemma {:induction false} AttemptedUpToFailure<V>(steps: seq<Binding<V>>, failures: map<BlockType, Error>, m: map<BlockType, V>, k: nat, i: nat)
    requires k <= i < |steps| && steps[i].key in failures
    requires Distinct(Keys(steps))
    requires forall j :: k <= j < |steps| ==> steps[j].key !in m
    requires forall j :: k <= j < i ==> steps[j].key !in failures
    decreases i - k
    ensures Attempted(steps, failures, m, k) == Keys(steps)[k..i + 1]
  {
    if k < i {
      var m' := m[steps[k].key := steps[k].value];
      forall j | k + 1 <= j < |steps| ensures steps[j].key !in m' {
        assert Keys(steps)[k] != Keys(steps)[j];
      }
      AttemptedUpToFailure(steps, failures, m', k + 1, i);
      assert Keys(steps)[k..i + 1] == [steps[k].key] + Keys(steps)[k + 1..i + 1];
    }
  }
}
