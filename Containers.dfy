/** The key-unique registries the factories fill (interceptors by topic,
    preprocessors and intermediate processors by block type).

    Their implementation lives in `process/factory/containers`, which is not
    part of this model; the model ASSUMES what the factories rely on:
    `Add` rejects a key that is already present with
    `ErrContainerKeyAlreadyExists` and leaves the container as it was, and
    `AddMultiple` checks that both slices have the same length
    (`ErrLenMismatch`) and then calls `Add` on each pair in order, stopping
    at the first error (pairs inserted before it stay inserted). */
module Containers {
  import opened Process

  /** No key occurs twice. */
  ghost predicate Distinct<K>(s: seq<K>)
  {
    forall i, j :: 0 <= i < j < |s| ==> s[i] != s[j]
  }

  /** The set of elements of a sequence. */
  ghost function Elements<K>(s: seq<K>): set<K>
  {
    set i | 0 <= i < |s| :: s[i]
  }

  /** The effect of a batch of insertions: the new entries, the keys that
      were inserted (in order), and the error that stopped the batch. */
  datatype Insertion<K, V> = Insertion(entries: map<K, V>, added: seq<K>, err: Option<Error>)

  /** Sequential `Add` of each pair, stopping at the first key already present. */
  function AddEach<K, V>(m: map<K, V>, keys: seq<K>, values: seq<V>): Insertion<K, V>
    requires |keys| == |values|
    decreases |keys|
  {
    if keys == [] then Insertion(m, [], None)
    else if keys[0] in m then Insertion(m, [], Some(ErrContainerKeyAlreadyExists))
    else
      var rest := AddEach(m[keys[0] := values[0]], keys[1..], values[1..]);
      Insertion(rest.entries, [keys[0]] + rest.added, rest.err)
  }

  /** `AddMultiple(keys, values)` applied to the entries `m`. */
  function AddAll<K, V>(m: map<K, V>, keys: seq<K>, values: seq<V>): Insertion<K, V>
  {
    if |keys| != |values| then Insertion(m, [], Some(ErrLenMismatch))
    else AddEach(m, keys, values)
  }

  /** A batch succeeds exactly when the slices have equal length, no key
      repeats and no key is already present; it then adds every key, each
      bound to its own value, and keeps the old entries. */
  lemma {:induction false} AddAllOutcome<K, V>(m: map<K, V>, keys: seq<K>, values: seq<V>)
    ensures var r := AddAll(m, keys, values);
      r.err.None? <==>
        |keys| == |values| && Distinct(keys) && forall i :: 0 <= i < |keys| ==> keys[i] !in m
    ensures var r := AddAll(m, keys, values);
      r.err.None? ==>
        && r.added == keys
        && r.entries.Keys == m.Keys + Elements(keys)
        && (forall i :: 0 <= i < |keys| ==> r.entries[keys[i]] == values[i])
        && (forall k :: k in m ==> r.entries[k] == m[k])
  {
    if |keys| == |values| {
      AddEachOutcome(m, keys, values);
    }
  }

  lemma {:induction false} AddEachOutcome<K, V>(m: map<K, V>, keys: seq<K>, values: seq<V>)
    requires |keys| == |values|
    decreases |keys|
    ensures var r := AddEach(m, keys, values);
      r.err.None? <==> Distinct(keys) && forall i :: 0 <= i < |keys| ==> keys[i] !in m
    ensures var r := AddEach(m, keys, values);
      r.err.None? ==>
        && r.added == keys
        && r.entries.Keys == m.Keys + Elements(keys)
        && (forall i :: 0 <= i < |keys| ==> r.entries[keys[i]] == values[i])
        && (forall k :: k in m ==> r.entries[k] == m[k])
  {
    if keys != [] {
      var m' := m[keys[0] := values[0]];
      var tail := keys[1..];
      AddEachOutcome(m', tail, values[1..]);
      assert forall i :: 1 <= i < |keys| ==> keys[i] == tail[i - 1];
      assert Elements(keys) == {keys[0]} + Elements(tail) by {
        forall k | k in Elements(keys) ensures k in {keys[0]} + Elements(tail) {
          var i :| 0 <= i < |keys| && keys[i] == k;
          if i > 0 { assert tail[i - 1] == k; }
        }
      }
      var r := AddEach(m, keys, values);
      if keys[0] !in m && Distinct(tail) && forall i :: 0 <= i < |tail| ==> tail[i] !in m' {
        assert r.err.None?;
        forall i | 0 <= i < |keys|
          ensures r.entries[keys[i]] == values[i]
        {
          if i > 0 { assert keys[i] == tail[i - 1] && values[i] == values[1..][i - 1]; }
        }
      }
      if r.err.None? {
        assert keys[0] !in m;
        forall i | 0 <= i < |tail| ensures tail[i] !in m {
          assert tail[i] !in m';
        }
        forall i, j | 0 <= i < j < |keys| ensures keys[i] != keys[j] {
          if i > 0 {
            assert keys[i] == tail[i - 1] && keys[j] == tail[j - 1];
          } else {
            assert keys[j] == tail[j - 1] && tail[j - 1] !in m';
          }
        }
      }
    }
  }

  /** A batch of one pair is a single `Add`. */
  lemma AddAllSingle<K, V>(m: map<K, V>, key: K, value: V)
    ensures AddAll(m, [key], [value]) ==
      if key in m then Insertion(m, [], Some(ErrContainerKeyAlreadyExists))
      else Insertion(m[key := value], [key], None)
  {
    assert [key][1..] == [] && [value][1..] == [];
    if key !in m {
      assert AddEach(m[key := value], [], []) == Insertion(m[key := value], [], None);
      assert [key] + [] == [key];
    }
  }

  /** A second batch run on the entries a first, successful batch left. */
  function Followed<K, V>(first: Insertion<K, V>, second: Insertion<K, V>): Insertion<K, V>
  {
    Insertion(second.entries, first.added + second.added, second.err)
  }

  /** Inserting `k1 + k2` is inserting `k1` and then, if that succeeded, `k2`. */
  lemma {:induction false} AddEachAppend<K, V>(m: map<K, V>, k1: seq<K>, v1: seq<V>, k2: seq<K>, v2: seq<V>)
    requires |k1| == |v1| && |k2| == |v2|
    decreases |k1|
    ensures var r1 := AddEach(m, k1, v1);
      AddEach(m, k1 + k2, v1 + v2) == if r1.err.Some? then r1 else Followed(r1, AddEach(r1.entries, k2, v2))
  {
    if k1 == [] {
      assert k1 + k2 == k2 && v1 + v2 == v2;
    } else {
      assert (k1 + k2)[0] == k1[0] && (k1 + k2)[1..] == k1[1..] + k2;
      assert (v1 + v2)[0] == v1[0] && (v1 + v2)[1..] == v1[1..] + v2;
      if k1[0] !in m {
        AddEachAppend(m[k1[0] := v1[0]], k1[1..], v1[1..], k2, v2);
      }
    }
  }

  /** A set of distinct keys has as many elements as the sequence. */
  lemma {:induction false} DistinctCardinality<K>(s: seq<K>)
    requires Distinct(s)
    ensures |Elements(s)| == |s|
  {
    if s != [] {
      var tail := s[1..];
      DistinctCardinality(tail);
      assert Elements(s) == {s[0]} + Elements(tail) by {
        forall k | k in Elements(s) ensures k in {s[0]} + Elements(tail) {
          var i :| 0 <= i < |s| && s[i] == k;
          if i > 0 { assert tail[i - 1] == k; }
        }
      }
      assert s[0] !in Elements(tail);
    }
  }

  /** One more pair of a batch inserted: the keys inserted so far grow by `keys[i]`. */
  lemma AddEachAdvance<K, V>(m: map<K, V>, keys: seq<K>, values: seq<V>, i: nat)
    requires |keys| == |values| && i < |keys| && keys[i] !in m
    ensures var rest := AddEach(m, keys[i..], values[i..]);
      var next := AddEach(m[keys[i] := values[i]], keys[i + 1..], values[i + 1..]);
      Insertion(rest.entries, keys[..i] + rest.added, rest.err) ==
        Insertion(next.entries, keys[..i + 1] + next.added, next.err)
  {
    assert keys[i..][1..] == keys[i + 1..] && values[i..][1..] == values[i + 1..];
    var next := AddEach(m[keys[i] := values[i]], keys[i + 1..], values[i + 1..]);
    assert keys[..i + 1] == keys[..i] + [keys[i]];
    assert keys[..i] + ([keys[i]] + next.added) == keys[..i + 1] + next.added;
  }

  /** A registry whose keys are unique. `log` records the keys in the
      order they were accepted. */
  class Container<K(==), V> {
    var entries: map<K, V>
    ghost var log: seq<K>

    ghost predicate Valid()
      reads this
    {
      Distinct(log) && entries.Keys == Elements(log)
    }

    constructor ()
      ensures Valid() && entries == map[] && log == []
    {
      entries := map[];
      log := [];
    }

    /** Inserts `value` under `key`; a key already present is an error and
        changes nothing (no overwrite). */
    method Add(key: K, value: V) returns (err: Option<Error>)
      requires Valid()
      modifies this
      ensures Valid()
      ensures key in old(entries) ==>
        err == Some(ErrContainerKeyAlreadyExists) && entries == old(entries) && log == old(log)
      ensures key !in old(entries) ==>
        err == None && entries == old(entries)[key := value] && log == old(log) + [key]
    {
      if key in entries {
        return Some(ErrContainerKeyAlreadyExists);
      }
      ghost var before := log;
      entries := entries[key := value];
      log := log + [key];
      assert Elements(log) == Elements(before) + {key} by {
        forall k | k in Elements(log) ensures k in Elements(before) + {key} {
          var i :| 0 <= i < |log| && log[i] == k;
          if i < |before| { assert before[i] == k; } else { assert k == key; }
        }
        forall k | k in Elements(before) ensures k in Elements(log) {
          var i :| 0 <= i < |before| && before[i] == k;
          assert log[i] == k;
        }
        assert log[|before|] == key;
      }
      err := None;
    }

    /** Inserts the pairs `(keys[i], values[i])` in order, as described in
        the module comment; the result is `AddAll` of the old entries. */
    method AddMultiple(keys: seq<K>, values: seq<V>) returns (err: Option<Error>)
      requires Valid()
      modifies this
      ensures Valid()
      ensures var r := AddAll(old(entries), keys, values);
        entries == r.entries && log == old(log) + r.added && err == r.err
    {
      if |keys| != |values| {
        return Some(ErrLenMismatch);
      }
      var i := 0;
      while i < |keys|
        invariant 0 <= i <= |keys| && Valid()
        invariant log == old(log) + keys[..i]
        invariant var rest := AddEach(entries, keys[i..], values[i..]);
          AddEach(old(entries), keys, values) == Insertion(rest.entries, keys[..i] + rest.added, rest.err)
      {
        if keys[i] !in entries {
          AddEachAdvance(entries, keys, values, i);
        }
        err := Add(keys[i], values[i]);
        if err.Some? {
          return;
        }
        i := i + 1;
      }
      assert keys[..i] == keys;
      err := None;
    }
  }
}
