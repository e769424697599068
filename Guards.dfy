/** The first-error discipline shared by every factory constructor: the
    dependencies are checked one after the other in a fixed order and the
    error of the first failing check is returned. */
module Guards {
  import opened Process

  /** The outcome of one `if <bad> { return nil, err }` guard. */
  datatype Check = Pass | Fail(err: Error)

  /** A guard that passes exactly when `ok` holds. */
  function Require(ok: bool, err: Error): Check
  {
    if ok then Pass else Fail(err)
  }

  /** A guard on an injected dependency: fails with `err` when it is nil. */
  function RequirePresent(d: Dep, err: Error): Check
  {
    Require(d.Present?, err)
  }

  /** The error of the first failing guard, or `None` when all pass. */
  function FirstFailure(cs: seq<Check>): (r: Option<Error>)
    ensures r.None? <==> forall i :: 0 <= i < |cs| ==> cs[i].Pass?
    ensures r.Some? ==>
      exists i :: 0 <= i < |cs| && cs[i] == Fail(r.value) &&
        forall j :: 0 <= j < i ==> cs[j].Pass?
  {
    if cs == [] then None
    else if cs[0].Fail? then Some(cs[0].err)
    else
      var r := FirstFailure(cs[1..]);
      assert forall i :: 1 <= i < |cs| ==> cs[i] == cs[1..][i - 1];
      r
  }

  /** When guard `i` fails and all before it pass, its error is the one
      returned, whatever the later guards say. */
  lemma {:induction false} FirstFailureAt(cs: seq<Check>, i: nat)
    requires i < |cs| && cs[i].Fail?
    requires forall j :: 0 <= j < i ==> cs[j].Pass?
    ensures FirstFailure(cs) == Some(cs[i].err)
  {
    if i > 0 {
      FirstFailureAt(cs[1..], i - 1);
    }
  }
}
