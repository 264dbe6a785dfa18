/**
 * Teardown resources and their release (index.js: `noop`, `catchAll`, the
 * `||noop` defaulting of a producer's return value).
 *
 * A resource is whatever a producer returned or whatever `merge` stored in
 * its `resources` list. Only a function can be called; calling anything else
 * throws a TypeError, which the callers in the library always swallow.
 */
module Resources {

  /** A value that the library later tries to call as a teardown. */
  datatype Resource =
    | Noop                               // the library's own `noop`
    | Callable(id: nat, fails: bool)     // a teardown function; `fails` says whether it throws
    | Handle(id: nat)                    // a truthy non-function, e.g. a `{unsubscribe}` object
    | Undefined                          // a falsy return value (`undefined`)

  /** What one call `r()` does: the teardown ids that ran, and whether the call threw. */
  datatype CallResult = CallResult(ran: seq<nat>, threw: bool)

  /**
   * Calling `r()`: only a callable runs, and it runs alone; a non-function
   * throws a TypeError. The call returns normally exactly for `noop` and
   * for a teardown that does not fail.
   */
  function Invoke(r: Resource): (c: CallResult)
    ensures |c.ran| <= 1
    ensures c.ran != [] <==> r.Callable?
    ensures r.Callable? ==> c.ran == [r.id]
    ensures !c.threw <==> r == Noop || (r.Callable? && !r.fails)
  {
    match r
    case Noop => CallResult([], false)
    case Callable(id, fails) => CallResult([id], fails)
    case Handle(_) => CallResult([], true)
    case Undefined => CallResult([], true)
  }

  /** `x || noop`: a falsy value becomes `noop`, anything truthy is kept. */
  function OrNoop(r: Resource): (d: Resource)
    ensures d != Undefined
    ensures r.Undefined? ==> d == Noop
    ensures !r.Undefined? ==> d == r
  {
    if r.Undefined? then Noop else r
  }

  /**
   * Defaulting with `||noop` (index.js:127, 173) runs the same teardowns as
   * the raw value and removes exactly one failure: the TypeError of
   * calling `undefined`. The defaulted value is safe to call unguarded
   * unless it is a failing teardown or a non-function handle.
   */
  lemma DefaultingRemovesOnlyTheUndefinedCall(r: Resource)
    ensures Invoke(OrNoop(r)).ran == Invoke(r).ran
    ensures Invoke(OrNoop(r)).threw <==> Invoke(r).threw && !r.Undefined?
    ensures Invoke(OrNoop(r)).threw <==> (r.Callable? && r.fails) || r.Handle?
  {
  }

  /** Reference definition: the ids of the callable teardowns in `rs`, in order. */
  function CallableIds(rs: seq<Resource>): seq<nat>
  {
    if rs == [] then []
    else (if rs[0].Callable? then [rs[0].id] else []) + CallableIds(rs[1..])
  }

  lemma {:induction false} CallableIdsAppend(a: seq<Resource>, b: seq<Resource>)
    ensures CallableIds(a + b) == CallableIds(a) + CallableIds(b)
  {
    if a != [] {
      assert (a + b)[0] == a[0] && (a + b)[1..] == a[1..] + b;
      CallableIdsAppend(a[1..], b);
    } else {
      assert a + b == b;
    }
  }

  /** A callable in `rs` is released by a sweep over `rs`; a handle contributes nothing. */
  lemma {:induction false} CallableIdsMembers(rs: seq<Resource>, i: nat)
    requires i < |rs|
    ensures rs[i].Callable? ==> rs[i].id in CallableIds(rs)
    ensures |CallableIds(rs)| <= |rs|
  {
    if i > 0 {
      CallableIdsMembers(rs[1..], i - 1);
    } else if |rs| > 1 {
      CallableIdsMembers(rs[1..], 0);
    }
  }

  /** Handles and undefined values are never released, whatever else is in the list. */
  lemma {:induction false} NoCallableNothingReleased(rs: seq<Resource>)
    requires forall i :: 0 <= i < |rs| ==> !rs[i].Callable?
    ensures CallableIds(rs) == []
  {
    if rs != [] {
      NoCallableNothingReleased(rs[1..]);
    }
  }

  /**
   * `resources.forEach(catchAll)`: call every entry in order, swallowing the
   * exception of each failing call and going on with the next one.
   */
  method ReleaseAll(rs: seq<Resource>) returns (ran: seq<nat>)
    ensures ran == CallableIds(rs)
    ensures forall i :: 0 <= i < |rs| && rs[i].Callable? ==> rs[i].id in ran
  {
    ran := [];
    var i := 0;
    while i < |rs|
      invariant 0 <= i <= |rs|
      invariant ran == CallableIds(rs[..i])
    {
      var c := Invoke(rs[i]);  // catchAll: c.threw is ignored
      ran := ran + c.ran;
      CallableIdsAppend(rs[..i], [rs[i]]);
      assert rs[..i + 1] == rs[..i] + [rs[i]];
      i := i + 1;
    }
    assert rs[..i] == rs;
    forall j | 0 <= j < |rs| && rs[j].Callable? ensures rs[j].id in ran {
      CallableIdsMembers(rs, j);
    }
  }
}
