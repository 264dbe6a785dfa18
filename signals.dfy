/**
 * Handler-call traces. A producer (`_subscribe` in index.js) talks to its
 * observer only by calling `n(x)`, `e(err)` and `c()`; a trace is the
 * sequence of those calls in the order they are made. Thrown values and
 * error payloads are JavaScript values, modelled as integers.
 */
module Signals {

  datatype Signal<T> = Next(value: T) | Error(reason: int) | Complete

  /** The values carried by the `next` calls of a trace, in order. */
  function Values<T>(t: seq<Signal<T>>): seq<T>
  {
    if t == [] then []
    else (if t[0].Next? then [t[0].value] else []) + Values(t[1..])
  }

  /** One `next` call per element of `xs`. */
  function Nexts<T>(xs: seq<T>): (t: seq<Signal<T>>)
    ensures |t| == |xs|
    ensures forall i :: 0 <= i < |xs| ==> t[i] == Next(xs[i])
  {
    if xs == [] then [] else [Next(xs[0])] + Nexts(xs[1..])
  }

  /** Number of `complete` calls in a trace. */
  function Completions<T>(t: seq<Signal<T>>): nat
  {
    if t == [] then 0
    else (if t[0].Complete? then 1 else 0) + Completions(t[1..])
  }

  /** The part of a trace up to and including its first `error` or `complete`. */
  function Cut<T>(t: seq<Signal<T>>): (r: seq<Signal<T>>)
    ensures |r| <= |t| && r == t[..|r|]
  {
    if t == [] then []
    else if t[0].Next? then [t[0]] + Cut(t[1..])
    else [t[0]]
  }

  /** A trace the library promises to its user: values, then at most one terminal call, last. */
  predicate WellFormed<T>(t: seq<Signal<T>>)
  {
    forall i :: 0 <= i < |t| - 1 ==> t[i].Next?
  }

  lemma {:induction false} ValuesAppend<T>(a: seq<Signal<T>>, b: seq<Signal<T>>)
    ensures Values(a + b) == Values(a) + Values(b)
  {
    if a == [] {
      assert a + b == b;
    } else {
      assert (a + b)[0] == a[0] && (a + b)[1..] == a[1..] + b;
      ValuesAppend(a[1..], b);
    }
  }

  lemma {:induction false} CompletionsAppend<T>(a: seq<Signal<T>>, b: seq<Signal<T>>)
    ensures Completions(a + b) == Completions(a) + Completions(b)
  {
    if a == [] {
      assert a + b == b;
    } else {
      assert (a + b)[0] == a[0] && (a + b)[1..] == a[1..] + b;
      CompletionsAppend(a[1..], b);
    }
  }

  lemma {:induction false} ValuesOfNexts<T>(xs: seq<T>)
    ensures Values(Nexts(xs)) == xs
    ensures Completions(Nexts(xs)) == 0
  {
    if xs != [] {
      assert Nexts(xs)[1..] == Nexts(xs[1..]);
      ValuesOfNexts(xs[1..]);
    }
  }

  lemma {:induction false} NextsAppend<T>(a: seq<T>, b: seq<T>)
    ensures Nexts(a + b) == Nexts(a) + Nexts(b)
  {
    assert |Nexts(a + b)| == |Nexts(a) + Nexts(b)|;
    forall i | 0 <= i < |a + b| ensures Nexts(a + b)[i] == (Nexts(a) + Nexts(b))[i] {
      if i < |a| {
        assert (a + b)[i] == a[i];
      } else {
        assert (a + b)[i] == b[i - |a|];
      }
    }
  }

  /**
   * What the subscription wrapper lets through is well formed, and it is all
   * of the trace when the trace is already well formed.
   */
  lemma {:induction false} CutIsWellFormed<T>(t: seq<Signal<T>>)
    ensures WellFormed(Cut(t))
    ensures WellFormed(t) ==> Cut(t) == t
    ensures Cut(Cut(t)) == Cut(t)
  {
    if t != [] && t[0].Next? {
      CutIsWellFormed(t[1..]);
      assert WellFormed(t) ==> WellFormed(t[1..]) by {
        if WellFormed(t) {
          forall i | 0 <= i < |t[1..]| - 1 ensures t[1..][i].Next? {
            assert t[1..][i] == t[i + 1];
          }
        }
      }
      var r := Cut(t);
      assert r == [t[0]] + Cut(t[1..]);
      forall i | 0 <= i < |r| - 1 ensures r[i].Next? {
        if i > 0 {
          assert r[i] == Cut(t[1..])[i - 1];
        }
      }
    } else if t != [] {
      assert WellFormed(t) ==> |t| == 1;
    }
  }

  /** A well-formed trace with no terminal call carries only values. */
  lemma {:induction false} CutOfNexts<T>(xs: seq<T>, rest: seq<Signal<T>>)
    ensures Cut(Nexts(xs) + rest) == Nexts(xs) + Cut(rest)
  {
    if xs != [] {
      assert (Nexts(xs) + rest)[0] == Next(xs[0]);
      assert (Nexts(xs) + rest)[1..] == Nexts(xs[1..]) + rest;
      CutOfNexts(xs[1..], rest);
    } else {
      assert Nexts(xs) + rest == rest;
    }
  }
}
