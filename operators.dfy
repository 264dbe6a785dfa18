/**
 * The interception-based operators of index.js: `_intercept`, `map`,
 * `filter`, `take`, `drop`, and the source `empty`.
 *
 * `_intercept(nfn)` builds a producer that runs the source's producer with
 * a replaced `next` handler and the downstream `e` and `c` passed through
 * unchanged, and returns whatever the source's producer returns. `nfn` is
 * called once per subscription, so whatever state the new handler keeps
 * (the counter of `take` and `drop`) starts afresh for every subscription.
 * Here the new handler is a step function from that state and a value to
 * the new state and the calls it makes downstream.
 */
module Operators {
  import opened Resources
  import opened Signals
  import opened Subscriptions

  /** The downstream calls of an intercepted producer, starting from handler state `s`. */
  function Intercept<S, A, B>(s: S, step: (S, A) -> (S, seq<Signal<B>>), calls: seq<Signal<A>>): seq<Signal<B>>
    decreases |calls|
  {
    if calls == [] then []
    else match calls[0]
      case Next(x) => step(s, x).1 + Intercept(step(s, x).0, step, calls[1..])
      case Error(r) => [Error(r)] + Intercept(s, step, calls[1..])
      case Complete => [Complete] + Intercept(s, step, calls[1..])
  }

  /** `_intercept(nfn)` applied to a producer: the return value passes through. */
  function InterceptProducer<S, A, B>(init: S, step: (S, A) -> (S, seq<Signal<B>>), p: Producer<A>): Producer<B>
  {
    Producer(Intercept(init, step, p.calls), p.ending)
  }

  /** The state of the replaced handler once it has seen `calls`. */
  function InterceptState<S, A, B>(s: S, step: (S, A) -> (S, seq<Signal<B>>), calls: seq<Signal<A>>): S
    decreases |calls|
  {
    if calls == [] then s
    else if calls[0].Next? then InterceptState(step(s, calls[0].value).0, step, calls[1..])
    else InterceptState(s, step, calls[1..])
  }

  /** Interception composes: the second part of a trace goes on from the state the first left. */
  lemma {:induction false} InterceptAppend<S, A, B>(s: S, step: (S, A) -> (S, seq<Signal<B>>), a: seq<Signal<A>>, b: seq<Signal<A>>)
    ensures Intercept(s, step, a + b) == Intercept(s, step, a) + Intercept(InterceptState(s, step, a), step, b)
    decreases |a|
  {
    if a == [] {
      assert a + b == b;
    } else {
      assert (a + b)[0] == a[0] && (a + b)[1..] == a[1..] + b;
      var s1 := if a[0].Next? then step(s, a[0].value).0 else s;
      InterceptAppend(s1, step, a[1..], b);
    }
  }

  /** `Observable.empty()`: `(n,e,c)=>c()`, which returns what `c2` returns, `undefined`. */
  function Empty<T>(): (p: Producer<T>)
    ensures Cut(p.calls) == [Complete] && Values(p.calls) == []
  {
    Producer([Complete], Return(Undefined))
  }

  /** `Observable.of(...)` over a finite list, with the `undefined` return of its producer. */
  function Of<T>(xs: seq<T>): Producer<T>
  {
    Producer(Nexts(xs) + [Complete], Return(Undefined))
  }

  function MapStep<A, B>(fn: A -> B): ((), A) -> ((), seq<Signal<B>>)
  {
    (u: (), x: A) => ((), [Next(fn(x))])
  }

  /** `map(fn)`: `n => x => n(fn(x))`. */
  function Map<A, B>(fn: A -> B, p: Producer<A>): Producer<B>
  {
    InterceptProducer((), MapStep(fn), p)
  }

  function FilterStep<T>(pred: T -> bool): ((), T) -> ((), seq<Signal<T>>)
  {
    (u: (), x: T) => ((), if pred(x) then [Next(x)] else [])
  }

  /** `filter(fn)`: `n => x => fn(x) && n(x)`; `pred` is the truthiness of `fn(x)`. */
  function Filter<T>(pred: T -> bool, p: Producer<T>): Producer<T>
  {
    InterceptProducer((), FilterStep(pred), p)
  }

  /** The handler of `take`: forward, then `if(--i<=0) c()`. */
  function TakeStep<T>(): (int, T) -> (int, seq<Signal<T>>)
  {
    (i: int, x: T) => (i - 1, [Next(x)] + if i - 1 <= 0 then [Complete] else [])
  }

  /** `take(num)`: intercept with counter `num`, or `empty()` for a negative `num`. */
  function Take<T>(num: int, p: Producer<T>): Producer<T>
  {
    if num >= 0 then InterceptProducer(num, TakeStep(), p) else Empty()
  }

  /** The handler of `drop`: `if(i>0) i--; else n(x);`. */
  function DropStep<T>(): (int, T) -> (int, seq<Signal<T>>)
  {
    (i: int, x: T) => if i > 0 then (i - 1, []) else (i, [Next(x)])
  }

  /** `drop(num)`: intercept with counter `num`, or the source itself for a negative `num`. */
  function Drop<T>(num: int, p: Producer<T>): Producer<T>
  {
    if num >= 0 then InterceptProducer(num, DropStep(), p) else p
  }

  // ---------------------------------------------------------------------
  // map and filter

  function MapSignal<A, B>(fn: A -> B, sig: Signal<A>): Signal<B>
  {
    match sig
    case Next(x) => Next(fn(x))
    case Error(r) => Error(r)
    case Complete => Complete
  }

  /**
   * `map` makes one downstream call per source call: the value replaced by
   * `fn` of it, `error` and `complete` unchanged, and the same return value.
   */
  lemma {:induction false} MapIsPointwise<A, B>(fn: A -> B, p: Producer<A>)
    ensures |Map(fn, p).calls| == |p.calls|
    ensures forall i :: 0 <= i < |p.calls| ==> Map(fn, p).calls[i] == MapSignal(fn, p.calls[i])
    ensures Map(fn, p).ending == p.ending
    decreases |p.calls|
  {
    if p.calls != [] {
      var tail := Producer(p.calls[1..], p.ending);
      MapIsPointwise(fn, tail);
      assert Map(fn, p).calls == [MapSignal(fn, p.calls[0])] + Map(fn, tail).calls;
    }
  }

  function SeqFilter<T>(pred: T -> bool, xs: seq<T>): seq<T>
  {
    if xs == [] then [] else (if pred(xs[0]) then [xs[0]] else []) + SeqFilter(pred, xs[1..])
  }

  /** The calls other than `next`, in order. */
  function Terminals<T>(t: seq<Signal<T>>): seq<Signal<T>>
  {
    if t == [] then [] else (if t[0].Next? then [] else [t[0]]) + Terminals(t[1..])
  }

  /**
   * `filter` forwards exactly the values the predicate accepts, in order,
   * and every `error` and `complete` unchanged.
   */
  lemma {:induction false} FilterKeepsAccepted<T>(pred: T -> bool, calls: seq<Signal<T>>)
    ensures Values(Intercept((), FilterStep(pred), calls)) == SeqFilter(pred, Values(calls))
    ensures Terminals(Intercept((), FilterStep(pred), calls)) == Terminals(calls)
    decreases |calls|
  {
    if calls != [] {
      FilterKeepsAccepted(pred, calls[1..]);
      var rest := Intercept((), FilterStep(pred), calls[1..]);
      if calls[0].Next? {
        var x := calls[0].value;
        var head := FilterStep(pred)((), x).1;
        assert Intercept((), FilterStep(pred), calls) == head + rest;
        ValuesAppend(head, rest);
        TerminalsAppend(head, rest);
        assert Values(calls) == [x] + Values(calls[1..]);
      } else {
        assert Intercept((), FilterStep(pred), calls) == [calls[0]] + rest;
        assert Values([calls[0]] + rest) == Values(rest);
        assert Values(calls) == Values(calls[1..]);
      }
    }
  }

  /** What `filter` makes of one source call: a rejected value is dropped, any other call passes. */
  function FilterSignal<T>(pred: T -> bool, sig: Signal<T>): seq<Signal<T>>
  {
    if sig.Next? && !pred(sig.value) then [] else [sig]
  }

  /**
   * `filter` handles each call on its own and in order: its output for a
   * trace is the output for the first call followed by the output for the
   * rest, and it distributes over any split of the trace.
   */
  lemma FilterIsPointwise<T>(pred: T -> bool, sig: Signal<T>, a: seq<Signal<T>>, b: seq<Signal<T>>)
    ensures Intercept((), FilterStep(pred), [sig] + a) == FilterSignal(pred, sig) + Intercept((), FilterStep(pred), a)
    ensures Intercept((), FilterStep(pred), a + b) == Intercept((), FilterStep(pred), a) + Intercept((), FilterStep(pred), b)
  {
    assert ([sig] + a)[0] == sig && ([sig] + a)[1..] == a;
    InterceptAppend((), FilterStep(pred), a, b);
    var u: () := InterceptState((), FilterStep(pred), a);
    assert u == ();
  }

  /**
   * What a subscriber sees through `filter(fn)` is `filter` applied to what
   * it would see from the source: the accepted values up to the source's
   * first `error` or `complete`, that call itself, and nothing after it.
   * The source's return value passes through.
   */
  lemma {:induction false} FilterSees<T>(pred: T -> bool, p: Producer<T>)
    ensures Cut(Filter(pred, p).calls) == Intercept((), FilterStep(pred), Cut(p.calls))
    ensures Filter(pred, p).ending == p.ending
    decreases |p.calls|
  {
    var calls := p.calls;
    if calls != [] {
      var sig := calls[0];
      var tail := Producer(calls[1..], p.ending);
      assert calls == [sig] + calls[1..];
      FilterIsPointwise(pred, sig, calls[1..], []);
      var rest := Intercept((), FilterStep(pred), calls[1..]);
      if sig.Next? {
        FilterSees(pred, tail);
        assert Cut(calls) == [sig] + Cut(calls[1..]);
        FilterIsPointwise(pred, sig, Cut(calls[1..]), []);
        assert Filter(pred, tail).calls == rest;
        if pred(sig.value) {
          assert Filter(pred, p).calls == [sig] + rest;
          assert Cut([sig] + rest) == [sig] + Cut(rest);
        } else {
          assert Filter(pred, p).calls == rest;
        }
      } else {
        assert Cut(calls) == [sig];
        assert Cut([sig] + rest) == [sig];
        FilterIsPointwise(pred, sig, [], []);
      }
    }
  }

  lemma {:induction false} TerminalsAppend<T>(a: seq<Signal<T>>, b: seq<Signal<T>>)
    ensures Terminals(a + b) == Terminals(a) + Terminals(b)
  {
    if a == [] {
      assert a + b == b;
    } else {
      assert (a + b)[0] == a[0] && (a + b)[1..] == a[1..] + b;
      TerminalsAppend(a[1..], b);
    }
  }

  // ---------------------------------------------------------------------
  // take and drop

  /** How many values `take` forwards from counter `i`: the decrement follows the forward. */
  function Quota(i: int): nat
  {
    if i <= 1 then 1 else i
  }

  /** One value through `take`'s handler: forwarded, then `complete` once the counter runs out. */
  lemma TakeUnfold<T>(i: int, calls: seq<Signal<T>>)
    requires calls != [] && calls[0].Next?
    ensures Intercept(i, TakeStep(), calls)
         == [calls[0]] + (if i - 1 <= 0 then [Complete] else []) + Intercept(i - 1, TakeStep(), calls[1..])
  {
    var step := TakeStep<T>()(i, calls[0].value);
    assert step.0 == i - 1;
    assert step.1 == [calls[0]] + if i - 1 <= 0 then [Complete] else [];
  }

  /** What the user sees through `take` with counter `i`, as a formula. */
  ghost predicate TakeSees<T>(i: int, calls: seq<Signal<T>>)
  {
    var vs := Values(Cut(calls));
    Cut(Intercept(i, TakeStep(), calls)) ==
      if |vs| >= Quota(i) then Nexts(vs[..Quota(i)]) + [Complete] else Cut(calls)
  }

  /** The value that exhausts the counter is forwarded and followed by `complete`. */
  lemma TakeLastValue<T>(i: int, calls: seq<Signal<T>>)
    requires calls != [] && calls[0].Next? && i <= 1
    ensures TakeSees(i, calls)
  {
    var x := calls[0].value;
    TakeUnfold(i, calls);
    var rest := Intercept(i - 1, TakeStep(), calls[1..]);
    var out := [Next(x)] + [Complete] + rest;
    assert out == [Next(x)] + ([Complete] + rest);
    assert Cut([Complete] + rest) == [Complete];
    assert Cut(out) == [Next(x), Complete];
    assert Cut(calls) == [Next(x)] + Cut(calls[1..]);
    var vs := Values(Cut(calls));
    assert vs == [x] + Values(Cut(calls[1..]));
    assert vs[..1] == [x];
  }

  /** A value that leaves the counter positive is forwarded, and the rest goes on from `i - 1`. */
  lemma TakeEarlierValue<T>(i: int, calls: seq<Signal<T>>)
    requires calls != [] && calls[0].Next? && i > 1
    requires TakeSees(i - 1, calls[1..])
    ensures TakeSees(i, calls)
  {
    var x := calls[0].value;
    TakeUnfold(i, calls);
    var rest := Intercept(i - 1, TakeStep(), calls[1..]);
    assert Intercept(i, TakeStep(), calls) == [Next(x)] + rest;
    assert Cut(Intercept(i, TakeStep(), calls)) == [Next(x)] + Cut(rest);
    assert Cut(calls) == [Next(x)] + Cut(calls[1..]);
    var vs, ws := Values(Cut(calls)), Values(Cut(calls[1..]));
    assert vs == [x] + ws;
    var k := Quota(i - 1);
    assert Quota(i) == k + 1 && (|vs| >= k + 1 <==> |ws| >= k);
    if |ws| >= k {
      assert vs[..k + 1] == [x] + ws[..k];
      NextsAppend([x], ws[..k]);
    }
  }

  /** An `error` or `complete` passes through and ends what the user sees. */
  lemma TakeTerminal<T>(i: int, calls: seq<Signal<T>>)
    requires calls != [] && !calls[0].Next?
    ensures TakeSees(i, calls)
  {
    assert Cut(calls) == [calls[0]];
    assert Values(Cut(calls)) == Values([calls[0]][1..]) == [];
    assert Intercept(i, TakeStep(), calls) == [calls[0]] + Intercept(i, TakeStep(), calls[1..]);
  }

  /**
   * What the user sees through `take` with counter `i`: the first `Quota(i)`
   * values and then `complete`, or, if the source ends first, all of what
   * the source delivers.
   */
  lemma {:induction false} TakeForwardsQuota<T>(i: int, calls: seq<Signal<T>>)
    ensures TakeSees(i, calls)
    decreases |calls|
  {
    if calls == [] {
    } else if !calls[0].Next? {
      TakeTerminal(i, calls);
    } else if i <= 1 {
      TakeLastValue(i, calls);
    } else {
      TakeForwardsQuota(i - 1, calls[1..]);
      TakeEarlierValue(i, calls);
    }
  }

  /**
   * `take(num)` seen through a subscription: for `num >= 1` the first `num`
   * values then `complete`; `take(0)` still forwards one value; a negative
   * `num` completes at once without values.
   */
  lemma TakeBehaviour<T>(num: int, p: Producer<T>)
    ensures num < 0 ==> Cut(Take(num, p).calls) == [Complete]
    ensures var vs := Values(Cut(p.calls));
      num >= 0 ==>
        Cut(Take(num, p).calls) ==
          if |vs| >= Quota(num) then Nexts(vs[..Quota(num)]) + [Complete] else Cut(p.calls)
    ensures num >= 0 ==> Take(num, p).ending == p.ending
  {
    if num >= 0 {
      TakeForwardsQuota(num, p.calls);
    }
  }

  /** `drop` with counter `i >= 0` over a run of values: the first `i` are suppressed. */
  lemma {:induction false} DropSkipsValues<T>(i: int, xs: seq<T>, rest: seq<Signal<T>>)
    requires i >= 0
    ensures var k := if i < |xs| then i else |xs|;
      Intercept(i, DropStep(), Nexts(xs) + rest) ==
        Nexts(xs[k..]) + Intercept(i - k, DropStep(), rest)
    decreases |xs|
  {
    var k := if i < |xs| then i else |xs|;
    if xs == [] {
      assert Nexts(xs) + rest == rest;
    } else {
      var calls := Nexts(xs) + rest;
      assert calls[0] == Next(xs[0]) && calls[1..] == Nexts(xs[1..]) + rest;
      if i > 0 {
        DropSkipsValues(i - 1, xs[1..], rest);
        assert xs[1..][k - 1..] == xs[k..];
      } else {
        DropPassesValues(xs, rest);
        assert Nexts(xs) == [Next(xs[0])] + Nexts(xs[1..]);
      }
    }
  }

  /** Once the counter is zero, `drop` forwards every value. */
  lemma {:induction false} DropPassesValues<T>(xs: seq<T>, rest: seq<Signal<T>>)
    ensures Intercept(0, DropStep(), Nexts(xs) + rest) == Nexts(xs) + Intercept(0, DropStep(), rest)
    decreases |xs|
  {
    if xs == [] {
      assert Nexts(xs) + rest == rest;
    } else {
      var calls := Nexts(xs) + rest;
      assert calls[0] == Next(xs[0]) && calls[1..] == Nexts(xs[1..]) + rest;
      DropPassesValues(xs[1..], rest);
      assert Nexts(xs) == [Next(xs[0])] + Nexts(xs[1..]);
    }
  }

  /**
   * `drop` passes an `error` or `complete` through, and goes on with the
   * calls after it from the same counter.
   */
  lemma DropAfterValues<T>(i: int, sig: Signal<T>, rest: seq<Signal<T>>)
    requires !sig.Next?
    ensures Intercept(i, DropStep(), [sig]) == [sig]
    ensures Intercept(i, DropStep(), [sig] + rest) == [sig] + Intercept(i, DropStep(), rest)
  {
    assert ([sig] + rest)[0] == sig && ([sig] + rest)[1..] == rest;
  }

  /**
   * `drop(num)` on a finite source of values: for `num >= 0` the values
   * after the first `num`, then `complete`; a negative `num` is the source.
   */
  lemma DropBehaviour<T>(num: int, xs: seq<T>)
    ensures num < 0 ==> Drop(num, Of(xs)) == Of(xs)
    ensures 0 <= num <= |xs| ==> Drop(num, Of(xs)).calls == Nexts(xs[num..]) + [Complete]
    ensures num > |xs| ==> Drop(num, Of(xs)).calls == [Complete]
  {
    if num >= 0 {
      DropSkipsValues(num, xs, [Complete]);
      var k := if num < |xs| then num else |xs|;
      assert Intercept(num - k, DropStep<T>(), [Complete]) == [Complete];
      if num > |xs| {
        assert xs[|xs|..] == [];
      }
    }
  }

  function Range(start: int, len: nat): (r: seq<int>)
    ensures |r| == len && forall i :: 0 <= i < len ==> r[i] == start + i
    decreases len
  {
    if len == 0 then [] else [start] + Range(start + 1, len - 1)
  }

  /** `take(m)` with `1 <= m` over a run of values followed by `complete`: the first `m`. */
  lemma TakeOnValues<T>(m: int, ys: seq<T>, ending: Ending)
    requires 1 <= m <= |ys|
    ensures Cut(Take(m, Producer(Nexts(ys) + [Complete], ending)).calls) == Nexts(ys[..m]) + [Complete]
  {
    var calls := Nexts(ys) + [Complete];
    TakeBehaviour(m, Producer(calls, ending));
    CutOfNexts(ys, [Complete]);
    assert Cut<T>([Complete]) == [Complete];
    ValuesOfNexts(ys);
    ValuesAppend(Nexts(ys), [Complete]);
    assert Values<T>([Complete]) == [];
    assert Values(Cut(calls)) == ys;
  }

  /**
   * `drop(n)` then `take(m)` over the values `0 .. len-1` delivers exactly
   * `n, n+1, ..., n+m-1` and then `complete`, when there are enough values.
   */
  lemma DropThenTake(n: nat, m: nat, len: nat)
    requires 1 <= m && n + m <= len
    ensures Cut(Take(m, Drop(n, Of(Range(0, len)))).calls) == Nexts(Range(n, m)) + [Complete]
  {
    var xs := Range(0, len);
    DropBehaviour(n, xs);
    var dropped := Drop(n, Of(xs));
    assert dropped == Producer(Nexts(xs[n..]) + [Complete], Return(Undefined));
    TakeOnValues(m, xs[n..], Return(Undefined));
    assert xs[n..][..m] == Range(n, m);
  }

  /** `of(1,2,3).map(x => x*2)` delivers 2, 4, 6 and then `complete`. */
  lemma OfMapDoubles()
    ensures Cut(Map((x: int) => 2 * x, Of([1, 2, 3])).calls) == [Next(2), Next(4), Next(6), Complete]
  {
    var fn := (x: int) => 2 * x;
    var p := Of([1, 2, 3]);
    assert p.calls == [Next(1), Next(2), Next(3), Complete];
    MapIsPointwise(fn, p);
    var q := Map(fn, p).calls;
    assert q == [Next(2), Next(4), Next(6), Complete];
    CutIsWellFormed(q);
  }

  // ---------------------------------------------------------------------
  // The counters as per-subscription objects.

  /** The handler closure of one `take` subscription: its counter `i`. */
  class TakeHandler<T> {
    var i: int

    constructor(num: int)
      ensures i == num
    {
      i := num;
    }

    /** `x => { n(x); if(--i<=0) c(); }`: returns the downstream calls it makes. */
    method OnNext(x: T) returns (calls: seq<Signal<T>>)
      modifies this
      ensures (i, calls) == TakeStep<T>()(old(i), x)
      ensures calls[0] == Next(x) && (Completions(calls) == 1 <==> i <= 0)
    {
      ghost var step := TakeStep<T>()(i, x);
      assert step == (i - 1, [Next(x)] + if i - 1 <= 0 then [Complete] else []);
      calls := [Next(x)];
      i := i - 1;
      if i <= 0 {
        calls := calls + [Complete];
        assert Completions(calls) == Completions<T>([Complete]) == 1;
      } else {
        assert Completions(calls) == Completions(calls[1..]) == 0;
        assert [Next(x)] + [] == calls;
      }
      assert (i, calls) == step;
    }
  }

  /** The handler closure of one `drop` subscription: its counter `i`. */
  class DropHandler<T> {
    var i: int

    constructor(num: int)
      ensures i == num
    {
      i := num;
    }

    /** `x => { if(i>0) i--; else n(x); }`. */
    method OnNext(x: T) returns (calls: seq<Signal<T>>)
      modifies this
      ensures (i, calls) == DropStep<T>()(old(i), x)
      ensures calls == [] <==> old(i) > 0
    {
      if i > 0 {
        i := i - 1;
        calls := [];
      } else {
        calls := [Next(x)];
      }
    }
  }
}
