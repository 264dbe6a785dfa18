/**
 * `Observable.prototype.merge(num)` of index.js and the operators built on
 * it (`mergeAll`, `concat`, `flatMap`, `concatMap`).
 *
 * The merged producer keeps, per subscription, the closure variables
 * `done`, `active`, `q` (outer values waiting for a slot) and `resources`
 * (the outer producer's return value and the `{unsubscribe}` objects of the
 * inner subscriptions). Everything it does is a reaction to an event: a call
 * from the outer producer, a call from an inner producer after its
 * `subscribe` has returned, or the returned teardown. Each event is a pure
 * transition here, and the class `Merger` performs the same transitions on
 * fields. The downstream calls `n`, `e`, `c` are recorded in `out`.
 */
module MergeOperator {
  import opened Resources
  import opened Signals
  import opened Subscriptions
  import opened JsArrays
  import Operators

  /** The `num` argument: a number of slots, or `Infinity`. */
  datatype Limit = Bound(n: int) | Unbounded

  /** `active < num`. */
  predicate Below(active: int, num: Limit)
  {
    num.Unbounded? || active < num.n
  }

  function Max(a: int, b: int): int
  {
    if a < b then b else a
  }

  /** An element of `resources`: the outer producer's return value, or an inner's `{unsubscribe}` object. */
  datatype Entry = OuterResource(r: Resource) | InnerHandle(h: nat)

  /** What `catchAll` finds when it calls an entry: an `{unsubscribe}` object is not a function. */
  function AsResource(x: Entry): Resource
  {
    match x
    case OuterResource(r) => r
    case InnerHandle(h) => Handle(h)
  }

  function AsResources(es: seq<Entry>): (rs: seq<Resource>)
    ensures |rs| == |es| && forall i :: 0 <= i < |es| ==> rs[i] == AsResource(es[i])
  {
    if es == [] then [] else [AsResource(es[0])] + AsResources(es[1..])
  }

  /**
   * The closure state of one subscription to a merged Observable, plus the
   * model's bookkeeping: `open` maps the handle of each inner subscription
   * that is still live after its `subscribe` returned to that inner's own
   * teardown; `started` lists the inners subscribed so far; `out` the
   * downstream calls; `released` the ids of teardowns that ran.
   */
  datatype MState<!T> = MState(
    done: bool, active: int, q: seq<Producer<T>>, resources: seq<Entry>,
    open: map<nat, Resource>, nextHandle: nat,
    out: seq<Signal<T>>, started: seq<Producer<T>>, released: seq<nat>)

  /** Entering the merged producer: `done=false`, `active=0`, `q=[]`, `resources=[]`. */
  function Init<T>(): MState<T>
  {
    MState(false, 0, [], [], map[], 0, [], [], [])
  }

  // ---------------------------------------------------------------------
  // Subscribing one inner: `o.subscribe(n, e, callback)`.

  /** The handlers an inner is subscribed with; none of them throws. */
  function Forwarder<T>(): Observer<T>
  {
    Observer(User((x: T) => Returned), User((r: int) => Returned), User((u: ()) => Returned))
  }

  /** How an inner's `subscribe` call ends. */
  datatype Kind =
    | CompletedSync            // the completion callback ran while `sync` was false
    | ErroredSync              // `e` was called: the inner is over, but keeps its slot
    | SubscribeThrew(reason: int)   // the catch forwards the exception to `e`
    | StaysOpen(teardown: Resource) // live; its own teardown is `teardown`

  /** The calls an inner makes on `n` and `e` during its `subscribe`, and how that ends. */
  datatype InnerStart<!T> = InnerStart(forwarded: seq<Signal<T>>, kind: Kind)

  function SubscribeInner<T>(p: Producer<T>): InnerStart<T>
  {
    var sub := Subscribe(Start(Forwarder<T>()), p);
    Classify(sub.state.delivered, sub.rethrown, sub.state.res)
  }

  /**
   * How an inner's `subscribe` went, from the calls it delivered, what it
   * rethrew and the teardown it left: a rethrow, a synchronous `c()`
   * callback, a synchronous `e()`, or still open.
   */
  function Classify<T>(d: seq<Signal<T>>, rethrown: Option<int>, res: Resource): InnerStart<T>
  {
    if rethrown.Some? then InnerStart(d, SubscribeThrew(rethrown.value))
    else if d != [] && d[|d| - 1].Complete? then InnerStart(d[..|d| - 1], CompletedSync)
    else if d != [] && d[|d| - 1].Error? then InnerStart(d, ErroredSync)
    else InnerStart(d, StaysOpen(res))
  }

  /** Whether a trace ends without an `error` or a `complete`. */
  predicate Unterminated<T>(t: seq<Signal<T>>)
  {
    t == [] || t[|t| - 1].Next?
  }

  /**
   * Reference description of an inner's `subscribe`, by its producer's calls
   * alone: the part up to its first terminal call is forwarded (a `complete`
   * goes to the callback, not downstream); a producer that runs to its end
   * either throws, which `subscribe` rethrows, or returns the inner's
   * teardown (`||noop` applied).
   */
  function InnerOutcome<T>(p: Producer<T>): InnerStart<T>
  {
    var c := Cut(p.calls);
    if c != [] && c[|c| - 1].Complete? then InnerStart(c[..|c| - 1], CompletedSync)
    else if c != [] && c[|c| - 1].Error? then InnerStart(c, ErroredSync)
    else match p.ending
      case Throw(r) => InnerStart(c, SubscribeThrew(r))
      case Return(v) => InnerStart(c, StaysOpen(OrNoop(v)))
  }

  /** The library's `subscribe`, run with the forwarding handlers, agrees with the reference. */
  lemma SubscribeInnerBehaviour<T>(p: Producer<T>)
    ensures SubscribeInner(p) == InnerOutcome(p)
  {
    var o := Forwarder<T>();
    var sub := Subscribe(Start(o), p);
    SubscribeBehaviour(o, p);
    VisibleToPlainObserver(p.calls, o);
    var c := Cut(p.calls);
    assert sub.state.delivered == c;
    if CutShort(p.calls, o) {
      assert sub.rethrown == None && c != [] && !c[|c| - 1].Next?;
    } else if p.ending.Return? {
      assert sub.rethrown == None && sub.state.res == OrNoop(p.ending.value);
    } else {
      assert sub.rethrown == Some(p.ending.reason);
    }
  }

  /** The inner's `n` and `e` calls are forwarded; its `complete` never is. */
  lemma ForwardedHasNoCompletion<T>(p: Producer<T>)
    ensures Completions(InnerOutcome(p).forwarded) == 0
  {
    var c := Cut(p.calls);
    CutIsWellFormed(p.calls);
    if c != [] && c[|c| - 1].Complete? {
      CompletionsOfWellFormed(c[..|c| - 1]);
    } else {
      CompletionsOfWellFormed(c);
    }
  }

  lemma {:induction false} CompletionsOfWellFormed<T>(t: seq<Signal<T>>)
    requires WellFormed(t)
    ensures Completions(t) == if t != [] && t[|t| - 1].Complete? then 1 else 0
  {
    if t != [] {
      assert WellFormed(t[1..]) by {
        forall i | 0 <= i < |t[1..]| - 1 ensures t[1..][i].Next? {
          assert t[1..][i] == t[i + 1];
        }
      }
      CompletionsOfWellFormed(t[1..]);
      if |t| > 1 {
        assert t[0].Next? && t[1..][|t[1..]| - 1] == t[|t| - 1];
      }
    }
  }

  /**
   * One iteration of the `pump` loop, after `q.shift()`: take a slot,
   * subscribe the inner, and keep its handle unless it completed already.
   */
  function StartF<T>(s: MState<T>, p: Producer<T>): MState<T>
  {
    StartWith(s, p, InnerOutcome(p))
  }

  /** Starting `p`, whose subscribe went as `r` says. */
  function StartWith<T>(s: MState<T>, p: Producer<T>, r: InnerStart<T>): MState<T>
  {
    var h := s.nextHandle;
    var s1 := s.(active := s.active + 1, nextHandle := h + 1,
                 started := s.started + [p], out := s.out + r.forwarded);
    match r.kind
    case SubscribeThrew(x) => s1.(out := s1.out + [Error(x)])
    case CompletedSync => s1.(active := s1.active - 1)
    case ErroredSync => s1.(resources := s1.resources + [InnerHandle(h)])
    case StaysOpen(t) => s1.(resources := s1.resources + [InnerHandle(h)], open := s1.open[h := t])
  }

  /** A start moves `p` to `started` and touches neither `q` nor `done`. */
  lemma StartFrame<T>(s: MState<T>, p: Producer<T>)
    ensures StartF(s, p).started == s.started + [p]
    ensures StartF(s, p).q == s.q && StartF(s, p).done == s.done
  {
  }

  /**
   * `pump()`: start queued inners while slots are free, then complete
   * downstream if the outer is done and nothing is active or queued.
   * Inners start in queue order and the loop stops only when the queue is
   * empty or every slot is taken.
   */
  function PumpF<T>(num: Limit, s: MState<T>): (r: MState<T>)
    ensures r.started + r.q == s.started + s.q
    ensures r.q == [] || !Below(r.active, num)
    ensures r.done == s.done
    decreases |s.q|
  {
    if Below(s.active, num) && s.q != [] then
      StartFrame(s.(q := s.q[1..]), s.q[0]);
      assert s.started + [s.q[0]] + s.q[1..] == s.started + s.q;
      PumpF(num, StartF(s.(q := s.q[1..]), s.q[0]))
    else if s.active == 0 && s.q == [] && s.done then
      s.(out := s.out + [Complete])
    else s
  }

  // ---------------------------------------------------------------------
  // The events.

  /** The outer's `n`: `x => { q.push(x); pump(); }`. */
  function OuterNextF<T>(num: Limit, s: MState<T>, x: Producer<T>): MState<T>
  {
    PumpF(num, s.(q := s.q + [x]))
  }

  /** The outer's `e` is the downstream `e` itself. */
  function OuterErrorF<T>(s: MState<T>, r: int): MState<T>
  {
    s.(out := s.out + [Error(r)])
  }

  /** The outer's `c`: `() => { done = true; pump(); }`. */
  function OuterCompleteF<T>(num: Limit, s: MState<T>): MState<T>
  {
    PumpF(num, s.(done := true))
  }

  /** The outer producer returns `v`, which is pushed onto `resources` as it is. */
  function AttachF<T>(s: MState<T>, v: Resource): MState<T>
  {
    s.(resources := s.resources + [OuterResource(v)])
  }

  /** A live inner's `n` is the downstream `n`; an inner no longer live ignores it. */
  function InnerNextF<T>(s: MState<T>, h: nat, x: T): MState<T>
  {
    if h in s.open then s.(out := s.out + [Next(x)]) else s
  }

  /**
   * A live inner's `e`: forwarded downstream; then the inner's `subscribe`
   * unsubscribes it, running its own teardown. The callback never runs, so
   * the inner keeps its slot and its handle stays in `resources`.
   */
  function InnerErrorF<T>(s: MState<T>, h: nat, r: int): MState<T>
  {
    if h in s.open then
      s.(out := s.out + [Error(r)], open := s.open - {h},
         released := s.released + Invoke(s.open[h]).ran)
    else s
  }

  /**
   * A live inner's `c` after its `subscribe` returned: the callback frees the
   * slot, removes the inner's handle from `resources` and pumps; then the
   * inner's `subscribe` unsubscribes it, running its own teardown.
   */
  function InnerCompleteF<T>(num: Limit, s: MState<T>, h: nat): MState<T>
  {
    if h in s.open then
      var s2 := PumpF(num, CallbackF(s, h));
      s2.(released := s2.released + Invoke(s.open[h]).ran)
    else s
  }

  /** The callback with `sync` already true, up to its `pump()`: `--active` and the splice. */
  function CallbackF<T>(s: MState<T>, h: nat): MState<T>
  {
    var idx := IndexOf(s.resources, InnerHandle(h));
    s.(active := s.active - 1, open := s.open - {h},
       resources := if idx >= 0 then RemoveAt(s.resources, idx) else s.resources)
  }

  /**
   * The returned teardown: `done`, no slot taken, nothing queued, every
   * entry of `resources` called through `catchAll`, and `resources` emptied.
   */
  function TeardownF<T>(s: MState<T>): MState<T>
  {
    s.(done := true, active := 0, q := [],
       released := s.released + CallableIds(AsResources(s.resources)), resources := [])
  }

  datatype Event<!T> =
    | OuterNext(x: Producer<T>)
    | OuterError(reason: int)
    | OuterComplete
    | OuterReturn(value: Resource)
    | InnerNext(h: nat, v: T)
    | InnerError(h: nat, r: int)
    | InnerComplete(h: nat)
    | Teardown

  function StepF<T>(num: Limit, s: MState<T>, ev: Event<T>): MState<T>
  {
    match ev
    case OuterNext(x) => OuterNextF(num, s, x)
    case OuterError(r) => OuterErrorF(s, r)
    case OuterComplete => OuterCompleteF(num, s)
    case OuterReturn(v) => AttachF(s, v)
    case InnerNext(h, x) => InnerNextF(s, h, x)
    case InnerError(h, r) => InnerErrorF(s, h, r)
    case InnerComplete(h) => InnerCompleteF(num, s, h)
    case Teardown => TeardownF(s)
  }

  function RunF<T>(num: Limit, s: MState<T>, evs: seq<Event<T>>): MState<T>
    decreases |evs|
  {
    if evs == [] then s else RunF(num, StepF(num, s, evs[0]), evs[1..])
  }

  lemma {:induction false} RunAppend<T>(num: Limit, s: MState<T>, a: seq<Event<T>>, b: seq<Event<T>>)
    ensures RunF(num, s, a + b) == RunF(num, RunF(num, s, a), b)
    decreases |a|
  {
    if a == [] {
      assert a + b == b;
    } else {
      assert (a + b)[0] == a[0] && (a + b)[1..] == a[1..] + b;
      RunAppend(num, StepF(num, s, a[0]), a[1..], b);
    }
  }

  // ---------------------------------------------------------------------
  // The merged Observable.

  /** The outer producer's calls, as events of the merge. */
  function OuterEvents<T>(calls: seq<Signal<Producer<T>>>): (evs: seq<Event<T>>)
    ensures |evs| == |calls|
  {
    if calls == [] then []
    else
      [match calls[0]
       case Next(x) => OuterNext(x)
       case Error(r) => OuterError(r)
       case Complete => OuterComplete] + OuterEvents(calls[1..])
  }

  /** One call of the outer producer on the handlers `merge` gave it. */
  function OuterCallF<T>(num: Limit, s: MState<T>, sig: Signal<Producer<T>>): MState<T>
  {
    match sig
    case Next(x) => OuterNextF(num, s, x)
    case Error(r) => OuterErrorF(s, r)
    case Complete => OuterCompleteF(num, s)
  }

  /**
   * The outer producer's calls in order. It is called directly (not through
   * `subscribe`), so nothing cuts it short: a call after its `complete`
   * still takes effect.
   */
  function OuterRun<T>(num: Limit, s: MState<T>, calls: seq<Signal<Producer<T>>>): MState<T>
    decreases |calls|
  {
    if calls == [] then s else OuterRun(num, OuterCallF(num, s, calls[0]), calls[1..])
  }

  /** The outer's run is the event run of its calls. */
  lemma {:induction false} OuterRunIsRun<T>(num: Limit, s: MState<T>, calls: seq<Signal<Producer<T>>>)
    ensures OuterRun(num, s, calls) == RunF(num, s, OuterEvents(calls))
    ensures NoTeardown(OuterEvents(calls))
    decreases |calls|
  {
    if calls != [] {
      var evs := OuterEvents(calls);
      assert evs[1..] == OuterEvents(calls[1..]);
      assert StepF(num, s, evs[0]) == OuterCallF(num, s, calls[0]);
      OuterRunIsRun(num, OuterCallF(num, s, calls[0]), calls[1..]);
      forall i | 0 <= i < |evs| ensures !evs[i].Teardown? {
        if i > 0 {
          assert evs[i] == evs[1..][i - 1];
        }
      }
    }
  }

  lemma {:induction false} OuterRunAppend<T>(num: Limit, s: MState<T>, a: seq<Signal<Producer<T>>>, b: seq<Signal<Producer<T>>>)
    ensures OuterRun(num, s, a + b) == OuterRun(num, OuterRun(num, s, a), b)
    decreases |a|
  {
    if a == [] {
      assert a + b == b;
    } else {
      assert (a + b)[0] == a[0] && (a + b)[1..] == a[1..] + b;
      OuterRunAppend(num, OuterCallF(num, s, a[0]), a[1..], b);
    }
  }

  /**
   * The merged producer's synchronous run: the outer producer's calls, then
   * its return value is pushed onto `resources`; an exception it throws
   * propagates out of the merged producer.
   */
  function MergeRun<T>(num: Limit, outer: Producer<Producer<T>>): (MState<T>, Option<int>)
  {
    var s := OuterRun(num, Init(), outer.calls);
    match outer.ending
    case Throw(r) => (s, Some(r))
    case Return(v) => (AttachF(s, v), None)
  }

  /** `merge(num)` as a producer; the teardown it returns is the callable `teardown`. */
  function Merge<T>(num: Limit, outer: Producer<Producer<T>>, teardown: nat): Producer<T>
  {
    var (s, thrown) := MergeRun(num, outer);
    Producer(s.out, if thrown.Some? then Throw(thrown.value) else Return(Callable(teardown, false)))
  }

  /** `mergeAll()` is `merge(Infinity)`. */
  function MergeAll<T>(outer: Producer<Producer<T>>, teardown: nat): Producer<T>
  {
    Merge(Unbounded, outer, teardown)
  }

  /** `concat()` is `merge(1)`. */
  function Concat<T>(outer: Producer<Producer<T>>, teardown: nat): Producer<T>
  {
    Merge(Bound(1), outer, teardown)
  }

  /** `flatMap(fn)` is `map(fn).mergeAll()`. */
  function FlatMap<A, T>(fn: A -> Producer<T>, p: Producer<A>, teardown: nat): Producer<T>
  {
    MergeAll(Operators.Map(fn, p), teardown)
  }

  /** `concatMap(fn)` is `map(fn).merge(1)`. */
  function ConcatMap<A, T>(fn: A -> Producer<T>, p: Producer<A>, teardown: nat): Producer<T>
  {
    Merge(Bound(1), Operators.Map(fn, p), teardown)
  }

  // ---------------------------------------------------------------------
  // Admission: `active` never exceeds `num`.

  predicate Capped<T>(num: Limit, s: MState<T>)
  {
    num.Bound? ==> s.active <= Max(num.n, 0)
  }

  lemma StartKeepsCap<T>(num: Limit, s: MState<T>, p: Producer<T>)
    requires Capped(num, s) && Below(s.active, num)
    ensures Capped(num, StartF(s, p))
    ensures StartF(s, p).active <= s.active + 1
  {
  }

  lemma {:induction false} PumpKeepsCap<T>(num: Limit, s: MState<T>)
    requires Capped(num, s)
    ensures Capped(num, PumpF(num, s))
    decreases |s.q|
  {
    if Below(s.active, num) && s.q != [] {
      StartKeepsCap(num, s.(q := s.q[1..]), s.q[0]);
      PumpKeepsCap(num, StartF(s.(q := s.q[1..]), s.q[0]));
    }
  }

  /** Every event, the teardown included, keeps `active <= num`. */
  lemma StepKeepsCap<T>(num: Limit, s: MState<T>, ev: Event<T>)
    requires Capped(num, s)
    ensures Capped(num, StepF(num, s, ev))
  {
    match ev
    case OuterNext(x) => PumpKeepsCap(num, s.(q := s.q + [x]));
    case OuterComplete => PumpKeepsCap(num, s.(done := true));
    case InnerComplete(h) => InnerCompleteKeepsCap(num, s, h);
    case _ =>
  }

  lemma InnerCompleteKeepsCap<T>(num: Limit, s: MState<T>, h: nat)
    requires Capped(num, s)
    ensures Capped(num, InnerCompleteF(num, s, h))
  {
    if h in s.open {
      PumpKeepsCap(num, CallbackF(s, h));
    }
  }

  lemma {:induction false} RunKeepsCap<T>(num: Limit, s: MState<T>, evs: seq<Event<T>>)
    requires Capped(num, s)
    ensures Capped(num, RunF(num, s, evs))
    decreases |evs|
  {
    if evs != [] {
      StepKeepsCap(num, s, evs[0]);
      RunKeepsCap(num, StepF(num, s, evs[0]), evs[1..]);
    }
  }

  // ---------------------------------------------------------------------
  // Until the teardown: every live inner holds a slot and its handle.

  /**
   * Handles are allocated in increasing order, each live inner's handle is
   * in `resources`, and each live inner holds one of the `active` slots.
   */
  predicate Live<T>(s: MState<T>)
  {
    && |s.open| <= s.active
    && (forall k :: k in s.open ==> k < s.nextHandle)
    && (forall k :: k in s.open ==> InnerHandle(k) in s.resources)
  }

  lemma StartKeepsLive<T>(s: MState<T>, p: Producer<T>)
    requires Live(s)
    ensures Live(StartF(s, p))
    ensures StartF(s, p).active >= s.active
  {
    var r := InnerOutcome(p);
    var t := StartF(s, p);
    if r.kind.StaysOpen? {
      assert t.open.Keys == s.open.Keys + {s.nextHandle};
      assert s.nextHandle !in s.open;
      assert |t.open| == |s.open| + 1;
    }
  }

  lemma {:induction false} PumpKeepsLive<T>(num: Limit, s: MState<T>)
    requires Live(s)
    ensures Live(PumpF(num, s))
    decreases |s.q|
  {
    if Below(s.active, num) && s.q != [] {
      var s0 := s.(q := s.q[1..]);
      StartKeepsLive(s0, s.q[0]);
      PumpKeepsLive(num, StartF(s0, s.q[0]));
    }
  }

  /** Removing the completed inner's handle keeps every other live inner's handle. */
  lemma CallbackKeepsLive<T>(s: MState<T>, h: nat)
    requires Live(s) && h in s.open
    ensures IndexOf(s.resources, InnerHandle(h)) >= 0
    ensures Live(CallbackF(s, h))
  {
    var idx := IndexOf(s.resources, InnerHandle(h));
    assert InnerHandle(h) in s.resources;
    var rs := RemoveAt(s.resources, idx);
    forall k | k in s.open - {h} ensures InnerHandle(k) in rs {
      assert InnerHandle(k) in multiset(s.resources);
      assert InnerHandle(k) != s.resources[idx];
      assert InnerHandle(k) in multiset(rs) + multiset{s.resources[idx]};
    }
    assert (s.open - {h}).Keys == s.open.Keys - {h};
    assert |(s.open - {h}).Keys| == |s.open.Keys| - 1;
  }

  /**
   * A live inner's `c` after its `subscribe` returned: the callback frees its
   * slot and removes exactly its handle from `resources`, then pumps; the
   * inner's own teardown runs after that.
   */
  lemma LaterCompletionFreesSlot<T>(num: Limit, s: MState<T>, h: nat)
    requires Live(s) && h in s.open
    ensures var c := CallbackF(s, h);
      && c.active == s.active - 1 && h !in c.open && c.q == s.q && c.out == s.out
      && multiset(c.resources) + multiset{InnerHandle(h)} == multiset(s.resources)
      && Live(c)
    ensures var t := InnerCompleteF(num, s, h);
      t.released == PumpF(num, CallbackF(s, h)).released + Invoke(s.open[h]).ran
  {
    CallbackKeepsLive(s, h);
  }

  lemma InnerCompleteKeepsLive<T>(num: Limit, s: MState<T>, h: nat)
    requires Live(s)
    ensures Live(InnerCompleteF(num, s, h))
  {
    if h in s.open {
      CallbackKeepsLive(s, h);
      PumpKeepsLive(num, CallbackF(s, h));
    }
  }

  lemma InnerErrorKeepsLive<T>(s: MState<T>, h: nat, r: int)
    requires Live(s)
    ensures Live(InnerErrorF(s, h, r))
  {
    if h in s.open {
      assert (s.open - {h}).Keys == s.open.Keys - {h};
      assert |(s.open - {h}).Keys| == |s.open.Keys| - 1;
    }
  }

  /** Every event other than the teardown keeps `Live`. */
  lemma StepKeepsLive<T>(num: Limit, s: MState<T>, ev: Event<T>)
    requires Live(s) && !ev.Teardown?
    ensures Live(StepF(num, s, ev))
  {
    match ev
    case OuterNext(x) => PumpKeepsLive(num, s.(q := s.q + [x]));
    case OuterComplete => PumpKeepsLive(num, s.(done := true));
    case InnerError(h, r) => InnerErrorKeepsLive(s, h, r);
    case InnerComplete(h) => InnerCompleteKeepsLive(num, s, h);
    case OuterError(r) =>
    case OuterReturn(v) =>
    case InnerNext(h, x) =>
  }

  predicate NoTeardown<T>(evs: seq<Event<T>>)
  {
    forall i :: 0 <= i < |evs| ==> !evs[i].Teardown?
  }

  lemma NoTeardownTail<T>(evs: seq<Event<T>>)
    requires evs != [] && NoTeardown(evs)
    ensures !evs[0].Teardown? && NoTeardown(evs[1..])
  {
    forall i | 0 <= i < |evs[1..]| ensures !evs[1..][i].Teardown? {
      assert evs[1..][i] == evs[i + 1];
    }
  }

  lemma {:induction false} RunKeepsLive<T>(num: Limit, s: MState<T>, evs: seq<Event<T>>)
    requires Live(s) && NoTeardown(evs)
    ensures Live(RunF(num, s, evs))
    decreases |evs|
  {
    if evs != [] {
      StepKeepsLive(num, s, evs[0]);
      NoTeardownTail(evs);
      RunKeepsLive(num, StepF(num, s, evs[0]), evs[1..]);
    }
  }

  /**
   * From a fresh subscription: `active` stays within `num`, and until the
   * teardown `active` counts at least the live inners; so `concat` (one
   * slot) never has two inners live at once.
   */
  lemma Admission<T>(num: Limit, evs: seq<Event<T>>)
    ensures Capped(num, RunF(num, Init(), evs))
    ensures NoTeardown(evs) ==> 0 <= |RunF(num, Init(), evs).open| <= RunF(num, Init(), evs).active
    ensures NoTeardown(evs) && num == Bound(1) ==> |RunF(num, Init(), evs).open| <= 1
  {
    RunKeepsCap(num, Init(), evs);
    if NoTeardown(evs) {
      RunKeepsLive(num, Init(), evs);
    }
  }

  // ---------------------------------------------------------------------
  // Order: inners start in the order the outer delivered them.

  /** The values the outer delivered, in order. */
  function Arrivals<T>(evs: seq<Event<T>>): seq<Producer<T>>
  {
    if evs == [] then [] else (if evs[0].OuterNext? then [evs[0].x] else []) + Arrivals(evs[1..])
  }

  lemma StepKeepsOrder<T>(num: Limit, s: MState<T>, ev: Event<T>)
    requires !ev.Teardown?
    ensures StepF(num, s, ev).started + StepF(num, s, ev).q
         == s.started + s.q + (if ev.OuterNext? then [ev.x] else [])
  {
    match ev
    case InnerComplete(h) =>
      if h in s.open {
        assert PumpF(num, CallbackF(s, h)).started + PumpF(num, CallbackF(s, h)).q == s.started + s.q;
      }
    case _ =>
  }

  /**
   * Until the teardown, the inners started so far followed by those still
   * queued are exactly the outer's values in arrival order (FIFO admission).
   */
  lemma {:induction false} QueueOrder<T>(num: Limit, s: MState<T>, evs: seq<Event<T>>)
    requires NoTeardown(evs)
    ensures RunF(num, s, evs).started + RunF(num, s, evs).q == s.started + s.q + Arrivals(evs)
    decreases |evs|
  {
    if evs != [] {
      var t := StepF(num, s, evs[0]);
      var added := if evs[0].OuterNext? then [evs[0].x] else [];
      StepKeepsOrder(num, s, evs[0]);
      assert t.started + t.q == s.started + s.q + added;
      NoTeardownTail(evs);
      QueueOrder(num, t, evs[1..]);
      assert RunF(num, s, evs) == RunF(num, t, evs[1..]);
      assert Arrivals(evs) == added + Arrivals(evs[1..]);
      assert s.started + s.q + added + Arrivals(evs[1..]) == s.started + s.q + Arrivals(evs);
    }
  }

  // ---------------------------------------------------------------------
  // Completion: `c()` only once the outer is done and nothing is left.

  predicate Drained<T>(s: MState<T>)
  {
    s.done && s.active == 0 && s.q == []
  }

  lemma StartAddsNoCompletion<T>(s: MState<T>, p: Producer<T>)
    ensures Completions(StartF(s, p).out) == Completions(s.out)
  {
    var r := InnerOutcome(p);
    ForwardedHasNoCompletion(p);
    CompletionsAppend(s.out, r.forwarded);
    if r.kind.SubscribeThrew? {
      CompletionsAppend(s.out + r.forwarded, [Error(r.kind.reason)]);
    }
  }

  /** `pump` calls `c()` exactly when it leaves the state done and drained. */
  lemma {:induction false} PumpCompletesIffDrained<T>(num: Limit, s: MState<T>)
    ensures Completions(PumpF(num, s).out) == Completions(s.out) + if Drained(PumpF(num, s)) then 1 else 0
    decreases |s.q|
  {
    if Below(s.active, num) && s.q != [] {
      var s0 := s.(q := s.q[1..]);
      StartAddsNoCompletion(s0, s.q[0]);
      PumpCompletesIffDrained(num, StartF(s0, s.q[0]));
    } else if s.active == 0 && s.q == [] && s.done {
      CompletionsAppend(s.out, [Complete]);
    }
  }

  /**
   * No event calls `c()` more than once, and one that calls it leaves the
   * merge done, with no active inner and nothing queued.
   */
  lemma CompleteOnlyWhenDrained<T>(num: Limit, s: MState<T>, ev: Event<T>)
    ensures var t := StepF(num, s, ev);
      && Completions(s.out) <= Completions(t.out) <= Completions(s.out) + 1
      && (Completions(t.out) == Completions(s.out) + 1 ==> Drained(t))
  {
    match ev
    case OuterNext(x) => PumpCompletesIffDrained(num, s.(q := s.q + [x]));
    case OuterComplete => PumpCompletesIffDrained(num, s.(done := true));
    case OuterError(r) => CompletionsAppend(s.out, [Error(r)]);
    case InnerNext(h, x) => CompletionsAppend(s.out, [Next(x)]);
    case InnerError(h, r) => CompletionsAppend(s.out, [Error(r)]);
    case InnerComplete(h) =>
      if h in s.open {
        PumpCompletesIffDrained(num, CallbackF(s, h));
      }
    case OuterReturn(v) =>
    case Teardown =>
  }

  // ---------------------------------------------------------------------
  // Starting an inner.

  /**
   * What one start does, by the inner producer's calls: the inner takes a
   * slot and its `n`/`e` calls go downstream; a synchronous completion
   * gives the slot back, a synchronous error keeps it, an exception from
   * `subscribe` is forwarded to `e` and keeps it too; only an inner still
   * live is recorded as open, with its own teardown.
   */
  lemma StartBehaviour<T>(s: MState<T>, p: Producer<T>)
    ensures var c := Cut(p.calls);
      var t := StartF(s, p);
      && t.started == s.started + [p] && t.q == s.q && t.done == s.done
      && (c != [] && c[|c| - 1].Complete? ==>
            t.out == s.out + c[..|c| - 1] && t.active == s.active &&
            t.resources == s.resources && t.open == s.open)
      && (c != [] && c[|c| - 1].Error? ==>
            t.out == s.out + c && t.active == s.active + 1 &&
            t.resources == s.resources + [InnerHandle(s.nextHandle)] && t.open == s.open)
      && (Unterminated(c) && p.ending.Throw? ==>
            t.out == s.out + c + [Error(p.ending.reason)] && t.active == s.active + 1 &&
            t.resources == s.resources && t.open == s.open)
      && (Unterminated(c) && p.ending.Return? ==>
            t.out == s.out + c && t.active == s.active + 1 &&
            t.resources == s.resources + [InnerHandle(s.nextHandle)] &&
            t.open == s.open[s.nextHandle := OrNoop(p.ending.value)])
  {
  }

  // ---------------------------------------------------------------------
  // Teardown.

  /** The callable teardowns among the outer's return values. */
  function OuterIds(es: seq<Entry>): seq<nat>
  {
    if es == [] then []
    else (if es[0].OuterResource? && es[0].r.Callable? then [es[0].r.id] else []) + OuterIds(es[1..])
  }

  /** `catchAll` over `resources` runs exactly the outer's callable return values, in order. */
  lemma {:induction false} OnlyOuterTeardownsRun(es: seq<Entry>)
    ensures CallableIds(AsResources(es)) == OuterIds(es)
  {
    if es != [] {
      OnlyOuterTeardownsRun(es[1..]);
      assert AsResources(es)[1..] == AsResources(es[1..]);
    }
  }

  /**
   * The teardown marks the merge done, frees every slot, empties the queue
   * and `resources`, and runs the outer's teardown; the live inners stay
   * live, because an `{unsubscribe}` object is not callable.
   */
  lemma TeardownBehaviour<T>(s: MState<T>)
    ensures var t := TeardownF(s);
      && Drained(t) && t.resources == []
      && t.released == s.released + OuterIds(s.resources)
      && t.open == s.open && t.out == s.out && t.started == s.started
  {
    OnlyOuterTeardownsRun(s.resources);
  }

  /** A second teardown runs nothing more. */
  lemma TeardownIsIdempotent<T>(s: MState<T>)
    ensures TeardownF(TeardownF(s)) == TeardownF(s)
  {
    assert AsResources([]) == [];
  }

  /**
   * An inner that is live when the merge is torn down keeps running: its
   * teardown is not called, and when it later completes, `active` drops
   * below zero and only then its own teardown runs.
   */
  lemma InnerOutlivesTeardown()
    ensures var inner: Producer<int> := Producer([], Return(Callable(7, false)));
      var s := TeardownF(OuterNextF(Unbounded, Init(), inner));
      && 0 in s.open && s.released == []
      && InnerCompleteF(Unbounded, s, 0).active == -1
      && InnerCompleteF(Unbounded, s, 0).released == [7]
  {
    var inner: Producer<int> := Producer([], Return(Callable(7, false)));
    assert Cut(inner.calls) == [];
    assert InnerOutcome(inner) == InnerStart([], StaysOpen(Callable(7, false)));
    var t := StartF(Init<int>(), inner);
    assert t.resources == [InnerHandle(0)] && t.open == map[0 := Callable(7, false)];
    assert Init<int>().(q := [inner]).(q := [inner][1..]) == Init<int>();
    assert PumpF(Unbounded, t) == t;
    assert OuterNextF(Unbounded, Init(), inner) == t;
    assert AsResources(t.resources) == [Handle(0)];
    assert CallableIds([Handle(0)]) == [];
    var s := TeardownF(t);
    assert IndexOf(s.resources, InnerHandle(0)) == -1;
    var c := CallbackF(s, 0);
    assert c.active == -1 && c.q == [] && c.done;
    assert PumpF(Unbounded, c) == c;
  }

  // ---------------------------------------------------------------------
  // Synchronous inners: merging concatenates.

  function Flatten<T>(xss: seq<seq<T>>): seq<T>
  {
    if xss == [] then [] else xss[0] + Flatten(xss[1..])
  }

  /** The outer of `of(of(...xs0), of(...xs1), ...)`: one `next` per inner, then `complete`. */
  function Sources<T>(xss: seq<seq<T>>): seq<Producer<T>>
  {
    if xss == [] then [] else [Operators.Of(xss[0])] + Sources(xss[1..])
  }

  /** A source of values completes during its own `subscribe`, forwarding its values. */
  lemma OfCompletesSync<T>(xs: seq<T>)
    ensures InnerOutcome(Operators.Of(xs)) == InnerStart(Nexts(xs), CompletedSync)
  {
    var p := Operators.Of(xs);
    SubscribeInnerBehaviour(p);
    CutOfNexts(xs, [Complete]);
    assert Cut<T>([Complete]) == [Complete];
    assert (Nexts(xs) + [Complete])[..|xs|] == Nexts(xs);
  }

  /** `p` completes during its own `subscribe`, having forwarded `vs`. */
  ghost predicate CompletesSync<T>(p: Producer<T>, vs: seq<Signal<T>>)
  {
    InnerOutcome(p) == InnerStart(vs, CompletedSync)
  }

  /** While idle, one inner that completes synchronously just appends its calls. */
  lemma SyncSourceStep<T>(num: Limit, s: MState<T>, p: Producer<T>, vs: seq<Signal<T>>)
    requires s.active == 0 && s.q == [] && !s.done && Below(0, num) && CompletesSync(p, vs)
    ensures var t := OuterNextF(num, s, p);
      t.out == s.out + vs && t.active == 0 && t.q == [] && !t.done
  {
    var s0 := s.(q := [p]);
    assert s0.(q := s0.q[1..]) == s;
    var t := StartF(s, p);
    assert t.active == 0 && t.q == [] && t.out == s.out + vs;
    assert PumpF(num, t) == t;
  }

  /** The outer's `next` calls offering `ps`. */
  function Offers<T>(ps: seq<Producer<T>>): seq<Signal<Producer<T>>>
  {
    if ps == [] then [] else [Next(ps[0])] + Offers(ps[1..])
  }

  /** The calls of `vss`, one after the other. */
  function Joined<T>(vss: seq<seq<Signal<T>>>): seq<Signal<T>>
  {
    if vss == [] then [] else vss[0] + Joined(vss[1..])
  }

  /** The outer's `next(p)` calls for each of `ps` in turn. */
  function OfferAll<T>(num: Limit, s: MState<T>, ps: seq<Producer<T>>): MState<T>
    decreases |ps|
  {
    if ps == [] then s else OfferAll(num, OuterNextF(num, s, ps[0]), ps[1..])
  }

  lemma {:induction false} OffersAreOuterRun<T>(num: Limit, s: MState<T>, ps: seq<Producer<T>>)
    ensures OuterRun(num, s, Offers(ps)) == OfferAll(num, s, ps)
    decreases |ps|
  {
    if ps != [] {
      var offers := Offers(ps);
      assert offers[0] == Next(ps[0]) && offers[1..] == Offers(ps[1..]);
      OffersAreOuterRun(num, OuterNextF(num, s, ps[0]), ps[1..]);
    }
  }

  /** Each of `ps` completes synchronously, forwarding the matching entry of `vss`. */
  ghost predicate AllSync<T>(ps: seq<Producer<T>>, vss: seq<seq<Signal<T>>>)
    decreases |ps|
  {
    |ps| == |vss| && (ps != [] ==> CompletesSync(ps[0], vss[0]) && AllSync(ps[1..], vss[1..]))
  }

  /** The first offer to an idle merge, as the state the rest go on from. */
  lemma FirstOffer<T>(num: Limit, s: MState<T>, ps: seq<Producer<T>>, vs: seq<Signal<T>>) returns (s1: MState<T>)
    requires s.active == 0 && s.q == [] && !s.done && Below(0, num)
    requires ps != [] && CompletesSync(ps[0], vs)
    ensures OfferAll(num, s, ps) == OfferAll(num, s1, ps[1..])
    ensures s1.out == s.out + vs && s1.active == 0 && s1.q == [] && !s1.done
  {
    SyncSourceStep(num, s, ps[0], vs);
    s1 := OuterNextF(num, s, ps[0]);
  }

  /** While idle, each inner that completes synchronously just appends its calls. */
  lemma {:induction false} IdleRun<T>(num: Limit, s: MState<T>, ps: seq<Producer<T>>, vss: seq<seq<Signal<T>>>)
    requires s.active == 0 && s.q == [] && !s.done && Below(0, num)
    requires AllSync(ps, vss)
    ensures var t := OfferAll(num, s, ps);
      t.out == s.out + Joined(vss) && t.active == 0 && t.q == [] && !t.done
    decreases |ps|
  {
    if ps != [] {
      var s1 := FirstOffer(num, s, ps, vss[0]);
      IdleRun(num, s1, ps[1..], vss[1..]);
      assert (s.out + vss[0]) + Joined(vss[1..]) == s.out + Joined(vss);
    }
  }

  /** The values of each of `xss`, as calls. */
  function NextsEach<T>(xss: seq<seq<T>>): seq<seq<Signal<T>>>
  {
    if xss == [] then [] else [Nexts(xss[0])] + NextsEach(xss[1..])
  }

  /** Each of `Sources(xss)` completes synchronously with the values of its own `xss[i]`. */
  lemma {:induction false} SourcesCompleteSync<T>(xss: seq<seq<T>>)
    ensures AllSync(Sources(xss), NextsEach(xss))
    ensures Offers(Sources(xss)) == Nexts(Sources(xss))
    ensures Joined(NextsEach(xss)) == Nexts(Flatten(xss))
    decreases |xss|
  {
    if xss != [] {
      SourcesCompleteSync(xss[1..]);
      OfCompletesSync(xss[0]);
      var p := Operators.Of(xss[0]);
      assert Sources(xss) == [p] + Sources(xss[1..]);
      NextsAppend([p], Sources(xss[1..]));
      NextsAppend(xss[0], Flatten(xss[1..]));
      assert NextsEach(xss) == [Nexts(xss[0])] + NextsEach(xss[1..]);
    }
  }

  /** The outer's `complete` with nothing active or queued completes downstream. */
  lemma CompleteWhenIdle<T>(num: Limit, t: MState<T>)
    requires t.active == 0 && t.q == []
    ensures OuterRun(num, t, [Complete]).out == t.out + [Complete]
  {
    assert OuterRun(num, t, [Complete]) == OuterCompleteF(num, t);
  }

  /** An outer that offers inners which all complete synchronously, then completes. */
  lemma MergeOfSyncInners<T>(num: Limit, outer: Producer<Producer<T>>, ps: seq<Producer<T>>,
                             vss: seq<seq<Signal<T>>>, teardown: nat)
    requires Below(0, num) && AllSync(ps, vss)
    requires outer.calls == Offers(ps) + [Complete] && outer.ending == Return(Undefined)
    ensures Merge(num, outer, teardown).calls == Joined(vss) + [Complete]
  {
    OuterRunAppend(num, Init(), Offers(ps), [Complete]);
    OffersAreOuterRun(num, Init<T>(), ps);
    IdleRun(num, Init<T>(), ps, vss);
    CompleteWhenIdle(num, OfferAll(num, Init<T>(), ps));
  }

  /**
   * `mergeAll` and `concat` of sources that all complete synchronously
   * deliver the sources' values back to back and then `complete`.
   */
  lemma SyncSourcesConcatenate<T>(num: Limit, xss: seq<seq<T>>, teardown: nat)
    requires Below(0, num)
    ensures Merge(num, Operators.Of(Sources(xss)), teardown).calls == Nexts(Flatten(xss)) + [Complete]
  {
    var ps := Sources(xss);
    SourcesCompleteSync(xss);
    MergeOfSyncInners(num, Operators.Of(ps), ps, NextsEach(xss), teardown);
  }

  /** `mergeAll()` and `concat()` of synchronous sources both concatenate them. */
  lemma MergeAllAndConcatOfSources<T>(xss: seq<seq<T>>, teardown: nat)
    ensures MergeAll(Operators.Of(Sources(xss)), teardown).calls == Nexts(Flatten(xss)) + [Complete]
    ensures Concat(Operators.Of(Sources(xss)), teardown).calls == Nexts(Flatten(xss)) + [Complete]
  {
    SyncSourcesConcatenate(Unbounded, xss, teardown);
    SyncSourcesConcatenate(Bound(1), xss, teardown);
  }

  lemma {:induction false} OffersPointwise<T>(ps: seq<Producer<T>>)
    ensures |Offers(ps)| == |ps| && forall i :: 0 <= i < |ps| ==> Offers(ps)[i] == Next(ps[i])
    decreases |ps|
  {
    if ps != [] {
      OffersPointwise(ps[1..]);
      var o, rest := Offers(ps), Offers(ps[1..]);
      assert o == [Next(ps[0])] + rest;
      forall i | 1 <= i < |ps| ensures o[i] == Next(ps[i]) {
        assert o[i] == rest[i - 1] && ps[1..][i - 1] == ps[i];
      }
    }
  }

  lemma {:induction false} AllSyncPointwise<T>(ps: seq<Producer<T>>, vss: seq<seq<Signal<T>>>)
    requires |ps| == |vss| && forall i :: 0 <= i < |ps| ==> CompletesSync(ps[i], vss[i])
    ensures AllSync(ps, vss)
    decreases |ps|
  {
    if ps != [] {
      assert forall i :: 0 <= i < |ps| - 1 ==> ps[1..][i] == ps[i + 1] && vss[1..][i] == vss[i + 1];
      AllSyncPointwise(ps[1..], vss[1..]);
    }
  }

  /**
   * `flatMap(fn)` and `concatMap(fn)` over a source of values, when `fn`
   * gives for each value an inner that completes during its `subscribe`:
   * the inners' calls one after the other, then `complete`.
   */
  lemma FlatMapOfSyncInners<A, T>(fn: A -> Producer<T>, xs: seq<A>, vss: seq<seq<Signal<T>>>, teardown: nat)
    requires |vss| == |xs| && forall i :: 0 <= i < |xs| ==> CompletesSync(fn(xs[i]), vss[i])
    ensures FlatMap(fn, Operators.Of(xs), teardown).calls == Joined(vss) + [Complete]
    ensures ConcatMap(fn, Operators.Of(xs), teardown).calls == Joined(vss) + [Complete]
  {
    var ps := seq(|xs|, i requires 0 <= i < |xs| => fn(xs[i]));
    var outer := Operators.Map(fn, Operators.Of(xs));
    Operators.MapIsPointwise(fn, Operators.Of(xs));
    OffersPointwise(ps);
    assert outer.calls == Offers(ps) + [Complete] by {
      forall i | 0 <= i < |outer.calls|
        ensures outer.calls[i] == (Offers(ps) + [Complete])[i]
      {
        if i < |xs| {
          assert Operators.Of(xs).calls[i] == Next(xs[i]);
        } else {
          assert Operators.Of(xs).calls[i] == Complete;
        }
      }
    }
    AllSyncPointwise(ps, vss);
    MergeOfSyncInners(Unbounded, outer, ps, vss, teardown);
    MergeOfSyncInners(Bound(1), outer, ps, vss, teardown);
  }

  /**
   * The merged producer's run keeps `active` within `num`, and when it
   * returns, every live inner holds a slot; for `concat` at most one is live.
   */
  lemma MergeRunAdmission<T>(num: Limit, outer: Producer<Producer<T>>)
    ensures var s := MergeRun(num, outer).0;
      && Capped(num, s) && |s.open| <= s.active
      && (num == Bound(1) ==> |s.open| <= 1)
  {
    OuterRunIsRun(num, Init(), outer.calls);
    Admission(num, OuterEvents<T>(outer.calls));
  }

  // ---------------------------------------------------------------------
  // The merged producer's closure, on fields.

  /** Subscribes an inner with the forwarding handlers `n`, `e` and the completion callback. */
  method SubscribeForwarding<T>(p: Producer<T>) returns (d: seq<Signal<T>>, res: Resource, rethrown: Option<int>)
    ensures Classify(d, rethrown, res) == InnerOutcome(p)
  {
    var sub;
    sub, rethrown := SubscribeTo(p, Forwarder<T>());
    d, res := sub.delivered, sub.res;
    SubscribeInnerBehaviour(p);
  }

  /**
   * The closure variables of one subscription to the merged producer, with
   * the bookkeeping of `MState`. Each method performs one transition on the
   * fields: `StartNext` is `StartF`, `Pump` is `PumpF`, `OnOuterNext` is
   * `OuterNextF`, `OnOuterError` is `OuterErrorF`, `OnOuterComplete` is
   * `OuterCompleteF`, `Attach` is `AttachF`, `OnInnerNext` is `InnerNextF`,
   * `OnInnerError` is `InnerErrorF`, `Callback` is `CallbackF` then `PumpF`,
   * `OnInnerComplete` is `InnerCompleteF` and `Teardown` is `TeardownF`.
   */
  class Merger<!T> {
    const num: Limit
    var done: bool
    var active: int
    var q: seq<Producer<T>>
    var resources: seq<Entry>
    var open: map<nat, Resource>
    var nextHandle: nat
    var out: seq<Signal<T>>
    var started: seq<Producer<T>>
    var released: seq<nat>

    function State(): MState<T>
      reads this
    {
      MState(done, active, q, resources, open, nextHandle, out, started, released)
    }

    constructor(num: Limit)
      ensures this.num == num && State() == Init()
    {
      this.num := num;
      done := false;
      active := 0;
      q := [];
      resources := [];
      open := map[];
      nextHandle := 0;
      out := [];
      started := [];
      released := [];
    }

    /** The body of the `pump` loop for the inner `p`, already shifted off `q`. */
    method StartNext(p: Producer<T>)
      modifies this
      ensures State() == StartF(old(State()), p)
    {
      var h := nextHandle;
      nextHandle := h + 1;
      started := started + [p];
      var sync := false;
      active := active + 1;
      var d, res, rethrown := SubscribeForwarding(p);
      ghost var r := Classify(d, rethrown, res);
      assert StartF(old(State()), p) == StartWith(old(State()), p, r);
      if rethrown.Some? {
        out := out + d + [Error(rethrown.value)];
      } else {
        if d != [] && d[|d| - 1].Complete? {
          // the completion callback, while `sync` is still false
          out := out + d[..|d| - 1];
          active := active - 1;
          sync := true;
        } else {
          out := out + d;
        }
        if !sync {
          sync := true;
          resources := resources + [InnerHandle(h)];
          if d == [] || d[|d| - 1].Next? {
            open := open[h := res];
          }
        }
      }
    }

    method Pump()
      modifies this
      ensures State() == PumpF(num, old(State()))
    {
      while Below(active, num) && q != []
        invariant PumpF(num, State()) == PumpF(num, old(State()))
        decreases |q|
      {
        var p := q[0];
        q := q[1..];
        StartNext(p);
      }
      if active == 0 && q == [] && done {
        out := out + [Complete];
      }
    }

    method OnOuterNext(x: Producer<T>)
      modifies this
      ensures State() == OuterNextF(num, old(State()), x)
    {
      q := q + [x];
      Pump();
    }

    method OnOuterError(r: int)
      modifies this
      ensures State() == OuterErrorF(old(State()), r)
    {
      out := out + [Error(r)];
    }

    method OnOuterComplete()
      modifies this
      ensures State() == OuterCompleteF(num, old(State()))
    {
      done := true;
      Pump();
    }

    method Attach(v: Resource)
      modifies this
      ensures State() == AttachF(old(State()), v)
    {
      resources := resources + [OuterResource(v)];
    }

    method OnInnerNext(h: nat, x: T)
      modifies this
      ensures State() == InnerNextF(old(State()), h, x)
    {
      if h in open {
        out := out + [Next(x)];
      }
    }

    method OnInnerError(h: nat, r: int)
      modifies this
      ensures State() == InnerErrorF(old(State()), h, r)
    {
      if h in open {
        var teardown := open[h];
        out := out + [Error(r)];
        open := open - {h};
        released := released + Invoke(teardown).ran;
      }
    }

    /** The completion callback when `sync` is already true: free the slot, drop the handle, pump. */
    method Callback(h: nat)
      modifies this
      ensures State() == PumpF(num, CallbackF(old(State()), h))
    {
      var idx := IndexOf(resources, InnerHandle(h));
      var kept := if idx >= 0 then RemoveAt(resources, idx) else resources;
      active, resources, open := active - 1, kept, open - {h};
      ghost var mid := State();
      assert mid == CallbackF(old(State()), h);
      Pump();
      assert State() == PumpF(num, mid);
    }

    /** A live inner's `c`: the callback, then the inner's own unsubscribe runs its teardown. */
    method OnInnerComplete(h: nat)
      modifies this
      ensures State() == InnerCompleteF(num, old(State()), h)
    {
      if h in open {
        var teardown := open[h];
        Callback(h);
        released := released + Invoke(teardown).ran;
      }
    }

    method Teardown()
      modifies this
      ensures State() == TeardownF(old(State()))
    {
      done := true;
      active := 0;
      q := [];
      var ran := ReleaseAll(AsResources(resources));
      released := released + ran;
      resources := [];
    }
  }

  /** Subscribing the merged producer: the outer producer runs, then its return value is kept. */
  method RunMerge<T>(num: Limit, outer: Producer<Producer<T>>) returns (m: Merger<T>, thrown: Option<int>)
    ensures fresh(m) && m.num == num
    ensures (m.State(), thrown) == MergeRun(num, outer)
  {
    m := new Merger(num);
    var i := 0;
    while i < |outer.calls|
      invariant 0 <= i <= |outer.calls| && m.num == num
      invariant OuterRun(num, m.State(), outer.calls[i..]) == OuterRun(num, Init(), outer.calls)
      decreases |outer.calls| - i
    {
      ghost var before := m.State();
      assert outer.calls[i..][0] == outer.calls[i] && outer.calls[i..][1..] == outer.calls[i + 1..];
      assert OuterRun(num, before, outer.calls[i..])
          == OuterRun(num, OuterCallF(num, before, outer.calls[i]), outer.calls[i + 1..]);
      match outer.calls[i] {
        case Next(x) => m.OnOuterNext(x);
        case Error(r) => m.OnOuterError(r);
        case Complete => m.OnOuterComplete();
      }
      assert m.State() == OuterCallF(num, before, outer.calls[i]);
      i := i + 1;
    }
    match outer.ending {
      case Throw(r) =>
        thrown := Some(r);
      case Return(v) =>
        m.Attach(v);
        thrown := None;
    }
  }
}
