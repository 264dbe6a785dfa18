/**
 * The subscription protocol of `Observable.prototype.subscribe` (index.js).
 *
 * `subscribe(n, e, c)` wraps the user's three handlers into `n2`, `e2`,
 * `c2`, runs the producer with them, and hands back `{unsubscribe}`. The
 * closure variables it reassigns (`n`, `e`, `c`, `res`, `unsubscribe`) are
 * the state `SubState`; the sentinel `SynchronousUnsubscription`, which the
 * source throws as an exception, is the outcome `Threw(Sentinel)`.
 *
 * A producer is modelled by what it does synchronously: the handler calls
 * it makes, in order, and then either returning a value or throwing. Like
 * every producer in the library it does not catch what a handler throws:
 * the first exception aborts it.
 */
module Subscriptions {
  import opened Resources
  import opened Signals

  /** What a user handler does when called. */
  datatype Reaction = Returned | Raised(reason: int)

  /** A handler slot: the library's `noop`, or a user function. */
  datatype Handler<-A> = NoopHandler | User(react: A -> Reaction)

  datatype Observer<!T> = Observer(next: Handler<T>, error: Handler<int>, complete: Handler<()>)

  /** How a producer's synchronous run ends. */
  datatype Ending = Return(value: Resource) | Throw(reason: int)

  /** An Observable's producer function, by its synchronous behaviour. */
  datatype Producer<!T> = Producer(calls: seq<Signal<T>>, ending: Ending)

  /** What can be thrown: the sentinel, or an ordinary value. */
  datatype Exception = Sentinel | Thrown(reason: int)

  /** How a call returns: normally, or by throwing. */
  datatype Outcome = Normal | Threw(exn: Exception)

  /** What the variable `unsubscribe` holds. */
  datatype Slot = HoldsSentinel | HoldsReal

  datatype Option<+A> = None | Some(value: A)

  /**
   * The closure state of one `subscribe` call, plus two logs: the calls that
   * reached a user handler, and the ids of the teardown functions that ran.
   */
  datatype SubState<!T> = SubState(
    n: Handler<T>, e: Handler<int>, c: Handler<()>,
    res: Resource, unsubscribe: Slot,
    delivered: seq<Signal<T>>, released: seq<nat>)

  datatype Transition<!T> = Transition(state: SubState<T>, outcome: Outcome)

  /** The result of `subscribe`: the state it leaves, and what it rethrows, if anything. */
  datatype Subscribed<!T> = Subscribed(state: SubState<T>, rethrown: Option<int>)

  function Observing<T>(s: SubState<T>): Observer<T>
  {
    Observer(s.n, s.e, s.c)
  }

  /** Entering `subscribe`: handlers captured, `unsubscribe` is the sentinel, `res` is `noop`. */
  function Start<T>(o: Observer<T>): SubState<T>
  {
    SubState(o.next, o.error, o.complete, Noop, HoldsSentinel, [], [])
  }

  /** No handler can deliver anything and no teardown is left to run. */
  predicate Inert<T>(s: SubState<T>)
  {
    s.n.NoopHandler? && s.e.NoopHandler? && s.c.NoopHandler? && s.res == Noop
  }

  /** `realUnsubscribe`: silence the handlers, run `res` swallowing any exception, reset `res`. */
  function RealUnsubscribeStep<T>(s: SubState<T>): SubState<T>
  {
    s.(n := NoopHandler, e := NoopHandler, c := NoopHandler,
       res := Noop, released := s.released + Invoke(s.res).ran)
  }

  /** Calling whatever `unsubscribe` holds. */
  function CallUnsubscribeStep<T>(s: SubState<T>): Transition<T>
  {
    if s.unsubscribe.HoldsSentinel? then Transition(s, Threw(Sentinel))
    else Transition(RealUnsubscribeStep(s), Normal)
  }

  /** `err(x)`: `unsubscribe(); throw x;` (the sentinel, if thrown first, wins). */
  function ErrStep<T>(s: SubState<T>, x: Exception): Transition<T>
  {
    var u := CallUnsubscribeStep(s);
    if u.outcome.Threw? then u else Transition(u.state, Threw(x))
  }

  function CallHandler<T, A>(s: SubState<T>, h: Handler<A>, arg: A, sig: Signal<T>): (SubState<T>, Reaction)
  {
    match h
    case NoopHandler => (s, Returned)
    case User(f) => (s.(delivered := s.delivered + [sig]), f(arg))
  }

  /** `n2(x)`: call `n`; if it throws, `err`. */
  function N2Step<T>(s: SubState<T>, x: T): Transition<T>
  {
    var (s1, r) := CallHandler(s, s.n, x, Next(x));
    if r.Raised? then ErrStep(s1, Thrown(r.reason)) else Transition(s1, Normal)
  }

  /** The shared shape of `e2` and `c2`: call the handler, then `unsubscribe`; on any throw, `err`. */
  function TerminateStep<T>(s1: SubState<T>, r: Reaction): Transition<T>
  {
    if r.Raised? then ErrStep(s1, Thrown(r.reason))
    else
      var u := CallUnsubscribeStep(s1);
      if u.outcome.Threw? then ErrStep(u.state, u.outcome.exn) else u
  }

  /** `e2(x)`. */
  function E2Step<T>(s: SubState<T>, x: int): Transition<T>
  {
    var (s1, r) := CallHandler(s, s.e, x, Error(x));
    TerminateStep(s1, r)
  }

  /** `c2()`. */
  function C2Step<T>(s: SubState<T>): Transition<T>
  {
    var (s1, r) := CallHandler(s, s.c, (), Complete);
    TerminateStep(s1, r)
  }

  /** One handler call made by the producer. */
  function Wire<T>(s: SubState<T>, sig: Signal<T>): Transition<T>
  {
    match sig
    case Next(x) => N2Step(s, x)
    case Error(r) => E2Step(s, r)
    case Complete => C2Step(s)
  }

  /** The producer makes its calls in order and is aborted by the first exception. */
  function Feed<T>(s: SubState<T>, calls: seq<Signal<T>>): Transition<T>
    decreases |calls|
  {
    if calls == [] then Transition(s, Normal)
    else
      var t := Wire(s, calls[0]);
      if t.outcome.Threw? then t else Feed(t.state, calls[1..])
  }

  /**
   * `subscribe` from the producer call on: keep the producer's return value
   * (or `noop`), tear down at once on the sentinel, rethrow anything else;
   * only a completed call installs `realUnsubscribe`.
   */
  function Subscribe<T>(s: SubState<T>, p: Producer<T>): Subscribed<T>
  {
    var t := Feed(s, p.calls);
    if t.outcome.Threw? then
      if t.outcome.exn.Sentinel? then Subscribed(RealUnsubscribeStep(t.state).(unsubscribe := HoldsReal), None)
      else Subscribed(t.state, Some(t.outcome.exn.reason))
    else
      match p.ending
      case Return(v) => Subscribed(t.state.(res := OrNoop(v), unsubscribe := HoldsReal), None)
      case Throw(r) => Subscribed(t.state, Some(r))
  }

  // ---------------------------------------------------------------------
  // A reference description of the synchronous phase.

  /**
   * What the user's handlers receive while the producer runs: every call up
   * to the first `error`, the first `complete`, or the first `next` whose
   * handler throws, whichever comes first; a `noop` handler receives nothing.
   */
  function Visible<T>(calls: seq<Signal<T>>, o: Observer<T>): seq<Signal<T>>
  {
    if calls == [] then []
    else match calls[0]
      case Next(x) =>
        if o.next.NoopHandler? then Visible(calls[1..], o)
        else if o.next.react(x).Raised? then [Next(x)]
        else [Next(x)] + Visible(calls[1..], o)
      case Error(r) => if o.error.NoopHandler? then [] else [Error(r)]
      case Complete => if o.complete.NoopHandler? then [] else [Complete]
  }

  /** Whether the producer is cut short: an `error`, a `complete`, or a throwing `next`. */
  predicate CutShort<T>(calls: seq<Signal<T>>, o: Observer<T>)
  {
    calls != [] &&
    match calls[0]
    case Next(x) => (o.next.User? && o.next.react(x).Raised?) || CutShort(calls[1..], o)
    case Error(_) => true
    case Complete => true
  }

  /** While `unsubscribe` is the sentinel, the producer's run follows the reference description. */
  lemma {:induction false} FeedWhileSentinel<T>(s: SubState<T>, calls: seq<Signal<T>>)
    requires s.unsubscribe.HoldsSentinel?
    ensures Feed(s, calls).state == s.(delivered := s.delivered + Visible(calls, Observing(s)))
    ensures Feed(s, calls).outcome == if CutShort(calls, Observing(s)) then Threw(Sentinel) else Normal
    decreases |calls|
  {
    if calls == [] {
      assert s.delivered + [] == s.delivered;
    } else {
      var t := Wire(s, calls[0]);
      if !t.outcome.Threw? {
        assert t.state.unsubscribe.HoldsSentinel? && Observing(t.state) == Observing(s);
        FeedWhileSentinel(t.state, calls[1..]);
        assert s.delivered + Visible(calls, Observing(s))
            == t.state.delivered + Visible(calls[1..], Observing(s));
      }
    }
  }

  /**
   * What `subscribe` does, in terms of the reference description: the user
   * sees exactly `Visible`; a producer cut short is torn down before
   * `subscribe` returns, without running a teardown (the producer never
   * returned one); otherwise the returned value (or `noop`) is kept, or the
   * producer's own exception is rethrown.
   */
  lemma SubscribeBehaviour<T>(o: Observer<T>, p: Producer<T>)
    ensures var r := Subscribe(Start(o), p);
      && r.state.delivered == Visible(p.calls, o)
      && (CutShort(p.calls, o) ==>
            r.rethrown == None && Inert(r.state) && r.state.released == [] &&
            r.state.unsubscribe.HoldsReal?)
      && (!CutShort(p.calls, o) && p.ending.Return? ==>
            r.rethrown == None && r.state.res == OrNoop(p.ending.value) &&
            Observing(r.state) == o && r.state.released == [] && r.state.unsubscribe.HoldsReal?)
      && (!CutShort(p.calls, o) && p.ending.Throw? ==>
            r.rethrown == Some(p.ending.reason) && r.state.unsubscribe.HoldsSentinel?)
  {
    FeedWhileSentinel(Start(o), p.calls);
    assert Observing(Start(o)) == o;
  }

  /** After an `error` or a `complete`, nothing more reaches the user. */
  lemma {:induction false} VisibleEndsAtTermination<T>(calls: seq<Signal<T>>, o: Observer<T>)
    ensures WellFormed(Visible(calls, o))
    ensures |Visible(calls, o)| <= |calls|
  {
    if calls != [] && calls[0].Next? && !(o.next.User? && o.next.react(calls[0].value).Raised?) {
      VisibleEndsAtTermination(calls[1..], o);
      var v := Visible(calls, o);
      if o.next.User? {
        assert v == [calls[0]] + Visible(calls[1..], o);
        forall i | 0 <= i < |v| - 1 ensures v[i].Next? {
          if i > 0 { assert v[i] == Visible(calls[1..], o)[i - 1]; }
        }
      }
    }
  }

  /** An observer whose handlers all return sees the calls up to the first terminal one. */
  lemma {:induction false} VisibleToPlainObserver<T>(calls: seq<Signal<T>>, o: Observer<T>)
    requires o.next.User? && o.error.User? && o.complete.User?
    requires forall x :: o.next.react(x) == Returned
    ensures Visible(calls, o) == Cut(calls)
    ensures CutShort(calls, o) <==> Cut(calls) != [] && !Cut(calls)[|Cut(calls)| - 1].Next?
  {
    if calls != [] && calls[0].Next? {
      VisibleToPlainObserver(calls[1..], o);
      var c := Cut(calls[1..]);
      assert Cut(calls) == [calls[0]] + c;
      if c != [] {
        assert Cut(calls)[|Cut(calls)| - 1] == c[|c| - 1];
      }
    }
  }

  /**
   * Unlike the same call after `subscribe` has returned (`NextErrorPropagates`),
   * a user handler that throws while the producer is still running does not
   * make `subscribe` throw.
   * `err` calls `unsubscribe`, which is still the sentinel, so the sentinel
   * is thrown in place of the user's exception and `subscribe` tears down
   * and returns normally.
   */
  lemma SyncHandlerErrorIsNotRethrown<T>(o: Observer<T>, x: T, rest: seq<Signal<T>>, ending: Ending)
    requires o.next.User? && o.next.react(x).Raised?
    ensures var r := Subscribe(Start(o), Producer([Next(x)] + rest, ending));
      r.rethrown == None && r.state.delivered == [Next(x)] && Inert(r.state)
  {
    SubscribeBehaviour(o, Producer([Next(x)] + rest, ending));
  }

  // ---------------------------------------------------------------------
  // Properties of the wrappers and of `realUnsubscribe`.

  /** `realUnsubscribe` empties the handlers and `res`; a second call changes nothing. */
  lemma UnsubscribeIsIdempotent<T>(s: SubState<T>)
    ensures Inert(RealUnsubscribeStep(s))
    ensures RealUnsubscribeStep(RealUnsubscribeStep(s)) == RealUnsubscribeStep(s)
    ensures RealUnsubscribeStep(s).released == s.released + (if s.res.Callable? then [s.res.id] else [])
  {
  }

  /** Once inert, a subscription ignores every later call and stays inert. */
  lemma InertIgnoresCalls<T>(s: SubState<T>, sig: Signal<T>)
    requires Inert(s) && s.unsubscribe.HoldsReal?
    ensures Wire(s, sig) == Transition(s, Normal)
  {
  }

  /**
   * After `subscribe` has returned, `error` and `complete` run the user
   * handler and then tear down; an exception from the user handler is
   * rethrown, after the teardown.
   */
  lemma TerminationCleansUp<T>(s: SubState<T>, sig: Signal<T>)
    requires s.unsubscribe.HoldsReal? && !sig.Next?
    ensures var t := Wire(s, sig);
      && Inert(t.state)
      && t.state.released == s.released + Invoke(s.res).ran
      && t.outcome != Threw(Sentinel)
      && (t.outcome.Threw? <==>
            (sig.Error? && s.e.User? && s.e.react(sig.reason).Raised?) ||
            (sig.Complete? && s.c.User? && s.c.react(()).Raised?))
  {
  }

  /** After `subscribe` has returned, a throwing `next` handler tears down, then its exception propagates. */
  lemma NextErrorPropagates<T>(s: SubState<T>, x: T)
    requires s.unsubscribe.HoldsReal? && s.n.User? && s.n.react(x).Raised?
    ensures N2Step(s, x).outcome == Threw(Thrown(s.n.react(x).reason))
    ensures Inert(N2Step(s, x).state) && N2Step(s, x).state.delivered == s.delivered + [Next(x)]
  {
  }

  /** While the producer runs, `error` and `complete` always end in the sentinel. */
  lemma TerminationThrowsSentinelWhileRunning<T>(s: SubState<T>, sig: Signal<T>)
    requires s.unsubscribe.HoldsSentinel? && !sig.Next?
    ensures Wire(s, sig).outcome == Threw(Sentinel)
    ensures Observing(Wire(s, sig).state) == Observing(s)
  {
  }

  // ---------------------------------------------------------------------
  // The closure state as an object.

  /**
   * One execution of `subscribe`: its closure variables and its two logs.
   * Each method performs one transition of the functions above on the
   * fields: `RealUnsubscribe` is `RealUnsubscribeStep`, `CallUnsubscribe` is
   * `CallUnsubscribeStep`, `Err` is `ErrStep`, `N2` is `N2Step`, `Terminate`
   * is `TerminateStep`, `E2` is `E2Step`, `C2` is `C2Step`, and `Run` is
   * `Subscribe`.
   */
  class Subscription<!T> {
    var n: Handler<T>
    var e: Handler<int>
    var c: Handler<()>
    var res: Resource
    var unsubscribe: Slot
    var delivered: seq<Signal<T>>
    var released: seq<nat>

    function State(): SubState<T>
      reads this
    {
      SubState(n, e, c, res, unsubscribe, delivered, released)
    }

    /** index.js:119-124: capture the handlers; `unsubscribe` is the sentinel, `res` is `noop`. */
    constructor(o: Observer<T>)
      ensures State() == Start(o)
    {
      n, e, c := o.next, o.error, o.complete;
      unsubscribe := HoldsSentinel;
      res := Noop;
      delivered, released := [], [];
    }

    /** The returned `{unsubscribe}` (and the inner function `realUnsubscribe`). */
    method RealUnsubscribe()
      modifies this
      ensures State() == RealUnsubscribeStep(old(State()))
    {
      n, e, c := NoopHandler, NoopHandler, NoopHandler;
      var call := Invoke(res);   // an exception from the teardown is ignored
      released := released + call.ran;
      res := Noop;
    }

    method CallUnsubscribe() returns (o: Outcome)
      modifies this
      ensures Transition(State(), o) == CallUnsubscribeStep(old(State()))
    {
      if unsubscribe.HoldsSentinel? {
        o := Threw(Sentinel);
      } else {
        RealUnsubscribe();
        o := Normal;
      }
    }

    method Err(x: Exception) returns (o: Outcome)
      modifies this
      ensures Transition(State(), o) == ErrStep(old(State()), x)
    {
      o := CallUnsubscribe();
      if o.Normal? {
        o := Threw(x);
      }
    }

    method N2(x: T) returns (o: Outcome)
      modifies this
      ensures Transition(State(), o) == N2Step(old(State()), x)
    {
      var r := Returned;
      if n.User? {
        delivered := delivered + [Next(x)];
        r := n.react(x);
      }
      if r.Raised? {
        o := Err(Thrown(r.reason));
      } else {
        o := Normal;
      }
    }

    method Terminate(r: Reaction) returns (o: Outcome)
      modifies this
      ensures Transition(State(), o) == TerminateStep(old(State()), r)
    {
      if r.Raised? {
        o := Err(Thrown(r.reason));
      } else {
        o := CallUnsubscribe();
        if o.Threw? {
          o := Err(o.exn);
        }
      }
    }

    method E2(x: int) returns (o: Outcome)
      modifies this
      ensures Transition(State(), o) == E2Step(old(State()), x)
    {
      var r := Returned;
      if e.User? {
        delivered := delivered + [Error(x)];
        r := e.react(x);
      }
      o := Terminate(r);
    }

    method C2() returns (o: Outcome)
      modifies this
      ensures Transition(State(), o) == C2Step(old(State()))
    {
      var r := Returned;
      if c.User? {
        delivered := delivered + [Complete];
        r := c.react(());
      }
      o := Terminate(r);
    }

    /**
     * index.js:126-138: run the producer with the wrapped handlers, then keep
     * its teardown, or tear down on the sentinel, or rethrow.
     */
    method Run(p: Producer<T>) returns (rethrown: Option<int>)
      modifies this
      ensures Subscribed(State(), rethrown) == Subscribe(old(State()), p)
    {
      var i := 0;
      var o := Normal;
      while i < |p.calls| && o.Normal?
        invariant 0 <= i <= |p.calls|
        invariant o.Normal? ==> Feed(State(), p.calls[i..]) == Feed(old(State()), p.calls)
        invariant o.Threw? ==> Transition(State(), o) == Feed(old(State()), p.calls)
      {
        ghost var before := State();
        assert p.calls[i..][0] == p.calls[i] && p.calls[i..][1..] == p.calls[i + 1..];
        match p.calls[i] {
          case Next(x) => o := N2(x);
          case Error(r) => o := E2(r);
          case Complete => o := C2();
        }
        assert Transition(State(), o) == Wire(before, p.calls[i]);
        i := i + 1;
      }
      if o.Normal? {
        assert p.calls[i..] == [];
        match p.ending {
          case Return(v) =>
            res := OrNoop(v);
            unsubscribe := HoldsReal;
            rethrown := None;
          case Throw(r) =>
            rethrown := Some(r);
        }
      } else if o.exn.Sentinel? {
        RealUnsubscribe();
        unsubscribe := HoldsReal;
        rethrown := None;
      } else {
        rethrown := Some(o.exn.reason);
      }
    }
  }

  /** `observable.subscribe(n, e, c)`: a fresh execution state, then the producer run. */
  method SubscribeTo<T>(p: Producer<T>, o: Observer<T>) returns (s: Subscription<T>, rethrown: Option<int>)
    ensures fresh(s)
    ensures Subscribed(s.State(), rethrown) == Subscribe(Start(o), p)
  {
    s := new Subscription(o);
    rethrown := s.Run(p);
  }

  /** A client: unsubscribing twice runs the teardown once. */
  method UnsubscribeTwice(p: Producer<int>, o: Observer<int>, id: nat) returns (released: seq<nat>, inert: bool)
    requires !CutShort(p.calls, o) && p.ending == Return(Callable(id, true))
    ensures released == [id] && inert
  {
    var s, rethrown := SubscribeTo(p, o);
    SubscribeBehaviour(o, p);
    s.RealUnsubscribe();
    s.RealUnsubscribe();
    released := s.released;
    inert := s.n.NoopHandler? && s.e.NoopHandler? && s.c.NoopHandler? && s.res == Noop;
  }
}
