/**
 * Delay arithmetic of `Scheduler.default` (index.js, `scheduleFuture` and
 * `schedulePeriodic`). What is modelled is how a delay argument becomes a
 * timer delay, and which host timers a periodic schedule arms and its
 * cancel clears, over a table of armed timer ids; when timers fire is not
 * modelled. The clock reading `Date.now()` is the parameter `now`, in
 * milliseconds.
 */
module Delay {

  /** A JavaScript number: a finite value (fractions included), an infinity, or NaN. */
  datatype JsNumber = Finite(v: real) | Infinity(negative: bool) | NaN

  /** A delay argument: a number, a `Date` (by its time value, NaN when invalid), or none. */
  datatype When = Number(x: JsNumber) | At(time: JsNumber) | Omitted

  /** JavaScript truthiness of a number: zero and NaN are falsy. */
  predicate Truthy(x: JsNumber)
  {
    x != Finite(0.0) && !x.NaN?
  }

  /** A number greater than zero: positive, or positive infinity. */
  predicate Positive(x: JsNumber)
  {
    (x.Finite? && x.v > 0.0) || x == Infinity(false)
  }

  /** `Math.max(0, x)`: NaN if `x` is NaN, otherwise the larger of 0 and `x`. */
  function MaxZero(x: JsNumber): (r: JsNumber)
    ensures r.NaN? <==> x.NaN?
    ensures r.Finite? ==> r.v >= 0.0
    ensures r != Infinity(true)
    ensures Truthy(r) <==> Positive(x)
    ensures !x.NaN? && !Positive(x) ==> r == Finite(0.0)
    ensures Positive(x) ==> r == x
  {
    match x
    case Finite(v) => if v < 0.0 then Finite(0.0) else x
    case Infinity(negative) => if negative then Finite(0.0) else x
    case NaN => NaN
  }

  /** `d - Date.now()` for a time value `d`: NaN and infinities absorb the finite clock. */
  function MinusNow(d: JsNumber, now: real): JsNumber
  {
    if d.Finite? then Finite(d.v - now) else d
  }

  /**
   * `Math.max(0, typeof delay === 'number' ? delay : delay - Date.now())`:
   * a number is clamped as it is, a `Date` is first made relative to the
   * clock, and an omitted delay gives `undefined - now`, which is NaN.
   */
  function Normalize(d: When, now: real): (r: JsNumber)
    ensures r.Finite? ==> r.v >= 0.0
    ensures r != Infinity(true)
    ensures r.NaN? <==> d.Omitted? || (d.Number? && d.x.NaN?) || (d.At? && d.time.NaN?)
    ensures Truthy(r) <==> (d.Number? && Positive(d.x)) || (d.At? && Positive(MinusNow(d.time, now)))
    ensures d.At? && d.time.Finite? && d.time.v <= now ==> r == Finite(0.0)
    ensures d.At? && d.time.Finite? && d.time.v > now ==> r == Finite(d.time.v - now)
    ensures d.Number? ==> r == MaxZero(d.x)
    ensures d.At? ==> r == MaxZero(MinusNow(d.time, now))
    ensures d.Number? && Positive(d.x) ==> r == d.x
  {
    match d
    case Number(x) => MaxZero(x)
    case At(t) => MaxZero(MinusNow(t, now))
    case Omitted => MaxZero(NaN)
  }

  /**
   * `scheduleFuture` normalises the delay that `schedulePeriodic` already
   * normalised: doing it twice changes nothing, whatever the clock reads.
   */
  lemma NormalizeIsIdempotent(d: When, now: real, later: real)
    ensures Normalize(Number(Normalize(d, now)), later) == Normalize(d, now)
  {
    var r := Normalize(d, now);
    if r.Finite? {
      assert r.v >= 0.0;
    }
  }

  /** A fractional delay such as 0.5 is truthy: it goes through `scheduleFuture`. */
  lemma FractionalDelayIsTruthy(x: real, now: real)
    requires 0.0 < x < 1.0
    ensures Truthy(Normalize(Number(Finite(x)), now))
  {
  }

  /** The timers a periodic schedule arms, in the order they are armed. */
  datatype Plan =
    | Repeat(every: JsNumber)           // `setInterval(fn, every)` right away
    | After(wait: JsNumber, next: Plan) // `scheduleFuture` first, `next` when it fires

  /** `schedulePeriodic(fn, interval, delay)` with the clock reading `now`. */
  function PeriodicPlan(interval: JsNumber, delay: When, now: real): (p: Plan)
    ensures p.Repeat? ==> p.every == MaxZero(interval) && !Truthy(Normalize(delay, now))
    ensures p.After? ==> Truthy(Normalize(delay, now)) && p.wait == Normalize(delay, now)
    ensures p.After? ==> Positive(p.wait) && p.next == Repeat(MaxZero(interval))
    decreases if delay.Omitted? then 0 else 1
  {
    var every := MaxZero(interval);
    var d := Normalize(delay, now);
    if Truthy(d) then After(d, PeriodicPlan(every, Omitted, now)) else Repeat(every)
  }

  /**
   * The interval the host is handed is never below zero, and it is NaN
   * exactly when the given interval is NaN; the re-entry after the delay
   * clamps the already clamped interval again, which changes nothing.
   */
  lemma PeriodicIntervalIsClamped(interval: JsNumber, delay: When, now: real, later: real)
    ensures var p := PeriodicPlan(interval, delay, now);
      var r := if p.Repeat? then p else p.next;
      && (r.every.NaN? <==> interval.NaN?)
      && (r.every.Finite? ==> r.every.v >= 0.0)
      && PeriodicPlan(r.every, Omitted, later) == r
  {
    var p := PeriodicPlan(interval, delay, now);
    var e := MaxZero(interval);
    assert MaxZero(e) == e;
  }

  /** An omitted, NaN, non-positive or past delay starts the interval at once. */
  lemma NoDelayRepeatsAtOnce(interval: JsNumber, now: real, d: When)
    requires d.Omitted? || (d.Number? && !Positive(d.x)) || (d.At? && !Positive(MinusNow(d.time, now)))
    ensures PeriodicPlan(interval, d, now) == Repeat(MaxZero(interval))
  {
  }

  /**
   * The host's timer table: the ids of pending timeouts and of running
   * intervals, and the id the next `setTimeout`/`setInterval` hands out.
   */
  datatype Timers = Timers(timeouts: set<nat>, intervals: set<nat>, next: nat)

  /** Every armed id was handed out before `next`. */
  predicate Issued(h: Timers)
  {
    && (forall id :: id in h.timeouts ==> id < h.next)
    && (forall id :: id in h.intervals ==> id < h.next)
  }

  /**
   * The cancel `schedulePeriodic` returns: `()=>root.clearInterval(i)`, or
   * `()=>{t();i && i();}` over the delay's timer and the variable `i`,
   * which stays unset until the delay fires.
   */
  datatype Cancel = ClearInterval(id: nat) | Delayed(timeout: nat, i: Later)
  datatype Later = Unset | Set(cancel: Cancel)

  /** A schedule's host state and its cancel. */
  datatype Armed = Armed(timers: Timers, cancel: Cancel)

  /** `schedulePeriodic` returns: the first timer of plan `p` is armed. */
  function Arm(p: Plan, h: Timers): Armed
  {
    match p
    case Repeat(_) => Armed(h.(intervals := h.intervals + {h.next}, next := h.next + 1), ClearInterval(h.next))
    case After(_, _) => Armed(h.(timeouts := h.timeouts + {h.next}, next := h.next + 1), Delayed(h.next, Unset))
  }

  /**
   * The delay timer fires: the host drops it, and its callback
   * `i=this.schedulePeriodic(fn,interval)` arms the rest of the plan and
   * stores that schedule's cancel in `i`.
   */
  function FireDelay(p: Plan, a: Armed): Armed
    requires p.After? && a.cancel.Delayed?
  {
    var h := a.timers.(timeouts := a.timers.timeouts - {a.cancel.timeout});
    var inner := Arm(p.next, h);
    Armed(inner.timers, Delayed(a.cancel.timeout, Set(inner.cancel)))
  }

  /** Calling a cancel: `clearInterval(i)`, or `clearTimeout(t)` and then `i()` once `i` is set. */
  function CancelPlan(c: Cancel, h: Timers): Timers
  {
    match c
    case ClearInterval(id) => h.(intervals := h.intervals - {id})
    case Delayed(t, i) =>
      var cleared := h.(timeouts := h.timeouts - {t});
      if i.Set? then CancelPlan(i.cancel, cleared) else cleared
  }

  /** `schedulePeriodic(fn, interval, delay)` with the clock at `now`, and, when `fired`, after its delay fired. */
  function Periodic(interval: JsNumber, delay: When, now: real, h: Timers, fired: bool): Armed
    requires fired ==> Truthy(Normalize(delay, now))
  {
    var p := PeriodicPlan(interval, delay, now);
    var a := Arm(p, h);
    if fired then FireDelay(p, a) else a
  }

  /**
   * A periodic schedule has exactly one timer armed at a time: the
   * interval, or the delay's timeout until it fires, then the interval.
   * Its cancel clears that timer and no other, in either phase; a delay
   * cancelled before it fired can no longer fire.
   */
  lemma CancelStopsEitherPhase(interval: JsNumber, delay: When, now: real, h: Timers, fired: bool)
    requires Issued(h)
    requires fired ==> Truthy(Normalize(delay, now))
    ensures var a := Periodic(interval, delay, now, h, fired);
      && Issued(a.timers)
      && (!Truthy(Normalize(delay, now)) ==>
            a.timers == Timers(h.timeouts, h.intervals + {h.next}, h.next + 1))
      && (Truthy(Normalize(delay, now)) && !fired ==>
            a.timers == Timers(h.timeouts + {h.next}, h.intervals, h.next + 1))
      && (fired ==> a.timers == Timers(h.timeouts, h.intervals + {h.next + 1}, h.next + 2))
      && CancelPlan(a.cancel, a.timers).timeouts == h.timeouts
      && CancelPlan(a.cancel, a.timers).intervals == h.intervals
      && (a.cancel.Delayed? ==> a.cancel.timeout !in CancelPlan(a.cancel, a.timers).timeouts)
  {
  }
}
