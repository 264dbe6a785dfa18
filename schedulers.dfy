/**
 * The synchronous schedulers of index.js: `Scheduler.immediate` and the
 * trampoline `Scheduler.currentThread`.
 *
 * A task is modelled by what it does when it runs: it records its id in
 * the scheduler's run log, calls `schedule` on the same scheduler with each
 * of its spawned tasks, in order, and then either returns or throws. It
 * does not catch anything, so an exception out of one of its own `schedule`
 * calls aborts it too. This is enough to observe the order in which tasks
 * run, whether a `schedule` call nests a drain, and what an exception
 * leaves behind.
 */
module Schedulers {
  import opened JsArrays

  datatype Task = Task(id: nat, spawns: seq<Task>, throws: bool)

  /** Regrouping a run log: kept apart so that it is proved on plain sequences. */
  lemma ConcatAssoc(a: seq<nat>, b: seq<nat>, c: seq<nat>)
    ensures (a + b) + c == a + (b + c)
  {
  }

  /** Number of tasks in a task and everything it (transitively) schedules. */
  function Size(t: Task): nat
    decreases t, 1
  {
    1 + SizeAll(t.spawns)
  }

  function SizeAll(ts: seq<Task>): nat
    decreases ts, 0
  {
    if ts == [] then 0 else Size(ts[0]) + SizeAll(ts[1..])
  }

  lemma {:induction false} SizeAllAppend(a: seq<Task>, b: seq<Task>)
    ensures SizeAll(a + b) == SizeAll(a) + SizeAll(b)
  {
    if a == [] {
      assert a + b == b;
    } else {
      assert (a + b)[0] == a[0] && (a + b)[1..] == a[1..] + b;
      SizeAllAppend(a[1..], b);
    }
  }

  /** Running the front task shrinks the work left in the queue. */
  lemma DrainStepShrinks(qs: seq<Task>)
    requires qs != []
    ensures SizeAll(qs[1..] + qs[0].spawns) < SizeAll(qs)
  {
    SizeAllAppend(qs[1..], qs[0].spawns);
    assert SizeAll(qs) == Size(qs[0]) + SizeAll(qs[1..]);
    assert Size(qs[0]) == 1 + SizeAll(qs[0].spawns);
  }

  /** Every task of a task tree, as a multiset of ids, whether or not it would run. */
  function Every(t: Task): multiset<nat>
    decreases t, 1
  {
    multiset{t.id} + EveryAll(t.spawns)
  }

  function EveryAll(ts: seq<Task>): multiset<nat>
    decreases ts, 0
  {
    if ts == [] then multiset{} else Every(ts[0]) + EveryAll(ts[1..])
  }

  lemma {:induction false} EveryAllAppend(a: seq<Task>, b: seq<Task>)
    ensures EveryAll(a + b) == EveryAll(a) + EveryAll(b)
  {
    if a == [] {
      assert a + b == b;
    } else {
      assert (a + b)[0] == a[0] && (a + b)[1..] == a[1..] + b;
      EveryAllAppend(a[1..], b);
    }
  }

  // ---------------------------------------------------------------------
  // The trampoline: `while(q.length>0) q.shift()();`

  /**
   * Run order of the trampoline: take the front task, run it (its spawns go
   * to the back of the queue), and repeat until the queue is empty or a
   * task throws, which ends the loop.
   */
  function Drain(qs: seq<Task>): seq<nat>
    decreases SizeAll(qs)
  {
    if qs == [] then []
    else
      DrainStepShrinks(qs);
      [qs[0].id] + if qs[0].throws then [] else Drain(qs[1..] + qs[0].spawns)
  }

  /** Whether the drain ends by an exception. */
  predicate Stalls(qs: seq<Task>)
    decreases SizeAll(qs)
  {
    qs != [] && (qs[0].throws || (DrainStepShrinks(qs); Stalls(qs[1..] + qs[0].spawns)))
  }

  /** What is left in the queue when the drain ends: empty, unless a task threw. */
  function Left(qs: seq<Task>): seq<Task>
    decreases SizeAll(qs)
  {
    if qs == [] then []
    else if qs[0].throws then qs[1..] + qs[0].spawns
    else DrainStepShrinks(qs); Left(qs[1..] + qs[0].spawns)
  }

  /** The front task runs first, and its schedules queue up behind the rest. */
  lemma DrainFront(t: Task, tail: seq<Task>)
    requires !t.throws
    ensures Drain([t] + tail) == [t.id] + Drain(tail + t.spawns)
  {
    DrainUnfold([t] + tail);
    assert ([t] + tail)[1..] == tail;
  }

  /** One turn of the drain loop, read off the three definitions. */
  lemma DrainUnfold(qs: seq<Task>)
    requires qs != []
    ensures var rest := qs[1..] + qs[0].spawns;
      if qs[0].throws then Drain(qs) == [qs[0].id] && Stalls(qs) && Left(qs) == rest
      else Drain(qs) == [qs[0].id] + Drain(rest) && Stalls(qs) == Stalls(rest) && Left(qs) == Left(rest)
  {
    DrainStepShrinks(qs);
  }

  /**
   * One turn of the drain loop, for its invariant: if `prefix` is what runs
   * from the queue `qs` after `before`, it is what runs from the rest after
   * the front task, or it ends with the front task when that one throws.
   */
  lemma DrainTurn(prefix: seq<nat>, before: seq<nat>, qs: seq<Task>)
    requires qs != [] && prefix == before + Drain(qs)
    ensures var rest := qs[1..] + qs[0].spawns;
      && SizeAll(rest) < SizeAll(qs)
      && (qs[0].throws ==> prefix == before + [qs[0].id] && Stalls(qs) && Left(qs) == rest)
      && (!qs[0].throws ==>
            prefix == (before + [qs[0].id]) + Drain(rest) && Stalls(qs) == Stalls(rest) && Left(qs) == Left(rest))
  {
    DrainUnfold(qs);
    DrainStepShrinks(qs);
    var rest := qs[1..] + qs[0].spawns;
    if !qs[0].throws {
      ConcatAssoc(before, [qs[0].id], Drain(rest));
    }
  }

  // ---------------------------------------------------------------------
  // The immediate scheduler: `fn(); return noop;`

  /** Run order of the immediate scheduler: a task runs, then each spawn runs in full. */
  function PreOrder(t: Task): seq<nat>
    decreases t, 1
  {
    [t.id] + PreOrderAll(t.spawns)
  }

  /** Whether `schedule(t)` on the immediate scheduler throws: some task of the tree does. */
  predicate Throws(t: Task)
    decreases t, 1
  {
    ThrowsAll(t.spawns) || t.throws
  }

  /** The tasks run in turn by one body, up to the first `schedule` call that throws. */
  function PreOrderAll(ts: seq<Task>): seq<nat>
    decreases ts, 0
  {
    if ts == [] then [] else PreOrder(ts[0]) + if Throws(ts[0]) then [] else PreOrderAll(ts[1..])
  }

  predicate ThrowsAll(ts: seq<Task>)
    decreases ts, 0
  {
    ts != [] && (Throws(ts[0]) || ThrowsAll(ts[1..]))
  }

  /** Scheduling two lists in turn: the second list runs only if the first did not throw. */
  lemma {:induction false} PreOrderAllAppend(a: seq<Task>, b: seq<Task>)
    ensures PreOrderAll(a + b) == PreOrderAll(a) + if ThrowsAll(a) then [] else PreOrderAll(b)
    ensures ThrowsAll(a + b) == (ThrowsAll(a) || ThrowsAll(b))
  {
    if a == [] {
      assert a + b == b;
    } else {
      assert (a + b)[0] == a[0] && (a + b)[1..] == a[1..] + b;
      PreOrderAllAppend(a[1..], b);
    }
  }

  /** Scheduling a single task from a body. */
  lemma PreOrderAllOne(t: Task)
    ensures PreOrderAll([t]) == PreOrder(t) && ThrowsAll([t]) == Throws(t)
  {
    assert [t][1..] == [];
  }

  lemma PreOrderAllSnoc(ts: seq<Task>, i: nat)
    requires i < |ts| && !ThrowsAll(ts[..i])
    ensures PreOrderAll(ts[..i + 1]) == PreOrderAll(ts[..i]) + PreOrder(ts[i])
    ensures ThrowsAll(ts[..i + 1]) == Throws(ts[i])
  {
    PreOrderAllOne(ts[i]);
    assert ts[..i + 1] == ts[..i] + [ts[i]];
    PreOrderAllAppend(ts[..i], [ts[i]]);
  }

  /**
   * One more `schedule` call in a body none of whose earlier calls threw:
   * what has run so far grows by the called task's run.
   */
  lemma BodyTurn(base: seq<nat>, before: seq<nat>, ts: seq<Task>, i: nat)
    requires i < |ts| && !ThrowsAll(ts[..i]) && before == base + PreOrderAll(ts[..i])
    ensures before + PreOrder(ts[i]) == base + PreOrderAll(ts[..i + 1])
    ensures ThrowsAll(ts[..i + 1]) == Throws(ts[i])
  {
    PreOrderAllSnoc(ts, i);
    ConcatAssoc(base, PreOrderAll(ts[..i]), PreOrder(ts[i]));
  }

  /** A body stops at its first throwing `schedule` call, or at its end; either way it is done. */
  lemma BodyDone(prefix: seq<nat>, start: seq<nat>, t: Task, i: nat)
    requires i <= |t.spawns| && (i == |t.spawns| || ThrowsAll(t.spawns[..i]))
    requires prefix == start + [t.id] + PreOrderAll(t.spawns[..i])
    ensures prefix == start + PreOrder(t)
    ensures ThrowsAll(t.spawns) == ThrowsAll(t.spawns[..i])
  {
    PreOrderAllAppend(t.spawns[..i], t.spawns[i..]);
    assert t.spawns[..i] + t.spawns[i..] == t.spawns;
    ConcatAssoc(start, [t.id], PreOrderAll(t.spawns));
  }

  /** Without an exception, the immediate scheduler runs every task of the tree exactly once. */
  lemma {:induction false} PreOrderIsEvery(t: Task)
    requires !Throws(t)
    ensures multiset(PreOrder(t)) == Every(t)
    decreases t, 1
  {
    PreOrderAllIsEvery(t.spawns);
  }

  lemma {:induction false} PreOrderAllIsEvery(ts: seq<Task>)
    requires !ThrowsAll(ts)
    ensures multiset(PreOrderAll(ts)) == EveryAll(ts)
    decreases ts, 0
  {
    if ts != [] {
      PreOrderIsEvery(ts[0]);
      PreOrderAllIsEvery(ts[1..]);
    }
  }

  // ---------------------------------------------------------------------
  // Properties of the trampoline.

  /**
   * Submission order: the first `m` tasks already in the queue run first,
   * in queue order, before anything they schedule, as long as none of the
   * first `m - 1` of them throws.
   */
  lemma {:induction false} DrainStartsWithQueue(qs: seq<Task>, m: nat)
    requires m <= |qs|
    requires forall i :: 0 <= i < m - 1 ==> !qs[i].throws
    ensures m <= |Drain(qs)|
    ensures forall k :: 0 <= k < m ==> Drain(qs)[k] == qs[k].id
    decreases m
  {
    if m > 0 {
      DrainUnfold(qs);
      if m > 1 {
        var rest := qs[1..] + qs[0].spawns;
        assert !qs[0].throws;
        forall i | 0 <= i < m - 2
          ensures !rest[i].throws
        {
          assert rest[i] == qs[i + 1];
        }
        DrainStartsWithQueue(rest, m - 1);
        ghost var d, r := Drain(qs), Drain(rest);
        assert d == [qs[0].id] + r;
        forall k | 0 <= k < m
          ensures d[k] == qs[k].id
        {
          if k > 0 {
            assert d[k] == r[k - 1] && rest[k - 1] == qs[k];
          }
        }
      }
    }
  }

  /** No task of the queue itself throws (what it schedules may). */
  predicate NoneThrows(qs: seq<Task>)
  {
    forall i :: 0 <= i < |qs| ==> !qs[i].throws
  }

  /** A task scheduled behind a queue none of whose tasks throws runs right after that queue's tasks. */
  lemma DrainAppendedRunsLater(qs: seq<Task>, t: Task)
    requires NoneThrows(qs)
    ensures |qs| < |Drain(qs + [t])|
    ensures forall k :: 0 <= k < |qs| ==> Drain(qs + [t])[k] == qs[k].id
    ensures Drain(qs + [t])[|qs|] == t.id
  {
    var all := qs + [t];
    assert forall i :: 0 <= i < |qs| ==> all[i] == qs[i];
    DrainStartsWithQueue(all, |qs| + 1);
  }

  /**
   * Nothing is lost and nothing runs twice: every task of the queued trees,
   * including the ones scheduled reentrantly, has either run exactly once
   * or is still in the queue left behind by an exception.
   */
  lemma {:induction false} DrainRunsEachTaskOnce(qs: seq<Task>)
    ensures multiset(Drain(qs)) + EveryAll(Left(qs)) == EveryAll(qs)
    ensures !Stalls(qs) ==> Left(qs) == []
    decreases SizeAll(qs)
  {
    if qs != [] {
      var t, tail := qs[0], qs[1..];
      var rest := tail + t.spawns;
      DrainStepShrinks(qs);
      EveryAllAppend(tail, t.spawns);
      assert EveryAll(qs) == multiset{t.id} + EveryAll(t.spawns) + EveryAll(tail);
      if t.throws {
        assert Drain(qs) == [t.id] && Left(qs) == rest;
      } else {
        DrainRunsEachTaskOnce(rest);
        assert Drain(qs) == [t.id] + Drain(rest);
        assert Left(qs) == Left(rest);
        calc {
          multiset(Drain(qs)) + EveryAll(Left(qs));
          multiset{t.id} + multiset(Drain(rest)) + EveryAll(Left(rest));
          multiset{t.id} + EveryAll(rest);
        }
      }
    }
  }

  /** The trampoline throws exactly when the immediate scheduler would: when some task throws. */
  lemma {:induction false} DrainStallsIffTreeThrows(qs: seq<Task>)
    ensures Stalls(qs) <==> ThrowsAll(qs)
    decreases SizeAll(qs)
  {
    if qs != [] {
      var rest := qs[1..] + qs[0].spawns;
      DrainStepShrinks(qs);
      DrainStallsIffTreeThrows(rest);
      PreOrderAllAppend(qs[1..], qs[0].spawns);
    }
  }

  /**
   * Without an exception the trampoline runs the same multiset of tasks as
   * the immediate scheduler, only in a different order, and leaves the
   * queue empty.
   */
  lemma DrainMatchesImmediate(qs: seq<Task>)
    requires !ThrowsAll(qs)
    ensures multiset(Drain(qs)) == multiset(PreOrderAll(qs)) && Left(qs) == []
  {
    DrainStallsIffTreeThrows(qs);
    DrainRunsEachTaskOnce(qs);
    PreOrderAllIsEvery(qs);
  }

  /** The drain runs the tasks of the queued trees that are not left behind. */
  lemma {:induction false} DrainLength(qs: seq<Task>)
    ensures |Drain(qs)| + SizeAll(Left(qs)) == SizeAll(qs)
    decreases SizeAll(qs)
  {
    if qs != [] {
      DrainStepShrinks(qs);
      SizeAllAppend(qs[1..], qs[0].spawns);
      if !qs[0].throws {
        DrainLength(qs[1..] + qs[0].spawns);
      }
    }
  }

  /** A chain of tasks, each scheduling the next; none throws. */
  function Chain(n: nat): (t: Task)
    ensures t.id == n && !t.throws
  {
    if n == 0 then Task(0, [], false) else Task(n, [Chain(n - 1)], false)
  }

  function Countdown(n: nat): (r: seq<nat>)
    ensures |r| == n + 1 && r[0] == n
  {
    if n == 0 then [0] else [n] + Countdown(n - 1)
  }

  /**
   * A chain of tasks, each reentrantly scheduling the next, runs in
   * submission order on the trampoline.
   */
  lemma {:induction false} ChainRunsInOrder(n: nat)
    ensures Drain([Chain(n)]) == Countdown(n)
  {
    if n > 0 {
      assert [Chain(n)][1..] + Chain(n).spawns == [Chain(n - 1)];
      ChainRunsInOrder(n - 1);
    } else {
      assert [Chain(0)][1..] + Chain(0).spawns == [];
    }
  }

  /** A small task tree: 0 spawns 1 and 2, and 1 spawns 3; none throws. */
  function SampleTree(): Task
  {
    Task(0, [Task(1, [Task(3, [], false)], false), Task(2, [], false)], false)
  }

  /** On the trampoline the sample runs breadth-first: 0, 1, 2, 3. */
  lemma TrampolineRunsBreadthFirst()
    ensures Drain([SampleTree()]) == [0, 1, 2, 3]
  {
    var t3, t2 := Task(3, [], false), Task(2, [], false);
    var t1 := Task(1, [t3], false);
    var t0 := Task(0, [t1, t2], false);
    var none: seq<Task> := [];
    DrainFront(t0, none);
    DrainFront(t1, [t2]);
    DrainFront(t2, [t3]);
    DrainFront(t3, none);
    assert [t0] + none == [t0] && none + t0.spawns == [t1] + [t2];
    assert [t2] + t1.spawns == [t2] + [t3] && [t3] + t2.spawns == [t3] + none;
    assert none + t3.spawns == none;
    assert SampleTree() == t0;
  }

  /** Immediately the sample runs depth-first: 0, 1, 3, 2; the two orders differ. */
  lemma ImmediateRunsDepthFirst()
    ensures PreOrder(SampleTree()) == [0, 1, 3, 2]
  {
    var t3, t2 := Task(3, [], false), Task(2, [], false);
    var t1 := Task(1, [t3], false);
    assert [t3][1..] == [] && [t1, t2][1..] == [t2] && [t2][1..] == [];
    assert !Throws(t3) && !Throws(t2) && !Throws(t1);
    assert PreOrder(t3) == [3] && PreOrder(t2) == [2];
    assert PreOrder(t1) == [1, 3];
    assert PreOrderAll([t1, t2]) == [1, 3, 2];
  }

  // ---------------------------------------------------------------------
  // The schedulers as objects.

  /** The cancel function a scheduler hands back. */
  datatype Cancel = NoopCancel | Trampoline(queue: TaskQueue)

  /** How a `schedule` call ends: it returns a cancel function, or a task's exception leaves it. */
  datatype Scheduled = Returned(cancel: Cancel) | Raised

  /** `Scheduler.immediate`: runs the task before returning, returns a no-op cancel. */
  class ImmediateScheduler {
    var ran: seq<nat>

    constructor()
      ensures ran == []
    {
      ran := [];
    }

    /** `fn(); return noop;`: an exception from `fn` leaves `schedule` instead. */
    method Schedule(t: Task) returns (r: Scheduled)
      modifies this
      ensures ran == old(ran) + PreOrder(t)
      ensures r == if Throws(t) then Raised else Returned(NoopCancel)
      decreases t, 1
    {
      var threw := RunTask(t);
      r := if threw then Raised else Returned(NoopCancel);
    }

    /** The task body: record the run, schedule each spawn here, and stop at the first exception. */
    method RunTask(t: Task) returns (threw: bool)
      modifies this
      ensures ran == old(ran) + PreOrder(t)
      ensures threw == Throws(t)
      decreases t, 0
    {
      ran := ran + [t.id];
      threw := false;
      var i := 0;
      while i < |t.spawns| && !threw
        invariant 0 <= i <= |t.spawns|
        invariant ran == old(ran) + [t.id] + PreOrderAll(t.spawns[..i])
        invariant threw == ThrowsAll(t.spawns[..i])
      {
        ghost var before := ran;
        var r := Schedule(t.spawns[i]);
        BodyTurn(old(ran) + [t.id], before, t.spawns, i);
        threw := r.Raised?;
        i := i + 1;
      }
      BodyDone(ran, old(ran), t, i);
      threw := threw || t.throws;
    }
  }

  /** The array `q` of the trampoline; the cancel function keeps a reference to it. */
  class TaskQueue {
    var items: seq<Task>

    constructor(t: Task)
      ensures items == [t]
    {
      items := [t];
    }
  }

  /** A JavaScript value as `Array.prototype.indexOf` compares it: the queue holds functions. */
  datatype JsValue = UndefinedValue | Fn(task: Task)

  function AsValues(ts: seq<Task>): (r: seq<JsValue>)
    ensures |r| == |ts|
    ensures forall i :: 0 <= i < |ts| ==> r[i] == Fn(ts[i])
  {
    if ts == [] then [] else [Fn(ts[0])] + AsValues(ts[1..])
  }

  /**
   * `q.indexOf()` searches for `undefined`, which is never a queued task:
   * the trampoline's cancel never finds anything to remove.
   */
  lemma AQueuedTaskIsNeverUndefined(ts: seq<Task>)
    ensures IndexOf(AsValues(ts), UndefinedValue) == -1
  {
  }

  /** `Scheduler.currentThread`: one FIFO queue, drained by the outermost `schedule`. */
  class CurrentThreadScheduler {
    var q: TaskQueue?
    var ran: seq<nat>

    constructor()
      ensures q == null && ran == []
    {
      q := null;
      ran := [];
    }

    /**
     * With a queue in place (a drain in progress, or one an exception
     * abandoned), only appends. Otherwise drains a fresh queue holding `t`,
     * running everything scheduled meanwhile. After a complete drain `q` is
     * reset; a task's exception leaves `schedule` before that, and the
     * queue stays in place with the tasks not yet run.
     */
    method Schedule(t: Task) returns (r: Scheduled)
      modifies this, q
      ensures old(q) != null ==>
        q == old(q) && q.items == old(q.items) + [t] && ran == old(ran) && r == Returned(Trampoline(q))
      ensures old(q) == null ==> ran == old(ran) + Drain([t]) && (r.Raised? <==> Stalls([t]))
      ensures old(q) == null && r.Raised? ==> q != null && fresh(q) && q.items == Left([t])
      ensures old(q) == null && r.Returned? ==>
        q == null && r.cancel.Trampoline? && fresh(r.cancel.queue) && r.cancel.queue.items == []
      decreases if q == null then 2 else 0
    {
      if q != null {
        q.items := q.items + [t];
        r := Returned(Trampoline(q));
      } else {
        var queue := new TaskQueue(t);
        q := queue;
        var stalled := false;
        ghost var all, stalls, left := Drain([t]), Stalls([t]), Left([t]);
        ghost var pending := [t];
        while |queue.items| > 0 && !stalled
          invariant q == queue && queue.items == pending
          invariant stalled ==> old(ran) + all == ran && stalls && pending == left
          invariant !stalled ==> old(ran) + all == ran + Drain(pending)
          invariant !stalled ==> stalls == Stalls(pending) && left == Left(pending)
          decreases SizeAll(pending), if stalled then 0 else 1
        {
          ghost var before := ran;
          var f := queue.items[0];
          queue.items := queue.items[1..];
          stalled := RunTask(f);
          DrainTurn(old(ran) + all, before, pending);
          pending := pending[1..] + f.spawns;
        }
        if stalled {
          r := Raised;
        } else {
          q := null;
          r := Returned(Trampoline(queue));
        }
      }
    }

    /** The task body: record the run, schedule each spawn (reentrantly), then return or throw. */
    method RunTask(f: Task) returns (threw: bool)
      requires q != null
      modifies this, q
      ensures q == old(q) && q.items == old(q.items) + f.spawns
      ensures ran == old(ran) + [f.id]
      ensures threw == f.throws
      decreases 1
    {
      ran := ran + [f.id];
      var i := 0;
      while i < |f.spawns|
        invariant 0 <= i <= |f.spawns|
        invariant q == old(q) && q.items == old(q.items) + f.spawns[..i]
        invariant ran == old(ran) + [f.id]
      {
        var _ := Schedule(f.spawns[i]);
        assert f.spawns[..i + 1] == f.spawns[..i] + [f.spawns[i]];
        i := i + 1;
      }
      assert f.spawns[..i] == f.spawns;
      threw := f.throws;
    }

    /** The returned cancel: `idx = q.indexOf()`, removed only when found. */
    method CancelTask(queue: TaskQueue)
      modifies queue
      ensures queue.items == old(queue.items)
    {
      var idx := IndexOf(AsValues(queue.items), UndefinedValue);
      if idx >= 0 {
        queue.items := RemoveAt(queue.items, idx);
      }
      AQueuedTaskIsNeverUndefined(old(queue.items));
    }
  }

  /**
   * After a task throws on the trampoline, the scheduler is stuck: the
   * abandoned queue stays in place, so a later `schedule` only appends to
   * it and returns, and the later task never runs.
   */
  method StuckAfterThrow(bad: Task, later: Task) returns (ran: seq<nat>, first: Scheduled, second: Scheduled, stuck: bool)
    requires bad.throws
    ensures first == Raised && second.Returned? && stuck
    ensures ran == [bad.id]
  {
    var s := new CurrentThreadScheduler();
    first := s.Schedule(bad);
    assert Drain([bad]) == [bad.id];
    second := s.Schedule(later);
    ran := s.ran;
    stuck := s.q != null;
  }
}
