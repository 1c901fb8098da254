/** pkg/llmobs/async.go: a bounded queue between any number of producers and one exporting worker,
    with a shutdown that drains. Every step is one atomic action of one goroutine; runs interleave
    them in any order. */
module AsyncSink {
  import opened GoText

  /** `accepted`, `exported` and `observed` record history; `closedAt` is how many events had been
      accepted when `done` was closed. */
  datatype State<E> = State(
    capacity: nat,
    queue: seq<E>,
    dropped: nat,
    done: bool,
    worker: Worker<E>,
    accepted: seq<E>,
    exported: seq<E>,
    observed: nat,
    closedAt: nat,
    exitedAt: nat)

  /** The worker is at its main select, exporting an event, in the drain loop, or has returned. */
  datatype Worker<E> = Idle | Exporting(event: E, draining: bool) | Draining | Exited

  datatype Action<E> =
    | Observe(event: E)   // a producer
    | Receive             // the worker takes an event off the queue
    | SeeDone             // the worker's main select takes the `done` case
    | FinishExport        // the underlying sink returned
    | FindEmpty           // the drain loop finds nothing and the worker returns
    | CloseDone           // a caller of Close closes `done` once

  function Start<E>(capacity: nat): State<E> {
    State(capacity, [], 0, false, Idle, [], [], 0, 0, 0)
  }

  /** Can the action happen here? Observe and Close always can: they never block before `wg.Wait`. */
  predicate Enabled<E>(s: State<E>, a: Action<E>) {
    match a
    case Observe(_) => true
    case Receive => s.queue != [] && (s.worker.Idle? || s.worker.Draining?)
    case SeeDone => s.done && s.worker.Idle?
    case FinishExport => s.worker.Exporting?
    case FindEmpty => s.worker.Draining? && s.queue == []
    case CloseDone => true
  }

  function OnObserve<E>(s: State<E>, e: E): State<E> {
    if |s.queue| < s.capacity
    then s.(queue := s.queue + [e], accepted := s.accepted + [e], observed := s.observed + 1)
    else s.(dropped := s.dropped + 1, observed := s.observed + 1)
  }

  function Step<E>(s: State<E>, a: Action<E>): State<E>
    requires Enabled(s, a)
  {
    match a
    case Observe(e) => OnObserve(s, e)
    case Receive => s.(queue := s.queue[1..], worker := Exporting(s.queue[0], s.worker.Draining?))
    case SeeDone => s.(worker := Draining)
    case FinishExport =>
      s.(exported := s.exported + [s.worker.event], worker := if s.worker.draining then Draining else Idle)
    case FindEmpty => s.(worker := Exited, exitedAt := |s.accepted|)
    case CloseDone => if s.done then s else s.(done := true, closedAt := |s.accepted|)
  }

  /** `Close` returns once the worker has returned. */
  predicate CloseReturns<E>(s: State<E>) {
    s.done && s.worker.Exited?
  }

  // ---------------------------------------------------------------- the invariant

  function InFlight<E>(s: State<E>): seq<E> {
    if s.worker.Exporting? then [s.worker.event] else []
  }

  /** Accepted events are the exported ones, then the one being exported, then the queue, in order. */
  ghost predicate Conserved<E>(s: State<E>) {
    s.accepted == s.exported + InFlight(s) + s.queue
  }

  ghost predicate Inv<E>(s: State<E>) {
    && Conserved(s)
    && |s.queue| <= s.capacity
    && s.observed == |s.accepted| + s.dropped
    && (s.done ==> s.closedAt <= |s.accepted|)
    && (s.worker.Draining? || s.worker.Exited? || (s.worker.Exporting? && s.worker.draining) ==> s.done)
    && (s.worker.Exited? ==> s.closedAt <= s.exitedAt == |s.exported|)
  }

  lemma StepInv<E>(s: State<E>, a: Action<E>)
    requires Inv(s) && Enabled(s, a)
    ensures Inv(Step(s, a))
    ensures s.exported <= Step(s, a).exported && s.accepted <= Step(s, a).accepted && s.dropped <= Step(s, a).dropped
  {
    match a
    case Observe(e) => assert s.exported + InFlight(s) + (s.queue + [e]) == s.exported + InFlight(s) + s.queue + [e];
    case Receive => assert s.exported + ([s.queue[0]] + s.queue[1..]) == s.exported + [] + s.queue;
    case SeeDone =>
    case FinishExport => assert s.exported + [s.worker.event] + [] + s.queue == s.exported + [s.worker.event] + s.queue;
    case FindEmpty =>
    case CloseDone =>
  }

  // ---------------------------------------------------------------- every interleaving

  ghost predicate Schedule<E>(s: State<E>, run: seq<Action<E>>)
    decreases run
  {
    run == [] || (Enabled(s, run[0]) && Schedule(Step(s, run[0]), run[1..]))
  }

  function After<E>(s: State<E>, run: seq<Action<E>>): State<E>
    requires Schedule(s, run)
    decreases run
  {
    if run == [] then s else After(Step(s, run[0]), run[1..])
  }

  /** In every interleaving: FIFO conservation, every Observe accepted or counted as dropped, and the
      queue within its capacity. */
  lemma {:induction false} RunInv<E>(s: State<E>, run: seq<Action<E>>)
    requires Inv(s) && Schedule(s, run)
    ensures Inv(After(s, run)) && After(s, run).capacity == s.capacity
    decreases run
  {
    if run != [] {
      StepInv(s, run[0]);
      RunInv(Step(s, run[0]), run[1..]);
    }
  }

  /** When Close returns, what was exported is exactly what had been accepted when the worker left, each
      event once and in order, and that includes everything accepted before `done` was closed. */
  lemma CloseDrains<E>(capacity: nat, run: seq<Action<E>>)
    requires Schedule(Start(capacity), run) && CloseReturns(After(Start(capacity), run))
    ensures var s := After(Start(capacity), run);
      && s.closedAt <= s.exitedAt <= |s.accepted|
      && s.exported == s.accepted[..s.exitedAt]
      && s.accepted[..s.closedAt] <= s.exported
      && s.accepted[s.exitedAt..] == s.queue
  {
    RunInv(Start(capacity), run);
  }

  /** Once the worker has left nothing more is exported. */
  lemma {:induction false} ExitIsFinal<E>(s: State<E>, run: seq<Action<E>>)
    requires Inv(s) && s.worker.Exited? && Schedule(s, run)
    ensures var t := After(s, run);
      && t.exported == s.exported && t.exitedAt == s.exitedAt && t.worker.Exited?
      && s.accepted <= t.accepted
      && s.exitedAt <= |t.accepted| && t.exported == t.accepted[..s.exitedAt]
    decreases run
  {
    if run != [] {
      StepInv(s, run[0]);
      ExitIsFinal(Step(s, run[0]), run[1..]);
    }
  }

  /** Close is described as refusing new work, but Observe takes no notice of `done`: an event observed
      after Close has returned is accepted, not counted as dropped, and never exported. */
  lemma AcceptedAfterClose<E>(s: State<E>, e: E, run: seq<Action<E>>)
    requires Inv(s) && CloseReturns(s) && |s.queue| < s.capacity
    requires Schedule(Step(s, Observe(e)), run)
    ensures var t := After(Step(s, Observe(e)), run);
      && |s.accepted| < |t.accepted| && t.accepted[|s.accepted|] == e
      && Step(s, Observe(e)).dropped == s.dropped
      && |t.exported| <= |s.accepted|
  {
    StepInv(s, Observe(e));
    ExitIsFinal(Step(s, Observe(e)), run);
    assert Step(s, Observe(e)).accepted[|s.accepted|] == e;
  }

  // ---------------------------------------------------------------- draining ends

  /** What is left for the worker to do. */
  function Work<E>(s: State<E>): nat {
    3 * |s.queue| +
    match s.worker
    case Idle => 2
    case Exporting(_, draining) => if draining then 2 else 3
    case Draining => 1
    case Exited => 0
  }

  predicate WorkerAction<E>(a: Action<E>) {
    !a.Observe? && !a.CloseDone?
  }

  /** After `done` is closed the worker always has a step until it leaves, and each of its steps reduces
      the work that is left: Close waits for at most that many worker steps if producers are quiet. */
  lemma DrainProgress<E>(s: State<E>)
    requires Inv(s) && s.done && !s.worker.Exited?
    ensures exists a: Action<E> :: WorkerAction(a) && Enabled(s, a)
    ensures forall a: Action<E> :: WorkerAction(a) && Enabled(s, a) ==> Work(Step(s, a)) < Work(s)
  {
    var a: Action<E> := match s.worker
      case Idle => SeeDone
      case Exporting(_, _) => FinishExport
      case Draining => if s.queue == [] then FindEmpty else Receive
      case Exited => FindEmpty;
    assert WorkerAction(a) && Enabled(s, a);
  }

  function WorkerMove<E>(s: State<E>): Action<E> {
    match s.worker
    case Idle => SeeDone
    case Exporting(_, _) => FinishExport
    case Draining => if s.queue == [] then FindEmpty else Receive
    case Exited => FindEmpty
  }

  /** Left alone after `done`, the worker exports everything accepted and leaves. */
  lemma {:induction false} Drain<E>(s: State<E>) returns (run: seq<Action<E>>)
    requires Inv(s) && s.done && (s.worker.Exited? ==> s.queue == [])
    ensures Schedule(s, run) && After(s, run).worker.Exited?
    ensures After(s, run).exported == s.accepted && After(s, run).accepted == s.accepted
    decreases Work(s)
  {
    if s.worker.Exited? {
      run := [];
    } else {
      DrainProgress(s);
      var a := WorkerMove(s);
      StepInv(s, a);
      assert Step(s, a).worker.Exited? ==> Step(s, a).queue == [];
      var rest := Drain(Step(s, a));
      run := [a] + rest;
      assert run[1..] == rest;
    }
  }

  // ---------------------------------------------------------------- events with room are taken and exported

  /** In every state an observed event is counted as dropped if and only if the queue is full; otherwise it
      is accepted, at the end of the queue. The worker, `done` and what was exported do not move. */
  lemma ObserveIff<E>(s: State<E>, e: E)
    ensures var t := Step(s, Observe(e));
      && (t.dropped == s.dropped + 1 <==> |s.queue| >= s.capacity)
      && (|s.queue| >= s.capacity ==> t.queue == s.queue && t.accepted == s.accepted)
      && (|s.queue| < s.capacity ==> t.dropped == s.dropped && t.queue == s.queue + [e] && t.accepted == s.accepted + [e])
      && t.worker == s.worker && t.done == s.done && t.exported == s.exported && t.observed == s.observed + 1
  {
  }

  /** `done` is closed after the first n events were accepted, if it is. */
  ghost predicate ClosedAfter<E>(s: State<E>, n: nat) {
    n <= |s.accepted| && (s.done ==> n <= s.closedAt)
  }

  lemma {:induction false} RunClosesAfter<E>(s: State<E>, run: seq<Action<E>>, n: nat)
    requires Inv(s) && Schedule(s, run) && ClosedAfter(s, n)
    ensures ClosedAfter(After(s, run), n) && s.accepted <= After(s, run).accepted
    decreases run
  {
    if run != [] {
      StepInv(s, run[0]);
      assert ClosedAfter(Step(s, run[0]), n);
      RunClosesAfter(Step(s, run[0]), run[1..], n);
    }
  }

  /** An event observed with room before `done` is exported, in its place, on every run on which Close
      returns. */
  lemma ObservedIsExported<E>(s: State<E>, e: E, run: seq<Action<E>>)
    requires Inv(s) && !s.done && |s.queue| < s.capacity
    requires Schedule(Step(s, Observe(e)), run) && CloseReturns(After(Step(s, Observe(e)), run))
    ensures var end := After(Step(s, Observe(e)), run);
      |s.accepted| < |end.exported| && end.exported[|s.accepted|] == e
  {
    var t := Step(s, Observe(e));
    var end := After(t, run);
    ObserveIff(s, e);
    StepInv(s, Observe(e));
    RunClosesAfter(t, run, |t.accepted|);
    RunInv(t, run);
    hide Step, Schedule, After;
    assert t.accepted[|s.accepted|] == e;
    assert end.exported <= end.accepted;
  }

  /** Before `done`, too, a worker with something to export has a move, and each lessens the work. */
  lemma WorkProgress<E>(s: State<E>)
    requires Inv(s) && (s.worker.Exporting? || (s.worker.Idle? && s.queue != []))
    ensures exists a: Action<E> :: WorkerAction(a) && Enabled(s, a)
    ensures forall a: Action<E> :: WorkerAction(a) && Enabled(s, a) ==> Work(Step(s, a)) < Work(s)
  {
    var a: Action<E> := if s.worker.Exporting? then FinishExport else Receive;
    assert WorkerAction(a) && Enabled(s, a);
  }

  /** Left alone before `done`, the worker exports everything accepted and waits for more. */
  lemma {:induction false} CatchUp<E>(s: State<E>) returns (run: seq<Action<E>>)
    requires Inv(s) && !s.done
    ensures Schedule(s, run) && After(s, run).worker.Idle? && After(s, run).queue == []
    ensures After(s, run).exported == s.accepted == After(s, run).accepted
    decreases Work(s)
  {
    if s.worker.Idle? && s.queue == [] {
      run := [];
    } else {
      var a: Action<E> := if s.worker.Exporting? then FinishExport else Receive;
      WorkProgress(s);
      StepInv(s, a);
      var rest := CatchUp(Step(s, a));
      run := [a] + rest;
      assert run[1..] == rest;
    }
  }

  /** Closing `done` takes effect the first time, remembers how much had been accepted, and is nothing after
      that; it never moves the queue, the worker or the counts. */
  lemma CloseTakesEffect<E>(s: State<E>)
    ensures var t := Step(s, CloseDone);
      && t.done && (s.done ==> t == s) && (!s.done ==> t.closedAt == |s.accepted|)
      && t.queue == s.queue && t.worker == s.worker && t.accepted == s.accepted && t.exported == s.exported
      && t.dropped == s.dropped && t.capacity == s.capacity
  {
  }

  /** From any state before that, Close returns once the worker has done its work, with everything accepted
      exported. */
  lemma CloseCanReturn<E>(s: State<E>) returns (run: seq<Action<E>>)
    requires Inv(s) && (s.worker.Exited? ==> s.queue == [])
    ensures Schedule(s, [CloseDone] + run) && CloseReturns(After(s, [CloseDone] + run))
    ensures After(s, [CloseDone] + run).exported == s.accepted
  {
    CloseTakesEffect(s);
    StepInv(s, CloseDone);
    run := Drain(Step(s, CloseDone));
    StaysDone(Step(s, CloseDone), run);
    assert ([CloseDone] + run)[1..] == run;
  }

  lemma {:induction false} StaysDone<E>(s: State<E>, run: seq<Action<E>>)
    requires s.done && Schedule(s, run)
    ensures After(s, run).done
    decreases run
  {
    if run != [] {
      StaysDone(Step(s, run[0]), run[1..]);
    }
  }

  // ---------------------------------------------------------------- events lost after Close

  /** The event observed here is accepted, and no continuation exports it: its place among the accepted
      events is never reached. */
  ghost predicate LosesEvent<E(!new)>(s: State<E>, e: E) {
    var t := Step(s, Observe(e));
    && t.dropped == s.dropped
    && forall run :: Schedule(t, run) ==> |After(t, run).exported| <= |s.accepted|
  }

  /** Close is described as refusing new work, but Observe takes no notice of `done`. Once `done` is
      closed, an event is lost without being counted as dropped if and only if there is room in the
      queue and the worker has left. */
  lemma LostIff<E(!new)>(s: State<E>, e: E)
    requires Inv(s) && s.done
    ensures LosesEvent(s, e) <==> |s.queue| < s.capacity && s.worker.Exited?
  {
    var t := Step(s, Observe(e));
    StepInv(s, Observe(e));
    if |s.queue| < s.capacity && s.worker.Exited? {
      forall run | Schedule(t, run)
        ensures |After(t, run).exported| <= |s.accepted|
      {
        ExitIsFinal(t, run);
      }
    } else if |s.queue| < s.capacity {
      var run := Drain(t);
      assert |After(t, run).exported| == |s.accepted| + 1;
    }
  }

  /** For a caller: after Close has returned every accepted event is lost, and before that every accepted
      one is still exported by the worker left alone. */
  lemma ExportedUnlessLeft<E(!new)>(s: State<E>, e: E)
    requires Inv(s) && s.done && |s.queue| < s.capacity
    ensures CloseReturns(s) <==> LosesEvent(s, e)
    ensures !CloseReturns(s) ==> exists run ::
      Schedule(Step(s, Observe(e)), run) && After(Step(s, Observe(e)), run).exported == s.accepted + [e]
  {
    LostIff(s, e);
    StepInv(s, Observe(e));
    if !s.worker.Exited? {
      var run := Drain(Step(s, Observe(e)));
    }
  }

  // ---------------------------------------------------------------- the object

  class Sink<E> {
    const capacity: nat
    var queue: seq<E>
    var dropped: nat
    var done: bool
    var worker: Worker<E>
    ghost var accepted: seq<E>
    ghost var exported: seq<E>
    ghost var observed: nat
    ghost var closedAt: nat
    ghost var exitedAt: nat

    ghost function Now(): State<E>
      reads this
    {
      State(capacity, queue, dropped, done, worker, accepted, exported, observed, closedAt, exitedAt)
    }

    ghost predicate Valid()
      reads this
    {
      Inv(Now())
    }

    /** `NewAsyncSink`: sizes of zero or less mean 1024. */
    constructor (queueSize: int)
      ensures Valid() && Now() == Start(if queueSize <= 0 then 1024 else queueSize)
    {
      capacity := if queueSize <= 0 then 1024 else queueSize;
      queue, dropped, done, worker := [], 0, false, Idle;
      accepted, exported, observed, closedAt, exitedAt := [], [], 0, 0, 0;
    }

    /** The non-blocking send; `full` is what fills in the disabled reason. */
    method Observe(event: E) returns (full: bool)
      requires Valid()
      modifies this
      ensures Valid() && Now() == Step(old(Now()), Action.Observe(event))
      ensures full <==> |old(queue)| >= capacity
      ensures dropped == old(dropped) + (if full then 1 else 0)
      ensures queue == old(queue) + (if full then [] else [event])
    {
      StepInv(Now(), Action.Observe(event));
      observed := observed + 1;
      if |queue| < capacity {
        queue := queue + [event];
        accepted := accepted + [event];
        full := false;
      } else {
        dropped := dropped + 1;
        full := true;
      }
    }

    /** The part of Close that does not wait; safe to repeat. */
    method CloseDone()
      requires Valid()
      modifies this
      ensures Valid() && Now() == Step(old(Now()), Action.CloseDone)
    {
      StepInv(Now(), Action.CloseDone);
      if !done {
        done := true;
        closedAt := |accepted|;
      }
    }

    /** One turn of the worker goroutine: finish an export, take an event, notice `done`, or leave.
        When the main select has both an event and `done` ready, either may be taken. */
    method WorkerTurn(preferDone: bool) returns (a: Option<Action<E>>)
      requires Valid()
      modifies this
      ensures Valid()
      ensures a.Some? ==> WorkerAction(a.value) && Enabled(old(Now()), a.value) && Now() == Step(old(Now()), a.value)
      ensures a.None? ==> Now() == old(Now()) && forall b: Action<E> :: WorkerAction(b) ==> !Enabled(Now(), b)
    {
      if worker.Exporting? {
        StepInv(Now(), FinishExport);
        exported := exported + [worker.event];
        worker := if worker.draining then Draining else Idle;
        return Some(FinishExport);
      }
      if worker.Idle? && done && (preferDone || queue == []) {
        StepInv(Now(), SeeDone);
        worker := Draining;
        return Some(SeeDone);
      }
      if (worker.Idle? || worker.Draining?) && queue != [] {
        StepInv(Now(), Receive);
        worker := Exporting(queue[0], worker.Draining?);
        queue := queue[1..];
        return Some(Receive);
      }
      if worker.Draining? {
        StepInv(Now(), FindEmpty);
        worker, exitedAt := Exited, |accepted|;
        return Some(FindEmpty);
      }
      a := None;
    }
  }
}
