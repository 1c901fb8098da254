/** pkg/messaging/kafka.go, `KafkaConsumer.Run`: poll, handle the batch in place until it succeeds,
    commit until that succeeds, poll again. One partition; the environment decides what every poll,
    handler call, commit and sleep does, and may crash the process anywhere. */
module KafkaConsumer {
  import opened GoText

  /** Offsets lo <= o < hi. */
  datatype Batch = Batch(lo: nat, hi: nat)

  /** Where the loop is; `Stopped(true)` is a nil return, `Stopped(false)` an error. */
  datatype Phase = Polling | Handling(batch: Batch) | Committing(batch: Batch) | Stopped(clean: bool)

  /** What the environment does at one point of the loop. `stopping` is a context already cancelled when
      the loop comes round, `cancelled` one found cancelled after the call made there. A commit that
      reports success has landed; one that reports an error may have landed all the same. */
  datatype Tick = Tick(
    appended: nat,
    stopping: bool,
    cancelled: bool,
    closed: bool,
    fetchError: bool,
    fetched: nat,
    handlerOk: bool,
    commitOk: bool,
    commitLands: bool,
    commitCanceled: bool,
    slept: bool)

  /** `handled` lists the batches whose handler returned nil, `session` those of this process. */
  datatype State = State(
    log: nat,
    position: nat,
    committed: nat,
    phase: Phase,
    handled: seq<Batch>,
    session: seq<Batch>)

  const START := State(0, 0, 0, Stopped(true), [], [])

  /** A poll hands out what the log holds past the in-memory position, at most as much as was fetched. */
  function Fetched(s: State, t: Tick): nat
    requires s.position <= s.log
  {
    if t.fetched <= s.log - s.position then t.fetched else s.log - s.position
  }

  function OnPoll(s: State, t: Tick): State
    requires s.position <= s.log
  {
    var n := Fetched(s, t);
    if t.stopping then s.(phase := Stopped(true))
    else if t.closed then s.(phase := Stopped(false))
    else if t.cancelled then s.(phase := Stopped(true))
    else if t.fetchError then s.(position := s.position + n, phase := if t.slept then Polling else Stopped(true))
    else if n == 0 then s
    else s.(position := s.position + n, phase := Handling(Batch(s.position, s.position + n)))
  }

  function OnHandle(s: State, t: Tick, b: Batch): State {
    if t.handlerOk then s.(phase := Committing(b), handled := s.handled + [b], session := s.session + [b])
    else if t.cancelled || !t.slept then s.(phase := Stopped(true))
    else s
  }

  function OnCommit(s: State, t: Tick, b: Batch): State {
    var landed := if t.commitOk || t.commitLands then s.(committed := b.hi) else s;
    if t.commitOk then landed.(phase := Polling)
    else if t.commitCanceled || t.cancelled || !t.slept then landed.(phase := Stopped(true))
    else landed
  }

  /** One consultation of the environment. */
  function Step(s: State, t: Tick): State
    requires s.position <= s.log
  {
    var s := if s.phase.Stopped? then s else s.(log := s.log + t.appended);
    match s.phase
    case Polling => OnPoll(s, t)
    case Handling(b) => OnHandle(s, t, b)
    case Committing(b) => OnCommit(s, t, b)
    case Stopped(_) => s
  }

  /** A new process of the group resumes at the committed offset, which is 0 when nothing was committed. */
  function Restart(s: State): State {
    s.(position := s.committed, phase := Polling, session := [])
  }

  // ---------------------------------------------------------------- runs

  datatype Action = Env(tick: Tick) | Boot

  function Act(s: State, action: Action): State
    requires s.position <= s.log
  {
    match action
    case Env(t) => Step(s, t)
    case Boot => Restart(s)
  }

  /** Positions never pass the end of the log. */
  predicate WithinLog(s: State) {
    s.position <= s.log && s.committed <= s.log && (s.phase.Handling? || s.phase.Committing? ==> s.phase.batch.hi <= s.log)
  }

  lemma StepWithinLog(s: State, t: Tick)
    requires WithinLog(s)
    ensures WithinLog(Step(s, t))
  {
  }

  /** The state after a sequence of actions: processes start, run, crash and start again. */
  function After(s: State, actions: seq<Action>): (r: State)
    requires WithinLog(s)
    ensures WithinLog(r)
  {
    if actions == [] then s
    else
      var before := After(s, actions[..|actions| - 1]);
      match actions[|actions| - 1]
      case Env(t) => StepWithinLog(before, t); Step(before, t)
      case Boot => Restart(before)
  }

  lemma AfterSnoc(s: State, actions: seq<Action>, action: Action)
    requires WithinLog(s)
    ensures After(s, actions + [action]) == Act(After(s, actions), action)
  {
    assert (actions + [action])[..|actions|] == actions;
  }

  // ---------------------------------------------------------------- what every step keeps

  predicate Within(b: Batch, o: nat) {
    b.lo <= o < b.hi
  }

  /** Some batch that contains the offset was handled successfully. */
  ghost predicate IsHandled(handled: seq<Batch>, o: nat) {
    exists i :: 0 <= i < |handled| && Within(handled[i], o)
  }

  ghost predicate HandledBelow(handled: seq<Batch>, n: nat) {
    forall o: nat :: o < n ==> IsHandled(handled, o)
  }

  /** The offset below which everything must have been handled for the loop to go on safely. */
  function Floor(s: State): nat {
    match s.phase
    case Polling => s.position
    case Handling(b) => b.lo
    case Committing(b) => b.hi
    case Stopped(_) => s.committed
  }

  ghost predicate Safe(s: State) {
    && WithinLog(s)
    && s.committed <= Floor(s)
    && HandledBelow(s.handled, Floor(s))
    && (s.phase.Handling? ==> s.phase.batch.lo < s.phase.batch.hi == s.position)
    && (s.phase.Committing? ==> s.phase.batch.lo < s.phase.batch.hi == s.position)
  }

  /** A poll that reports an error while it carries records: the loop drops them. */
  predicate ErrorWithRecords(s: State, t: Tick)
    requires s.position <= s.log
  {
    s.phase.Polling? && !t.stopping && !t.cancelled && !t.closed && t.fetchError && t.slept &&
    Fetched(s.(log := s.log + t.appended), t) > 0
  }

  /** The dropped records include one that was never handled. */
  ghost predicate Drops(s: State, t: Tick)
    requires s.position <= s.log
  {
    ErrorWithRecords(s, t) &&
    !HandledBelow(s.handled, s.position + Fetched(s.(log := s.log + t.appended), t))
  }

  lemma HandledMore(handled: seq<Batch>, b: Batch, n: nat)
    requires HandledBelow(handled, n) && b.lo <= n
    ensures HandledBelow(handled + [b], if b.hi > n then b.hi else n)
  {
    var more := handled + [b];
    forall o: nat | o < (if b.hi > n then b.hi else n) ensures IsHandled(more, o) {
      if o < n {
        assert IsHandled(handled, o);
        var i :| 0 <= i < |handled| && Within(handled[i], o);
        assert Within(more[i], o);
      } else {
        assert Within(more[|handled|], o);
      }
    }
  }

  /** Every step that drops no unhandled record keeps the state safe and never lowers the committed offset. */
  lemma StepSafe(s: State, t: Tick)
    requires Safe(s) && !Drops(s, t)
    ensures Safe(Step(s, t)) && s.committed <= Step(s, t).committed
  {
    if s.phase.Handling? && t.handlerOk {
      HandledMore(s.handled, s.phase.batch, s.phase.batch.lo);
    }
  }

  lemma RestartSafe(s: State)
    requires Safe(s)
    ensures Safe(Restart(s))
  {
  }

  /** No action of the run drops an unhandled record. */
  ghost predicate NoDrops(s: State, actions: seq<Action>)
    requires WithinLog(s)
  {
    forall i :: 0 <= i < |actions| && actions[i].Env? ==> !Drops(After(s, actions[..i]), actions[i].tick)
  }

  lemma NoDropsPrefix(s: State, actions: seq<Action>, n: nat)
    requires WithinLog(s) && NoDrops(s, actions) && n <= |actions|
    ensures NoDrops(s, actions[..n])
  {
    forall i | 0 <= i < n && actions[..n][i].Env? ensures !Drops(After(s, actions[..n][..i]), actions[..n][i].tick) {
      assert actions[..n][..i] == actions[..i];
    }
  }

  /** On every run with crashes, restarts, handler failures and commits that land without saying so:
      each offset below the committed one was in a batch whose handler returned nil, and the committed
      offset never goes down. */
  lemma {:induction false} RunSafe(s: State, actions: seq<Action>)
    requires Safe(s) && NoDrops(s, actions)
    ensures Safe(After(s, actions))
    ensures forall n :: 0 <= n <= |actions| ==> After(s, actions[..n]).committed <= After(s, actions).committed
    decreases |actions|
  {
    hide Step, HandledBelow;
    if actions == [] {
      assert actions[..0] == [];
    } else {
      var m := |actions| - 1;
      var before := After(s, actions[..m]);
      NoDropsPrefix(s, actions, m);
      RunSafe(s, actions[..m]);
      if actions[m].Env? { StepSafe(before, actions[m].tick); } else { RestartSafe(before); }
      forall n | 0 <= n <= |actions| ensures After(s, actions[..n]).committed <= After(s, actions).committed {
        if n <= m { assert actions[..m][..n] == actions[..n]; } else { assert actions[..n] == actions; }
      }
    }
  }

  // ---------------------------------------------------------------- polls that fail carry nothing

  /** No error poll of the run carries records. */
  ghost predicate CleanErrors(s: State, actions: seq<Action>)
    requires WithinLog(s)
  {
    forall i :: 0 <= i < |actions| && actions[i].Env? ==> !ErrorWithRecords(After(s, actions[..i]), actions[i].tick)
  }

  /** Each batch of the session starts where the previous one ended. */
  ghost predicate Contiguous(session: seq<Batch>) {
    forall i :: 0 <= i < |session| - 1 ==> session[i].hi == session[i + 1].lo
  }

  /** The batches of this process are committed up to the last one; while polling or handling, all are. */
  ghost predicate SessionCommitted(s: State) {
    && (forall i :: 0 <= i < |s.session| - 1 ==> s.session[i].hi <= s.committed)
    && (s.phase.Polling? || s.phase.Handling? ==> (s.session != [] ==> s.session[|s.session| - 1].hi == s.committed))
    && (s.phase.Committing? ==> s.session != [] && s.session[|s.session| - 1] == s.phase.batch)
  }

  /** The position is the committed offset whenever the loop polls. */
  ghost predicate Tight(s: State) {
    && Safe(s)
    && (s.phase.Polling? ==> s.position == s.committed)
    && (s.phase.Handling? ==> s.phase.batch.lo == s.committed)
    && (s.phase.Committing? ==> s.committed == s.phase.batch.lo || s.committed == s.phase.batch.hi)
    && Contiguous(s.session)
    && SessionCommitted(s)
  }

  lemma StepTight(s: State, t: Tick)
    requires Tight(s) && !ErrorWithRecords(s, t)
    ensures Tight(Step(s, t))
  {
    StepSafe(s, t);
  }

  /** When failed polls carry no records, every poll starts at the committed offset, the batches a
      process handles follow each other without gap or overlap, and at most the last one is uncommitted. */
  lemma {:induction false} RunTight(s: State, actions: seq<Action>)
    requires Tight(s) && CleanErrors(s, actions)
    ensures Tight(After(s, actions))
    decreases |actions|
  {
    if actions != [] {
      var m := |actions| - 1;
      forall i | 0 <= i < m && actions[..m][i].Env?
        ensures !ErrorWithRecords(After(s, actions[..m][..i]), actions[..m][i].tick)
      {
        assert actions[..m][..i] == actions[..i];
      }
      RunTight(s, actions[..m]);
      if actions[m].Env? { StepTight(After(s, actions[..m]), actions[m].tick); }
    }
  }

  /** An empty topic with nothing committed. */
  lemma StartTight()
    ensures Tight(START)
  {
  }

  // ---------------------------------------------------------------- the exact limit

  /** A tick in which one record is appended and everything asked for succeeds. */
  const SMOOTH := Tick(1, false, false, false, false, 1, true, true, true, false, true)

  /** Some offset below the committed one was never handled. */
  ghost predicate Lost(s: State) {
    !HandledBelow(s.handled, s.committed)
  }

  lemma SmoothSailing(s: State)
    requires WithinLog(s) && s.phase.Polling?
    ensures var b := Batch(s.position, s.position + 1);
      var s1 := Step(s, SMOOTH);
      var s2 := Step(s1, SMOOTH);
      var s3 := Step(s2, SMOOTH);
      && WithinLog(s1) && WithinLog(s2) && s3.committed == s.position + 1 && s3.handled == s.handled + [b]
  {
  }

  /** An unhandled offset below the position stays unhandled when the batch at the position is added. */
  lemma StillUnhandled(handled: seq<Batch>, o: nat, b: Batch)
    requires !IsHandled(handled, o) && o < b.lo
    ensures !IsHandled(handled + [b], o)
  {
    var more := handled + [b];
    forall i | 0 <= i < |more| ensures !Within(more[i], o) {
      if i < |handled| { assert more[i] == handled[i]; }
    }
  }

  /** The run after a tick: three successful consultations. */
  function ThreeSmooth(): seq<Action> {
    [Env(SMOOTH), Env(SMOOTH), Env(SMOOTH)]
  }

  lemma AfterThree(s: State)
    requires WithinLog(s)
    ensures WithinLog(Step(s, SMOOTH)) && WithinLog(Step(Step(s, SMOOTH), SMOOTH))
    ensures After(s, ThreeSmooth()) == Step(Step(Step(s, SMOOTH), SMOOTH), SMOOTH)
  {
    var e := Env(SMOOTH);
    StepWithinLog(s, SMOOTH);
    StepWithinLog(Step(s, SMOOTH), SMOOTH);
    AfterSnoc(s, [], e);
    AfterSnoc(s, [e], e);
    AfterSnoc(s, [e, e], e);
    assert [] + [e] == [e] && [e] + [e] == [e, e] && [e, e] + [e] == ThreeSmooth();
  }

  lemma DropLoses(s: State, t: Tick)
    requires Safe(s) && Drops(s, t)
    ensures WithinLog(Step(s, t)) && Lost(After(Step(s, t), ThreeSmooth()))
  {
    var d := Step(s, t);
    StepWithinLog(s, t);
    AfterThree(d);
    SmoothSailing(d);
    var b := Batch(d.position, d.position + 1);
    var o: nat :| o < d.position && !IsHandled(s.handled, o);
    StillUnhandled(s.handled, o, b);
  }

  /** The smooth continuation itself drops nothing. */
  lemma SmoothDropsNothing(s: State, actions: seq<Action>)
    requires WithinLog(s) && forall i :: 0 <= i < |actions| ==> actions[i] == Env(SMOOTH)
    ensures NoDrops(s, actions)
  {
  }

  /** A tick can lead to a committed offset that skips an unhandled record, with nothing further going
      wrong, exactly when it is a failed poll that carried a record never handled before. */
  lemma SkipIff(s: State, t: Tick)
    requires Safe(s)
    ensures (exists more :: WithinLog(Step(s, t)) && NoDrops(Step(s, t), more) && Lost(After(Step(s, t), more))) <==> Drops(s, t)
  {
    StepWithinLog(s, t);
    if Drops(s, t) {
      DropLoses(s, t);
      SmoothDropsNothing(Step(s, t), ThreeSmooth());
    } else {
      StepSafe(s, t);
      forall more | NoDrops(Step(s, t), more) ensures !Lost(After(Step(s, t), more)) {
        RunSafe(Step(s, t), more);
      }
    }
  }

  // ---------------------------------------------------------------- the loop itself

  /** The state after a process has consulted the environment this many times. */
  function Exec(s: State, script: seq<Tick>): (r: State)
    requires WithinLog(s)
    ensures WithinLog(r)
  {
    if script == [] then s
    else
      var before := Exec(s, script[..|script| - 1]);
      StepWithinLog(before, script[|script| - 1]);
      Step(before, script[|script| - 1])
  }

  lemma ExecNext(s: State, script: seq<Tick>, i: nat)
    requires WithinLog(s) && i < |script|
    ensures Exec(s, script[..i + 1]) == Step(Exec(s, script[..i]), script[i])
  {
    assert script[..i + 1][..i] == script[..i];
  }

  lemma {:induction false} ExecStopped(s: State, script: seq<Tick>, i: nat)
    requires WithinLog(s) && i <= |script| && Exec(s, script[..i]).phase.Stopped?
    ensures Exec(s, script) == Exec(s, script[..i])
    decreases |script| - i
  {
    if i == |script| {
      assert script[..i] == script;
    } else {
      ExecNext(s, script, i);
      ExecStopped(s, script, i + 1);
    }
  }

  class Consumer {
    var log: nat
    var position: nat
    var committed: nat
    var handled: seq<Batch>
    var session: seq<Batch>

    ghost function At(phase: Phase): State
      reads this
    {
      State(log, position, committed, phase, handled, session)
    }

    /** Nothing polled, handled or committed. */
    constructor ()
      ensures At(Stopped(true)) == START
    {
      log, position, committed, handled, session := 0, 0, 0, [], [];
    }

    /** `Run` by a new process. The script is what the environment does; when it ends before the loop
        returns, the process has crashed there. The nested loops do exactly the steps of `Step`. */
    method Run(script: seq<Tick>) returns (end: Phase)
      requires WithinLog(At(Stopped(true)))
      modifies this
      ensures At(end) == Exec(Restart(old(At(Stopped(true)))), script)
    {
      ghost var from := Restart(At(Stopped(true)));
      position, session := committed, [];
      var i := 0;
      while i < |script|
        invariant 0 <= i <= |script|
        invariant At(Polling) == Exec(from, script[..i])
      {
        var polled := Poll(script[i]);
        ExecNext(from, script, i);
        i := i + 1;
        match polled {
          case Polling =>
          case Stopped(_) => ExecStopped(from, script, i); return polled;
          case Handling(batch) =>
            var stop: Option<Phase>;
            i, stop := RetryHandler(from, script, i, batch);
            if stop.Some? { return stop.value; }
            i, stop := RetryCommit(from, script, i, batch);
            if stop.Some? { return stop.value; }
        }
      }
      assert script[..i] == script;
      end := Polling;
    }

    /** The top of the loop body, up to a batch to handle. */
    method Poll(t: Tick) returns (next: Phase)
      requires position <= log
      modifies this
      ensures At(next) == Step(old(At(Polling)), t) && !next.Committing?
    {
      log := log + t.appended;
      if t.stopping { return Stopped(true); }
      if t.closed { return Stopped(false); }
      if t.cancelled { return Stopped(true); }
      var n := if t.fetched <= log - position then t.fetched else log - position;
      var batch := Batch(position, position + n);
      position := position + n;
      if t.fetchError { return if t.slept then Polling else Stopped(true); }
      if n == 0 { return Polling; }
      next := Handling(batch);
    }

    /** The same batch is handed to the handler until it returns nil. */
    method RetryHandler(ghost from: State, script: seq<Tick>, start: nat, batch: Batch) returns (i: nat, stop: Option<Phase>)
      requires WithinLog(from) && start <= |script| && At(Handling(batch)) == Exec(from, script[..start])
      modifies this
      ensures start <= i <= |script|
      ensures stop.None? ==> At(Committing(batch)) == Exec(from, script[..i])
      ensures stop.Some? ==> At(stop.value) == Exec(from, script)
    {
      hide Exec;
      i := start;
      while true
        invariant start <= i <= |script|
        invariant At(Handling(batch)) == Exec(from, script[..i])
        decreases |script| - i
      {
        if i == |script| { assert script[..i] == script; return i, Some(Handling(batch)); }
        var t := script[i];
        ExecNext(from, script, i);
        i := i + 1;
        log := log + t.appended;
        if t.handlerOk {
          handled, session := handled + [batch], session + [batch];
          return i, None;
        }
        if t.cancelled || !t.slept {
          ExecStopped(from, script, i);
          return i, Some(Stopped(true));
        }
      }
    }

    /** The commit is retried until it reports success. */
    method RetryCommit(ghost from: State, script: seq<Tick>, start: nat, batch: Batch) returns (i: nat, stop: Option<Phase>)
      requires WithinLog(from) && start <= |script| && At(Committing(batch)) == Exec(from, script[..start])
      modifies this
      ensures start <= i <= |script|
      ensures stop.None? ==> At(Polling) == Exec(from, script[..i])
      ensures stop.Some? ==> At(stop.value) == Exec(from, script)
    {
      hide Exec;
      i := start;
      while true
        invariant start <= i <= |script|
        invariant At(Committing(batch)) == Exec(from, script[..i])
        decreases |script| - i
      {
        if i == |script| { assert script[..i] == script; return i, Some(Committing(batch)); }
        var t := script[i];
        ExecNext(from, script, i);
        i := i + 1;
        log := log + t.appended;
        if t.commitOk || t.commitLands { committed := batch.hi; }
        if t.commitOk { return i, None; }
        if t.commitCanceled || t.cancelled || !t.slept {
          ExecStopped(from, script, i);
          return i, Some(Stopped(true));
        }
      }
    }
  }

  // ---------------------------------------------------------------- processes in a row

  /** The actions of one process: it starts, then consults the environment. */
  function Actions(script: seq<Tick>): seq<Action> {
    [Boot] + seq(|script|, i requires 0 <= i < |script| => Env(script[i]))
  }

  lemma {:induction false} ExecIsRun(s: State, script: seq<Tick>)
    requires WithinLog(s)
    ensures WithinLog(Restart(s)) && After(s, Actions(script)) == Exec(Restart(s), script)
  {
    var acts := Actions(script);
    if script == [] {
      assert acts == [] + [Boot];
      AfterSnoc(s, [], Boot);
    } else {
      var m := |script| - 1;
      ExecIsRun(s, script[..m]);
      assert acts == Actions(script[..m]) + [Env(script[m])];
      AfterSnoc(s, Actions(script[..m]), Env(script[m]));
    }
  }

  // ---------------------------------------------------------------- what each call of the loop leads to

  /** A poll ends the loop exactly when the context is cancelled, the client is closed, or a failed poll's
      sleep is cut short; records go to the handler from the position on; anything else polls again. */
  lemma PollLeads(s: State, t: Tick)
    requires s.phase.Polling? && s.position <= s.log
    ensures var next := Step(s, t);
      var n := if s.position + t.fetched <= s.log + t.appended then t.fetched else s.log + t.appended - s.position;
      && (next.phase.Stopped? <==> t.stopping || t.closed || t.cancelled || (t.fetchError && !t.slept))
      && (next.phase == Stopped(false) <==> t.closed && !t.stopping)
      && (!next.phase.Stopped? && !t.fetchError && n > 0 ==>
            next.phase == Handling(Batch(s.position, s.position + n)) && next.position == s.position + n)
      && (!next.phase.Stopped? && (t.fetchError || n == 0) ==> next.phase == Polling)
      && (!t.fetchError && n == 0 ==> next.position == s.position)
      && next.committed == s.committed && next.handled == s.handled && next.log == s.log + t.appended
  {
  }

  /** A handler call ends the loop exactly when it failed and the context is cancelled or the sleep cut
      short. A success records the batch once and goes on to commit it; any other failure leaves the same
      batch with the handler and everything else alone. */
  lemma HandlerLeads(s: State, t: Tick, b: Batch)
    requires s.phase == Handling(b) && s.position <= s.log
    ensures var next := Step(s, t);
      && (next.phase.Stopped? <==> !t.handlerOk && (t.cancelled || !t.slept))
      && (next.phase.Stopped? ==> next.phase == Stopped(true))
      && (t.handlerOk ==> next.phase == Committing(b) && next.handled == s.handled + [b])
      && (!t.handlerOk ==> next.handled == s.handled)
      && (!t.handlerOk && !next.phase.Stopped? ==> next.phase == Handling(b))
      && next.position == s.position && next.committed == s.committed && next.log == s.log + t.appended
  {
  }

  /** A commit ends the loop exactly when it failed and was cancelled, the context is, or the sleep was cut
      short. A success commits the batch and polls again; any other failure leaves the same batch to be
      committed, which may have landed already. */
  lemma CommitLeads(s: State, t: Tick, b: Batch)
    requires s.phase == Committing(b) && s.position <= s.log
    ensures var next := Step(s, t);
      && (next.phase.Stopped? <==> !t.commitOk && (t.commitCanceled || t.cancelled || !t.slept))
      && (next.phase.Stopped? ==> next.phase == Stopped(true))
      && (t.commitOk ==> next.phase == Polling && next.committed == b.hi)
      && (!t.commitOk && !next.phase.Stopped? ==> next.phase == Committing(b))
      && (!t.commitOk ==> next.committed == if t.commitLands then b.hi else s.committed)
      && next.position == s.position && next.handled == s.handled && next.log == s.log + t.appended
  {
  }

  /** A new process polls from the committed offset, with the log and the history as they were. */
  lemma RestartResumes(s: State)
    ensures var next := Restart(s);
      && next.phase == Polling && next.position == next.committed == s.committed
      && next.log == s.log && next.handled == s.handled && next.session == []
  {
  }

  predicate HandlerFails(t: Tick) {
    !t.handlerOk && !t.cancelled && t.slept
  }

  predicate CommitFails(t: Tick) {
    !t.commitOk && !t.commitCanceled && !t.cancelled && t.slept
  }

  /** However often the handler fails without being cancelled, the same batch stays with it. */
  lemma {:induction false} StillHandling(s: State, b: Batch, script: seq<Tick>)
    requires WithinLog(s) && s.phase == Handling(b) && forall i :: 0 <= i < |script| ==> HandlerFails(script[i])
    ensures var next := Exec(s, script);
      && next.phase == Handling(b) && next.handled == s.handled
      && next.position == s.position && next.committed == s.committed
    decreases |script|
  {
    if script != [] {
      var n := |script| - 1;
      StillHandling(s, b, script[..n]);
      assert HandlerFails(script[n]);
      HandlerLeads(Exec(s, script[..n]), script[n], b);
      hide Step;
    }
  }

  /** After any number of such failures and one success, the batch was handled once and is to be committed. */
  lemma HandledInTheEnd(s: State, b: Batch, script: seq<Tick>)
    requires WithinLog(s) && s.phase == Handling(b) && script != [] && script[|script| - 1].handlerOk
    requires forall i :: 0 <= i < |script| - 1 ==> HandlerFails(script[i])
    ensures var next := Exec(s, script);
      && next.phase == Committing(b) && next.handled == s.handled + [b]
      && next.position == s.position && next.committed == s.committed
  {
    var n := |script| - 1;
    StillHandling(s, b, script[..n]);
    HandlerLeads(Exec(s, script[..n]), script[n], b);
    hide Step;
  }

  lemma {:induction false} StillCommitting(s: State, b: Batch, script: seq<Tick>)
    requires WithinLog(s) && s.phase == Committing(b) && forall i :: 0 <= i < |script| ==> CommitFails(script[i])
    ensures var next := Exec(s, script);
      && next.phase == Committing(b) && next.handled == s.handled
      && next.position == s.position && next.committed in {s.committed, b.hi}
    decreases |script|
  {
    if script != [] {
      var n := |script| - 1;
      StillCommitting(s, b, script[..n]);
      assert CommitFails(script[n]);
      CommitLeads(Exec(s, script[..n]), script[n], b);
      hide Step;
    }
  }

  /** After any number of failed commits, landed or not, and one success, the batch is committed and the
      loop polls again. */
  lemma CommittedInTheEnd(s: State, b: Batch, script: seq<Tick>)
    requires WithinLog(s) && s.phase == Committing(b) && script != [] && script[|script| - 1].commitOk
    requires forall i :: 0 <= i < |script| - 1 ==> CommitFails(script[i])
    ensures var next := Exec(s, script);
      next.phase == Polling && next.committed == b.hi && next.handled == s.handled && next.position == s.position
  {
    var n := |script| - 1;
    StillCommitting(s, b, script[..n]);
    CommitLeads(Exec(s, script[..n]), script[n], b);
    hide Step;
  }

  lemma {:induction false} ExecJoins(s: State, a: seq<Tick>, b: seq<Tick>)
    requires WithinLog(s)
    ensures Exec(s, a + b) == Exec(Exec(s, a), b)
    decreases |b|
  {
    hide Step;
    if b == [] {
      assert a + b == a;
    } else {
      var n := |b| - 1;
      ExecJoins(s, a, b[..n]);
      assert (a + b)[..|a + b| - 1] == a + b[..n];
    }
  }

  /** A poll that brings records, handler calls and commits that fail any number of times before they
      succeed: the loop handles exactly those records once, commits them, and polls from their end. */
  lemma BatchCompletes(s: State, poll: Tick, handling: seq<Tick>, committing: seq<Tick>)
    requires WithinLog(s) && s.phase.Polling?
    requires !poll.stopping && !poll.closed && !poll.cancelled && !poll.fetchError
    requires 0 < poll.fetched && s.position + poll.fetched <= s.log + poll.appended
    requires handling != [] && handling[|handling| - 1].handlerOk
    requires forall i :: 0 <= i < |handling| - 1 ==> HandlerFails(handling[i])
    requires committing != [] && committing[|committing| - 1].commitOk
    requires forall i :: 0 <= i < |committing| - 1 ==> CommitFails(committing[i])
    ensures var next := Exec(s, [poll] + handling + committing);
      && next.phase == Polling && next.position == next.committed == s.position + poll.fetched
      && next.handled == s.handled + [Batch(s.position, s.position + poll.fetched)]
  {
    hide Step, Exec, HandlerFails, CommitFails;
    var b := Batch(s.position, s.position + poll.fetched);
    PollLeads(s, poll);
    ExecOne(s, poll);
    var polled := Exec(s, [poll]);
    HandledInTheEnd(polled, b, handling);
    var handled := Exec(polled, handling);
    CommittedInTheEnd(handled, b, committing);
    ExecJoins(s, [poll], handling);
    ExecJoins(s, [poll] + handling, committing);
  }

  lemma ExecOne(s: State, t: Tick)
    requires WithinLog(s)
    ensures Exec(s, [t]) == Step(s, t)
  {
    assert [t][..0] == [];
  }
}
