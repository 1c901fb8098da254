/** web/src/api/websocketClient.ts: the browser client's heartbeat, reconnect and backoff logic as a
    state machine over owner calls, socket events and timers. `send` does not throw and callbacks do
    not call back into the client. */
module WebSocketClient {
  import opened GoText
  import opened BitFields

  datatype Options = Options(base: nat, maxDelay: nat, intervalMs: int, reconnect: bool)

  /** The heartbeat's part of the state. `armed` holds the ack timers the runtime will still fire, with
      the request id each remembers; `unanswered` records history: heartbeats sent and neither answered
      nor given up. */
  datatype Heart = Heart(
    interval: bool,
    ackTimer: Option<nat>,
    armed: map<nat, string>,
    nextTimer: nat,
    pending: Option<string>,
    unanswered: multiset<string>)

  /** `ready[i]` is the ready state of the i-th socket created: 0 connecting, 1 open, 2 closing, 3 closed.
      `reports` records history: the reconnect announcements since the last open. */
  datatype Client = Client(
    opts: Options,
    socket: Option<nat>,
    ready: seq<nat>,
    heart: Heart,
    closed: bool,
    reconnectArmed: bool,
    delay: nat,
    attempt: nat,
    reports: seq<(nat, nat)>)

  /** A server frame after parsing; whether it signals an auth failure is decided by its text. */
  datatype Incoming =
    | Malformed
    | Ack(requestId: string, kind: string, authFailure: bool)
    | ServerEvent(authFailure: bool)
    | Other

  datatype Event =
    | Connect
    | Close
    | SocketOpens(id: nat)
    | SocketCloses(id: nat, authFailure: bool)
    | SocketErrors(id: nat)
    | Message(id: nat, frame: Incoming)
    | IntervalFires(requestId: string)
    | AckTimerFires(timer: nat)
    | ReconnectFires

  function Start(opts: Options): Client {
    Client(opts, None, [], Heart(false, None, map[], 0, None, multiset{}), false, false, opts.base, 0, [])
  }

  // ---------------------------------------------------------------- handlers

  function Disarm(armed: map<nat, string>, timer: Option<nat>): map<nat, string> {
    if timer.Some? then armed - {timer.value} else armed
  }

  function Stopped(h: Heart): Heart {
    Heart(false, None, Disarm(h.armed, h.ackTimer), h.nextTimer, None, multiset{})
  }

  function Sent(h: Heart, requestId: string): Heart {
    Heart(h.interval, Some(h.nextTimer), h.armed[h.nextTimer := requestId], h.nextTimer + 1,
          Some(requestId), h.unanswered + multiset{requestId})
  }

  function Acked(h: Heart, requestId: string, kind: string): Heart {
    if kind != "heartbeat" || h.pending != Some(requestId) then h
    else Heart(h.interval, None, Disarm(h.armed, h.ackTimer), h.nextTimer, None, h.unanswered - multiset{requestId})
  }

  function StopHeartbeat(c: Client): Client {
    c.(heart := Stopped(c.heart))
  }

  function StartHeartbeat(c: Client): Client {
    c.(heart := Stopped(c.heart).(interval := c.opts.intervalMs > 0))
  }

  /** `socket.close()` on a socket: connecting and open sockets start closing. */
  function CloseSocket(ready: seq<nat>, socket: Option<nat>): seq<nat> {
    if socket.Some? && socket.value < |ready| && ready[socket.value] <= 1 then ready[socket.value := 2] else ready
  }

  function HeartbeatTimeout(c: Client): Client {
    var s := StopHeartbeat(c);
    s.(ready := CloseSocket(s.ready, s.socket))
  }

  predicate SocketAt(c: Client, state: nat) {
    c.socket.Some? && c.socket.value < |c.ready| && c.ready[c.socket.value] == state
  }

  function DoConnect(c: Client): Client {
    if SocketAt(c, 0) || SocketAt(c, 1) then c
    else c.(socket := Some(|c.ready|), ready := c.ready + [0])
  }

  function DoClose(c: Client): Client {
    var s := StopHeartbeat(c.(closed := true, reconnectArmed := false));
    s.(ready := CloseSocket(s.ready, s.socket), socket := None)
  }

  function ScheduleReconnect(c: Client): Client {
    c.(attempt := c.attempt + 1,
       reports := c.reports + [(c.attempt + 1, c.delay)],
       reconnectArmed := true,
       delay := Min(2 * c.delay, c.opts.maxDelay))
  }

  function Min(a: nat, b: nat): nat {
    if a <= b then a else b
  }

  function OnOpen(c: Client, id: nat): Client
    requires id < |c.ready|
  {
    StartHeartbeat(c.(ready := c.ready[id := 1], delay := c.opts.base, attempt := 0, reports := []))
  }

  function OnClose(c: Client, id: nat, authFailure: bool): Client
    requires id < |c.ready|
  {
    var s := StopHeartbeat(c.(ready := c.ready[id := 3]));
    if !s.closed && !authFailure && s.opts.reconnect then ScheduleReconnect(s) else s
  }

  /** An empty pending id counts as none: the check is on its truthiness. */
  function SendHeartbeat(c: Client, requestId: string): Client {
    if !SocketAt(c, 1) then c
    else if c.heart.pending.Some? && c.heart.pending.value != "" then HeartbeatTimeout(c)
    else c.(heart := Sent(c.heart, requestId))
  }

  function OnAckTimer(c: Client, timer: nat): Client
    requires timer in c.heart.armed
  {
    var fired := c.(heart := c.heart.(armed := c.heart.armed - {timer}));
    if c.heart.pending == Some(c.heart.armed[timer]) then HeartbeatTimeout(fired) else fired
  }

  function HandleAck(c: Client, requestId: string, kind: string): Client {
    c.(heart := Acked(c.heart, requestId, kind))
  }

  function AuthFailed(c: Client, authFailure: bool): Client {
    if authFailure then c.(closed := true, reconnectArmed := false) else c
  }

  function HandleMessage(c: Client, frame: Incoming): Client {
    match frame
    case Malformed => c
    case Ack(requestId, kind, authFailure) => AuthFailed(HandleAck(c, requestId, kind), authFailure)
    case ServerEvent(authFailure) => AuthFailed(c, authFailure)
    case Other => c
  }

  function OnReconnectTimer(c: Client): Client {
    var fired := c.(reconnectArmed := false);
    if fired.closed then fired else DoConnect(fired.(socket := None))
  }

  // ---------------------------------------------------------------- the machine

  predicate Enabled(c: Client, e: Event) {
    match e
    case Connect => true
    case Close => true
    case SocketOpens(id) => id < |c.ready| && c.ready[id] == 0
    case SocketCloses(id, _) => id < |c.ready| && c.ready[id] <= 2
    case SocketErrors(id) => id < |c.ready| && c.ready[id] <= 2
    case Message(id, _) => id < |c.ready| && 1 <= c.ready[id] <= 2
    case IntervalFires(_) => c.heart.interval
    case AckTimerFires(timer) => timer in c.heart.armed
    case ReconnectFires => c.reconnectArmed
  }

  function Step(c: Client, e: Event): Client
    requires Enabled(c, e)
  {
    match e
    case Connect => DoConnect(c)
    case Close => DoClose(c)
    case SocketOpens(id) => OnOpen(c, id)
    case SocketCloses(id, authFailure) => OnClose(c, id, authFailure)
    case SocketErrors(_) => c
    case Message(_, frame) => HandleMessage(c, frame)
    case IntervalFires(requestId) => SendHeartbeat(c, requestId)
    case AckTimerFires(timer) => OnAckTimer(c, timer)
    case ReconnectFires => OnReconnectTimer(c)
  }

  ghost predicate Schedule(c: Client, run: seq<Event>)
    decreases run
  {
    run == [] || (Enabled(c, run[0]) && Schedule(Step(c, run[0]), run[1..]))
  }

  function After(c: Client, run: seq<Event>): Client
    requires Schedule(c, run)
    decreases run
  {
    if run == [] then c else After(Step(c, run[0]), run[1..])
  }

  // ---------------------------------------------------------------- heartbeats

  /** A heartbeat is pending exactly when its ack timer is armed, and then the interval runs; the timer
      the client remembers is the only one armed, and at most that one heartbeat is unanswered. */
  ghost predicate HeartbeatInv(h: Heart) {
    && (h.pending.Some? <==> h.ackTimer.Some?)
    && (h.pending.Some? ==> h.interval && h.pending.value != "")
    && h.armed == (if h.ackTimer.Some? && h.pending.Some? then map[h.ackTimer.value := h.pending.value] else map[])
    && h.unanswered == (if h.pending.Some? then multiset{h.pending.value} else multiset{})
  }

  lemma HeartSteps(h: Heart, requestId: string, kind: string)
    requires HeartbeatInv(h)
    ensures HeartbeatInv(Stopped(h)) && Stopped(h).pending.None?
    ensures h.interval && h.pending.None? && requestId != "" ==> HeartbeatInv(Sent(h, requestId))
    ensures HeartbeatInv(Acked(h, requestId, kind))
  {
  }

  lemma AckTimerKeeps(c: Client, timer: nat)
    requires HeartbeatInv(c.heart) && timer in c.heart.armed
    ensures HeartbeatInv(OnAckTimer(c, timer).heart)
  {
    assert c.heart.armed - {timer} == map[];
  }

  lemma SendKeeps(c: Client, requestId: string)
    requires HeartbeatInv(c.heart) && c.heart.interval && requestId != ""
    ensures HeartbeatInv(SendHeartbeat(c, requestId).heart)
  {
    hide Stopped, Sent;
    HeartSteps(c.heart, requestId, "");
  }

  lemma StartKeeps(c: Client)
    requires HeartbeatInv(c.heart)
    ensures HeartbeatInv(StartHeartbeat(c).heart)
  {
  }

  lemma StepHeartbeat(c: Client, e: Event)
    requires HeartbeatInv(c.heart) && Enabled(c, e) && (e.IntervalFires? ==> e.requestId != "")
    ensures HeartbeatInv(Step(c, e).heart)
  {
    hide Stopped, Sent, Acked, OnAckTimer, HeartbeatInv;
    match e
    case IntervalFires(requestId) => SendKeeps(c, requestId);
    case AckTimerFires(timer) => AckTimerKeeps(c, timer);
    case Message(_, frame) =>
      if frame.Ack? {
        HeartSteps(c.heart, frame.requestId, frame.kind);
      }
    case _ => HeartSteps(c.heart, "", "");
      StartKeeps(c);
  }

  ghost predicate NamedHeartbeats(run: seq<Event>) {
    forall i :: 0 <= i < |run| && run[i].IntervalFires? ==> run[i].requestId != ""
  }

  /** In every state that any interleaving of calls, socket events and timers reaches, provided request
      ids are not empty, the heartbeat invariant holds. */
  lemma {:induction false} RunHeartbeat(c: Client, run: seq<Event>)
    requires HeartbeatInv(c.heart) && Schedule(c, run) && NamedHeartbeats(run)
    ensures HeartbeatInv(After(c, run).heart) && |After(c, run).heart.unanswered| <= 1
    decreases run
  {
    if run != [] {
      StepHeartbeat(c, run[0]);
      RunHeartbeat(Step(c, run[0]), run[1..]);
    }
  }

  /** The condition is exact: when a heartbeat goes out, the next interval adds a second unanswered one
      if and only if the first had the empty id that a request id factory may return. */
  lemma SecondHeartbeatIff(c: Client, first: string, second: string)
    requires HeartbeatInv(c.heart) && c.heart.interval && SocketAt(c, 1) && c.heart.pending.None?
    ensures var d := SendHeartbeat(c, first);
      |SendHeartbeat(d, second).heart.unanswered| == 2 <==> first == ""
  {
  }

  // ---------------------------------------------------------------- what each event does

  predicate SameBackoff(c: Client, d: Client) {
    d.opts == c.opts && d.delay == c.delay && d.attempt == c.attempt && d.reports == c.reports
  }

  predicate SameLinks(c: Client, d: Client) {
    d.socket == c.socket && d.ready == c.ready && d.closed == c.closed && d.reconnectArmed == c.reconnectArmed
  }

  predicate AtRest(h: Heart) {
    !h.interval && h.pending.None? && h.ackTimer.None? && h.armed == map[] && h.unanswered == multiset{}
  }

  /** The current socket of d is closing, and was connecting or open in c; no other socket has changed. */
  predicate ClosesCurrent(c: Client, d: Client) {
    && c.socket.Some? && c.socket.value < |c.ready| == |d.ready| && d.ready[c.socket.value] == 2
    && forall i :: 0 <= i < |c.ready| && i != c.socket.value ==> d.ready[i] == c.ready[i]
  }

  /** The heartbeat is over and the connection is being closed, with the backoff left alone. */
  predicate GivesUp(c: Client, d: Client) {
    && AtRest(d.heart) && ClosesCurrent(c, d) && d.socket == c.socket
    && d.closed == c.closed && d.reconnectArmed == c.reconnectArmed && SameBackoff(c, d)
  }

  /** A heartbeat that is not acknowledged in time closes the connection. */
  lemma AckTimeoutGivesUp(c: Client, timer: nat)
    requires HeartbeatInv(c.heart) && SocketAt(c, 1) && timer in c.heart.armed
    ensures GivesUp(c, Step(c, AckTimerFires(timer)))
  {
    assert c.heart.armed - {timer} == map[];
  }

  /** So does one still unanswered when the next is due. */
  lemma OverdueGivesUp(c: Client, requestId: string)
    requires HeartbeatInv(c.heart) && SocketAt(c, 1) && c.heart.interval && c.heart.pending.Some?
    ensures GivesUp(c, Step(c, IntervalFires(requestId)))
  {
    assert Disarm(c.heart.armed, c.heart.ackTimer) == map[];
  }

  /** Otherwise an open connection sends a heartbeat with an ack timer of its own, and one that is not open
      does nothing. */
  lemma IntervalSends(c: Client, requestId: string)
    requires c.heart.interval
    ensures var d := Step(c, IntervalFires(requestId));
      && (!SocketAt(c, 1) ==> d == c)
      && (SocketAt(c, 1) && c.heart.pending.None? ==>
            && d.heart.pending == Some(requestId) && d.heart.interval
            && d.heart.ackTimer.Some? && d.heart.ackTimer.value == c.heart.nextTimer < d.heart.nextTimer
            && d.heart.armed == c.heart.armed[c.heart.nextTimer := requestId]
            && d.heart.unanswered == c.heart.unanswered + multiset{requestId}
            && SameLinks(c, d) && SameBackoff(c, d))
  {
  }

  /** The acknowledgement of the pending heartbeat ends its wait and leaves the interval running; no other
      frame touches the heartbeat. */
  lemma AckClears(c: Client, id: nat, frame: Incoming)
    requires HeartbeatInv(c.heart) && Enabled(c, Message(id, frame))
    ensures var d := Step(c, Message(id, frame));
      && (frame.Ack? && frame.kind == "heartbeat" && c.heart.pending == Some(frame.requestId) ==>
            AtRest(d.heart.(interval := false)) && d.heart.interval)
      && (!(frame.Ack? && frame.kind == "heartbeat" && c.heart.pending == Some(frame.requestId)) ==> d.heart == c.heart)
  {
    if frame.Ack? && c.heart.pending == Some(frame.requestId) {
      assert Disarm(c.heart.armed, c.heart.ackTimer) == map[];
    }
  }

  /** A frame closes the client for good, and disarms a reconnect, exactly when it is an ack or an event
      that signals an auth failure; sockets and backoff are left alone. */
  lemma FrameCloses(c: Client, id: nat, frame: Incoming)
    requires Enabled(c, Message(id, frame))
    ensures var d := Step(c, Message(id, frame));
      var failure := (frame.Ack? || frame.ServerEvent?) && frame.authFailure;
      && d.closed == (c.closed || failure) && d.reconnectArmed == (c.reconnectArmed && !failure)
      && d.socket == c.socket && d.ready == c.ready && SameBackoff(c, d)
  {
  }

  /** An open starts afresh: no failed attempts, the base delay, and the interval armed exactly when it is
      positive. */
  lemma OpenStarts(c: Client, id: nat)
    requires HeartbeatInv(c.heart) && Enabled(c, SocketOpens(id))
    ensures var d := Step(c, SocketOpens(id));
      && d.ready == c.ready[id := 1] && d.socket == c.socket
      && d.delay == c.opts.base && d.attempt == 0 && d.reports == []
      && (d.heart.interval <==> c.opts.intervalMs > 0) && AtRest(d.heart.(interval := false))
      && d.closed == c.closed && d.reconnectArmed == c.reconnectArmed
  {
    assert Disarm(c.heart.armed, c.heart.ackTimer) == map[];
  }

  /** A close stops the heartbeat and schedules a reconnect exactly when the client is not closed,
      reconnecting is on and it was no auth failure: one more attempt, reported with the current delay,
      and the delay doubled up to the maximum. Otherwise nothing is scheduled. */
  lemma CloseSchedules(c: Client, id: nat, authFailure: bool)
    requires HeartbeatInv(c.heart) && Enabled(c, SocketCloses(id, authFailure))
    ensures var d := Step(c, SocketCloses(id, authFailure));
      && AtRest(d.heart) && d.ready == c.ready[id := 3] && d.socket == c.socket && d.closed == c.closed && d.opts == c.opts
      && (!c.closed && !authFailure && c.opts.reconnect ==>
            && d.reconnectArmed && d.attempt == c.attempt + 1 && d.reports == c.reports + [(c.attempt + 1, c.delay)]
            && (2 * c.delay <= c.opts.maxDelay ==> d.delay == 2 * c.delay)
            && (2 * c.delay > c.opts.maxDelay ==> d.delay == c.opts.maxDelay))
      && (c.closed || authFailure || !c.opts.reconnect ==> d.reconnectArmed == c.reconnectArmed && SameBackoff(c, d))
  {
    assert Disarm(c.heart.armed, c.heart.ackTimer) == map[];
  }

  /** connect() makes a new current socket, connecting, exactly when the current one is not live. */
  lemma ConnectCreates(c: Client)
    ensures var d := Step(c, Connect);
      && (SocketAt(c, 0) || SocketAt(c, 1) ==> d == c)
      && (!SocketAt(c, 0) && !SocketAt(c, 1) ==>
            && d.ready == c.ready + [0] && d.socket == Some(|c.ready|)
            && d.heart == c.heart && d.closed == c.closed && d.reconnectArmed == c.reconnectArmed && SameBackoff(c, d))
  {
  }

  /** The reconnect timer makes one whatever the current socket is, unless the client is closed. */
  lemma ReconnectReplaces(c: Client)
    requires c.reconnectArmed
    ensures var d := Step(c, ReconnectFires);
      && !d.reconnectArmed && d.heart == c.heart && d.closed == c.closed && SameBackoff(c, d)
      && (c.closed ==> d.ready == c.ready && d.socket == c.socket)
      && (!c.closed ==> d.ready == c.ready + [0] && d.socket == Some(|c.ready|))
  {
  }

  /** close() leaves no timer armed, forgets the current socket and closes it if it is live. */
  lemma CloseEnds(c: Client)
    requires HeartbeatInv(c.heart)
    ensures var d := Step(c, Close);
      && d.closed && !d.reconnectArmed && AtRest(d.heart) && d.socket.None? && SameBackoff(c, d)
      && (SocketAt(c, 0) || SocketAt(c, 1) ==> ClosesCurrent(c, d))
      && (!SocketAt(c, 0) && !SocketAt(c, 1) ==> d.ready == c.ready)
  {
    assert Disarm(c.heart.armed, c.heart.ackTimer) == map[];
  }

  /** A dead connection is replaced: the unanswered heartbeat closes it, its close event schedules a
      reconnect, and the timer makes a new socket. */
  lemma DeadConnectionReplaced(c: Client, timer: nat)
    requires HeartbeatInv(c.heart) && SocketAt(c, 1) && timer in c.heart.armed && !c.closed && c.opts.reconnect
    ensures var run := [AckTimerFires(timer), SocketCloses(c.socket.value, false), ReconnectFires];
      Schedule(c, run) &&
      var d := After(c, run);
      && d.socket == Some(|c.ready|) && |d.ready| == |c.ready| + 1 && d.ready[|c.ready|] == 0
      && d.ready[c.socket.value] == 3 && d.attempt == c.attempt + 1 && !d.reconnectArmed
  {
    var id := c.socket.value;
    var e, f, g := AckTimerFires(timer), SocketCloses(id, false), ReconnectFires;
    var c1 := Step(c, e);
    AckTimeoutGivesUp(c, timer);
    StepHeartbeat(c, e);
    assert Enabled(c1, f);
    CloseSchedules(c1, id, false);
    var c2 := Step(c1, f);
    ReconnectReplaces(c2);
    var c3 := Step(c2, g);
    hide Step;
    RunOfThree(c, e, f, g);
  }

  lemma RunOfThree(c: Client, e: Event, f: Event, g: Event)
    requires Enabled(c, e) && Enabled(Step(c, e), f) && Enabled(Step(Step(c, e), f), g)
    ensures Schedule(c, [e, f, g]) && After(c, [e, f, g]) == Step(Step(Step(c, e), f), g)
  {
    hide Step, Enabled, Schedule, After;
    var c2 := Step(Step(c, e), f);
    assert [e, f, g] == [e] + [f, g] && [f, g] == [f] + [g] && [g] == [g] + [];
    NoEvents(Step(c2, g));
    RunNext(c2, g, []);
    RunNext(Step(c, e), f, [g]);
    RunNext(c, e, [f, g]);
  }

  lemma NoEvents(c: Client)
    ensures Schedule(c, []) && After(c, []) == c
  {
  }

  lemma RunNext(c: Client, e: Event, rest: seq<Event>)
    requires Enabled(c, e) && Schedule(Step(c, e), rest)
    ensures Schedule(c, [e] + rest) && After(c, [e] + rest) == After(Step(c, e), rest)
  {
    hide Step, Enabled;
    assert ([e] + rest)[1..] == rest;
  }

  // ---------------------------------------------------------------- backoff

  /** The delay of the k-th reconnect after an open. */
  function Backoff(base: nat, maxDelay: nat, k: nat): nat
    requires k >= 1
  {
    if k == 1 then base else Min(2 * Backoff(base, maxDelay, k - 1), maxDelay)
  }

  ghost predicate BackoffInv(c: Client) {
    && c.delay == Backoff(c.opts.base, c.opts.maxDelay, c.attempt + 1)
    && |c.reports| == c.attempt
    && (forall i :: 0 <= i < |c.reports| ==> c.reports[i] == (i + 1, Backoff(c.opts.base, c.opts.maxDelay, i + 1)))
  }

  lemma ScheduleKeeps(c: Client)
    requires BackoffInv(c)
    ensures BackoffInv(ScheduleReconnect(c)) && ScheduleReconnect(c).opts == c.opts
  {
  }

  lemma StepBackoff(c: Client, e: Event)
    requires BackoffInv(c) && Enabled(c, e)
    ensures BackoffInv(Step(c, e)) && Step(c, e).opts == c.opts
  {
    if e.SocketCloses? {
      ScheduleKeeps(StopHeartbeat(c.(ready := c.ready[e.id := 3])));
      hide ScheduleReconnect;
    }
  }

  lemma {:induction false} RunBackoff(c: Client, run: seq<Event>)
    requires BackoffInv(c) && Schedule(c, run)
    ensures BackoffInv(After(c, run)) && After(c, run).opts == c.opts
    decreases run
  {
    if run != [] {
      StepBackoff(c, run[0]);
      RunBackoff(Step(c, run[0]), run[1..]);
    }
  }

  /** Doubling with a cap is the capped power of two from the second attempt on. */
  lemma {:induction false} BackoffClosed(base: nat, maxDelay: nat, k: nat)
    requires k >= 2
    ensures Backoff(base, maxDelay, k) == Min(base * Pow2(k - 1), maxDelay)
  {
    if k == 2 {
    } else {
      BackoffClosed(base, maxDelay, k - 1);
      assert base * Pow2(k - 1) == 2 * (base * Pow2(k - 2));
    }
  }

  /** After every run, the k-th reconnect announced since the last open carried attempt k and the delay
      min(base·2^(k-1), max), for every k, exactly when the base delay does not exceed the maximum; the
      first delay is the base in any case. */
  lemma RunReports(opts: Options, run: seq<Event>, i: nat)
    requires Schedule(Start(opts), run) && i < |After(Start(opts), run).reports|
    ensures var r := After(Start(opts), run).reports[i];
      && r.0 == i + 1
      && r.1 == (if i == 0 then opts.base else Min(opts.base * Pow2(i), opts.maxDelay))
      && (r.1 == Min(opts.base * Pow2(i), opts.maxDelay) <==> i > 0 || opts.base <= opts.maxDelay)
  {
    RunBackoff(Start(opts), run);
    if i >= 1 {
      BackoffClosed(opts.base, opts.maxDelay, i + 1);
    } else {
      assert opts.base * Pow2(0) == opts.base;
    }
  }

  // ---------------------------------------------------------------- once closed

  predicate ClosedQuiet(c: Client) {
    c.closed ==> !c.reconnectArmed
  }

  lemma {:induction false} RunClosedQuiet(c: Client, run: seq<Event>)
    requires ClosedQuiet(c) && Schedule(c, run)
    ensures ClosedQuiet(After(c, run))
    decreases run
  {
    if run != [] {
      RunClosedQuiet(Step(c, run[0]), run[1..]);
    }
  }

  function Connects(run: seq<Event>): nat {
    if run == [] then 0 else (if run[0].Connect? then 1 else 0) + Connects(run[1..])
  }

  lemma {:induction false} NoConnects(run: seq<Event>)
    ensures Connects(run) == 0 <==> Connect !in run
  {
    if run != [] {
      NoConnects(run[1..]);
      assert run == [run[0]] + run[1..];
    }
  }

  /** Once `closed` is set it stays set, and no timer or socket event creates a socket: on every run
      there are at most as many new sockets as calls of connect(), so none if there is no such call. */
  lemma {:induction false} ClosedForGood(c: Client, run: seq<Event>)
    requires c.closed && ClosedQuiet(c) && Schedule(c, run)
    ensures After(c, run).closed
    ensures |c.ready| <= |After(c, run).ready| <= |c.ready| + Connects(run)
    decreases run
  {
    if run != [] {
      var next := Step(c, run[0]);
      assert next.closed && ClosedQuiet(next);
      assert |next.ready| <= |c.ready| + (if run[0].Connect? then 1 else 0);
      ClosedForGood(next, run[1..]);
    }
  }

  predicate Closes(e: Event) {
    e.Close? || (e.Message? && (e.frame.Ack? || e.frame.ServerEvent?) && e.frame.authFailure)
  }

  /** From any reachable state, close() and an auth failure in an ack or a server event put the client
      in that state for good. */
  lemma ClosingIsFinal(opts: Options, before: seq<Event>, e: Event, after: seq<Event>)
    requires Schedule(Start(opts), before) && Closes(e)
    requires var c := After(Start(opts), before); Enabled(c, e) && Schedule(Step(c, e), after)
    ensures var c := After(Start(opts), before);
      && After(Step(c, e), after).closed
      && |After(Step(c, e), after).ready| <= |c.ready| + Connects(after)
      && (Connect !in after ==> |After(Step(c, e), after).ready| == |c.ready|)
  {
    var c := After(Start(opts), before);
    RunClosedQuiet(Start(opts), before);
    assert |Step(c, e).ready| == |c.ready|;
    ClosedForGood(Step(c, e), after);
    NoConnects(after);
  }

  // ---------------------------------------------------------------- one live socket

  /** No socket but the current one is connecting or open. */
  ghost predicate OneLive(c: Client) {
    forall i :: 0 <= i < |c.ready| && c.ready[i] <= 1 ==> c.socket == Some(i)
  }

  /** Until it is closed, the client has finished with every earlier socket, and waits for the reconnect
      timer only when it has finished with the current one too. */
  ghost predicate Settled(c: Client)
    ensures Settled(c) ==> OneLive(c)
  {
    && (c.socket.Some? ==> c.socket.value < |c.ready|)
    && (forall i :: 0 <= i < |c.ready| && c.ready[i] <= (if c.closed then 1 else 2) ==> c.socket == Some(i))
    && (c.reconnectArmed ==> !c.closed && (c.socket.None? || c.ready[c.socket.value] == 3))
  }

  /** When an owner may call connect(): after closing, while the socket is live (the call does nothing),
      or when the socket is finished and no reconnect is due. */
  predicate MayConnect(c: Client) {
    || c.closed
    || SocketAt(c, 0)
    || SocketAt(c, 1)
    || (!c.reconnectArmed && !SocketAt(c, 2))
  }

  lemma StepSettled(c: Client, e: Event)
    requires Settled(c) && Enabled(c, e) && (e.Connect? ==> MayConnect(c))
    ensures Settled(Step(c, e))
  {
    hide Stopped, Sent, Acked;
  }

  ghost predicate Considerate(c: Client, run: seq<Event>)
    requires Schedule(c, run)
    decreases run
  {
    run == [] || ((run[0].Connect? ==> MayConnect(c)) && Considerate(Step(c, run[0]), run[1..]))
  }

  /** On every run in which the owner calls connect() only then, at most one socket is live. */
  lemma {:induction false} RunOneLive(c: Client, run: seq<Event>)
    requires Settled(c) && Schedule(c, run) && Considerate(c, run)
    ensures Settled(After(c, run))
    decreases run
  {
    if run != [] {
      StepSettled(c, run[0]);
      RunOneLive(Step(c, run[0]), run[1..]);
    }
  }

  lemma {:induction false} WithoutConnect(c: Client, run: seq<Event>)
    requires Schedule(c, run) && Connect !in run
    ensures Considerate(c, run)
    decreases run
  {
    if run != [] {
      assert run[0] in run;
      WithoutConnect(Step(c, run[0]), run[1..]);
    }
  }

  /** A run that an ill-timed connect() makes possible. */
  function Overlap(c: Client): seq<Event> {
    if c.reconnectArmed || c.socket.None? then [ReconnectFires]
    else [SocketCloses(c.socket.value, false), ReconnectFires]
  }

  lemma OverlapBreaks(c: Client)
    requires Settled(c) && c.opts.reconnect && !MayConnect(c)
    ensures Schedule(Step(c, Connect), Overlap(c)) && Connect !in Overlap(c)
    ensures !OneLive(After(Step(c, Connect), Overlap(c)))
  {
    var newest, run, d := |c.ready|, Overlap(c), Step(c, Connect);
    var last := if c.reconnectArmed then d else Step(d, run[0]);
    assert last.reconnectArmed && !last.closed && last.ready[newest] == 0;
    var end := Step(last, ReconnectFires);
    assert end.ready[newest] == 0 && end.socket == Some(|last.ready|);
    assert Schedule(last, [ReconnectFires]) && After(last, [ReconnectFires]) == end by {
      assert [ReconnectFires][1..] == [];
    }
    if !c.reconnectArmed {
      assert run[1..] == [ReconnectFires];
    }
  }

  /** The timing is exact: a call of connect() keeps at most one socket live on every later run without
      another such call if and only if it is made then. */
  lemma OneLiveIff(c: Client)
    requires Settled(c) && c.opts.reconnect
    ensures MayConnect(c) <==>
      forall run :: Schedule(Step(c, Connect), run) && Connect !in run ==> OneLive(After(Step(c, Connect), run))
  {
    var d := Step(c, Connect);
    if MayConnect(c) {
      StepSettled(c, Connect);
      forall run | Schedule(d, run) && Connect !in run
        ensures OneLive(After(d, run))
      {
        WithoutConnect(d, run);
        RunOneLive(d, run);
      }
    } else {
      OverlapBreaks(c);
    }
  }

  // ---------------------------------------------------------------- the client itself

  /** The client as the source has it. `ready`, `armed` and `nextTimer` stand for the runtime's sockets
      and timers; the ghost fields record history only. */
  class MessageWebSocketClient {
    const opts: Options
    var socket: Option<nat>
    var ready: seq<nat>
    var heartbeatTimer: bool
    var heartbeatAckTimer: Option<nat>
    var armed: map<nat, string>
    var nextTimer: nat
    var pendingHeartbeatRequestId: Option<string>
    var closed: bool
    var reconnectTimer: bool
    var reconnectDelay: nat
    var reconnectAttempt: nat
    ghost var unanswered: multiset<string>
    ghost var reports: seq<(nat, nat)>

    ghost function Beat(): Heart
      reads this
    {
      Heart(heartbeatTimer, heartbeatAckTimer, armed, nextTimer, pendingHeartbeatRequestId, unanswered)
    }

    ghost function Now(): Client
      reads this
    {
      Client(opts, socket, ready, Beat(), closed, reconnectTimer, reconnectDelay, reconnectAttempt, reports)
    }

    constructor (options: Options)
      ensures Now() == Start(options)
      ensures HeartbeatInv(Beat()) && BackoffInv(Now()) && Settled(Now())
    {
      opts := options;
      socket, ready := None, [];
      heartbeatTimer, heartbeatAckTimer, armed, nextTimer := false, None, map[], 0;
      pendingHeartbeatRequestId := None;
      closed, reconnectTimer := false, false;
      reconnectDelay, reconnectAttempt := options.base, 0;
      unanswered, reports := multiset{}, [];
    }

    method Connect()
      modifies this
      ensures Now() == DoConnect(old(Now()))
    {
      if socket.Some? && socket.value < |ready| && ready[socket.value] <= 1 {
        return;
      }
      socket := Some(|ready|);
      ready := ready + [0];
    }

    method CloseCurrent()
      modifies this`ready
      ensures ready == CloseSocket(old(ready), socket)
    {
      if socket.Some? && socket.value < |ready| && ready[socket.value] <= 1 {
        ready := ready[socket.value := 2];
      }
    }

    method Close()
      modifies this
      ensures Now() == DoClose(old(Now()))
    {
      closed := true;
      reconnectTimer := false;
      StopHeartbeatNow();
      CloseCurrent();
      socket := None;
    }

    method ClearHeartbeatAckTimer()
      modifies this`heartbeatAckTimer, this`armed
      ensures heartbeatAckTimer == None
      ensures armed == Disarm(old(armed), old(heartbeatAckTimer))
    {
      if heartbeatAckTimer.Some? {
        armed := armed - {heartbeatAckTimer.value};
        heartbeatAckTimer := None;
      }
    }

    method StopHeartbeatNow()
      modifies this
      ensures Now() == StopHeartbeat(old(Now()))
    {
      if heartbeatTimer {
        heartbeatTimer := false;
      }
      ClearHeartbeatAckTimer();
      pendingHeartbeatRequestId := None;
      unanswered := multiset{};
    }

    method OnSocketOpen(id: nat)
      requires id < |ready|
      modifies this
      ensures Now() == OnOpen(old(Now()), id)
    {
      hide Stopped;
      ready := ready[id := 1];
      reconnectDelay := opts.base;
      reconnectAttempt := 0;
      reports := [];
      StartHeartbeatNow();
    }

    method StartHeartbeatNow()
      modifies this
      ensures Now() == StartHeartbeat(old(Now()))
    {
      StopHeartbeatNow();
      if opts.intervalMs <= 0 {
        return;
      }
      heartbeatTimer := true;
    }

    method OnSocketClose(id: nat, authFailure: bool)
      requires id < |ready|
      modifies this
      ensures Now() == OnClose(old(Now()), id, authFailure)
    {
      ready := ready[id := 3];
      StopHeartbeatNow();
      if !closed && !authFailure && opts.reconnect {
        ScheduleReconnectNow();
      }
    }

    /** Replaces any reconnect timer still armed. */
    method ScheduleReconnectNow()
      modifies this
      ensures Now() == ScheduleReconnect(old(Now()))
    {
      reconnectTimer := false;
      var due := reconnectDelay;
      reconnectAttempt := reconnectAttempt + 1;
      reports := reports + [(reconnectAttempt, due)];
      reconnectTimer := true;
      var nextDelay := due * 2;
      reconnectDelay := Min(nextDelay, opts.maxDelay);
    }

    method OnReconnectTimerFires()
      modifies this
      ensures Now() == OnReconnectTimer(old(Now()))
    {
      reconnectTimer := false;
      if !closed {
        socket := None;
        Connect();
      }
    }

    method OnHeartbeatTimeout()
      modifies this
      ensures Now() == HeartbeatTimeout(old(Now()))
    {
      StopHeartbeatNow();
      CloseCurrent();
    }

    method OnInterval(requestId: string)
      modifies this
      ensures Now() == SendHeartbeat(old(Now()), requestId)
    {
      hide HeartbeatTimeout, Sent;
      if socket.None? || socket.value >= |ready| || ready[socket.value] != 1 {
        return;
      }
      if pendingHeartbeatRequestId.Some? && pendingHeartbeatRequestId.value != "" {
        OnHeartbeatTimeout();
        return;
      }
      SendHeartbeatNow(requestId);
    }

    method SendHeartbeatNow(requestId: string)
      modifies this`pendingHeartbeatRequestId, this`unanswered, this`armed, this`heartbeatAckTimer, this`nextTimer
      ensures Beat() == Sent(old(Beat()), requestId)
    {
      pendingHeartbeatRequestId := Some(requestId);
      unanswered := unanswered + multiset{requestId};
      armed := armed[nextTimer := requestId];
      heartbeatAckTimer := Some(nextTimer);
      nextTimer := nextTimer + 1;
    }

    method OnAckTimerFires(timer: nat)
      requires timer in armed
      modifies this
      ensures Now() == OnAckTimer(old(Now()), timer)
    {
      var requestId := armed[timer];
      armed := armed - {timer};
      if pendingHeartbeatRequestId == Some(requestId) {
        OnHeartbeatTimeout();
      }
    }

    method OnAck(requestId: string, kind: string)
      modifies this
      ensures Now() == HandleAck(old(Now()), requestId, kind)
    {
      hide Disarm;
      if kind != "heartbeat" || pendingHeartbeatRequestId != Some(requestId) {
        return;
      }
      pendingHeartbeatRequestId := None;
      unanswered := unanswered - multiset{requestId};
      ClearHeartbeatAckTimer();
    }

    method OnMessage(frame: Incoming)
      modifies this
      ensures Now() == HandleMessage(old(Now()), frame)
    {
      hide HandleAck;
      var authFailure := false;
      match frame {
        case Malformed =>
        case Ack(requestId, kind, failure) =>
          OnAck(requestId, kind);
          authFailure := failure;
        case ServerEvent(failure) => authFailure := failure;
        case Other =>
      }
      if authFailure {
        closed := true;
        reconnectTimer := false;
      }
    }
  }
}
