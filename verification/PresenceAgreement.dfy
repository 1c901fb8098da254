/** The in-memory store against the same ideal registry, the agreement of the two stores over whole
    runs, and the exact limits of that agreement. */
module PresenceAgreement {
  import opened GoText
  import opened Presence
  import opened PresenceRefinement
  import M = MemoryStore
  import R = RedisStore

  // ---------------------------------------------------------------- the in-memory store

  ghost predicate TableKnown(t: M.Table, a: Registry) {
    forall u, c :: u in t && c in t[u] ==> Key(u, c) in a && a[Key(u, c)] == t[u][c]
  }

  ghost predicate LiveStored(t: M.Table, a: Registry, now: int) {
    forall k :: k in a && a[k].expiresAt > now ==> k.user in t && k.conn in t[k.user]
  }

  /** What the table holds is in the registry, and the registry's live entries are in the table. */
  ghost predicate MemoryInv(t: M.Table, a: Registry, now: int) {
    M.Tidy(t) && TableKnown(t, a) && LiveStored(t, a, now)
  }

  /** A heartbeat for a connection still in the table whose expiry is this very instant. */
  predicate Revives(t: M.Table, op: Op, now: int) {
    op.Heartbeat? && ValidRef(op.user, op.conn) && op.ttl > 0 &&
    var conns, c := M.UserTable(t, TrimSpace(op.user)), TrimSpace(op.conn);
    c in conns && conns[c].expiresAt == now
  }

  /** No heartbeat of the run does that. */
  ghost predicate NoRevivals(t: M.Table, events: seq<Event>)
    decreases events
  {
    events == [] ||
    (&& !Revives(t, events[0].op, events[0].now)
     && NoRevivals(M.Step(t, events[0].op, events[0].now).0, events[1..]))
  }

  lemma PutTable(t: M.Table, a: Registry, now: int, k: Key, m: Metadata)
    requires TableKnown(t, a) && LiveStored(t, a, now)
    ensures TableKnown(t[k.user := M.UserTable(t, k.user)[k.conn := m]], a[k := m])
    ensures LiveStored(t[k.user := M.UserTable(t, k.user)[k.conn := m]], a[k := m], now)
  {
  }

  lemma MemoryPut(t: M.Table, a: Registry, now: int, k: Key, m: Metadata)
    requires MemoryInv(t, a, now) && m.userId == k.user && m.connectionId == k.conn
    ensures MemoryInv(t[k.user := M.UserTable(t, k.user)[k.conn := m]], a[k := m], now)
  {
    hide M.Tidy, TableKnown, LiveStored;
    M.StoreKeepsTidy(t, m);
    PutTable(t, a, now, k, m);
  }

  lemma DropTable(t: M.Table, a: Registry, now: int, k: Key)
    requires TableKnown(t, a) && LiveStored(t, a, now)
    ensures var t' := M.PutOrDrop(t, k.user, M.UserTable(t, k.user) - {k.conn});
      TableKnown(t', a - {k}) && LiveStored(t', a - {k}, now)
  {
    var t' := M.PutOrDrop(t, k.user, M.UserTable(t, k.user) - {k.conn});
    forall j | j in a - {k} && (a - {k})[j].expiresAt > now ensures j.user in t' && j.conn in t'[j.user] {
      assert j.user == k.user ==> j.conn in M.UserTable(t, k.user) - {k.conn};
    }
  }

  lemma MemoryDrop(t: M.Table, a: Registry, now: int, k: Key)
    requires MemoryInv(t, a, now)
    ensures MemoryInv(M.PutOrDrop(t, k.user, M.UserTable(t, k.user) - {k.conn}), a - {k}, now)
  {
    M.PutKeepsTidy(t, k.user, M.UserTable(t, k.user) - {k.conn});
    DropTable(t, a, now, k);
  }

  lemma SweepTable(t: M.Table, a: Registry, now: int, user: string)
    requires TableKnown(t, a) && LiveStored(t, a, now)
    ensures TableKnown(M.Swept(t, user, now), a) && LiveStored(M.Swept(t, user, now), a, now)
  {
    var t' := M.Swept(t, user, now);
    forall j | j in a && a[j].expiresAt > now ensures j.user in t' && j.conn in t'[j.user] {
      assert j.user == user ==> j.conn in M.Unexpired(M.UserTable(t, user), now);
    }
  }

  lemma MemorySweep(t: M.Table, a: Registry, now: int, user: string)
    requires MemoryInv(t, a, now)
    ensures MemoryInv(M.Swept(t, user, now), a, now)
  {
    hide M.Swept, M.Tidy, TableKnown, LiveStored;
    M.SweepKeepsTidy(t, user, now);
    SweepTable(t, a, now, user);
  }

  lemma MemoryLive(t: M.Table, a: Registry, now: int, user: string)
    requires MemoryInv(t, a, now)
    ensures M.Unexpired(M.UserTable(t, user), now).Values == LiveOf(a, user, now)
  {
    var live := M.Unexpired(M.UserTable(t, user), now);
    forall m | m in live.Values ensures m in LiveOf(a, user, now) {
      var c :| c in live && live[c] == m;
      assert Key(user, c) in a;
      InLive(a, Key(user, c), now);
    }
    forall k | k in a && k.user == user && a[k].expiresAt > now ensures a[k] in live.Values {
      assert k.conn in live && live[k.conn] == a[k];
    }
  }

  ghost predicate Mirrors(t: (M.Table, Reply), a: (Registry, Reply), now: int) {
    t.1 == a.1 && MemoryInv(t.0, a.0, now)
  }

  lemma RegisterMirrors(t: M.Table, a: Registry, now: int, m: Metadata, ttl: int)
    requires MemoryInv(t, a, now)
    ensures Mirrors(M.OnRegister(t, m, ttl, now), Ideal(a, Register(m, ttl), now), now)
  {
    hide Normalize;
    if Normalize(m, now, ttl).Some? {
      var n := Normalize(m, now, ttl).value;
      MemoryPut(t, a, now, Key(n.userId, n.connectionId), n);
    }
  }

  lemma StoredNames(t: M.Table, a: Registry, now: int, k: Key)
    requires MemoryInv(t, a, now) && k.user in t && k.conn in t[k.user]
    ensures k in a && a[k] == t[k.user][k.conn] && a[k].userId == k.user && a[k].connectionId == k.conn
  {
  }

  lemma HeartbeatMirrors(t: M.Table, a: Registry, now: int, user: string, conn: string, ttl: int)
    requires MemoryInv(t, a, now) && !Revives(t, Heartbeat(user, conn, ttl), now)
    ensures Mirrors(M.OnHeartbeat(t, user, conn, ttl, now), Ideal(a, Heartbeat(user, conn, ttl), now), now)
  {
    hide TrimSpace, M.Tidy;
    if ValidRef(user, conn) && ttl > 0 {
      var k := Key(TrimSpace(user), TrimSpace(conn));
      assert k.conn in M.UserTable(t, k.user) ==> k in a && a[k] == M.UserTable(t, k.user)[k.conn];
      if M.Beats(t, k.user, k.conn, now) {
        StoredNames(t, a, now, k);
        MemoryPut(t, a, now, k, Touch(a[k], now, ttl));
        hide MemoryInv;
      }
    }
  }

  lemma StepMirrors(t: M.Table, a: Registry, now: int, op: Op)
    requires MemoryInv(t, a, now) && !Revives(t, op, now)
    ensures Mirrors(M.Step(t, op, now), Ideal(a, op, now), now)
  {
    hide TrimSpace, Normalize;
    match op
    case Register(m, ttl) => RegisterMirrors(t, a, now, m, ttl);
    case Heartbeat(user, conn, ttl) => HeartbeatMirrors(t, a, now, user, conn, ttl);
    case Unregister(user, conn) => MemoryDrop(t, a, now, Key(TrimSpace(user), TrimSpace(conn)));
    case List(user) =>
      MemorySweep(t, a, now, TrimSpace(user));
      MemoryLive(t, a, now, TrimSpace(user));
    case IsOnline(user) =>
      MemorySweep(t, a, now, TrimSpace(user));
      MemoryLive(t, a, now, TrimSpace(user));
  }

  /** There the memory store succeeds, and the registry has nothing left to refresh. */
  lemma RevivalDiffers(t: M.Table, a: Registry, now: int, op: Op)
    requires MemoryInv(t, a, now) && Revives(t, op, now)
    ensures M.Step(t, op, now).1 == Done && Ideal(a, op, now).1 == Failed(ConnectionNotFound)
  {
    hide TrimSpace;
    var k := Key(TrimSpace(op.user), TrimSpace(op.conn));
    assert k in a && a[k] == M.UserTable(t, k.user)[k.conn];
  }

  ghost predicate InOrder(start: int, events: seq<Event>) {
    && (forall i :: 0 <= i < |events| ==> start <= events[i].now)
    && (forall i, j :: 0 <= i < j < |events| ==> events[i].now <= events[j].now)
  }

  lemma RestInOrder(start: int, events: seq<Event>)
    requires InOrder(start, events) && events != []
    ensures start <= events[0].now && InOrder(events[0].now, events[1..])
  {
  }

  lemma RunsStart(t: M.Table, a: Registry, events: seq<Event>)
    requires events != []
    ensures var e := events[0];
      M.Run(t, events) == IdealRun(a, events) <==>
        && M.Step(t, e.op, e.now).1 == Ideal(a, e.op, e.now).1
        && M.Run(M.Step(t, e.op, e.now).0, events[1..]) == IdealRun(Ideal(a, e.op, e.now).0, events[1..])
  {
    hide M.Step, Ideal;
    var e := events[0];
    var x, y := M.Run(t, events), IdealRun(a, events);
    assert x[1..] == M.Run(M.Step(t, e.op, e.now).0, events[1..]);
    assert y[1..] == IdealRun(Ideal(a, e.op, e.now).0, events[1..]);
    assert x == [x[0]] + x[1..] && y == [y[0]] + y[1..];
  }

  /** On every run with a non-decreasing clock the in-memory store answers as the ideal registry does if
      and only if no heartbeat hits a stored connection at its expiry instant; it needs no terms on
      owners or time-to-live values. */
  lemma {:induction false} MemoryRefinesIff(t: M.Table, a: Registry, start: int, events: seq<Event>)
    requires MemoryInv(t, a, start) && InOrder(start, events)
    ensures M.Run(t, events) == IdealRun(a, events) <==> NoRevivals(t, events)
    decreases events
  {
    hide M.Step, Ideal, Revives;
    if events != [] {
      var e := events[0];
      RestInOrder(start, events);
      assert MemoryInv(t, a, e.now);
      hide MemoryInv, InOrder, M.Run, IdealRun;
      RunsStart(t, a, events);
      if Revives(t, e.op, e.now) {
        RevivalDiffers(t, a, e.now, e.op);
      } else {
        StepMirrors(t, a, e.now, e.op);
        MemoryRefinesIff(M.Step(t, e.op, e.now).0, Ideal(a, e.op, e.now).0, e.now, events[1..]);
      }
    }
  }

  // ---------------------------------------------------------------- agreement

  lemma {:induction false} LegalIsOrdered(a: Registry, events: seq<Event>, start: int, owner: Owner, ttls: Ttls)
    requires LegalRun(a, events, start, owner, ttls)
    ensures InOrder(start, events)
    decreases events
  {
    hide LegalOp, Ideal;
    if events != [] {
      var rest := events[1..];
      LegalIsOrdered(Ideal(a, events[0].op, events[0].now).0, rest, events[0].now, owner, ttls);
      assert forall i :: 1 <= i < |events| ==> events[i] == rest[i - 1];
    }
  }

  lemma EmptyStates(now: int, owner: Owner, ttls: Ttls, edge: bool)
    ensures MemoryInv(map[], map[], now) && RedisInv(R.Server(map[], map[], map[], edge), map[], now, owner, ttls)
  {
  }

  /** Started empty, the two stores give the same answers to a legal run, the same successes and failures
      and the same sorted lists, if and only if no heartbeat of it hits a connection that the in-memory
      store still holds at its expiry instant. */
  lemma StoresAgreeIff(events: seq<Event>, start: int, owner: Owner, ttls: Ttls, edge: bool)
    requires LegalRun(map[], events, start, owner, ttls) && Suits(ttls, edge)
    ensures M.Run(map[], events) == R.Run(R.Server(map[], map[], map[], edge), events) <==> NoRevivals(map[], events)
  {
    hide LegalRun, Suits, InOrder, MemoryInv, RedisInv, M.Run, R.Run, IdealRun, NoRevivals;
    EmptyStates(start, owner, ttls, edge);
    LegalIsOrdered(map[], events, start, owner, ttls);
    MemoryRefinesIff(map[], map[], start, events);
    RedisRefines(R.Server(map[], map[], map[], edge), map[], start, events, owner, ttls);
  }

  /** From related states the two stores answer a heartbeat differently exactly then: the memory store
      revives the connection, Redis reports that it is gone. */
  lemma HeartbeatDiffersIff(
    t: M.Table, s: R.Server, a: Registry, now: int, owner: Owner, ttls: Ttls, user: string, conn: string, ttl: int)
    requires MemoryInv(t, a, now) && RedisInv(s, a, now, owner, ttls)
    ensures M.OnHeartbeat(t, user, conn, ttl, now).1 != R.OnHeartbeat(s, user, conn, ttl, now).1 <==>
      Revives(t, Heartbeat(user, conn, ttl), now)
  {
    hide TrimSpace, RedisInv, R.FromHash, R.ToHash;
    var k := Key(TrimSpace(user), TrimSpace(conn));
    ReadAgrees(s, a, now, owner, ttls, k);
    assert k.conn in M.UserTable(t, k.user) ==> k in a && a[k] == M.UserTable(t, k.user)[k.conn];
  }

  // ---------------------------------------------------------------- what the next listing shows

  ghost predicate Shows(r: Reply, m: Metadata) {
    r.Connections? && m in r.list
  }

  lemma IdealShows(a: Registry, now: int, user: string, k: Key)
    requires KeysMatch(a) && TrimSpace(user) == k.user != "" && k in a && now < a[k].expiresAt
    ensures Shows(Ideal(a, List(user), now).1, a[k])
  {
    hide TrimSpace, Ideal, KeysMatch;
    ListingShows(a, user, now);
    assert k == Key(k.user, k.conn);
  }

  lemma RedisShows(s: R.Server, a: Registry, now: int, owner: Owner, ttls: Ttls, user: string, k: Key)
    requires RedisInv(s, a, now, owner, ttls) && TrimSpace(user) == k.user != "" && k in a && now < a[k].expiresAt
    ensures Shows(R.OnList(s, user, now).1, a[k])
  {
    assert KeysMatch(a);
    hide TrimSpace, Ideal, RedisInv, R.OnList, KeysMatch;
    IdealShows(a, now, user, k);
    ListRefines(s, a, now, owner, ttls, user);
  }

  lemma MemoryShows(t: M.Table, a: Registry, now: int, user: string, k: Key)
    requires MemoryInv(t, a, now) && KeysMatch(a) && TrimSpace(user) == k.user != "" && k in a && now < a[k].expiresAt
    ensures Shows(M.OnList(t, user, now).1, a[k])
  {
    hide TrimSpace, Ideal, MemoryInv, M.OnList, KeysMatch, M.OnIsOnline, M.OnRegister, M.OnHeartbeat, M.OnUnregister;
    IdealShows(a, now, user, k);
    StepMirrors(t, a, now, List(user));
  }

  lemma MemoryWaits(t: M.Table, a: Registry, now: int, later: int)
    requires MemoryInv(t, a, now) && now <= later
    ensures MemoryInv(t, a, later)
  {
  }

  /** A live entry of the registry stays in the listings of both stores until it expires. */
  lemma BothShow(t: M.Table, s: R.Server, a: Registry, now: int, owner: Owner, ttls: Ttls, user: string, k: Key, later: int)
    requires MemoryInv(t, a, now) && RedisInv(s, a, now, owner, ttls)
    requires TrimSpace(user) == k.user != "" && k in a && now <= later < a[k].expiresAt
    ensures Shows(M.OnList(t, user, later).1, a[k]) && Shows(R.OnList(s, user, later).1, a[k])
  {
    assert KeysMatch(a);
    hide TrimSpace, MemoryInv, RedisInv, M.OnList, R.OnList, KeysMatch, Shows;
    MemoryWaits(t, a, now, later);
    TimePasses(s, a, now, later, owner, ttls);
    MemoryShows(t, a, later, user, k);
    RedisShows(s, a, later, owner, ttls, user, k);
  }

  /** A heartbeat that succeeds in one store succeeds in both, and until the new expiry the listings of
      both show the connection as it was, but with this instant as its last heartbeat and the new expiry. */
  lemma HeartbeatShown(
    t: M.Table, s: R.Server, a: Registry, now: int, owner: Owner, ttls: Ttls, user: string, conn: string, ttl: int, later: int)
    requires MemoryInv(t, a, now) && RedisInv(s, a, now, owner, ttls) && Suits(ttls, s.edge)
    requires R.Int64(now) && LegalOp(a, Heartbeat(user, conn, ttl), now, owner, ttls)
    requires R.OnHeartbeat(s, user, conn, ttl, now).1 == Done && now <= later < now + ttl
    ensures M.OnHeartbeat(t, user, conn, ttl, now).1 == Done
    ensures var k := Key(TrimSpace(user), TrimSpace(conn));
      k in a &&
      var shown := a[k].(lastHeartbeatAt := now, expiresAt := now + ttl);
      && Shows(M.OnList(M.OnHeartbeat(t, user, conn, ttl, now).0, user, later).1, shown)
      && Shows(R.OnList(R.OnHeartbeat(s, user, conn, ttl, now).0, user, later).1, shown)
  {
    hide M.OnHeartbeat, R.OnHeartbeat, M.OnList, R.OnList, Ideal, MemoryInv, RedisInv, TrimSpace, LegalOp, Suits, Shows;
    var k, b := Key(TrimSpace(user), TrimSpace(conn)), Ideal(a, Heartbeat(user, conn, ttl), now).0;
    HeartbeatRefines(s, a, now, owner, ttls, user, conn, ttl);
    HeartbeatRecords(a, user, conn, ttl, now);
    NoRevivalOfLive(t, a, now, user, conn, ttl);
    HeartbeatMirrors(t, a, now, user, conn, ttl);
    BothShow(M.OnHeartbeat(t, user, conn, ttl, now).0, R.OnHeartbeat(s, user, conn, ttl, now).0, b, now, owner, ttls, user, k, later);
  }

  lemma NoRevivalOfLive(t: M.Table, a: Registry, now: int, user: string, conn: string, ttl: int)
    requires MemoryInv(t, a, now) && IsLive(a, Key(TrimSpace(user), TrimSpace(conn)), now)
    ensures !Revives(t, Heartbeat(user, conn, ttl), now)
  {
    hide TrimSpace;
  }

  /** A registration is shown by both stores until it expires, with the normalized metadata. */
  lemma RegistrationShown(
    t: M.Table, s: R.Server, a: Registry, now: int, owner: Owner, ttls: Ttls, m: Metadata, ttl: int, later: int)
    requires MemoryInv(t, a, now) && RedisInv(s, a, now, owner, ttls) && Suits(ttls, s.edge)
    requires R.Int64(now) && LegalOp(a, Register(m, ttl), now, owner, ttls)
    requires Normalize(m, now, ttl).Some? && now <= later < now + ttl
    ensures M.OnRegister(t, m, ttl, now).1 == R.OnRegister(s, m, ttl, now).1 == Done
    ensures var n := Normalize(m, now, ttl).value;
      && Shows(M.OnList(M.OnRegister(t, m, ttl, now).0, m.userId, later).1, n)
      && Shows(R.OnList(R.OnRegister(s, m, ttl, now).0, m.userId, later).1, n)
  {
    hide M.OnRegister, R.OnRegister, M.OnList, R.OnList, Ideal, MemoryInv, RedisInv, TrimSpace, LegalOp, Suits, Normalize, Shows;
    var k, b := Key(TrimSpace(m.userId), TrimSpace(m.connectionId)), Ideal(a, Register(m, ttl), now).0;
    RegisterRefines(s, a, now, owner, ttls, m, ttl);
    RegisterMirrors(t, a, now, m, ttl);
    RegistrationRecords(a, m, ttl, now);
    BothShow(M.OnRegister(t, m, ttl, now).0, R.OnRegister(s, m, ttl, now).0, b, now, owner, ttls, m.userId, k, later);
  }

  // ---------------------------------------------------------------- the limits

  /** The bare metadata of a connection. */
  function Plain(user: string, conn: string): Metadata {
    Metadata(user, conn, "", "", "", "", "", "", 0, 0, 0)
  }

  function Registered(user: string, conn: string, expiresAt: int): Metadata {
    Plain(user, conn).(expiresAt := expiresAt)
  }

  predicate PlainName(s: string) {
    s != "" && TrimSpace(s) == s
  }

  lemma TrimEmpty()
    ensures TrimSpace("") == ""
  {
  }

  lemma PlainNormalizes(user: string, conn: string, ttl: int)
    requires PlainName(user) && PlainName(conn) && ttl > 0
    ensures Normalize(Plain(user, conn), 0, ttl) == Some(Registered(user, conn, ttl))
  {
    TrimEmpty();
    hide TrimSpace;
  }

  lemma OneCharName(s: string)
    requires |s| == 1 && !IsSpace(s[0])
    ensures PlainName(s)
  {
    TrimKeeps(s, IsSpace);
  }

  lemma PlainRegistered(s: R.Server, a: Registry, u: string, c: string, ttl: int)
    requires PlainName(u) && PlainName(c) && ttl > 0
    ensures R.Step(s, Register(Plain(u, c), ttl), 0).0 == s.Publish(u, c, Registered(u, c, ttl), ttl, 0)
    ensures Ideal(a, Register(Plain(u, c), ttl), 0).0 == a[Key(u, c) := Registered(u, c, ttl)]
  {
    hide TrimSpace, Normalize, R.ToHash;
    PlainNormalizes(u, c, ttl);
  }

  /** A registration and a heartbeat at the very instant it expires. */
  function RevivalRun(u: string, c: string, ttl: int): seq<Event> {
    [Event(Register(Plain(u, c), ttl), 0), Event(Heartbeat(u, c, ttl), ttl)]
  }

  /** On this run the stores part. */
  lemma RevivalPartsStores(u: string, c: string, owner: Owner, ttls: Ttls, ttl: int, edge: bool)
    requires PlainName(u) && PlainName(c) && owner(c) == u && Uses(ttls, ttl) && Suits(ttls, edge)
    ensures LegalRun(map[], RevivalRun(u, c, ttl), 0, owner, ttls)
    ensures M.Run(map[], RevivalRun(u, c, ttl)) != R.Run(R.Server(map[], map[], map[], edge), RevivalRun(u, c, ttl))
  {
    hide TrimSpace, Normalize, M.Run, R.Run, Suits;
    var events := RevivalRun(u, c, ttl);
    var e, f := events[0], events[1];
    assert events[1..] == [f] && [f][1..] == [];
    var a1 := Ideal(map[], e.op, e.now).0;
    assert LegalRun(a1, [f], 0, owner, ttls);
    PlainNormalizes(u, c, ttl);
    assert Revives(M.Step(map[], e.op, e.now).0, f.op, f.now);
    assert !NoRevivals(map[], events);
    StoresAgreeIff(events, 0, owner, ttls, edge);
  }

  // ---------------------------------------------------------------- which time-to-live values Redis suits

  /** Registrations at instant 0 and a listing later. */
  function ListRun(u: string, c: string, ttl: int, at: int): seq<Event> {
    [Event(Register(Plain(u, c), ttl), 0), Event(List(u), at)]
  }

  function SecondRun(u: string, c: string, long: int, d: string, ttl: int, at: int): seq<Event> {
    [Event(Register(Plain(u, c), long), 0), Event(Register(Plain(u, d), ttl), 0), Event(List(u), at)]
  }

  lemma RedisNext(s: R.Server, e: Event, rest: seq<Event>)
    ensures R.Run(s, [e] + rest) == [R.Step(s, e.op, e.now).1] + R.Run(R.Step(s, e.op, e.now).0, rest)
  {
    hide R.Step;
    assert ([e] + rest)[1..] == rest;
  }

  lemma IdealNext(a: Registry, e: Event, rest: seq<Event>)
    ensures IdealRun(a, [e] + rest) == [Ideal(a, e.op, e.now).1] + IdealRun(Ideal(a, e.op, e.now).0, rest)
  {
    hide Ideal;
    assert ([e] + rest)[1..] == rest;
  }

  /** Two runs differ if they do after their first event. */
  lemma DiffersLater(s: R.Server, a: Registry, e: Event, rest: seq<Event>)
    requires R.Run(R.Step(s, e.op, e.now).0, rest) != IdealRun(Ideal(a, e.op, e.now).0, rest)
    ensures R.Run(s, [e] + rest) != IdealRun(a, [e] + rest)
  {
    RedisNext(s, e, rest);
    IdealNext(a, e, rest);
    hide R.Step, Ideal, R.Run, IdealRun;
    var x, y := R.Run(s, [e] + rest), IdealRun(a, [e] + rest);
    assert x[1..] == R.Run(R.Step(s, e.op, e.now).0, rest) && y[1..] == IdealRun(Ideal(a, e.op, e.now).0, rest);
  }

  lemma ListDiffers(s: R.Server, a: Registry, u: string, k: Key, now: int)
    requires PlainName(u) && s.Live(u, now) == {} && KeysMatch(a) && k in a && k.user == u && a[k].expiresAt > now
    ensures R.Run(s, [Event(List(u), now)]) != IdealRun(a, [Event(List(u), now)])
  {
    hide TrimSpace, R.FromHash, Listing;
    var e := Event(List(u), now);
    RedisNext(s, e, []);
    IdealNext(a, e, []);
    assert [e] + [] == [e];
    IsTheListing([], {});
    InLive(a, k, now);
    LiveDistinct(a, u, now);
    assert R.Run(s, [e])[0] == Connections([]) && IdealRun(a, [e])[0] == Connections(Listing(LiveOf(a, u, now)));
  }

  /** A hash that EXPIRE removes before the connection expires: the connection is gone from the list. */
  lemma EarlyHash(u: string, c: string, ttl: int, at: int, edge: bool)
    requires PlainName(u) && PlainName(c) && 0 < ttl && R.LastsFor(R.WholeSeconds(ttl), edge) <= at < ttl
    ensures R.Run(R.Server(map[], map[], map[], edge), ListRun(u, c, ttl, at)) != IdealRun(map[], ListRun(u, c, ttl, at))
  {
    hide PlainName, Normalize, R.ToHash, R.FromHash, R.Run, IdealRun, Ideal, R.Step;
    var s, m := R.Server(map[], map[], map[], edge), Registered(u, c, ttl);
    var s1, a1 := s.Publish(u, c, m, ttl, 0), map[][Key(u, c) := m];
    PlainRegistered(s, map[], u, c, ttl);
    NothingStored(s1, u, at);
    ListDiffers(s1, a1, u, Key(u, c), at);
    var e, f := Event(Register(Plain(u, c), ttl), 0), Event(List(u), at);
    DiffersLater(s, map[], e, [f]);
    assert [e] + [f] == ListRun(u, c, ttl, at);
  }

  lemma NothingStored(s: R.Server, u: string, at: int)
    requires forall c :: c in s.SMembers(u, at) ==> s.HGetAll(c, at) == map[]
    ensures s.Live(u, at) == {}
  {
  }

  /** A set that a second registration lets expire before the first connection does. */
  lemma EarlySet(u: string, c: string, long: int, d: string, ttl: int, at: int, edge: bool)
    requires PlainName(u) && PlainName(c) && PlainName(d) && c != d && 0 < ttl && 0 < long
    requires R.LastsFor(R.WholeSeconds(2 * ttl), edge) <= at < long
    ensures R.Run(R.Server(map[], map[], map[], edge), SecondRun(u, c, long, d, ttl, at))
         != IdealRun(map[], SecondRun(u, c, long, d, ttl, at))
  {
    hide PlainName, Normalize, R.ToHash, R.FromHash, R.Run, IdealRun, Ideal, R.Step;
    var s := R.Server(map[], map[], map[], edge);
    var m, n := Registered(u, c, long), Registered(u, d, ttl);
    var s1, a1 := s.Publish(u, c, m, long, 0), map[][Key(u, c) := m];
    var s2, a2 := s1.Publish(u, d, n, ttl, 0), a1[Key(u, d) := n];
    PlainRegistered(s, map[], u, c, long);
    PlainRegistered(s1, a1, u, d, ttl);
    assert s2.SMembers(u, at) == {};
    NothingStored(s2, u, at);
    ListDiffers(s2, a2, u, Key(u, c), at);
    var e, f, g := Event(Register(Plain(u, c), long), 0), Event(Register(Plain(u, d), ttl), 0), Event(List(u), at);
    DiffersLater(s1, a1, f, [g]);
    DiffersLater(s, map[], e, [f] + [g]);
    assert [e] + ([f] + [g]) == SecondRun(u, c, long, d, ttl, at);
  }

  lemma ListRunIsLegal(u: string, c: string, ttl: int, at: int, owner: Owner, ttls: Ttls)
    requires PlainName(u) && PlainName(c) && owner(c) == u && Uses(ttls, ttl) && 0 <= at < ttl
    ensures LegalRun(map[], ListRun(u, c, ttl, at), 0, owner, ttls)
  {
    hide TrimSpace, Ideal;
    var events := ListRun(u, c, ttl, at);
    assert events[1..] == [events[1]] && [events[1]][1..] == [];
    assert LegalRun(Ideal(map[], events[0].op, 0).0, [events[1]], 0, owner, ttls);
  }

  lemma SecondRunIsLegal(u: string, c: string, long: int, d: string, ttl: int, at: int, owner: Owner, ttls: Ttls)
    requires PlainName(u) && PlainName(c) && PlainName(d) && owner(c) == u && owner(d) == u
    requires Uses(ttls, ttl) && Uses(ttls, long) && 0 <= at < long
    ensures LegalRun(map[], SecondRun(u, c, long, d, ttl, at), 0, owner, ttls)
  {
    hide TrimSpace, Ideal;
    var events := SecondRun(u, c, long, d, ttl, at);
    var e1, e2 := events[1..], events[2..];
    assert e1[1..] == e2 && e1[0] == events[1] && e2[0] == events[2] && e2[1..] == [];
    var a1 := Ideal(map[], events[0].op, 0).0;
    assert LegalRun(Ideal(a1, events[1].op, 0).0, e2, 0, owner, ttls);
    assert LegalRun(a1, e1, 0, owner, ttls);
  }

  ghost predicate AlwaysRefines(ttls: Ttls, edge: bool) {
    forall events, start, owner :: LegalRun(map[], events, start, owner, ttls) ==>
      R.Run(R.Server(map[], map[], map[], edge), events) == IdealRun(map[], events)
  }

  lemma SampleNames()
    ensures PlainName("u") && PlainName("a") && PlainName("b")
  {
    hide TrimSpace;
    OneCharName("u");
    OneCharName("a");
    OneCharName("b");
  }

  lemma Unsuitable(ttls: Ttls, edge: bool)
    requires !Suits(ttls, edge)
    ensures !AlwaysRefines(ttls, edge)
  {
    hide LegalRun, R.Run, IdealRun, ListRun, SecondRun, PlainName;
    SampleNames();
    var owner: Owner := s => "u";
    if !HashesLast(ttls, edge) {
      var t :| Uses(ttls, t) && t > R.LastsFor(R.WholeSeconds(t), edge);
      var at := R.LastsFor(R.WholeSeconds(t), edge);
      ListRunIsLegal("u", "a", t, at, owner, ttls);
      EarlyHash("u", "a", t, at, edge);
    } else {
      var t, long :| Uses(ttls, t) && Uses(ttls, long) && long > R.LastsFor(R.WholeSeconds(2 * t), edge);
      var at := R.LastsFor(R.WholeSeconds(2 * t), edge);
      SecondRunIsLegal("u", "a", long, "b", t, at, owner, ttls);
      EarlySet("u", "a", long, "b", t, at, edge);
    }
  }

  /** For any choice of time-to-live values, Redis meets the registry on every legal run that uses them
      if and only if each hash lasts as long as its connection and each refreshed set as long as any. */
  lemma TtlsIff(ttls: Ttls, edge: bool)
    ensures AlwaysRefines(ttls, edge) <==> Suits(ttls, edge)
  {
    if Suits(ttls, edge) {
      forall events, start, owner | LegalRun(map[], events, start, owner, ttls)
        ensures R.Run(R.Server(map[], map[], map[], edge), events) == IdealRun(map[], events)
      {
        hide LegalRun, RedisInv, R.Run, IdealRun;
        EmptyStates(start, owner, ttls, edge);
        RedisRefines(R.Server(map[], map[], map[], edge), map[], start, events, owner, ttls);
      }
    } else {
      Unsuitable(ttls, edge);
    }
  }

  function Window(lo: int, hi: int): Ttls {
    t => lo <= t <= hi && t % 1000 == 0
  }

  /** For the whole-second values between two: if and only if the longest is at most twice the shortest. */
  lemma TtlWindowIff(lo: int, hi: int, edge: bool)
    requires 0 < lo <= hi <= MAX_TTL && lo % 1000 == 0 && hi % 1000 == 0
    ensures AlwaysRefines(Window(lo, hi), edge) <==> hi <= 2 * lo
  {
    TtlsIff(Window(lo, hi), edge);
    WindowSuits(lo, hi, edge);
    hide AlwaysRefines, Suits;
  }

  lemma WholeStays(t: int)
    requires t > 0 && t % 1000 == 0
    ensures R.WholeSeconds(t) == t && R.WholeSeconds(2 * t) == 2 * t
  {
  }

  lemma WindowSuits(lo: int, hi: int, edge: bool)
    requires 0 < lo <= hi <= MAX_TTL && lo % 1000 == 0 && hi % 1000 == 0
    ensures Suits(Window(lo, hi), edge) <==> hi <= 2 * lo
  {
    hide R.WholeSeconds;
    var ttls := Window(lo, hi);
    assert Uses(ttls, lo) && Uses(ttls, hi);
    forall t | Uses(ttls, t)
      ensures R.WholeSeconds(t) == t && R.WholeSeconds(2 * t) == 2 * t && lo <= t <= hi
    {
      WholeStays(t);
    }
  }

  /** For one fixed value: if and only if it has no fraction of a second that EXPIRE drops, apart from a
      single millisecond where keys can be read on the instant they expire. */
  lemma FixedTtlIff(ttl: int, edge: bool)
    requires 0 < ttl <= MAX_TTL
    ensures AlwaysRefines(t => t == ttl, edge) <==> ttl < 1000 || ttl % 1000 == 0 || (edge && ttl % 1000 == 1)
  {
    var ttls: Ttls := t => t == ttl;
    TtlsIff(ttls, edge);
    hide AlwaysRefines;
    assert Uses(ttls, ttl);
    assert HashesLast(ttls, edge) <==> ttl <= R.LastsFor(R.WholeSeconds(ttl), edge);
    assert SetsLast(ttls, edge) <==> ttl <= R.LastsFor(R.WholeSeconds(2 * ttl), edge);
  }

  /** With one and a half seconds a listing after 1.4 seconds has lost the connection. */
  lemma FractionalTtl(u: string, c: string, edge: bool)
    requires PlainName(u) && PlainName(c)
    ensures R.Run(R.Server(map[], map[], map[], edge), ListRun(u, c, 1500, 1400)) != IdealRun(map[], ListRun(u, c, 1500, 1400))
  {
    hide R.Run, IdealRun, ListRun, PlainName;
    EarlyHash(u, c, 1500, 1400, edge);
  }

  // ---------------------------------------------------------------- unregistering someone else's id

  /** A user's connection, unregistered by another user, then listed. */
  function ForeignRun(u: string, v: string, c: string, ttl: int): seq<Event> {
    [Event(Register(Plain(u, c), ttl), 0), Event(Unregister(v, c), 0), Event(List(u), 0)]
  }

  /** Redis deletes the hash whoever asks, so the owner's live connection is lost. */
  lemma ForeignUnregister(u: string, v: string, c: string, ttl: int, edge: bool)
    requires PlainName(u) && PlainName(v) && PlainName(c) && u != v && 0 < ttl
    ensures R.Run(R.Server(map[], map[], map[], edge), ForeignRun(u, v, c, ttl)) != IdealRun(map[], ForeignRun(u, v, c, ttl))
  {
    hide PlainName, Normalize, R.ToHash, R.FromHash, R.Run, IdealRun, R.Step, Ideal;
    var s, m := R.Server(map[], map[], map[], edge), Registered(u, c, ttl);
    var s1, a1 := s.Publish(u, c, m, ttl, 0), map[][Key(u, c) := m];
    var e, f, g := Event(Register(Plain(u, c), ttl), 0), Event(Unregister(v, c), 0), Event(List(u), 0);
    PlainRegistered(s, map[], u, c, ttl);
    var s2, a2 := R.Step(s1, f.op, 0).0, Ideal(a1, f.op, 0).0;
    ForeignStep(s, u, v, c, m, ttl);
    NothingStored(s2, u, 0);
    ListDiffers(s2, a2, u, Key(u, c), 0);
    DiffersLater(s1, a1, f, [g]);
    DiffersLater(s, map[], e, [f] + [g]);
    assert [e] + ([f] + [g]) == ForeignRun(u, v, c, ttl);
  }

  lemma ForeignStep(s: R.Server, u: string, v: string, c: string, m: Metadata, ttl: int)
    requires PlainName(v) && PlainName(c) && u != v && s.conns == map[]
    ensures R.Step(s.Publish(u, c, m, ttl, 0), Unregister(v, c), 0).0.conns == map[]
    ensures Ideal(map[Key(u, c) := m], Unregister(v, c), 0).0 == map[Key(u, c) := m]
  {
    hide TrimSpace, R.ToHash, R.FromHash;
    var a := map[Key(u, c) := m];
    assert a - {Key(v, c)} == a;
  }
}
