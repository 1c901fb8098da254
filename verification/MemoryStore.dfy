/** pkg/presence/memory.go: the in-process store, a map of maps changed in place. */
module MemoryStore {
  import opened GoText
  import opened Presence

  type Table = map<string, map<string, Metadata>>

  function UserTable(t: Table, user: string): map<string, Metadata> {
    if user in t then t[user] else map[]
  }

  /** Write a user's connections back, dropping the user when none are left. */
  function PutOrDrop(t: Table, user: string, conns: map<string, Metadata>): Table {
    if conns == map[] then t - {user} else t[user := conns]
  }

  function Unexpired(conns: map<string, Metadata>, now: int): map<string, Metadata> {
    map c | c in conns && conns[c].expiresAt > now :: conns[c]
  }

  /** The table after `ListUserConnections`: expired entries of that user are gone. */
  function Swept(t: Table, user: string, now: int): Table {
    if UserTable(t, user) == map[] then t else PutOrDrop(t, user, Unexpired(UserTable(t, user), now))
  }

  function Beats(t: Table, user: string, conn: string, now: int): bool {
    conn in UserTable(t, user) && UserTable(t, user)[conn].expiresAt >= now
  }

  function OnRegister(t: Table, metadata: Metadata, ttl: int, now: int): (Table, Reply) {
    match Normalize(metadata, now, ttl)
    case None => (t, Failed(InvalidConnection))
    case Some(m) => (t[m.userId := UserTable(t, m.userId)[m.connectionId := m]], Done)
  }

  function OnHeartbeat(t: Table, user: string, conn: string, ttl: int, now: int): (Table, Reply) {
    var u, c := TrimSpace(user), TrimSpace(conn);
    if !ValidRef(user, conn) || ttl <= 0 then (t, Failed(InvalidConnection))
    else if !Beats(t, u, c, now) then (t, Failed(ConnectionNotFound))
    else (t[u := t[u][c := Touch(t[u][c], now, ttl)]], Done)
  }

  function OnUnregister(t: Table, user: string, conn: string): (Table, Reply) {
    var u, c := TrimSpace(user), TrimSpace(conn);
    if !ValidRef(user, conn) then (t, Failed(InvalidConnection))
    else (PutOrDrop(t, u, UserTable(t, u) - {c}), Done)
  }

  ghost function OnList(t: Table, user: string, now: int): (Table, Reply) {
    var u := TrimSpace(user);
    if u == "" then (t, Failed(InvalidConnection))
    else (Swept(t, u, now), Connections(Listing(Unexpired(UserTable(t, u), now).Values)))
  }

  ghost function OnIsOnline(t: Table, user: string, now: int): (Table, Reply) {
    var u := TrimSpace(user);
    if u == "" then (t, Failed(InvalidConnection))
    else (Swept(t, u, now), Online(Unexpired(UserTable(t, u), now).Values != {}))
  }

  /** One call on the table. */
  ghost function Step(t: Table, op: Op, now: int): (Table, Reply) {
    match op
    case Register(metadata, ttl) => OnRegister(t, metadata, ttl, now)
    case Heartbeat(user, conn, ttl) => OnHeartbeat(t, user, conn, ttl, now)
    case Unregister(user, conn) => OnUnregister(t, user, conn)
    case List(user) => OnList(t, user, now)
    case IsOnline(user) => OnIsOnline(t, user, now)
  }

  ghost function Run(t: Table, events: seq<Event>): seq<Reply>
    decreases events
  {
    if events == [] then []
    else
      var (next, reply) := Step(t, events[0].op, events[0].now);
      [reply] + Run(next, events[1..])
  }

  /** No user is kept without connections, and entries sit under their own names. */
  ghost predicate Tidy(t: Table) {
    && (forall u :: u in t ==> t[u] != map[])
    && (forall u, c :: u in t && c in t[u] ==> t[u][c].userId == u && t[u][c].connectionId == c)
  }

  ghost predicate Named(u: string, conns: map<string, Metadata>) {
    forall c :: c in conns ==> conns[c].userId == u && conns[c].connectionId == c
  }

  lemma PutKeepsTidy(t: Table, u: string, conns: map<string, Metadata>)
    requires Tidy(t) && Named(u, conns)
    ensures Tidy(PutOrDrop(t, u, conns))
  {
  }

  lemma StoreKeepsTidy(t: Table, m: Metadata)
    requires Tidy(t)
    ensures Tidy(t[m.userId := UserTable(t, m.userId)[m.connectionId := m]])
  {
    var conns := UserTable(t, m.userId)[m.connectionId := m];
    assert m.connectionId in conns;
    PutKeepsTidy(t, m.userId, conns);
  }

  lemma RegisterKeepsTidy(t: Table, metadata: Metadata, ttl: int, now: int)
    requires Tidy(t)
    ensures Tidy(OnRegister(t, metadata, ttl, now).0)
  {
    if Normalize(metadata, now, ttl).Some? {
      StoreKeepsTidy(t, Normalize(metadata, now, ttl).value);
    }
  }

  lemma HeartbeatKeepsTidy(t: Table, user: string, conn: string, ttl: int, now: int)
    requires Tidy(t)
    ensures Tidy(OnHeartbeat(t, user, conn, ttl, now).0)
  {
    var u, c := TrimSpace(user), TrimSpace(conn);
    if Beats(t, u, c, now) {
      StoreKeepsTidy(t, Touch(t[u][c], now, ttl));
    }
  }

  lemma UnregisterKeepsTidy(t: Table, user: string, conn: string)
    requires Tidy(t)
    ensures Tidy(OnUnregister(t, user, conn).0)
  {
    PutKeepsTidy(t, TrimSpace(user), UserTable(t, TrimSpace(user)) - {TrimSpace(conn)});
  }

  lemma SweepKeepsTidy(t: Table, user: string, now: int)
    requires Tidy(t)
    ensures Tidy(Swept(t, user, now))
  {
    PutKeepsTidy(t, user, Unexpired(UserTable(t, user), now));
  }

  /** Every call keeps the table tidy: no user is left with an empty connection map. */
  lemma StepKeepsTidy(t: Table, op: Op, now: int)
    requires Tidy(t)
    ensures Tidy(Step(t, op, now).0)
  {
    match op
    case Register(metadata, ttl) => RegisterKeepsTidy(t, metadata, ttl, now);
    case Heartbeat(user, conn, ttl) => HeartbeatKeepsTidy(t, user, conn, ttl, now);
    case Unregister(user, conn) => UnregisterKeepsTidy(t, user, conn);
    case List(user) => SweepKeepsTidy(t, TrimSpace(user), now);
    case IsOnline(user) => SweepKeepsTidy(t, TrimSpace(user), now);
  }

  class Store {
    var connections: Table

    ghost predicate Valid()
      reads this
    {
      Tidy(connections)
    }

    constructor ()
      ensures Valid() && connections == map[]
    {
      connections := map[];
    }

    method RegisterConnection(metadata: Metadata, ttl: int, now: int) returns (r: Reply)
      requires Valid()
      modifies this
      ensures Valid() && (connections, r) == OnRegister(old(connections), metadata, ttl, now)
    {
      RegisterKeepsTidy(connections, metadata, ttl, now);
      var normalized := Normalize(metadata, now, ttl);
      if normalized.None? { return Failed(InvalidConnection); }
      var m := normalized.value;
      var conns := if m.userId in connections then connections[m.userId] else map[];
      connections := connections[m.userId := conns[m.connectionId := m]];
      r := Done;
    }

    method Heartbeat(user: string, conn: string, ttl: int, now: int) returns (r: Reply)
      requires Valid()
      modifies this
      ensures Valid() && (connections, r) == OnHeartbeat(old(connections), user, conn, ttl, now)
    {
      HeartbeatKeepsTidy(connections, user, conn, ttl, now);
      if !ValidRef(user, conn) || ttl <= 0 { return Failed(InvalidConnection); }
      var u, c := TrimSpace(user), TrimSpace(conn);
      var conns := if u in connections then connections[u] else map[];
      if c !in conns || conns[c].expiresAt < now { return Failed(ConnectionNotFound); }
      connections := connections[u := conns[c := Touch(conns[c], now, ttl)]];
      r := Done;
    }

    method UnregisterConnection(user: string, conn: string) returns (r: Reply)
      requires Valid()
      modifies this
      ensures Valid() && (connections, r) == OnUnregister(old(connections), user, conn)
    {
      UnregisterKeepsTidy(connections, user, conn);
      if !ValidRef(user, conn) { return Failed(InvalidConnection); }
      var u, c := TrimSpace(user), TrimSpace(conn);
      var conns := if u in connections then connections[u] else map[];
      conns := conns - {c};
      if |conns| == 0 {
        connections := connections - {u};
      } else {
        connections := connections[u := conns];
      }
      r := Done;
    }

    /** The loop deletes expired entries while it collects the live ones, in any order. */
    method Sweep(conns: map<string, Metadata>, now: int) returns (kept: map<string, Metadata>, live: seq<Metadata>)
      requires forall c :: c in conns ==> conns[c].connectionId == c
      ensures kept == Unexpired(conns, now)
      ensures Elems(live) == kept.Values
      ensures NoRepeats(live)
    {
      kept, live := conns, [];
      var todo := conns.Keys;
      while todo != {}
        invariant todo <= kept.Keys <= conns.Keys
        invariant forall c :: c in conns ==> (c in kept <==> c in todo || conns[c].expiresAt > now)
        invariant forall c :: c in kept ==> kept[c] == conns[c]
        invariant forall m :: m in live <==> m.connectionId in kept && m.connectionId !in todo && m == conns[m.connectionId]
        invariant NoRepeats(live)
      {
        var c :| c in todo;
        todo := todo - {c};
        if kept[c].expiresAt <= now {
          kept := kept - {c};
        } else {
          AppendNew(live, kept[c]);
          live := live + [kept[c]];
        }
      }
      assert kept == Unexpired(conns, now);
      assert Elems(live) == kept.Values;
    }

    method ListUserConnections(user: string, now: int) returns (r: Reply)
      requires Valid()
      modifies this
      ensures Valid() && (connections, r) == OnList(old(connections), user, now)
    {
      SweepKeepsTidy(connections, TrimSpace(user), now);
      if TrimSpace(user) == "" { return Failed(InvalidConnection); }
      var u := TrimSpace(user);
      var conns := if u in connections then connections[u] else map[];
      if |conns| == 0 {
        assert Unexpired(conns, now).Values == {};
        IsTheListing([], {});
        return Connections([]);
      }
      var kept, live := Sweep(conns, now);
      if |kept| == 0 {
        connections := connections - {u};
      } else {
        connections := connections[u := kept];
      }
      var sorted := SortById(live);
      IsTheListing(sorted, kept.Values);
      r := Connections(sorted);
    }

    method IsUserOnline(user: string, now: int) returns (r: Reply)
      requires Valid()
      modifies this
      ensures Valid() && (connections, r) == OnIsOnline(old(connections), user, now)
    {
      var listed := ListUserConnections(user, now);
      if TrimSpace(user) == "" { return listed; }
      NonEmptyListing(Unexpired(UserTable(old(connections), TrimSpace(user)), now));
      r := Online(|listed.list| > 0);
    }
  }

  lemma NonEmptyListing(conns: map<string, Metadata>)
    requires forall c :: c in conns ==> conns[c].connectionId == c
    ensures Listing(conns.Values) != [] <==> conns.Values != {}
  {
    ListingExists(conns.Values);
    var s := Listing(conns.Values);
    assert s == [] || s[0] in s;
  }
}
