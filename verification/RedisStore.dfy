/** pkg/presence/redis.go: the same facts spread over a hash per connection, a set per user and an
    online key, each with its own expiry. Store calls are atomic and share the server's clock. */
module RedisStore {
  import opened GoText
  import opened BitFields
  import opened Presence

  // ---------------------------------------------------------------- the hash of one connection

  datatype Field =
    | UserId | ConnectionId | InstanceId | GatewayId | DeviceId | Platform | RemoteAddr | UserAgent
    | ConnectedAtMs | LastHeartbeatAtMs | ExpiresAtMs

  type Fields = map<Field, string>

  /** `redisHash`. */
  function ToHash(m: Metadata): Fields {
    map[
      UserId := m.userId,
      ConnectionId := m.connectionId,
      InstanceId := m.instanceId,
      GatewayId := m.gatewayId,
      DeviceId := m.deviceId,
      Platform := m.platform,
      RemoteAddr := m.remoteAddr,
      UserAgent := m.userAgent,
      ConnectedAtMs := FormatInt(m.connectedAt),
      LastHeartbeatAtMs := FormatInt(m.lastHeartbeatAt),
      ExpiresAtMs := FormatInt(m.expiresAt)
    ]
  }

  function Get(f: Fields, k: Field): string {
    if k in f then f[k] else ""
  }

  function UnixMilliField(f: Fields, k: Field): Option<int> {
    var raw := TrimSpace(Get(f, k));
    if raw == "" then None else ParseInt(raw)
  }

  /** `metadataFromRedisHash`. */
  function FromHash(f: Fields): Option<Metadata> {
    if f == map[] then None
    else
      var connectedAt := UnixMilliField(f, ConnectedAtMs);
      var lastHeartbeatAt := UnixMilliField(f, LastHeartbeatAtMs);
      var expiresAt := UnixMilliField(f, ExpiresAtMs);
      if connectedAt.None? || lastHeartbeatAt.None? || expiresAt.None? then None
      else if Get(f, UserId) == "" || Get(f, ConnectionId) == "" then None
      else Some(Metadata(
        Get(f, UserId), Get(f, ConnectionId), OrElse(Get(f, InstanceId), Get(f, GatewayId)),
        Get(f, GatewayId), Get(f, DeviceId), Get(f, Platform), Get(f, RemoteAddr), Get(f, UserAgent),
        connectedAt.value, lastHeartbeatAt.value, expiresAt.value))
  }

  predicate Int64(x: int) {
    -TWO63 <= x < TWO63
  }

  /** What normalized metadata looks like. */
  predicate WellFormed(m: Metadata) {
    && m.userId != "" && m.connectionId != ""
    && m.instanceId == OrElse(m.instanceId, m.gatewayId)
    && Int64(m.connectedAt) && Int64(m.lastHeartbeatAt) && Int64(m.expiresAt)
  }

  lemma NormalizedIsWellFormed(m: Metadata, now: int, ttl: int)
    requires Normalize(m, now, ttl).Some?
    requires Int64(m.connectedAt) && Int64(m.lastHeartbeatAt) && Int64(now) && Int64(now + ttl)
    ensures WellFormed(Normalize(m, now, ttl).value)
  {
    InstanceStable(m.instanceId, m.gatewayId);
    hide TrimSpace, OrElse;
  }

  lemma InstanceStable(a: string, b: string)
    ensures var i := OrElse(a, b); i == OrElse(i, OrElse(b, i))
  {
  }

  lemma TimeFieldReads(f: Fields, k: Field, t: int)
    requires Get(f, k) == FormatInt(t) && Int64(t)
    ensures UnixMilliField(f, k) == Some(t)
  {
    TrimOfFormat(t);
    ParseOfFormat(t);
  }

  lemma HashGets(m: Metadata)
    ensures var f := ToHash(m);
      && f != map[]
      && Get(f, UserId) == m.userId && Get(f, ConnectionId) == m.connectionId
      && Get(f, InstanceId) == m.instanceId && Get(f, GatewayId) == m.gatewayId
      && Get(f, DeviceId) == m.deviceId && Get(f, Platform) == m.platform
      && Get(f, RemoteAddr) == m.remoteAddr && Get(f, UserAgent) == m.userAgent
      && Get(f, ConnectedAtMs) == FormatInt(m.connectedAt)
      && Get(f, LastHeartbeatAtMs) == FormatInt(m.lastHeartbeatAt)
      && Get(f, ExpiresAtMs) == FormatInt(m.expiresAt)
  {
    assert UserId in ToHash(m);
  }

  lemma Decodes(f: Fields, m: Metadata)
    requires WellFormed(m) && f != map[]
    requires Get(f, UserId) == m.userId && Get(f, ConnectionId) == m.connectionId
    requires Get(f, InstanceId) == m.instanceId && Get(f, GatewayId) == m.gatewayId
    requires Get(f, DeviceId) == m.deviceId && Get(f, Platform) == m.platform
    requires Get(f, RemoteAddr) == m.remoteAddr && Get(f, UserAgent) == m.userAgent
    requires UnixMilliField(f, ConnectedAtMs) == Some(m.connectedAt)
    requires UnixMilliField(f, LastHeartbeatAtMs) == Some(m.lastHeartbeatAt)
    requires UnixMilliField(f, ExpiresAtMs) == Some(m.expiresAt)
    ensures FromHash(f) == Some(m)
  {
  }

  /** Reading back the hash of normalized metadata gives the metadata. */
  lemma HashRoundTrip(m: Metadata)
    requires WellFormed(m)
    ensures FromHash(ToHash(m)) == Some(m)
  {
    HashGets(m);
    var f := ToHash(m);
    TimeFieldReads(f, ConnectedAtMs, m.connectedAt);
    TimeFieldReads(f, LastHeartbeatAtMs, m.lastHeartbeatAt);
    TimeFieldReads(f, ExpiresAtMs, m.expiresAt);
    Decodes(f, m);
  }

  // ---------------------------------------------------------------- key names

  function UserConnectionsKey(prefix: string, user: string): string { prefix + ":user:" + user + ":connections" }

  function UserOnlineKey(prefix: string, user: string): string { prefix + ":user:" + user + ":online" }

  function ConnectionKey(prefix: string, conn: string): string { prefix + ":conn:" + conn }

  /** The three kinds of keys never clash, and each kind is injective in the id: the keyspace is three
      separate maps. */
  lemma KeysNeverClash(prefix: string, x: string, y: string)
    ensures UserConnectionsKey(prefix, x) != UserOnlineKey(prefix, y)
    ensures UserConnectionsKey(prefix, x) != ConnectionKey(prefix, y)
    ensures UserOnlineKey(prefix, x) != ConnectionKey(prefix, y)
    ensures UserConnectionsKey(prefix, x) == UserConnectionsKey(prefix, y) ==> x == y
    ensures UserOnlineKey(prefix, x) == UserOnlineKey(prefix, y) ==> x == y
    ensures ConnectionKey(prefix, x) == ConnectionKey(prefix, y) ==> x == y
  {
    LastChar(prefix + ":user:" + x, ":connections");
    LastChar(prefix + ":user:" + y, ":online");
    CharAfter(prefix, ":user:", x + ":connections");
    CharAfter(prefix, ":user:", x + ":online");
    CharAfter(prefix, ":conn:", y);
    assert prefix + ":user:" + x + ":connections" == prefix + ":user:" + (x + ":connections");
    assert prefix + ":user:" + x + ":online" == prefix + ":user:" + (x + ":online");
    Cancel(prefix + ":user:", x, y, ":connections");
    Cancel(prefix + ":user:", x, y, ":online");
    Cancel(prefix + ":conn:", x, y, "");
    assert forall s: string :: s + "" == s;
  }

  lemma LastChar(a: string, b: string)
    requires b != ""
    ensures (a + b)[|a + b| - 1] == b[|b| - 1]
  {
  }

  lemma CharAfter(a: string, b: string, c: string)
    requires |b| >= 2
    ensures (a + b + c)[|a| + 1] == b[1]
  {
  }

  lemma Cancel(a: string, x: string, y: string, b: string)
    ensures a + x + b == a + y + b ==> x == y
  {
    var s, t := a + x + b, a + y + b;
    if s == t {
      assert x == s[|a|..|s| - |b|];
      assert y == t[|a|..|t| - |b|];
    }
  }

  // ---------------------------------------------------------------- the server

  datatype Hash = Hash(fields: Fields, expireAt: int)

  datatype Members = Members(ids: set<string>, expireAt: int)

  /** EXPIRE counts whole seconds: the client library drops the fraction of a positive duration, and
      sends one second for anything shorter. */
  function WholeSeconds(ms: int): int {
    if 0 < ms < 1000 then 1000 else ms - ms % 1000
  }

  /** How long a key can be read that expires after the given time. */
  function LastsFor(ms: int, edge: bool): int {
    if edge then ms + 1 else ms
  }

  /** `edge` says whether a key can still be read at the very millisecond it expires. */
  datatype Server = Server(
    conns: map<string, Hash>,
    users: map<string, Members>,
    online: map<string, int>,
    edge: bool)
  {
    predicate Visible(expireAt: int, now: int) {
      now < LastsFor(expireAt, edge)
    }

    function HGetAll(conn: string, now: int): Fields {
      if conn in conns && Visible(conns[conn].expireAt, now) then conns[conn].fields else map[]
    }

    function SMembers(user: string, now: int): set<string> {
      if user in users && Visible(users[user].expireAt, now) then users[user].ids else {}
    }

    function SRem(user: string, ids: set<string>, now: int): Server {
      var rest := SMembers(user, now) - ids;
      if SMembers(user, now) == {} then this
      else if rest == {} then this.(users := users - {user})
      else this.(users := users[user := Members(rest, users[user].expireAt)])
    }

    /** The pipeline that takes ids out of a user's set and deletes their hashes. */
    function Dropped(user: string, ids: set<string>, now: int): Server {
      SRem(user, ids, now).(conns := conns - ids)
    }

    /** The pipeline that stores a connection and refreshes its user's keys: EXPIRE in seconds for the
        hash and the set, SET to the millisecond for the online key. */
    function Publish(user: string, conn: string, m: Metadata, ttl: int, now: int): Server {
      this.(
        conns := conns[conn := Hash(HGetAll(conn, now) + ToHash(m), now + WholeSeconds(ttl))],
        users := users[user := Members(SMembers(user, now) + {conn}, now + WholeSeconds(2 * ttl))],
        online := online[user := now + 2 * ttl])
    }

    /** The stored connection, when it is that user's and has not expired. */
    function Read(user: string, conn: string, now: int): Option<Metadata> {
      var d := FromHash(HGetAll(conn, now));
      if d.Some? && d.value.userId == user && d.value.expiresAt > now then d else None
    }

    function Live(user: string, now: int): set<Metadata> {
      set c | c in SMembers(user, now) && Read(user, c, now).Some? :: Read(user, c, now).value
    }

    function Stale(user: string, now: int): set<string> {
      set c | c in SMembers(user, now) && Read(user, c, now).None?
    }

    /** The clean-up of `ListUserConnections`. */
    function Cleaned(user: string, now: int): Server {
      if SMembers(user, now) == {} then this
      else
        var stale := Stale(user, now);
        var s := if stale == {} then this else Dropped(user, stale, now);
        if Live(user, now) == {} then s.(online := s.online - {user}) else s
    }

    /** The listing at the end of `UnregisterConnection`, and the user's keys gone with the last entry. */
    function Settled(user: string, now: int): Server {
      var cleaned := Cleaned(user, now);
      if Live(user, now) == {} then cleaned.(online := cleaned.online - {user}, users := cleaned.users - {user})
      else cleaned
    }
  }

  // ---------------------------------------------------------------- the calls

  function OnRegister(s: Server, metadata: Metadata, ttl: int, now: int): (Server, Reply) {
    match Normalize(metadata, now, ttl)
    case None => (s, Failed(InvalidConnection))
    case Some(m) => (s.Publish(m.userId, m.connectionId, m, ttl, now), Done)
  }

  function OnHeartbeat(s: Server, user: string, conn: string, ttl: int, now: int): (Server, Reply) {
    var u, c := TrimSpace(user), TrimSpace(conn);
    if !ValidRef(user, conn) || ttl <= 0 then (s, Failed(InvalidConnection))
    else match s.Read(u, c, now)
      case None => (s, Failed(ConnectionNotFound))
      case Some(m) => (s.Publish(u, c, Touch(m, now, ttl), ttl, now), Done)
  }

  function OnUnregister(s: Server, user: string, conn: string, now: int): (Server, Reply) {
    var u, c := TrimSpace(user), TrimSpace(conn);
    if !ValidRef(user, conn) then (s, Failed(InvalidConnection))
    else (s.Dropped(u, {c}, now).Settled(u, now), Done)
  }

  ghost function OnList(s: Server, user: string, now: int): (Server, Reply) {
    var u := TrimSpace(user);
    if u == "" then (s, Failed(InvalidConnection))
    else (s.Cleaned(u, now), Connections(Listing(s.Live(u, now))))
  }

  ghost function OnIsOnline(s: Server, user: string, now: int): (Server, Reply) {
    var u := TrimSpace(user);
    if u == "" then (s, Failed(InvalidConnection))
    else (s.Cleaned(u, now), Online(s.Live(u, now) != {}))
  }

  ghost function Step(s: Server, op: Op, now: int): (Server, Reply) {
    match op
    case Register(metadata, ttl) => OnRegister(s, metadata, ttl, now)
    case Heartbeat(user, conn, ttl) => OnHeartbeat(s, user, conn, ttl, now)
    case Unregister(user, conn) => OnUnregister(s, user, conn, now)
    case List(user) => OnList(s, user, now)
    case IsOnline(user) => OnIsOnline(s, user, now)
  }

  ghost function Run(s: Server, events: seq<Event>): seq<Reply>
    decreases events
  {
    if events == [] then []
    else
      var (next, reply) := Step(s, events[0].op, events[0].now);
      [reply] + Run(next, events[1..])
  }

  /** A listing leaves in the user's set exactly the ids it read, deletes the hashes of the others, and deletes
      the online key when it read none; other users' keys and other hashes stay. */
  lemma ListingCleans(s: Server, user: string, now: int)
    requires TrimSpace(user) != ""
    ensures var u, t := TrimSpace(user), OnList(s, user, now).0;
      && t.SMembers(u, now) == (set c | c in s.SMembers(u, now) && s.Read(u, c, now).Some?)
      && t.conns == s.conns - (set c | c in s.SMembers(u, now) && s.Read(u, c, now).None?)
      && (s.SMembers(u, now) != {} && t.SMembers(u, now) == {} ==> u !in t.online)
      && (t.SMembers(u, now) != {} ==> t.online == s.online)
      && (forall v :: v != u ==> t.SMembers(v, now) == s.SMembers(v, now) && (v in t.online <==> v in s.online))
  {
    hide FromHash, TrimSpace, Listing;
    var u := TrimSpace(user);
    var members := s.SMembers(u, now);
    assert members - s.Stale(u, now) == (set c | c in members && s.Read(u, c, now).Some?);
    if s.Live(u, now) != {} {
      var m :| m in s.Live(u, now);
      var c :| c in members && s.Read(u, c, now).Some? && s.Read(u, c, now).value == m;
      assert c in members - s.Stale(u, now);
    } else {
      NoneRead(s, u, now);
    }
  }

  lemma NoneRead(s: Server, user: string, now: int)
    ensures s.Live(user, now) == {} <==> forall c :: c in s.SMembers(user, now) ==> s.Read(user, c, now).None?
  {
    if c :| c in s.SMembers(user, now) && s.Read(user, c, now).Some? {
      assert s.Read(user, c, now).value in s.Live(user, now);
    }
  }

  /** An unregistration deletes the id's hash and takes it out of the user's set, and with the last live
      connection the user's own keys go too. */
  lemma UnregistrationCleans(s: Server, user: string, conn: string, now: int)
    requires ValidRef(user, conn)
    ensures var u, c, t := TrimSpace(user), TrimSpace(conn), OnUnregister(s, user, conn, now).0;
      && c !in t.conns && c !in t.SMembers(u, now)
      && (t.Live(u, now) == {} && s.Dropped(u, {c}, now).Live(u, now) == {} ==> u !in t.users && u !in t.online)
  {
    hide FromHash, TrimSpace;
  }

  lemma StepKeepsEdge(s: Server, op: Op, now: int)
    ensures Step(s, op, now).0.edge == s.edge
  {
    hide ToHash, FromHash, TrimSpace, Normalize, Listing;
  }

  /** Hashes are stored under their own connection id. */
  ghost predicate Named(s: Server) {
    forall c :: c in s.conns ==> Get(s.conns[c].fields, ConnectionId) == c
  }

  lemma ReadNamed(s: Server, user: string, conn: string, now: int)
    requires Named(s) && s.Read(user, conn, now).Some?
    ensures s.Read(user, conn, now).value.connectionId == conn
  {
  }

  /** What reading each member gives. */
  ghost function ReadAll(s: Server, user: string, now: int): (r: map<string, Option<Metadata>>)
    requires Named(s)
    ensures r.Keys == s.SMembers(user, now)
    ensures forall c :: c in r ==> r[c] == s.Read(user, c, now)
    ensures forall c :: c in r && r[c].Some? ==> r[c].value.connectionId == c
  {
    AllNamed(s, user, now);
    map c | c in s.SMembers(user, now) :: s.Read(user, c, now)
  }

  lemma AllNamed(s: Server, user: string, now: int)
    requires Named(s)
    ensures forall c :: c in s.SMembers(user, now) && s.Read(user, c, now).Some? ==> s.Read(user, c, now).value.connectionId == c
  {
    forall c | c in s.SMembers(user, now) && s.Read(user, c, now).Some?
      ensures s.Read(user, c, now).value.connectionId == c
    {
      ReadNamed(s, user, c, now);
    }
  }

  class Store {
    var server: Server

    ghost predicate Valid()
      reads this
    {
      Named(server)
    }

    constructor (edge: bool)
      ensures Valid() && server == Server(map[], map[], map[], edge)
    {
      server := Server(map[], map[], map[], edge);
    }

    method RegisterConnection(metadata: Metadata, ttl: int, now: int) returns (r: Reply)
      requires Valid()
      modifies this
      ensures Valid() && (server, r) == OnRegister(old(server), metadata, ttl, now)
    {
      var normalized := Normalize(metadata, now, ttl);
      if normalized.None? { return Failed(InvalidConnection); }
      var m := normalized.value;
      PublishStaysNamed(server, m.userId, m, ttl, now);
      server := server.Publish(m.userId, m.connectionId, m, ttl, now);
      r := Done;
    }

    method Heartbeat(user: string, conn: string, ttl: int, now: int) returns (r: Reply)
      requires Valid()
      modifies this
      ensures Valid() && (server, r) == OnHeartbeat(old(server), user, conn, ttl, now)
    {
      if !ValidRef(user, conn) || ttl <= 0 { return Failed(InvalidConnection); }
      var u, c := TrimSpace(user), TrimSpace(conn);
      var found := Fetch(u, c, now);
      if found.None? { return Failed(ConnectionNotFound); }
      ReadNamed(server, u, c, now);
      PublishStaysNamed(server, u, Touch(found.value, now, ttl), ttl, now);
      server := server.Publish(u, c, Touch(found.value, now, ttl), ttl, now);
      r := Done;
    }

    /** Reading one hash and the three checks made on it. */
    method Fetch(user: string, conn: string, now: int) returns (r: Option<Metadata>)
      ensures r == server.Read(user, conn, now)
    {
      var metadata := FromHash(server.HGetAll(conn, now));
      if metadata.None? || metadata.value.userId != user || metadata.value.expiresAt <= now { return None; }
      r := metadata;
    }

    /** The loop of `ListUserConnections`: split the members into live metadata and stale ids. */
    method Split(user: string, now: int) returns (live: seq<Metadata>, stale: set<string>)
      requires Valid()
      ensures Elems(live) == server.Live(user, now) && stale == server.Stale(user, now)
      ensures NoRepeats(live)
    {
      live, stale := [], {};
      var members := server.SMembers(user, now);
      ghost var read := ReadAll(server, user, now);
      var todo := members;
      while todo != {}
        invariant todo <= members
        invariant forall c :: c in stale <==> c in members && c !in todo && read[c].None?
        invariant forall m :: m in live <==>
          m.connectionId in members && m.connectionId !in todo && read[m.connectionId] == Some(m)
        invariant NoRepeats(live)
      {
        var c :| c in todo;
        todo := todo - {c};
        var found := Fetch(user, c, now);
        assert found == read[c];
        if found.None? {
          stale := stale + {c};
        } else {
          AppendNew(live, found.value);
          live := live + [found.value];
        }
      }
      SplitDone(server, user, now, live, stale, read);
    }

    method ListUserConnections(user: string, now: int) returns (r: Reply)
      requires Valid()
      modifies this
      ensures Valid() && (server, r) == OnList(old(server), user, now)
    {
      if TrimSpace(user) == "" { return Failed(InvalidConnection); }
      var u := TrimSpace(user);
      if server.SMembers(u, now) == {} {
        assert server.Live(u, now) == {};
        IsTheListing([], {});
        return Connections([]);
      }
      var live, stale := Split(u, now);
      var s := server;
      assert live == [] <==> server.Live(u, now) == {} by { EmptyElems(live); }
      if stale != {} {
        s := server.SRem(u, stale, now).(conns := server.conns - stale);
      }
      if |live| == 0 {
        s := s.(online := s.online - {u});
      }
      var sorted := SortById(live);
      IsTheListing(sorted, server.Live(u, now));
      server := s;
      r := Connections(sorted);
    }

    method IsUserOnline(user: string, now: int) returns (r: Reply)
      requires Valid()
      modifies this
      ensures Valid() && (server, r) == OnIsOnline(old(server), user, now)
    {
      if TrimSpace(user) == "" { return Failed(InvalidConnection); }
      var listed := ListUserConnections(user, now);
      LiveListed(old(server), TrimSpace(user), now);
      r := Online(|listed.list| > 0);
    }

    method UnregisterConnection(user: string, conn: string, now: int) returns (r: Reply)
      requires Valid()
      modifies this
      ensures Valid() && (server, r) == OnUnregister(old(server), user, conn, now)
    {
      if !ValidRef(user, conn) { return Failed(InvalidConnection); }
      var u, c := TrimSpace(user), TrimSpace(conn);
      RemovedStaysNamed(server, u, c, now);
      server := server.SRem(u, {c}, now).(conns := server.conns - {c});
      ghost var removed := server;
      TrimSpaceIdempotent(user);
      var listed := ListUserConnections(u, now);
      LiveListed(removed, u, now);
      if |listed.list| == 0 {
        server := server.(online := server.online - {u}, users := server.users - {u});
      }
      r := Done;
    }
  }

  lemma PublishStaysNamed(s: Server, user: string, m: Metadata, ttl: int, now: int)
    requires Named(s)
    ensures Named(s.Publish(user, m.connectionId, m, ttl, now))
  {
    HashGets(m);
    assert ConnectionId in ToHash(m);
  }

  lemma RemovedStaysNamed(s: Server, user: string, conn: string, now: int)
    requires Named(s)
    ensures Named(s.Dropped(user, {conn}, now))
  {
  }

  lemma SplitDone(s: Server, user: string, now: int, live: seq<Metadata>, stale: set<string>, read: map<string, Option<Metadata>>)
    requires Named(s) && read == ReadAll(s, user, now)
    requires forall c :: c in stale <==> c in read && read[c].None?
    requires forall m :: m in live <==> m.connectionId in read && read[m.connectionId] == Some(m)
    ensures Elems(live) == s.Live(user, now) && stale == s.Stale(user, now)
  {
    hide FromHash;
    forall m ensures m in Elems(live) <==> m in s.Live(user, now) {
      if m in s.Live(user, now) {
        var c :| c in s.SMembers(user, now) && s.Read(user, c, now).Some? && s.Read(user, c, now).value == m;
        assert read[c] == Some(m);
      }
      if m in live {
        assert s.Read(user, m.connectionId, now) == Some(m);
      }
    }
  }

  lemma EmptyElems(xs: seq<Metadata>)
    ensures xs == [] <==> Elems(xs) == {}
  {
    assert xs != [] ==> xs[0] in Elems(xs);
  }

  /** The listing of a user's live connections is empty exactly when there are none. */
  lemma LiveListed(s: Server, user: string, now: int)
    requires Named(s)
    ensures Listing(s.Live(user, now)) == [] <==> s.Live(user, now) == {}
  {
    ListingExists(s.Live(user, now));
    var l := Listing(s.Live(user, now));
    assert l == [] || l[0] in l;
  }
}
