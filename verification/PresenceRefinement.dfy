/** The Redis store implements the ideal registry, on every run that meets the store's terms: connection
    ids belong to one user, the clock does not run backwards, and the time-to-live values in use suit
    the whole seconds that EXPIRE counts. */
module PresenceRefinement {
  import opened GoText
  import opened Presence
  import opened RedisStore

  // ---------------------------------------------------------------- the terms

  /** The time-to-live values a deployment uses. */
  type Ttls = int -> bool

  /** Twice a longer one does not fit Go's nanosecond duration. */
  const MAX_TTL: int := 4611686018427

  predicate Uses(ttls: Ttls, t: int) {
    0 < t <= MAX_TTL && ttls(t)
  }

  /** A connection's hash can be read until the connection expires. */
  ghost predicate HashesLast(ttls: Ttls, edge: bool) {
    forall t :: Uses(ttls, t) ==> t <= LastsFor(WholeSeconds(t), edge)
  }

  /** A user's set, refreshed for one connection, can be read until any other one expires. */
  ghost predicate SetsLast(ttls: Ttls, edge: bool) {
    forall t, u :: Uses(ttls, t) && Uses(ttls, u) ==> u <= LastsFor(WholeSeconds(2 * t), edge)
  }

  ghost predicate Suits(ttls: Ttls, edge: bool) {
    HashesLast(ttls, edge) && SetsLast(ttls, edge)
  }

  /** The online key, which no call reads, lasts as long as any connection. */
  ghost predicate OnlineLasts(ttls: Ttls, edge: bool) {
    forall t, u :: Uses(ttls, t) && Uses(ttls, u) ==> u <= LastsFor(2 * t, edge)
  }

  /** It does wherever the store's terms hold and no value is below half a second, where EXPIRE rounds up. */
  lemma OnlineFollows(ttls: Ttls, edge: bool)
    requires Suits(ttls, edge) && forall t :: Uses(ttls, t) ==> t >= 500
    ensures OnlineLasts(ttls, edge)
  {
    forall t, u | Uses(ttls, t) && Uses(ttls, u)
      ensures u <= LastsFor(2 * t, edge)
    {
      assert WholeSeconds(2 * t) <= 2 * t;
    }
  }

  /** The user a connection id belongs to. */
  type Owner = string -> string

  predicate IsLive(a: Registry, k: Key, now: int) {
    k in a && a[k].expiresAt > now
  }

  /** An unregistration by the owner, or of an id that is not live, or one that is refused. */
  predicate Harmless(a: Registry, user: string, conn: string, now: int, owner: Owner) {
    var c := TrimSpace(conn);
    !ValidRef(user, conn) || owner(c) == TrimSpace(user) || !IsLive(a, Key(owner(c), c), now)
  }

  ghost predicate LegalOp(a: Registry, op: Op, now: int, owner: Owner, ttls: Ttls) {
    match op
    case Register(m, ttl) =>
      && Int64(m.connectedAt) && Int64(m.lastHeartbeatAt)
      && (ttl > 0 ==> Uses(ttls, ttl) && Int64(now + ttl))
      && owner(TrimSpace(m.connectionId)) == TrimSpace(m.userId)
    case Heartbeat(_, _, ttl) => ttl > 0 ==> Uses(ttls, ttl) && Int64(now + ttl)
    case Unregister(user, conn) => Harmless(a, user, conn, now, owner)
    case List(_) => true
    case IsOnline(_) => true
  }

  ghost predicate LegalRun(a: Registry, events: seq<Event>, start: int, owner: Owner, ttls: Ttls)
    decreases events
  {
    events == [] ||
    (&& start <= events[0].now && Int64(events[0].now)
     && LegalOp(a, events[0].op, events[0].now, owner, ttls)
     && LegalRun(Ideal(a, events[0].op, events[0].now).0, events[1..], events[0].now, owner, ttls))
  }

  // ---------------------------------------------------------------- invariants

  ghost predicate Stored(a: Registry) {
    forall k {:trigger WellFormed(a[k])} :: k in a ==> WellFormed(a[k])
  }

  ghost predicate Bounded(a: Registry, now: int, owner: Owner, ttls: Ttls) {
    forall k :: k in a ==> owner(k.conn) == k.user && Near(a[k].expiresAt, now, ttls)
  }

  /** No further off than some time-to-live in use. */
  ghost predicate Near(expiresAt: int, now: int, ttls: Ttls) {
    exists t :: Uses(ttls, t) && expiresAt <= now + t
  }

  /** Every stored hash is that of the registry's entry for the id's owner. */
  ghost predicate HashesMatch(s: Server, a: Registry, owner: Owner) {
    forall c :: c in s.conns ==> Key(owner(c), c) in a && s.conns[c].fields == ToHash(a[Key(owner(c), c)])
  }

  /** The connection has a hash, sits in its user's set, and hash and set can be read until it expires. */
  predicate Held(s: Server, k: Key, expiresAt: int) {
    && k.conn in s.conns && expiresAt <= LastsFor(s.conns[k.conn].expireAt, s.edge)
    && k.user in s.users && k.conn in s.users[k.user].ids && expiresAt <= LastsFor(s.users[k.user].expireAt, s.edge)
  }

  predicate OnlineHeld(s: Server, k: Key, expiresAt: int) {
    k.user in s.online && expiresAt <= LastsFor(s.online[k.user], s.edge)
  }

  ghost predicate LiveHeld(s: Server, a: Registry, now: int) {
    forall k :: k in a && a[k].expiresAt > now ==> Held(s, k, a[k].expiresAt)
  }

  ghost predicate LiveOnline(s: Server, a: Registry, now: int) {
    forall k :: k in a && a[k].expiresAt > now ==> OnlineHeld(s, k, a[k].expiresAt)
  }

  ghost predicate MembersOwned(s: Server, owner: Owner) {
    forall u, c :: u in s.users && c in s.users[u].ids ==> owner(c) == u
  }

  ghost predicate RedisInv(s: Server, a: Registry, now: int, owner: Owner, ttls: Ttls) {
    && KeysMatch(a) && Stored(a) && Bounded(a, now, owner, ttls)
    && HashesMatch(s, a, owner) && LiveHeld(s, a, now) && MembersOwned(s, owner)
    && (OnlineLasts(ttls, s.edge) ==> LiveOnline(s, a, now))
  }

  lemma TimePasses(s: Server, a: Registry, now: int, later: int, owner: Owner, ttls: Ttls)
    requires RedisInv(s, a, now, owner, ttls) && now <= later
    ensures RedisInv(s, a, later, owner, ttls)
  {
    forall k | k in a
      ensures Near(a[k].expiresAt, later, ttls)
    {
      assert Near(a[k].expiresAt, now, ttls);
    }
    assert LiveHeld(s, a, later);
  }

  // ---------------------------------------------------------------- reading

  lemma ReadStored(s: Server, k: Key, m: Metadata, now: int)
    requires k.conn in s.conns && s.conns[k.conn].fields == ToHash(m) && WellFormed(m)
    ensures s.Visible(s.conns[k.conn].expireAt, now) ==>
      s.Read(k.user, k.conn, now) == if m.userId == k.user && m.expiresAt > now then Some(m) else None
    ensures !s.Visible(s.conns[k.conn].expireAt, now) ==> s.Read(k.user, k.conn, now) == None
  {
    hide ToHash, WellFormed;
    HashRoundTrip(m);
  }

  /** A lookup finds exactly the registry's live entries. */
  lemma ReadAgrees(s: Server, a: Registry, now: int, owner: Owner, ttls: Ttls, k: Key)
    requires RedisInv(s, a, now, owner, ttls)
    ensures s.Read(k.user, k.conn, now) == if k in a && a[k].expiresAt > now then Some(a[k]) else None
  {
    assert k in a && a[k].expiresAt > now ==> Held(s, k, a[k].expiresAt);
    if k.conn in s.conns {
      ReadStored(s, k, a[Key(owner(k.conn), k.conn)], now);
    }
  }

  lemma InLive(a: Registry, k: Key, now: int)
    requires k in a && a[k].expiresAt > now
    ensures a[k] in LiveOf(a, k.user, now)
  {
  }

  lemma SeenIsLive(s: Server, a: Registry, now: int, owner: Owner, ttls: Ttls, k: Key)
    requires RedisInv(s, a, now, owner, ttls) && s.Read(k.user, k.conn, now).Some?
    ensures s.Read(k.user, k.conn, now).value in LiveOf(a, k.user, now)
  {
    ReadAgrees(s, a, now, owner, ttls, k);
    InLive(a, k, now);
  }

  lemma LiveIsSeen(s: Server, a: Registry, now: int, owner: Owner, ttls: Ttls, k: Key)
    requires RedisInv(s, a, now, owner, ttls) && k in a && a[k].expiresAt > now
    ensures k.conn in s.SMembers(k.user, now) && s.Read(k.user, k.conn, now) == Some(a[k])
  {
    ReadAgrees(s, a, now, owner, ttls, k);
    assert Held(s, k, a[k].expiresAt);
  }

  /** `ListUserConnections` sees exactly the live connections of the user. */
  lemma LiveAgrees(s: Server, a: Registry, now: int, owner: Owner, ttls: Ttls, user: string)
    requires RedisInv(s, a, now, owner, ttls)
    ensures s.Live(user, now) == LiveOf(a, user, now)
  {
    forall c | c in s.SMembers(user, now) && s.Read(user, c, now).Some?
      ensures s.Read(user, c, now).value in LiveOf(a, user, now)
    {
      SeenIsLive(s, a, now, owner, ttls, Key(user, c));
    }
    forall k | k in a && k.user == user && a[k].expiresAt > now ensures a[k] in s.Live(user, now) {
      LiveIsSeen(s, a, now, owner, ttls, k);
    }
  }

  // ---------------------------------------------------------------- writing

  lemma HashOverwrites(f: Fields, m0: Metadata, m: Metadata)
    requires f == map[] || f == ToHash(m0)
    ensures f + ToHash(m) == ToHash(m)
  {
    assert ToHash(m0).Keys == ToHash(m).Keys;
  }

  /** The metadata names the key it is stored under and expires one ttl from now. */
  predicate Fresh(k: Key, m: Metadata, ttl: int, now: int) {
    m.userId == k.user && m.connectionId == k.conn && m.expiresAt == now + ttl
  }

  lemma PublishedHashes(s: Server, a: Registry, now: int, owner: Owner, k: Key, m: Metadata, ttl: int)
    requires HashesMatch(s, a, owner) && owner(k.conn) == k.user && Fresh(k, m, ttl, now)
    ensures HashesMatch(s.Publish(k.user, k.conn, m, ttl, now), a[k := m], owner)
  {
    var c := k.conn;
    HashOverwrites(s.HGetAll(c, now), if c in s.conns then a[Key(owner(c), c)] else m, m);
  }

  lemma Covers(expiresAt: int, now: int, ttls: Ttls, edge: bool, ttl: int)
    requires Near(expiresAt, now, ttls) && Suits(ttls, edge) && Uses(ttls, ttl)
    ensures expiresAt <= LastsFor(now + WholeSeconds(2 * ttl), edge)
    ensures now + ttl <= LastsFor(now + WholeSeconds(ttl), edge)
  {
  }

  /** The refreshed user set covers every connection that is still live. */
  lemma PublishedHeld(s: Server, a: Registry, now: int, owner: Owner, ttls: Ttls, k: Key, m: Metadata, ttl: int)
    requires LiveHeld(s, a, now) && Bounded(a, now, owner, ttls) && owner(k.conn) == k.user
    requires Suits(ttls, s.edge) && Uses(ttls, ttl) && Fresh(k, m, ttl, now)
    ensures LiveHeld(s.Publish(k.user, k.conn, m, ttl, now), a[k := m], now)
  {
    hide ToHash, WholeSeconds, Suits, Near, Uses;
    var s', a' := s.Publish(k.user, k.conn, m, ttl, now), a[k := m];
    assert Near(m.expiresAt, now, ttls) by {
      NearTtl(now, ttls, ttl);
    }
    forall j | j in a' && a'[j].expiresAt > now ensures Held(s', j, a'[j].expiresAt) {
      Covers(a'[j].expiresAt, now, ttls, s.edge, ttl);
      if j != k {
        assert Held(s, j, a[j].expiresAt) && j.conn != k.conn;
      }
    }
  }

  lemma NearTtl(now: int, ttls: Ttls, ttl: int)
    requires Uses(ttls, ttl)
    ensures Near(now + ttl, now, ttls)
  {
  }

  lemma PublishedOnline(s: Server, a: Registry, now: int, owner: Owner, ttls: Ttls, k: Key, m: Metadata, ttl: int)
    requires LiveOnline(s, a, now) && Bounded(a, now, owner, ttls)
    requires OnlineLasts(ttls, s.edge) && Uses(ttls, ttl) && Fresh(k, m, ttl, now)
    ensures LiveOnline(s.Publish(k.user, k.conn, m, ttl, now), a[k := m], now)
  {
    hide ToHash;
    var s', a' := s.Publish(k.user, k.conn, m, ttl, now), a[k := m];
    forall j | j in a' && a'[j].expiresAt > now ensures OnlineHeld(s', j, a'[j].expiresAt) {
      if j != k {
        assert OnlineHeld(s, j, a[j].expiresAt);
        assert Near(a[j].expiresAt, now, ttls);
      }
    }
  }

  /** Storing a connection keeps the invariant. */
  lemma PublishKeeps(s: Server, a: Registry, now: int, owner: Owner, ttls: Ttls, k: Key, m: Metadata, ttl: int)
    requires RedisInv(s, a, now, owner, ttls) && Suits(ttls, s.edge) && Uses(ttls, ttl)
    requires WellFormed(m) && owner(k.conn) == k.user && Fresh(k, m, ttl, now)
    ensures RedisInv(s.Publish(k.user, k.conn, m, ttl, now), a[k := m], now, owner, ttls)
  {
    PublishedHashes(s, a, now, owner, k, m, ttl);
    PublishedHeld(s, a, now, owner, ttls, k, m, ttl);
    PublishedIdeal(a, now, owner, ttls, k, m);
    PublishedMembers(s, owner, k, m, ttl, now);
    if OnlineLasts(ttls, s.edge) {
      PublishedOnline(s, a, now, owner, ttls, k, m, ttl);
    }
  }

  lemma PublishedIdeal(a: Registry, now: int, owner: Owner, ttls: Ttls, k: Key, m: Metadata)
    requires KeysMatch(a) && Stored(a) && Bounded(a, now, owner, ttls)
    requires WellFormed(m) && owner(k.conn) == k.user && Near(m.expiresAt, now, ttls)
    requires m.userId == k.user && m.connectionId == k.conn
    ensures KeysMatch(a[k := m]) && Stored(a[k := m]) && Bounded(a[k := m], now, owner, ttls)
  {
    hide WellFormed;
    StoredPut(a, a[k := m], k, m);
  }

  lemma StoredPut(a: Registry, a': Registry, k: Key, m: Metadata)
    requires Stored(a) && WellFormed(m) && a' == a[k := m]
    ensures Stored(a')
  {
    forall j | j in a' ensures WellFormed(a'[j]) {
      assert j != k ==> WellFormed(a[j]);
    }
  }

  lemma PublishedMembers(s: Server, owner: Owner, k: Key, m: Metadata, ttl: int, now: int)
    requires MembersOwned(s, owner) && owner(k.conn) == k.user
    ensures MembersOwned(s.Publish(k.user, k.conn, m, ttl, now), owner)
  {
  }

  lemma DroppedHeld(s: Server, a: Registry, now: int, owner: Owner, user: string, ids: set<string>)
    requires LiveHeld(s, a, now)
    requires forall k :: k in a && a[k].expiresAt > now ==> k.conn !in ids
    ensures LiveHeld(s.Dropped(user, ids, now), a, now)
  {
    forall k | k in a && a[k].expiresAt > now ensures Held(s.Dropped(user, ids, now), k, a[k].expiresAt) {
      assert Held(s, k, a[k].expiresAt);
      if k.user == user { assert k.conn in s.SMembers(user, now) - ids; }
    }
  }

  lemma DroppedRest(s: Server, a: Registry, now: int, owner: Owner, user: string, ids: set<string>)
    ensures var t := s.Dropped(user, ids, now);
      && t.edge == s.edge && t.online == s.online
      && (HashesMatch(s, a, owner) ==> HashesMatch(t, a, owner))
      && (MembersOwned(s, owner) ==> MembersOwned(t, owner))
      && (LiveOnline(s, a, now) ==> LiveOnline(t, a, now))
  {
    hide ToHash;
  }

  /** Dropping ids that are not live from a user's set, and their hashes, keeps the invariant. */
  lemma DropKeeps(s: Server, a: Registry, now: int, owner: Owner, ttls: Ttls, user: string, ids: set<string>)
    requires RedisInv(s, a, now, owner, ttls)
    requires forall k :: k in a && a[k].expiresAt > now ==> k.conn !in ids
    ensures RedisInv(s.Dropped(user, ids, now), a, now, owner, ttls)
  {
    DroppedHeld(s, a, now, owner, user, ids);
    DroppedRest(s, a, now, owner, user, ids);
    hide KeysMatch, Stored, Bounded, HashesMatch, LiveHeld, LiveOnline, MembersOwned, OnlineLasts;
  }

  lemma OfflineHeld(s: Server, t: Server, a: Registry, now: int, user: string)
    requires LiveOf(a, user, now) == {} && t.conns == s.conns && t.edge == s.edge && t.online == s.online - {user}
    requires t.users == s.users || t.users == s.users - {user}
    ensures LiveHeld(s, a, now) ==> LiveHeld(t, a, now)
    ensures LiveOnline(s, a, now) ==> LiveOnline(t, a, now)
  {
    forall k | k in a && a[k].expiresAt > now
      ensures k.user != user
    {
      InLive(a, k, now);
    }
    if LiveHeld(s, a, now) {
      forall k | k in a && a[k].expiresAt > now ensures Held(t, k, a[k].expiresAt) {
        assert Held(s, k, a[k].expiresAt);
      }
    }
    if LiveOnline(s, a, now) {
      forall k | k in a && a[k].expiresAt > now ensures OnlineHeld(t, k, a[k].expiresAt) {
        assert OnlineHeld(s, k, a[k].expiresAt);
      }
    }
  }

  /** Deleting the keys of a user with no live connection keeps the invariant. */
  lemma OfflineKeeps(s: Server, t: Server, a: Registry, now: int, owner: Owner, ttls: Ttls, user: string)
    requires RedisInv(s, a, now, owner, ttls) && LiveOf(a, user, now) == {}
    requires t.conns == s.conns && t.edge == s.edge && t.online == s.online - {user}
    requires t.users == s.users || t.users == s.users - {user}
    ensures RedisInv(t, a, now, owner, ttls)
  {
    OfflineHeld(s, t, a, now, user);
    assert HashesMatch(t, a, owner);
    assert MembersOwned(t, owner);
    hide KeysMatch, Stored, Bounded, HashesMatch, LiveHeld, LiveOnline, MembersOwned, OnlineLasts;
  }

  lemma StaleNotLive(s: Server, a: Registry, now: int, owner: Owner, ttls: Ttls, user: string)
    requires RedisInv(s, a, now, owner, ttls)
    ensures forall k :: k in a && a[k].expiresAt > now ==> k.conn !in s.Stale(user, now)
  {
    forall k | k in a && a[k].expiresAt > now ensures k.conn !in s.Stale(user, now) {
      ReadAgrees(s, a, now, owner, ttls, Key(user, k.conn));
    }
  }

  /** The clean-up inside a listing never removes a live connection. */
  lemma CleanKeeps(s: Server, a: Registry, now: int, owner: Owner, ttls: Ttls, user: string)
    requires RedisInv(s, a, now, owner, ttls)
    ensures RedisInv(s.Cleaned(user, now), a, now, owner, ttls)
  {
    var stale := s.Stale(user, now);
    StaleNotLive(s, a, now, owner, ttls, user);
    LiveAgrees(s, a, now, owner, ttls, user);
    var dropped := if stale == {} then s else s.Dropped(user, stale, now);
    DropKeeps(s, a, now, owner, ttls, user, stale);
    if LiveOf(a, user, now) == {} {
      OfflineKeeps(dropped, dropped.(online := dropped.online - {user}), a, now, owner, ttls, user);
    }
  }

  lemma ForgottenIdeal(a: Registry, now: int, owner: Owner, ttls: Ttls, k: Key)
    requires KeysMatch(a) && Stored(a) && Bounded(a, now, owner, ttls) && owner(k.conn) == k.user
    ensures KeysMatch(a - {k}) && Stored(a - {k}) && Bounded(a - {k}, now, owner, ttls)
    ensures forall j :: j in a - {k} ==> j.conn != k.conn
  {
    StoredDrop(a, k);
  }

  lemma StoredDrop(a: Registry, k: Key)
    requires Stored(a)
    ensures Stored(a - {k})
  {
    forall j | j in a - {k} ensures WellFormed((a - {k})[j]) {
      assert WellFormed(a[j]);
    }
  }

  lemma ForgottenHashes(s: Server, a: Registry, owner: Owner, k: Key, now: int)
    requires HashesMatch(s, a, owner) && owner(k.conn) == k.user
    ensures HashesMatch(s.Dropped(k.user, {k.conn}, now), a - {k}, owner)
  {
  }

  lemma ForgottenHeld(s: Server, a: Registry, now: int, k: Key)
    ensures LiveHeld(s, a, now) ==> LiveHeld(s, a - {k}, now)
    ensures LiveOnline(s, a, now) ==> LiveOnline(s, a - {k}, now)
  {
  }

  /** Unregistering removes the entry and keeps the rest. */
  lemma ForgetKeeps(s: Server, a: Registry, now: int, owner: Owner, ttls: Ttls, k: Key)
    requires RedisInv(s, a, now, owner, ttls) && owner(k.conn) == k.user
    ensures RedisInv(s.Dropped(k.user, {k.conn}, now), a - {k}, now, owner, ttls)
  {
    hide KeysMatch, Stored, Bounded, HashesMatch, LiveHeld, LiveOnline, MembersOwned, OnlineLasts;
    ForgottenIdeal(a, now, owner, ttls, k);
    ForgottenHashes(s, a, owner, k, now);
    ForgottenHeld(s, a, now, k);
    DroppedHeld(s, a - {k}, now, owner, k.user, {k.conn});
    DroppedRest(s, a - {k}, now, owner, k.user, {k.conn});
  }

  // ---------------------------------------------------------------- one call

  /** Same answer and the invariant again. */
  ghost predicate Refines(s: (Server, Reply), a: (Registry, Reply), now: int, owner: Owner, ttls: Ttls) {
    s.1 == a.1 && RedisInv(s.0, a.0, now, owner, ttls)
  }

  lemma NormalizedKey(m: Metadata, now: int, ttl: int)
    requires Normalize(m, now, ttl).Some?
    ensures var n := Normalize(m, now, ttl).value;
      n.userId == TrimSpace(m.userId) && n.connectionId == TrimSpace(m.connectionId) && n.expiresAt == now + ttl
  {
  }

  lemma RegisterRefines(s: Server, a: Registry, now: int, owner: Owner, ttls: Ttls, m: Metadata, ttl: int)
    requires RedisInv(s, a, now, owner, ttls) && Suits(ttls, s.edge)
    requires Int64(now) && LegalOp(a, Register(m, ttl), now, owner, ttls)
    ensures Refines(OnRegister(s, m, ttl, now), Ideal(a, Register(m, ttl), now), now, owner, ttls)
  {
    hide OrElse, FromHash, ToHash, Normalize, WellFormed, RedisInv, Suits, TrimSpace;
    if Normalize(m, now, ttl).Some? {
      NormalizedIsWellFormed(m, now, ttl);
      NormalizedKey(m, now, ttl);
      var n := Normalize(m, now, ttl).value;
      PublishKeeps(s, a, now, owner, ttls, Key(n.userId, n.connectionId), n, ttl);
    }
  }

  lemma TouchedIsWellFormed(m: Metadata, now: int, ttl: int)
    requires WellFormed(m) && Int64(now) && Int64(now + ttl)
    ensures WellFormed(Touch(m, now, ttl))
  {
  }

  lemma BeatKeeps(s: Server, a: Registry, now: int, owner: Owner, ttls: Ttls, k: Key, ttl: int)
    requires RedisInv(s, a, now, owner, ttls) && Suits(ttls, s.edge) && Uses(ttls, ttl)
    requires Int64(now) && Int64(now + ttl) && k in a && a[k].expiresAt > now
    ensures RedisInv(s.Publish(k.user, k.conn, Touch(a[k], now, ttl), ttl, now), a[k := Touch(a[k], now, ttl)], now, owner, ttls)
  {
    assert WellFormed(a[k]);
    TouchedIsWellFormed(a[k], now, ttl);
    PublishKeeps(s, a, now, owner, ttls, k, Touch(a[k], now, ttl), ttl);
  }

  lemma HeartbeatRefines(s: Server, a: Registry, now: int, owner: Owner, ttls: Ttls, user: string, conn: string, ttl: int)
    requires RedisInv(s, a, now, owner, ttls) && Suits(ttls, s.edge)
    requires Int64(now) && LegalOp(a, Heartbeat(user, conn, ttl), now, owner, ttls)
    ensures Refines(OnHeartbeat(s, user, conn, ttl, now), Ideal(a, Heartbeat(user, conn, ttl), now), now, owner, ttls)
  {
    hide TrimSpace, WellFormed, FromHash, ToHash;
    if ValidRef(user, conn) && ttl > 0 {
      var k := Key(TrimSpace(user), TrimSpace(conn));
      ReadAgrees(s, a, now, owner, ttls, k);
      if k in a && a[k].expiresAt > now {
        BeatKeeps(s, a, now, owner, ttls, k, ttl);
      }
    }
  }

  /** After ids are gone, the listing and the clean-up of an unregistration. */
  lemma SettleKeeps(s: Server, a: Registry, now: int, owner: Owner, ttls: Ttls, user: string)
    requires RedisInv(s, a, now, owner, ttls)
    ensures RedisInv(s.Settled(user, now), a, now, owner, ttls)
  {
    hide WellFormed, FromHash, ToHash;
    CleanKeeps(s, a, now, owner, ttls, user);
    LiveAgrees(s, a, now, owner, ttls, user);
    var cleaned := s.Cleaned(user, now);
    if s.Live(user, now) == {} {
      var gone := cleaned.(online := cleaned.online - {user}, users := cleaned.users - {user});
      OfflineKeeps(cleaned, gone, a, now, owner, ttls, user);
    }
  }

  lemma UnregisterRefines(s: Server, a: Registry, now: int, owner: Owner, ttls: Ttls, user: string, conn: string)
    requires RedisInv(s, a, now, owner, ttls) && Harmless(a, user, conn, now, owner)
    ensures Refines(OnUnregister(s, user, conn, now), Ideal(a, Unregister(user, conn), now), now, owner, ttls)
  {
    hide TrimSpace, WellFormed, FromHash, ToHash;
    if ValidRef(user, conn) {
      var k := Key(TrimSpace(user), TrimSpace(conn));
      if owner(k.conn) == k.user {
        ForgetKeeps(s, a, now, owner, ttls, k);
      } else {
        ForeignEntry(a, now, owner, ttls, k);
        DropKeeps(s, a, now, owner, ttls, k.user, {k.conn});
      }
      SettleKeeps(s.Dropped(k.user, {k.conn}, now), a - {k}, now, owner, ttls, k.user);
    }
  }

  /** An id that belongs to someone else has no entry under this user, and only its owner's is live. */
  lemma ForeignEntry(a: Registry, now: int, owner: Owner, ttls: Ttls, k: Key)
    requires Bounded(a, now, owner, ttls) && owner(k.conn) != k.user
    ensures a - {k} == a
    ensures !IsLive(a, Key(owner(k.conn), k.conn), now) ==>
      forall j :: j in a && a[j].expiresAt > now ==> j.conn != k.conn
  {
    forall j | j in a && a[j].expiresAt > now && j.conn == k.conn
      ensures j == Key(owner(k.conn), k.conn)
    {
    }
  }

  /** Every live entry of the registry is still read. */
  ghost predicate AllRead(s: Server, a: Registry, now: int) {
    forall k :: k in a && a[k].expiresAt > now ==> s.Read(k.user, k.conn, now) == Some(a[k])
  }

  ghost predicate AllListed(s: Server, a: Registry, now: int) {
    forall user :: s.Live(user, now) == LiveOf(a, user, now)
  }

  lemma InvShowsAll(s: Server, a: Registry, now: int, owner: Owner, ttls: Ttls)
    requires RedisInv(s, a, now, owner, ttls)
    ensures AllRead(s, a, now) && AllListed(s, a, now)
  {
    forall k | k in a && a[k].expiresAt > now
      ensures s.Read(k.user, k.conn, now) == Some(a[k])
    {
      ReadAgrees(s, a, now, owner, ttls, k);
    }
    forall user
      ensures s.Live(user, now) == LiveOf(a, user, now)
    {
      LiveAgrees(s, a, now, owner, ttls, user);
    }
  }

  /** Whoever asks, the hash is deleted, and then no user reads or lists the connection. */
  lemma UnregisterBlinds(s: Server, now: int, user: string, conn: string, other: string)
    requires ValidRef(user, conn) && Named(s)
    ensures var t := OnUnregister(s, user, conn, now).0;
      && t.Read(other, TrimSpace(conn), now) == None
      && forall m :: m in t.Live(other, now) ==> m.connectionId != TrimSpace(conn)
  {
    hide TrimSpace, ToHash;
    var c := TrimSpace(conn);
    var t := OnUnregister(s, user, conn, now).0;
    assert c !in t.conns && Named(t);
    assert t.HGetAll(c, now) == map[];
    forall d | d in t.SMembers(other, now) && t.Read(other, d, now).Some?
      ensures t.Read(other, d, now).value.connectionId != c
    {
      ReadNamed(t, other, d, now);
    }
  }

  lemma InvIsNamed(s: Server, a: Registry, now: int, owner: Owner, ttls: Ttls)
    requires RedisInv(s, a, now, owner, ttls)
    ensures Named(s)
  {
    forall c | c in s.conns
      ensures Get(s.conns[c].fields, ConnectionId) == c
    {
      HashGets(a[Key(owner(c), c)]);
    }
  }

  /** An unregistration leaves every other live connection readable, and every listing right, if and only
      if it is refused, asked for by the owner, or of an id that is not live. */
  lemma UnregisterIff(s: Server, a: Registry, now: int, owner: Owner, ttls: Ttls, user: string, conn: string)
    requires RedisInv(s, a, now, owner, ttls)
    ensures var t, b := OnUnregister(s, user, conn, now).0, Ideal(a, Unregister(user, conn), now).0;
      && (AllRead(t, b, now) <==> Harmless(a, user, conn, now, owner))
      && (AllListed(t, b, now) <==> Harmless(a, user, conn, now, owner))
  {
    hide TrimSpace, WellFormed, FromHash, ToHash, OnUnregister;
    var t, b := OnUnregister(s, user, conn, now).0, Ideal(a, Unregister(user, conn), now).0;
    if Harmless(a, user, conn, now, owner) {
      UnregisterRefines(s, a, now, owner, ttls, user, conn);
      InvShowsAll(t, b, now, owner, ttls);
    } else {
      var c := TrimSpace(conn);
      var k := Key(owner(c), c);
      InvIsNamed(s, a, now, owner, ttls);
      UnregisterBlinds(s, now, user, conn, k.user);
      ForeignEntry(a, now, owner, ttls, Key(TrimSpace(user), c));
      InLive(b, k, now);
      assert b[k] in LiveOf(b, k.user, now) && b[k].connectionId == c;
    }
  }

  lemma ListRefines(s: Server, a: Registry, now: int, owner: Owner, ttls: Ttls, user: string)
    requires RedisInv(s, a, now, owner, ttls)
    ensures Refines(OnList(s, user, now), Ideal(a, List(user), now), now, owner, ttls)
  {
    hide TrimSpace, WellFormed, FromHash, ToHash, Listing;
    if TrimSpace(user) != "" {
      CleanKeeps(s, a, now, owner, ttls, TrimSpace(user));
      LiveAgrees(s, a, now, owner, ttls, TrimSpace(user));
    }
  }

  lemma OnlineRefines(s: Server, a: Registry, now: int, owner: Owner, ttls: Ttls, user: string)
    requires RedisInv(s, a, now, owner, ttls)
    ensures Refines(OnIsOnline(s, user, now), Ideal(a, IsOnline(user), now), now, owner, ttls)
  {
    hide TrimSpace, WellFormed, FromHash, ToHash, Listing;
    if TrimSpace(user) != "" {
      CleanKeeps(s, a, now, owner, ttls, TrimSpace(user));
      LiveAgrees(s, a, now, owner, ttls, TrimSpace(user));
    }
  }

  lemma StepRefines(s: Server, a: Registry, now: int, owner: Owner, ttls: Ttls, op: Op)
    requires RedisInv(s, a, now, owner, ttls) && Suits(ttls, s.edge)
    requires Int64(now) && LegalOp(a, op, now, owner, ttls)
    ensures Refines(Step(s, op, now), Ideal(a, op, now), now, owner, ttls)
  {
    match op
    case Register(m, ttl) => RegisterRefines(s, a, now, owner, ttls, m, ttl);
    case Heartbeat(user, conn, ttl) => HeartbeatRefines(s, a, now, owner, ttls, user, conn, ttl);
    case Unregister(user, conn) => UnregisterRefines(s, a, now, owner, ttls, user, conn);
    case List(user) => ListRefines(s, a, now, owner, ttls, user);
    case IsOnline(user) => OnlineRefines(s, a, now, owner, ttls, user);
  }

  // ---------------------------------------------------------------- whole runs

  /** From related states, Redis answers every legal run as the ideal registry does. */
  lemma {:induction false} RedisRefines(s: Server, a: Registry, start: int, events: seq<Event>, owner: Owner, ttls: Ttls)
    requires RedisInv(s, a, start, owner, ttls) && Suits(ttls, s.edge)
    requires LegalRun(a, events, start, owner, ttls)
    ensures RedisStore.Run(s, events) == IdealRun(a, events)
    decreases events
  {
    hide WellFormed, Ideal, Step;
    if events != [] {
      var e := events[0];
      TimePasses(s, a, start, e.now, owner, ttls);
      StepRefines(s, a, e.now, owner, ttls, e.op);
      StepKeepsEdge(s, e.op, e.now);
      RedisRefines(Step(s, e.op, e.now).0, Ideal(a, e.op, e.now).0, e.now, events[1..], owner, ttls);
    }
  }

  ghost function ServerAfter(s: Server, events: seq<Event>): Server
    decreases events
  {
    if events == [] then s else ServerAfter(Step(s, events[0].op, events[0].now).0, events[1..])
  }

  ghost function RegistryAfter(a: Registry, events: seq<Event>): Registry
    decreases events
  {
    if events == [] then a else RegistryAfter(Ideal(a, events[0].op, events[0].now).0, events[1..])
  }

  function LastInstant(start: int, events: seq<Event>): int {
    if events == [] then start else events[|events| - 1].now
  }

  lemma {:induction false} RunKeepsInv(s: Server, a: Registry, start: int, events: seq<Event>, owner: Owner, ttls: Ttls)
    requires RedisInv(s, a, start, owner, ttls) && Suits(ttls, s.edge)
    requires LegalRun(a, events, start, owner, ttls)
    ensures RedisInv(ServerAfter(s, events), RegistryAfter(a, events), LastInstant(start, events), owner, ttls)
    ensures ServerAfter(s, events).edge == s.edge
    decreases events
  {
    hide WellFormed, Ideal, Step, RedisInv;
    if events != [] {
      var e := events[0];
      TimePasses(s, a, start, e.now, owner, ttls);
      StepRefines(s, a, e.now, owner, ttls, e.op);
      StepKeepsEdge(s, e.op, e.now);
      RunKeepsInv(Step(s, e.op, e.now).0, Ideal(a, e.op, e.now).0, e.now, events[1..], owner, ttls);
      assert LastInstant(e.now, events[1..]) == LastInstant(start, events);
    }
  }

  /** After any legal run, at any later instant before it expires, a live connection has its hash and is
      a member of its user's set, and both can still be read; so can the online key, if it lasts. */
  lemma KeysOutliveConnections(events: seq<Event>, start: int, owner: Owner, ttls: Ttls, edge: bool, k: Key, now: int)
    requires LegalRun(map[], events, start, owner, ttls) && Suits(ttls, edge)
    requires var a := RegistryAfter(map[], events);
      k in a && LastInstant(start, events) <= now < a[k].expiresAt
    ensures var s := ServerAfter(Server(map[], map[], map[], edge), events);
      && s.Read(k.user, k.conn, now) == Some(RegistryAfter(map[], events)[k])
      && k.conn in s.SMembers(k.user, now)
      && (OnlineLasts(ttls, edge) ==> k.user in s.online && s.Visible(s.online[k.user], now))
  {
    hide WellFormed, FromHash, ToHash, ServerAfter, RegistryAfter, LegalRun;
    var s, a := Server(map[], map[], map[], edge), RegistryAfter(map[], events);
    RunKeepsInv(s, map[], start, events, owner, ttls);
    TimePasses(ServerAfter(s, events), a, LastInstant(start, events), now, owner, ttls);
    LiveIsSeen(ServerAfter(s, events), a, now, owner, ttls, k);
    if OnlineLasts(ttls, edge) {
      assert OnlineHeld(ServerAfter(s, events), k, a[k].expiresAt);
    }
  }
}
