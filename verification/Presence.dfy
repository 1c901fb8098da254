/** pkg/presence/store.go: connection metadata and the contract both stores implement.
    Times are Unix milliseconds; one call of a store happens at one instant. */
module Presence {
  import opened GoText

  /** The Unix millisecond of Go's zero `time.Time`. */
  const ZERO_TIME: int := -62135596800000

  datatype Metadata = Metadata(
    userId: string,
    connectionId: string,
    instanceId: string,
    gatewayId: string,
    deviceId: string,
    platform: string,
    remoteAddr: string,
    userAgent: string,
    connectedAt: int,
    lastHeartbeatAt: int,
    expiresAt: int)

  datatype Error = InvalidConnection | ConnectionNotFound

  datatype Op =
    | Register(metadata: Metadata, ttl: int)
    | Heartbeat(user: string, conn: string, ttl: int)
    | Unregister(user: string, conn: string)
    | List(user: string)
    | IsOnline(user: string)

  datatype Reply =
    | Done
    | Failed(error: Error)
    | Connections(list: seq<Metadata>)
    | Online(online: bool)

  /** One store call and the instant it happens at. */
  datatype Event = Event(op: Op, now: int)

  // ---------------------------------------------------------------- validation

  predicate ValidRef(user: string, conn: string) {
    TrimSpace(user) != "" && TrimSpace(conn) != ""
  }

  /** The first text trimmed, or the second one when that leaves nothing. */
  function OrElse(a: string, b: string): (r: string)
    ensures r == TrimSpace(r)
    ensures r == "" <==> TrimSpace(a) == "" && TrimSpace(b) == ""
  {
    TrimSpaceIdempotent(a);
    TrimSpaceIdempotent(b);
    if TrimSpace(a) != "" then TrimSpace(a) else TrimSpace(b)
  }

  /** `normalizeMetadata`; an empty instance id takes the gateway id and the other way round. */
  function Normalize(m: Metadata, now: int, ttl: int): (r: Option<Metadata>)
    ensures r.Some? <==> ValidRef(m.userId, m.connectionId) && ttl > 0
  {
    if !ValidRef(m.userId, m.connectionId) || ttl <= 0 then None
    else
      var instance := OrElse(m.instanceId, m.gatewayId);
      var gateway := OrElse(m.gatewayId, instance);
      Some(m.(userId := TrimSpace(m.userId),
              connectionId := TrimSpace(m.connectionId),
              instanceId := instance,
              gatewayId := gateway,
              connectedAt := if m.connectedAt == ZERO_TIME then now else m.connectedAt,
              lastHeartbeatAt := if m.lastHeartbeatAt == ZERO_TIME then now else m.lastHeartbeatAt,
              expiresAt := now + ttl))
  }

  /** What normalized metadata looks like: trimmed names; the instance and the gateway, each standing in
      for the other when that is blank; the instant for a time that is unset; an expiry one ttl away. */
  lemma NormalizedFields(m: Metadata, now: int, ttl: int)
    requires Normalize(m, now, ttl).Some?
    ensures var n := Normalize(m, now, ttl).value;
      && n.userId == TrimSpace(m.userId) != "" && n.connectionId == TrimSpace(m.connectionId) != ""
      && TrimSpace(n.userId) == n.userId && TrimSpace(n.connectionId) == n.connectionId
      && TrimSpace(n.instanceId) == n.instanceId && TrimSpace(n.gatewayId) == n.gatewayId
      && (TrimSpace(m.instanceId) != "" ==> n.instanceId == TrimSpace(m.instanceId))
      && (TrimSpace(m.gatewayId) != "" ==> n.gatewayId == TrimSpace(m.gatewayId))
      && (TrimSpace(m.instanceId) == "" ==> n.instanceId == TrimSpace(m.gatewayId) == n.gatewayId)
      && (TrimSpace(m.gatewayId) == "" ==> n.gatewayId == TrimSpace(m.instanceId) == n.instanceId)
      && (m.connectedAt == ZERO_TIME ==> n.connectedAt == now)
      && (m.connectedAt != ZERO_TIME ==> n.connectedAt == m.connectedAt)
      && (m.lastHeartbeatAt == ZERO_TIME ==> n.lastHeartbeatAt == now)
      && (m.lastHeartbeatAt != ZERO_TIME ==> n.lastHeartbeatAt == m.lastHeartbeatAt)
      && n.expiresAt == now + ttl
      && (n.deviceId, n.platform, n.remoteAddr, n.userAgent) == (m.deviceId, m.platform, m.remoteAddr, m.userAgent)
  {
    TrimSpaceIdempotent(m.userId);
    TrimSpaceIdempotent(m.connectionId);
    TrimSpaceIdempotent(m.instanceId);
    TrimSpaceIdempotent(m.gatewayId);
    hide TrimSpace;
  }

  lemma FixedPoint(n: Metadata, now: int, ttl: int)
    requires ValidRef(n.userId, n.connectionId) && ttl > 0
    requires TrimSpace(n.userId) == n.userId && TrimSpace(n.connectionId) == n.connectionId
    requires OrElse(n.instanceId, n.gatewayId) == n.instanceId && OrElse(n.gatewayId, n.instanceId) == n.gatewayId
    requires n.connectedAt != ZERO_TIME && n.lastHeartbeatAt != ZERO_TIME
    ensures Normalize(n, now, ttl) == Some(n.(expiresAt := now + ttl))
  {
    hide TrimSpace, OrElse;
  }

  /** Normalizing normalized metadata again only moves its expiry. */
  lemma NormalizedAgain(m: Metadata, now: int, ttl: int, later: int, ttl': int)
    requires Normalize(m, now, ttl).Some? && now != ZERO_TIME && ttl' > 0
    ensures var n := Normalize(m, now, ttl).value;
      Normalize(n, later, ttl') == Some(n.(expiresAt := later + ttl'))
  {
    hide TrimSpace, OrElse;
    var n := Normalize(m, now, ttl).value;
    NormalizedFields(m, now, ttl);
    hide Normalize;
    assert ValidRef(n.userId, n.connectionId);
    OrElseKeeps(n.instanceId, n.gatewayId);
    OrElseKeeps(n.gatewayId, n.instanceId);
    FixedPoint(n, later, ttl');
  }

  lemma OrElseKeeps(a: string, b: string)
    requires TrimSpace(a) == a && TrimSpace(b) == b && (a == "" <==> b == "")
    ensures OrElse(a, b) == a
  {
    hide TrimSpace;
  }

  function Touch(m: Metadata, now: int, ttl: int): Metadata {
    m.(lastHeartbeatAt := now, expiresAt := now + ttl)
  }

  // ---------------------------------------------------------------- listings

  /** A list in strictly increasing connection id order with exactly the given elements. */
  ghost predicate IsListing(s: seq<Metadata>, elems: set<Metadata>) {
    && (forall i, j :: 0 <= i < j < |s| ==> Less(s[i].connectionId, s[j].connectionId))
    && (forall m :: m in s <==> m in elems)
  }

  ghost predicate DistinctIds(elems: set<Metadata>) {
    forall a, b :: a in elems && b in elems && a.connectionId == b.connectionId ==> a == b
  }

  /** The answer of `ListUserConnections` for this set of live connections. */
  ghost function Listing(elems: set<Metadata>): seq<Metadata> {
    if exists s :: IsListing(s, elems) then
      var s :| IsListing(s, elems); s
    else []
  }

  lemma ListingHead(s: seq<Metadata>, elems: set<Metadata>)
    requires IsListing(s, elems) && s != []
    ensures s[0] in elems && IsListing(s[1..], elems - {s[0]})
    ensures forall m :: m in elems && m != s[0] ==> Less(s[0].connectionId, m.connectionId)
  {
    forall m | m in elems && m != s[0] ensures m in s[1..] && Less(s[0].connectionId, m.connectionId) {
      var i :| 0 <= i < |s| && s[i] == m;
      assert s[1..][i - 1] == m;
    }
    forall m | m in s[1..] ensures m in elems && m != s[0] {
      var i :| 0 <= i < |s| - 1 && s[1..][i] == m;
      assert s[i + 1] == m;
      LessIrreflexive(m.connectionId);
    }
  }

  lemma {:induction false} ListingUnique(s: seq<Metadata>, t: seq<Metadata>, elems: set<Metadata>)
    requires IsListing(s, elems) && IsListing(t, elems)
    ensures s == t
    decreases |s|
  {
    assert s == [] <==> t == [] by {
      assert s != [] ==> s[0] in s;
      assert t != [] ==> t[0] in t;
    }
    if s != [] {
      ListingHead(s, elems);
      ListingHead(t, elems);
      if s[0] != t[0] {
        LessTransitive(s[0].connectionId, t[0].connectionId, s[0].connectionId);
        LessIrreflexive(s[0].connectionId);
      }
      ListingUnique(s[1..], t[1..], elems - {s[0]});
    }
  }

  lemma IsTheListing(s: seq<Metadata>, elems: set<Metadata>)
    requires IsListing(s, elems)
    ensures Listing(elems) == s
  {
    ListingUnique(Listing(elems), s, elems);
  }

  ghost function Elems(xs: seq<Metadata>): set<Metadata> {
    set m | m in xs
  }

  /** No connection id twice. */
  ghost predicate NoRepeats(xs: seq<Metadata>) {
    forall i, j :: 0 <= i < j < |xs| ==> xs[i].connectionId != xs[j].connectionId
  }

  lemma AppendNew(xs: seq<Metadata>, m: Metadata)
    requires NoRepeats(xs) && forall x :: x in xs ==> x.connectionId != m.connectionId
    ensures NoRepeats(xs + [m])
  {
    assert forall i :: 0 <= i < |xs| ==> xs[i] in xs;
  }

  /** Sorting by connection id (`sort.Slice` in both stores), by insertion. */
  method SortById(xs: seq<Metadata>) returns (s: seq<Metadata>)
    requires NoRepeats(xs)
    ensures IsListing(s, Elems(xs))
  {
    s := [];
    for k := 0 to |xs|
      invariant IsListing(s, Elems(xs[..k]))
    {
      var at := 0;
      while at < |s| && Less(s[at].connectionId, xs[k].connectionId)
        invariant 0 <= at <= |s|
        invariant forall i :: 0 <= i < at ==> Less(s[i].connectionId, xs[k].connectionId)
      {
        at := at + 1;
      }
      assert forall m :: m in s ==> m.connectionId != xs[k].connectionId by {
        forall m | m in s ensures m.connectionId != xs[k].connectionId {
          assert m in xs[..k];
        }
      }
      InsertAt(s, Elems(xs[..k]), xs[k], at);
      assert xs[..k + 1] == xs[..k] + [xs[k]];
      assert Elems(xs[..k + 1]) == Elems(xs[..k]) + {xs[k]};
      s := s[..at] + [xs[k]] + s[at..];
    }
    assert xs[..|xs|] == xs;
  }

  lemma LargerAfter(s: seq<Metadata>, elems: set<Metadata>, x: Metadata, at: nat, i: nat)
    requires IsListing(s, elems) && at <= i < |s|
    requires !Less(s[at].connectionId, x.connectionId) && s[at].connectionId != x.connectionId
    ensures Less(x.connectionId, s[i].connectionId)
  {
    LessTotal(x.connectionId, s[at].connectionId);
    if i > at { LessTransitive(x.connectionId, s[at].connectionId, s[i].connectionId); }
  }

  lemma InsertedElems(s: seq<Metadata>, elems: set<Metadata>, x: Metadata, at: nat)
    requires at <= |s| && forall m :: m in s <==> m in elems
    ensures forall m :: m in s[..at] + [x] + s[at..] <==> m in elems + {x}
  {
    assert s == s[..at] + s[at..];
  }

  /** Inserting between the smaller and the larger ids keeps a listing. */
  lemma InsertAt(s: seq<Metadata>, elems: set<Metadata>, x: Metadata, at: nat)
    requires IsListing(s, elems) && at <= |s|
    requires forall i :: 0 <= i < at ==> Less(s[i].connectionId, x.connectionId)
    requires at < |s| ==> !Less(s[at].connectionId, x.connectionId)
    requires forall m :: m in s ==> m.connectionId != x.connectionId
    ensures IsListing(s[..at] + [x] + s[at..], elems + {x})
  {
    var t := s[..at] + [x] + s[at..];
    forall i | at <= i < |s| ensures Less(x.connectionId, s[i].connectionId) {
      assert s[at] in s;
      LargerAfter(s, elems, x, at, i);
    }
    forall i, j | 0 <= i < j < |t| ensures Less(t[i].connectionId, t[j].connectionId) {
      assert t[i] == if i < at then s[i] else if i == at then x else s[i - 1];
      assert t[j] == if j < at then s[j] else if j == at then x else s[j - 1];
    }
    InsertedElems(s, elems, x, at);
  }

  /** Every set of connections with distinct ids has a listing. */
  lemma {:induction false} ListingExists(elems: set<Metadata>)
    requires DistinctIds(elems)
    ensures IsListing(Listing(elems), elems)
    decreases |elems|
  {
    if elems == {} {
      IsTheListing([], elems);
    } else {
      var x :| x in elems;
      var rest := elems - {x};
      ListingExists(rest);
      var s := Listing(rest);
      var at := Position(s, x.connectionId);
      InsertAt(s, rest, x, at);
      assert rest + {x} == elems;
      IsTheListing(s[..at] + [x] + s[at..], elems);
    }
  }

  /** How many leading ids are below the given one. */
  function Position(s: seq<Metadata>, id: string): (at: nat)
    ensures at <= |s|
    ensures forall i :: 0 <= i < at ==> Less(s[i].connectionId, id)
    ensures at < |s| ==> !Less(s[at].connectionId, id)
  {
    if s != [] && Less(s[0].connectionId, id) then 1 + Position(s[1..], id) else 0
  }

  // ---------------------------------------------------------------- the ideal store

  datatype Key = Key(user: string, conn: string)

  /** The simple picture: one expiry per (user, connection). */
  type Registry = map<Key, Metadata>

  function LiveOf(a: Registry, user: string, now: int): set<Metadata> {
    set k | k in a.Keys && k.user == user && a[k].expiresAt > now :: a[k]
  }

  /** What every call should answer and do. */
  ghost function Ideal(a: Registry, op: Op, now: int): (Registry, Reply) {
    match op
    case Register(metadata, ttl) =>
      (match Normalize(metadata, now, ttl)
       case None => (a, Failed(InvalidConnection))
       case Some(m) => (a[Key(m.userId, m.connectionId) := m], Done))
    case Heartbeat(user, conn, ttl) =>
      var k := Key(TrimSpace(user), TrimSpace(conn));
      if !ValidRef(user, conn) || ttl <= 0 then (a, Failed(InvalidConnection))
      else if k in a && a[k].expiresAt > now then (a[k := Touch(a[k], now, ttl)], Done)
      else (a, Failed(ConnectionNotFound))
    case Unregister(user, conn) =>
      if !ValidRef(user, conn) then (a, Failed(InvalidConnection))
      else (a - {Key(TrimSpace(user), TrimSpace(conn))}, Done)
    case List(user) =>
      if TrimSpace(user) == "" then (a, Failed(InvalidConnection))
      else (a, Connections(Listing(LiveOf(a, TrimSpace(user), now))))
    case IsOnline(user) =>
      if TrimSpace(user) == "" then (a, Failed(InvalidConnection))
      else (a, Online(LiveOf(a, TrimSpace(user), now) != {}))
  }

  ghost function IdealRun(a: Registry, events: seq<Event>): seq<Reply>
    decreases events
  {
    if events == [] then []
    else
      var (next, reply) := Ideal(a, events[0].op, events[0].now);
      [reply] + IdealRun(next, events[1..])
  }

  /** Keys name the connections they hold. */
  ghost predicate KeysMatch(a: Registry) {
    forall k :: k in a ==> a[k].userId == k.user && a[k].connectionId == k.conn
  }

  lemma LiveDistinct(a: Registry, user: string, now: int)
    requires KeysMatch(a)
    ensures DistinctIds(LiveOf(a, user, now))
    ensures IsListing(Listing(LiveOf(a, user, now)), LiveOf(a, user, now))
  {
    ListingExists(LiveOf(a, user, now));
  }

  // ---------------------------------------------------------------- what the calls of the ideal store do

  /** All entries but one are as before. */
  ghost predicate OthersKept(a: Registry, b: Registry, k: Key) {
    forall j :: j != k ==> (j in a <==> j in b) && (j in a ==> b[j] == a[j])
  }

  /** A heartbeat succeeds exactly for a live entry, and then records its instant and the new expiry in that
      entry and changes nothing else. */
  lemma HeartbeatRecords(a: Registry, user: string, conn: string, ttl: int, now: int)
    ensures var (b, r) := Ideal(a, Heartbeat(user, conn, ttl), now);
      var k := Key(TrimSpace(user), TrimSpace(conn));
      && (r == Done <==> k.user != "" && k.conn != "" && ttl > 0 && k in a && now < a[k].expiresAt)
      && (r == Done ==>
            && k in b && b[k].lastHeartbeatAt == now && b[k].expiresAt == now + ttl
            && b[k].(lastHeartbeatAt := a[k].lastHeartbeatAt, expiresAt := a[k].expiresAt) == a[k]
            && OthersKept(a, b, k))
      && (r != Done ==> b == a && r == Failed(if k.user == "" || k.conn == "" || ttl <= 0 then InvalidConnection else ConnectionNotFound))
  {
    hide TrimSpace;
  }

  /** A registration succeeds exactly for a named connection and a positive ttl, and then stores the
      normalized metadata under its names and changes nothing else. */
  lemma RegistrationRecords(a: Registry, m: Metadata, ttl: int, now: int)
    ensures var (b, r) := Ideal(a, Register(m, ttl), now);
      var k := Key(TrimSpace(m.userId), TrimSpace(m.connectionId));
      && (r == Done <==> k.user != "" && k.conn != "" && ttl > 0)
      && (r == Done ==> k in b && Some(b[k]) == Normalize(m, now, ttl) && b[k].expiresAt == now + ttl && OthersKept(a, b, k))
      && (r != Done ==> b == a && r == Failed(InvalidConnection))
  {
    hide TrimSpace, OrElse;
  }

  /** An unregistration removes that entry and no other. */
  lemma UnregistrationForgets(a: Registry, user: string, conn: string, now: int)
    ensures var (b, r) := Ideal(a, Unregister(user, conn), now);
      var k := Key(TrimSpace(user), TrimSpace(conn));
      && (r == Done <==> k.user != "" && k.conn != "")
      && (r == Done ==> k !in b && OthersKept(a, b, k))
      && (r != Done ==> b == a && r == Failed(InvalidConnection))
  {
    hide TrimSpace;
  }

  /** A listing shows exactly the user's entries that have not expired, in strictly increasing order of
      connection id, and a user is online exactly when there is one. */
  lemma ListingShows(a: Registry, user: string, now: int)
    requires KeysMatch(a) && TrimSpace(user) != ""
    ensures var u := TrimSpace(user);
      var (b, r) := Ideal(a, List(user), now);
      && b == a && r.Connections?
      && (forall m :: m in r.list <==> exists c :: Key(u, c) in a && a[Key(u, c)] == m && now < m.expiresAt)
      && (forall i, j :: 0 <= i < j < |r.list| ==> Less(r.list[i].connectionId, r.list[j].connectionId))
      && Ideal(a, IsOnline(user), now) == (a, Online(r.list != []))
  {
    hide TrimSpace, Listing;
    var u := TrimSpace(user);
    var live := LiveOf(a, u, now);
    LiveDistinct(a, u, now);
    forall m
      ensures m in live <==> exists c :: Key(u, c) in a && a[Key(u, c)] == m && now < m.expiresAt
    {
      if m in live {
        var k :| k in a.Keys && k.user == u && a[k].expiresAt > now && a[k] == m;
        assert k == Key(u, k.conn);
      }
    }
    var list := Listing(live);
    assert list != [] ==> list[0] in list;
  }
}
