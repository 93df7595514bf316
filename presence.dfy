/** The presence and activity tracker of Hubs/ChatHub.cs as a state machine on
    values: the four static dictionaries of the hub form a `Presence`, and each
    hub operation is a function from the presence, the stored users and the
    caller to the next presence, the next users and the pushes it sends. The
    hub class in chat_hub.dfy performs these steps in place. */
module PresenceTracker {
  import opened Wrappers
  import opened Domain
  import opened Events

  /** `_userConnections`, `_userStatuses`, `_userLastActivity`, `_userActiveChats`. */
  datatype Presence = Presence(
    connections: map<ConnectionId, UserId>,
    statuses: map<UserId, UserStatus>,
    lastActivity: map<UserId, Time>,
    activeChats: map<UserId, seq<ChatId>>)

  /** The dictionaries when the process starts. */
  const Empty := Presence(map[], map[], map[], map[])

  /** The outcome of one hub call. */
  datatype Step = Step(presence: Presence, users: map<UserId, User>, pushes: seq<Push>)

  /** The idle threshold of `CheckUserActivity`: `TotalMinutes >= 5`. */
  const IdleTicks: int := 5 * TicksPerMinute

  /** Whether some connection is still mapped to `u`. */
  predicate Connected(conns: map<ConnectionId, UserId>, u: UserId) {
    exists c :: c in conns && conns[c] == u
  }

  /** `OnConnectedAsync`: record the connection; for a stored user also store
      and cache Online, stamp the activity and announce Online to everybody,
      on every connection of that user. */
  function Connect(p: Presence, users: map<UserId, User>, caller: Option<UserId>, conn: ConnectionId, now: Time): Step {
    match caller
    case None => Step(p, users, [])
    case Some(u) =>
      var p1 := p.(connections := p.connections[conn := u]);
      if u in users then
        Step(p1.(statuses := p1.statuses[u := Online], lastActivity := p1.lastActivity[u := now]),
             users[u := users[u].(status := Online, lastSeen := now)],
             [Send(Everyone, UserStatusChanged(u, "Online"))])
      else Step(p1, users, [])
  }

  /** `OnDisconnectedAsync`: forget the connection; when it was the user's last
      one, store and cache Offline and announce it (stored users only), and
      drop the user's active chats (every user). `LastSeen` is not touched. */
  function Disconnect(p: Presence, users: map<UserId, User>, caller: Option<UserId>, conn: ConnectionId): Step {
    match caller
    case None => Step(p, users, [])
    case Some(u) =>
      var p1 := p.(connections := p.connections - {conn});
      if Connected(p1.connections, u) then Step(p1, users, [])
      else
        var p2 := p1.(activeChats := p1.activeChats - {u});
        if u in users then
          Step(p2.(statuses := p2.statuses[u := Offline]),
               users[u := users[u].(status := Offline)],
               [Send(Everyone, UserStatusChanged(u, "Offline"))])
        else Step(p2, users, [])
  }

  /** `UpdateStatus(status)`: for a stored caller and a status name, store and
      cache the status, stamp the activity and announce the name as given. */
  function SetStatus(p: Presence, users: map<UserId, User>, caller: Option<UserId>, status: string, now: Time): Step {
    if caller.Some? && ParseStatus(status).Some? && caller.value in users then
      var u := caller.value;
      var st := ParseStatus(status).value;
      Step(p.(statuses := p.statuses[u := st], lastActivity := p.lastActivity[u := now]),
           users[u := users[u].(status := st, lastSeen := now)],
           [Send(Everyone, UserStatusChanged(u, status))])
    else Step(p, users, [])
  }

  /** `UpdateUserActivity`: stamp the activity; an Away user goes back Online. */
  function Activity(p: Presence, users: map<UserId, User>, caller: Option<UserId>, now: Time): Step {
    match caller
    case None => Step(p, users, [])
    case Some(u) =>
      var p1 := p.(lastActivity := p.lastActivity[u := now]);
      if u in p1.statuses && p1.statuses[u] == Away then SetStatus(p1, users, caller, "Online", now)
      else Step(p1, users, [])
  }

  /** The condition of `CheckUserActivity`: a recorded activity at least five
      minutes old and a cached status other than DoNotDisturb and Away. */
  predicate IsIdle(p: Presence, u: UserId, now: Time) {
    && u in p.lastActivity && now - p.lastActivity[u] >= IdleTicks
    && u in p.statuses && p.statuses[u] != DoNotDisturb && p.statuses[u] != Away
  }

  /** `CheckUserActivity`: an idle user is set Away. */
  function CheckActivity(p: Presence, users: map<UserId, User>, caller: Option<UserId>, now: Time): Step {
    if caller.Some? && IsIdle(p, caller.value, now) then SetStatus(p, users, caller, "Away", now)
    else Step(p, users, [])
  }

  /** `JoinChat(chatId)`: join the chat's group and add the chat to the user's
      active chats unless it is there already. */
  function Join(p: Presence, users: map<UserId, User>, caller: Option<UserId>, conn: ConnectionId, chatId: ChatId, now: Time): Step {
    match caller
    case None => Step(p, users, [])
    case Some(u) =>
      var list := if u in p.activeChats then p.activeChats[u] else [];
      var list' := if chatId in list then list else list + [chatId];
      Step(p.(activeChats := p.activeChats[u := list'], lastActivity := p.lastActivity[u := now]),
           users, [AddToGroup(conn, chatId)])
  }

  /** `List<int>.Remove(x)`: drops the first occurrence of `x`, if any. */
  function RemoveFirst(xs: seq<ChatId>, x: ChatId): (r: seq<ChatId>)
    ensures x !in xs ==> r == xs
    ensures x in xs ==> |r| == |xs| - 1
    ensures multiset(r) == multiset(xs) - multiset{x}
  {
    if xs == [] then []
    else
      assert xs == [xs[0]] + xs[1..];
      if xs[0] == x then xs[1..] else [xs[0]] + RemoveFirst(xs[1..], x)
  }

  /** `LeaveChat(chatId)`: leave the chat's group and drop the chat from the
      user's active chats, forgetting the user once none is left. */
  function Leave(p: Presence, users: map<UserId, User>, caller: Option<UserId>, conn: ConnectionId, chatId: ChatId): Step {
    match caller
    case None => Step(p, users, [])
    case Some(u) =>
      if u in p.activeChats then
        var list' := RemoveFirst(p.activeChats[u], chatId);
        if list' == [] then Step(p.(activeChats := p.activeChats - {u}), users, [RemoveFromGroup(conn, chatId)])
        else Step(p.(activeChats := p.activeChats[u := list']), users, [RemoveFromGroup(conn, chatId)])
      else Step(p, users, [RemoveFromGroup(conn, chatId)])
  }

  /** The answer `GetUserStatuses` gives for one id: the cached status, else
      the stored status, else "Offline". */
  function StatusAnswer(statuses: map<UserId, UserStatus>, users: map<UserId, User>, u: UserId): string {
    if u in statuses then StatusName(statuses[u])
    else if u in users then StatusName(users[u].status)
    else "Offline"
  }

  /** The result of `GetUserStatuses(ids)`: one entry per requested id. */
  function StatusLookup(statuses: map<UserId, UserStatus>, users: map<UserId, User>, ids: seq<UserId>): (r: map<UserId, string>)
    ensures r.Keys == set u | u in ids
  {
    map u | u in ids :: StatusAnswer(statuses, users, u)
  }

  /** The status cache after `GetUserStatuses(ids)`: the stored status of every
      requested stored user that was not cached yet is cached. */
  function Cached(statuses: map<UserId, UserStatus>, users: map<UserId, User>, ids: seq<UserId>): map<UserId, UserStatus> {
    map u | u in statuses.Keys + (set v | v in ids && v in users) :: if u in statuses then statuses[u] else users[u].status
  }

  // ---------------------------------------------------------------------------
  // Invariants
  // ---------------------------------------------------------------------------

  ghost predicate NoDuplicates(xs: seq<ChatId>) {
    forall i, j :: 0 <= i < j < |xs| ==> xs[i] != xs[j]
  }

  /** Every recorded list of active chats is non-empty and duplicate-free. */
  ghost predicate ActiveChatsWellFormed(ac: map<UserId, seq<ChatId>>) {
    forall u :: u in ac ==> ac[u] != [] && NoDuplicates(ac[u])
  }

  /** Every cached status is the stored status of a stored user. */
  ghost predicate MirrorsStore(statuses: map<UserId, UserStatus>, users: map<UserId, User>) {
    forall u :: u in statuses ==> u in users && users[u].status == statuses[u]
  }

  /** Removing an element keeps only elements of the list. */
  lemma RemoveFirstWithin(xs: seq<ChatId>, x: ChatId)
    ensures forall k :: 0 <= k < |RemoveFirst(xs, x)| ==> RemoveFirst(xs, x)[k] in xs
  {
    var r := RemoveFirst(xs, x);
    forall k | 0 <= k < |r| ensures r[k] in xs {
      assert r[k] in multiset(r);
    }
  }

  /** Removing an element from a duplicate-free list leaves a duplicate-free
      list without that element. */
  lemma {:induction false} RemoveFirstNoDuplicates(xs: seq<ChatId>, x: ChatId)
    requires NoDuplicates(xs)
    ensures NoDuplicates(RemoveFirst(xs, x)) && x !in RemoveFirst(xs, x)
  {
    if xs != [] {
      var tail := xs[1..];
      assert NoDuplicates(tail) by {
        forall i, j | 0 <= i < j < |tail| ensures tail[i] != tail[j] {
          assert tail[i] == xs[i + 1] && tail[j] == xs[j + 1];
        }
      }
      assert forall k :: 0 <= k < |tail| ==> tail[k] != xs[0] by {
        forall k | 0 <= k < |tail| ensures tail[k] != xs[0] {
          assert tail[k] == xs[k + 1];
        }
      }
      if xs[0] != x {
        RemoveFirstNoDuplicates(tail, x);
        RemoveFirstWithin(tail, x);
        var r := RemoveFirst(tail, x);
        var s := [xs[0]] + r;
        assert RemoveFirst(xs, x) == s;
        forall i, j | 0 <= i < j < |s| ensures s[i] != s[j] {
          assert s[j] == r[j - 1];
          if i > 0 {
            assert s[i] == r[i - 1];
          } else {
            var m :| 0 <= m < |tail| && tail[m] == r[j - 1];
          }
        }
      }
    }
  }

  /** Joining keeps every active-chat list non-empty and duplicate-free, and
      records the joined chat exactly once. */
  lemma JoinWellFormed(p: Presence, users: map<UserId, User>, u: UserId, conn: ConnectionId, chatId: ChatId, now: Time)
    requires ActiveChatsWellFormed(p.activeChats)
    ensures var q := Join(p, users, Some(u), conn, chatId, now).presence;
      && ActiveChatsWellFormed(q.activeChats)
      && u in q.activeChats && chatId in q.activeChats[u]
      && q.lastActivity[u] == now
  {
    var list := if u in p.activeChats then p.activeChats[u] else [];
    if chatId !in list {
      var list' := list + [chatId];
      forall i, j | 0 <= i < j < |list'| ensures list'[i] != list'[j] {
        if j == |list| { assert list'[i] == list[i]; }
      }
    }
  }

  /** Leaving keeps every active-chat list non-empty and duplicate-free and
      leaves the chat in none of the user's lists. */
  lemma LeaveWellFormed(p: Presence, users: map<UserId, User>, u: UserId, conn: ConnectionId, chatId: ChatId)
    requires ActiveChatsWellFormed(p.activeChats)
    ensures var q := Leave(p, users, Some(u), conn, chatId).presence;
      && ActiveChatsWellFormed(q.activeChats)
      && (u in q.activeChats ==> chatId !in q.activeChats[u])
      && (u in p.activeChats && p.activeChats[u] == [chatId] ==> u !in q.activeChats)
  {
    if u in p.activeChats {
      var list' := RemoveFirst(p.activeChats[u], chatId);
      RemoveFirstNoDuplicates(p.activeChats[u], chatId);
      var ac := if list' == [] then p.activeChats - {u} else p.activeChats[u := list'];
      assert Leave(p, users, Some(u), conn, chatId).presence.activeChats == ac;
      forall v | v in ac ensures ac[v] != [] && NoDuplicates(ac[v]) {
        if v != u {
          assert ac[v] == p.activeChats[v];
        }
      }
    }
  }

  /** Disconnecting keeps the active-chat lists well formed. */
  lemma DisconnectWellFormed(p: Presence, users: map<UserId, User>, caller: Option<UserId>, conn: ConnectionId)
    requires ActiveChatsWellFormed(p.activeChats)
    ensures ActiveChatsWellFormed(Disconnect(p, users, caller, conn).presence.activeChats)
  {
  }

  /** Writing one status to both the cache and the store keeps them equal. */
  lemma StatusWriteMirrors(statuses: map<UserId, UserStatus>, users: map<UserId, User>, u: UserId, st: UserStatus, seen: Time)
    requires MirrorsStore(statuses, users) && u in users
    ensures MirrorsStore(statuses[u := st], users[u := users[u].(status := st, lastSeen := seen)])
    ensures MirrorsStore(statuses[u := st], users[u := users[u].(status := st)])
  {
  }

  /** Setting a status keeps the cache equal to the store. */
  lemma SetStatusMirrors(p: Presence, users: map<UserId, User>, caller: Option<UserId>, status: string, now: Time)
    requires MirrorsStore(p.statuses, users)
    ensures var s := SetStatus(p, users, caller, status, now); MirrorsStore(s.presence.statuses, s.users)
  {
    if caller.Some? && ParseStatus(status).Some? && caller.value in users {
      StatusWriteMirrors(p.statuses, users, caller.value, ParseStatus(status).value, now);
    }
  }

  /** Connecting and disconnecting keep the cache equal to the store. */
  lemma ConnectionsMirror(p: Presence, users: map<UserId, User>, caller: Option<UserId>, conn: ConnectionId, now: Time)
    requires MirrorsStore(p.statuses, users)
    ensures var s := Connect(p, users, caller, conn, now); MirrorsStore(s.presence.statuses, s.users)
    ensures var s := Disconnect(p, users, caller, conn); MirrorsStore(s.presence.statuses, s.users)
  {
    if caller.Some? && caller.value in users {
      StatusWriteMirrors(p.statuses, users, caller.value, Online, now);
      StatusWriteMirrors(p.statuses, users, caller.value, Offline, now);
    }
  }

  /** Every hub transition keeps the cached statuses equal to the stored ones. */
  lemma TransitionsMirrorStore(p: Presence, users: map<UserId, User>, caller: Option<UserId>, conn: ConnectionId,
                               status: string, chatId: ChatId, now: Time)
    requires MirrorsStore(p.statuses, users)
    ensures var s := Connect(p, users, caller, conn, now); MirrorsStore(s.presence.statuses, s.users)
    ensures var s := Disconnect(p, users, caller, conn); MirrorsStore(s.presence.statuses, s.users)
    ensures var s := SetStatus(p, users, caller, status, now); MirrorsStore(s.presence.statuses, s.users)
    ensures var s := Activity(p, users, caller, now); MirrorsStore(s.presence.statuses, s.users)
    ensures var s := CheckActivity(p, users, caller, now); MirrorsStore(s.presence.statuses, s.users)
    ensures var s := Join(p, users, caller, conn, chatId, now); MirrorsStore(s.presence.statuses, s.users)
    ensures var s := Leave(p, users, caller, conn, chatId); MirrorsStore(s.presence.statuses, s.users)
  {
    ConnectionsMirror(p, users, caller, conn, now);
    SetStatusMirrors(p, users, caller, status, now);
    SetStatusMirrors(p, users, caller, "Away", now);
    if caller.Some? {
      var p1 := p.(lastActivity := p.lastActivity[caller.value := now]);
      SetStatusMirrors(p1, users, caller, "Online", now);
    }
  }

  /** Looking up one more id adds that id's answer. */
  lemma StatusLookupSnoc(statuses: map<UserId, UserStatus>, users: map<UserId, User>, ids: seq<UserId>, u: UserId)
    ensures StatusLookup(statuses, users, ids + [u]) == StatusLookup(statuses, users, ids)[u := StatusAnswer(statuses, users, u)]
  {
    var l := StatusLookup(statuses, users, ids + [u]);
    var r := StatusLookup(statuses, users, ids)[u := StatusAnswer(statuses, users, u)];
    assert l.Keys == r.Keys;
    forall v | v in l ensures l[v] == r[v] {
    }
  }

  /** Looking up one more id caches that id's stored status when it was
      neither cached nor unknown. */
  lemma CachedSnoc(statuses: map<UserId, UserStatus>, users: map<UserId, User>, ids: seq<UserId>, u: UserId)
    ensures var c := Cached(statuses, users, ids);
      Cached(statuses, users, ids + [u]) == if u in c || u !in users then c else c[u := users[u].status]
  {
    var c := Cached(statuses, users, ids);
    var l := Cached(statuses, users, ids + [u]);
    var r := if u in c || u !in users then c else c[u := users[u].status];
    assert l.Keys == r.Keys;
  }

  /** Caching during a lookup changes no answer: a cached entry repeats the
      stored status the lookup would have fallen back to. */
  lemma CachingKeepsAnswers(statuses: map<UserId, UserStatus>, users: map<UserId, User>, ids: seq<UserId>, u: UserId)
    ensures StatusAnswer(Cached(statuses, users, ids), users, u) == StatusAnswer(statuses, users, u)
  {
  }

  /** A second lookup of the same ids gives the same answers and caches nothing
      more. */
  lemma LookupRepeatable(statuses: map<UserId, UserStatus>, users: map<UserId, User>, ids: seq<UserId>)
    ensures var c := Cached(statuses, users, ids);
      StatusLookup(c, users, ids) == StatusLookup(statuses, users, ids) && Cached(c, users, ids) == c
  {
    var c := Cached(statuses, users, ids);
    forall u | u in ids ensures StatusAnswer(c, users, u) == StatusAnswer(statuses, users, u) {
      CachingKeepsAnswers(statuses, users, ids, u);
    }
  }

  /** While the cache mirrors the store, the hub's lookup answers like the
      store: the stored status of a stored user and "Offline" otherwise; and
      the cache still mirrors the store afterwards. */
  lemma LookupMatchesStore(statuses: map<UserId, UserStatus>, users: map<UserId, User>, ids: seq<UserId>)
    requires MirrorsStore(statuses, users)
    ensures var r := StatusLookup(statuses, users, ids);
      && (forall u :: u in r && u in users ==> r[u] == StatusName(users[u].status))
      && (forall u :: u in r && u !in users ==> r[u] == "Offline")
    ensures MirrorsStore(Cached(statuses, users, ids), users)
  {
  }

  // ---------------------------------------------------------------------------
  // Properties of the transitions
  // ---------------------------------------------------------------------------

  /** Connecting records the connection; for a stored user the status becomes
      Online, the activity is stamped and Online is announced. Nobody else's
      status changes. */
  lemma ConnectRecords(p: Presence, users: map<UserId, User>, u: UserId, conn: ConnectionId, now: Time)
    ensures var s := Connect(p, users, Some(u), conn, now);
      && s.presence.connections == p.connections[conn := u]
      && (u in users ==> s.presence.statuses[u] == Online && s.presence.lastActivity[u] == now
                         && s.users[u].status == Online
                         && s.pushes == [Send(Everyone, UserStatusChanged(u, "Online"))])
      && (u !in users ==> s.presence.statuses == p.statuses && s.users == users && s.pushes == [])
      && (forall v :: v != u && v in p.statuses ==> v in s.presence.statuses && s.presence.statuses[v] == p.statuses[v])
      && s.presence.activeChats == p.activeChats
  {
  }

  /** Disconnecting forgets only that connection; a user with another
      connection keeps status, activity and active chats, and nothing is
      announced. */
  lemma DisconnectWithOtherConnection(p: Presence, users: map<UserId, User>, u: UserId, conn: ConnectionId, other: ConnectionId)
    requires other != conn && other in p.connections && p.connections[other] == u
    ensures var s := Disconnect(p, users, Some(u), conn);
      && s.presence == p.(connections := p.connections - {conn})
      && s.users == users && s.pushes == []
  {
    assert other in (p.connections - {conn});
  }

  /** After the last connection of a user closes, the user has no active chats
      and, when stored, is Offline in memory and in the store, which everybody
      is told. */
  lemma DisconnectLast(p: Presence, users: map<UserId, User>, u: UserId, conn: ConnectionId)
    requires forall c :: c in p.connections && p.connections[c] == u ==> c == conn
    ensures var s := Disconnect(p, users, Some(u), conn);
      && s.presence.connections == p.connections - {conn}
      && u !in s.presence.activeChats
      && (u in users ==> s.presence.statuses[u] == Offline && s.users[u].status == Offline
                         && s.users[u].lastSeen == users[u].lastSeen
                         && s.pushes == [Send(Everyone, UserStatusChanged(u, "Offline"))])
      && s.presence.lastActivity == p.lastActivity
  {
    assert !Connected(p.connections - {conn}, u);
  }

  /** A status that is not one of the five names changes nothing. */
  lemma UnparsedStatusIgnored(p: Presence, users: map<UserId, User>, caller: Option<UserId>, status: string, now: Time)
    requires forall st: UserStatus :: StatusName(st) != status
    ensures SetStatus(p, users, caller, status, now) == Step(p, users, [])
  {
  }

  /** A status name sets the stored and the cached status of a stored user,
      stamps the activity and announces the name as given. */
  lemma StatusNameApplied(p: Presence, users: map<UserId, User>, u: UserId, st: UserStatus, now: Time)
    requires u in users
    ensures var s := SetStatus(p, users, Some(u), StatusName(st), now);
      && s.presence.statuses == p.statuses[u := st]
      && s.presence.lastActivity == p.lastActivity[u := now]
      && s.users == users[u := users[u].(status := st, lastSeen := now)]
      && s.pushes == [Send(Everyone, UserStatusChanged(u, StatusName(st)))]
      && s.presence.connections == p.connections && s.presence.activeChats == p.activeChats
  {
  }

  /** An activity ping always stamps the activity; it brings a stored Away
      user back Online and leaves every other status as it is. */
  lemma ActivityPing(p: Presence, users: map<UserId, User>, u: UserId, now: Time)
    ensures var s := Activity(p, users, Some(u), now);
      && s.presence.lastActivity[u] == now
      && (u in p.statuses && p.statuses[u] == Away && u in users ==> s.presence.statuses[u] == Online)
      && (u in p.statuses && p.statuses[u] != Away ==> s.presence.statuses == p.statuses && s.users == users)
      && (u !in p.statuses ==> s.presence.statuses == p.statuses && s.users == users)
  {
  }

  /** Under five minutes of inactivity the idle check changes nothing. */
  lemma RecentActivityKeepsStatus(p: Presence, users: map<UserId, User>, u: UserId, now: Time)
    requires u in p.lastActivity && now - p.lastActivity[u] < IdleTicks
    ensures CheckActivity(p, users, Some(u), now) == Step(p, users, [])
  {
  }

  /** DoNotDisturb and Away are never changed by the idle check. */
  lemma IdleCheckSparesDndAndAway(p: Presence, users: map<UserId, User>, u: UserId, now: Time)
    requires u in p.statuses && (p.statuses[u] == DoNotDisturb || p.statuses[u] == Away)
    ensures CheckActivity(p, users, Some(u), now) == Step(p, users, [])
  {
  }

  /** An idle stored user who is Online, Busy or Offline is set Away: Busy is
      not exempt. */
  lemma IdleUserSetAway(p: Presence, users: map<UserId, User>, u: UserId, now: Time)
    requires u in users && u in p.statuses && p.statuses[u] in {Online, Busy, Offline}
    requires u in p.lastActivity && now - p.lastActivity[u] >= IdleTicks
    ensures var s := CheckActivity(p, users, Some(u), now);
      && s.presence.statuses[u] == Away && s.users[u].status == Away
      && s.pushes == [Send(Everyone, UserStatusChanged(u, "Away"))]
  {
    assert ParseStatus("Away") == Some(Away);
  }

  /** Two connections of one stored user: both connects announce Online, the
      first disconnect keeps the user Online silently, the second sets Offline
      and announces it. */
  lemma TwoConnectionsScenario(p: Presence, users: map<UserId, User>, u: UserId, c1: ConnectionId, c2: ConnectionId, t1: Time, t2: Time)
    requires u in users && c1 != c2
    requires !Connected(p.connections, u)
    ensures var s1 := Connect(p, users, Some(u), c1, t1);
      var s2 := Connect(s1.presence, s1.users, Some(u), c2, t2);
      var s3 := Disconnect(s2.presence, s2.users, Some(u), c1);
      var s4 := Disconnect(s3.presence, s3.users, Some(u), c2);
      && s1.pushes == [Send(Everyone, UserStatusChanged(u, "Online"))]
      && s2.pushes == [Send(Everyone, UserStatusChanged(u, "Online"))]
      && s3.pushes == [] && s3.presence.statuses[u] == Online
      && s4.pushes == [Send(Everyone, UserStatusChanged(u, "Offline"))]
      && s4.presence.statuses[u] == Offline && s4.users[u].status == Offline
      && !Connected(s4.presence.connections, u)
  {
    var s1 := Connect(p, users, Some(u), c1, t1);
    var s2 := Connect(s1.presence, s1.users, Some(u), c2, t2);
    var s3 := Disconnect(s2.presence, s2.users, Some(u), c1);
    assert c2 in s2.presence.connections - {c1};
    assert s3.presence.connections == (p.connections[c1 := u][c2 := u]) - {c1};
    var s4conns := s3.presence.connections - {c2};
    forall c | c in s4conns ensures s4conns[c] != u {
      assert c in p.connections && s4conns[c] == p.connections[c];
    }
  }
}
