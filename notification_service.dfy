/** Services/NotificationService.cs: a user's notifications, created by the chat
    core and read, marked and deleted by their owner only. Each operation is a
    method on the database, specified by a function on the notification table. */
module NotificationService {
  import opened Wrappers
  import opened Domain
  import opened Listing
  import opened Store

  /** `SaveChangesAsync` rejects a notification whose owner is not a user. */
  datatype DbError = UnknownUser

  datatype NotificationDto = NotificationDto(
    id: NotificationId,
    title: string,
    message: string,
    notificationType: string,
    data: Option<Payload>,
    isRead: bool,
    createdAt: Time)

  /** `MapToDto`: every field but the owner. */
  function MapToDto(n: Notification): (r: NotificationDto)
    ensures r.id == n.id && r.isRead == n.isRead && r.createdAt == n.createdAt
    ensures r.title == n.title && r.message == n.message
    ensures r.notificationType == n.notificationType && r.data == n.data
  {
    NotificationDto(n.id, n.title, n.message, n.notificationType, n.data, n.isRead, n.createdAt)
  }

  /** The row `CreateNotificationAsync` inserts: the draft's fields, unread, stamped now. */
  function FromDraft(id: NotificationId, userId: UserId, d: NotificationDraft, now: Time): Notification {
    Notification(id, userId, d.title, d.message, d.notificationType, d.data, false, now)
  }

  ghost predicate UniqueIds(ns: seq<Notification>) {
    forall i, j :: 0 <= i < j < |ns| ==> ns[i].id != ns[j].id
  }

  /** The lookup every owner-scoped operation uses: id and owner both match. */
  predicate Matches(n: Notification, id: NotificationId, userId: UserId) {
    n.id == id && n.userId == userId
  }

  /** The filters and the sort key of the queries below, named once so that
      lemmas about `Filter` apply to them. */
  function OwnedBy(userId: UserId): Notification -> bool {
    (n: Notification) => n.userId == userId
  }

  function UnreadOf(userId: UserId): Notification -> bool {
    (n: Notification) => n.userId == userId && !n.isRead
  }

  function Kept(id: NotificationId, userId: UserId): Notification -> bool {
    (n: Notification) => !Matches(n, id, userId)
  }

  function CreatedAt(n: Notification): int {
    n.createdAt
  }

  // ---------------------------------------------------------------------------
  // Specification functions on the table
  // ---------------------------------------------------------------------------

  /** The table after `MarkAsReadAsync(id, userId)`. */
  function MarkedRead(ns: seq<Notification>, id: NotificationId, userId: UserId): (r: seq<Notification>)
    ensures |r| == |ns|
  {
    seq(|ns|, i requires 0 <= i < |ns| => if Matches(ns[i], id, userId) then ns[i].(isRead := true) else ns[i])
  }

  /** The table after `MarkAllAsReadAsync(userId)`. */
  function AllMarkedRead(ns: seq<Notification>, userId: UserId): (r: seq<Notification>)
    ensures |r| == |ns|
  {
    seq(|ns|, i requires 0 <= i < |ns| => if ns[i].userId == userId then ns[i].(isRead := true) else ns[i])
  }

  /** The table after a successful `DeleteNotificationAsync(id, userId)`. */
  function Without(ns: seq<Notification>, id: NotificationId, userId: UserId): seq<Notification> {
    Filter(ns, Kept(id, userId))
  }

  /** `CountAsync(n => n.UserId == userId && !n.IsRead)`. */
  function UnreadCount(ns: seq<Notification>, userId: UserId): nat {
    |Filter(ns, UnreadOf(userId))|
  }

  /** The rows `GetUserNotificationsAsync` returns, before mapping to DTOs. */
  function UserNotifications(ns: seq<Notification>, userId: UserId, skip: int, take: int): (r: seq<Notification>)
    ensures |r| <= Max(take, 0)
    ensures forall i :: 0 <= i < |r| ==> r[i] in ns && r[i].userId == userId
    ensures forall i, j :: 0 <= i < j < |r| ==> r[i].createdAt >= r[j].createdAt
  {
    var owned := Filter(ns, OwnedBy(userId));
    var sorted := SortDesc(owned, CreatedAt);
    SortDescWithin(owned, CreatedAt);
    PageWithin(sorted, skip, take);
    var r := Page(sorted, skip, take);
    r
  }

  // ---------------------------------------------------------------------------
  // Lemmas
  // ---------------------------------------------------------------------------

  /** Creating a notification adds one unread notification for its owner and
      none for anybody else. */
  lemma UnreadCountAfterCreate(ns: seq<Notification>, n: Notification, userId: UserId)
    requires !n.isRead
    ensures UnreadCount(ns + [n], userId) == UnreadCount(ns, userId) + (if n.userId == userId then 1 else 0)
  {
    FilterConcat(ns, [n], UnreadOf(userId));
  }

  /** After `MarkAllAsReadAsync` the user has no unread notification. */
  lemma NoUnreadAfterMarkAll(ns: seq<Notification>, userId: UserId)
    ensures UnreadCount(AllMarkedRead(ns, userId), userId) == 0
  {
    FilterDropsAll(AllMarkedRead(ns, userId), UnreadOf(userId));
  }

  /** `MarkAllAsReadAsync` touches only the given user's notifications and only
      their read flag. */
  lemma MarkAllKeepsOthers(ns: seq<Notification>, userId: UserId)
    ensures forall i :: 0 <= i < |ns| && ns[i].userId != userId ==> AllMarkedRead(ns, userId)[i] == ns[i]
    ensures forall i :: 0 <= i < |ns| ==> AllMarkedRead(ns, userId)[i] == ns[i].(isRead := AllMarkedRead(ns, userId)[i].isRead)
  {
  }

  /** Marking a notification read twice leaves the table as marking it once. */
  lemma MarkedReadIdempotent(ns: seq<Notification>, id: NotificationId, userId: UserId)
    ensures MarkedRead(MarkedRead(ns, id, userId), id, userId) == MarkedRead(ns, id, userId)
  {
  }

  /** Marking one notification read lowers the owner's unread count by one when
      it was unread, and leaves it alone otherwise. */
  lemma FilterSingle(x: Notification, p: Notification -> bool)
    ensures Filter([x], p) == if p(x) then [x] else []
  {
    assert [x][1..] == [];
  }

  /** Marking the owner's notification `ns[k]` read lowers the owner's unread
      count by one when it was unread and leaves it alone otherwise. */
  lemma UnreadCountAfterMarkRead(ns: seq<Notification>, k: nat, id: NotificationId, userId: UserId)
    requires UniqueIds(ns)
    requires k < |ns| && Matches(ns[k], id, userId)
    ensures UnreadCount(MarkedRead(ns, id, userId), userId) == UnreadCount(ns, userId) - (if ns[k].isRead then 0 else 1)
  {
    var p := UnreadOf(userId);
    var a, x, b := ns[..k], ns[k], ns[k + 1..];
    var ms := MarkedRead(ns, id, userId);
    assert ns == a + [x] + b;
    assert ms == a + [x.(isRead := true)] + b by {
      forall i | 0 <= i < |ms| ensures ms[i] == (a + [x.(isRead := true)] + b)[i] {
        if i != k { assert ns[i].id != x.id; }
      }
    }
    FilterConcat(a + [x], b, p);
    FilterConcat(a, [x], p);
    FilterConcat(a + [x.(isRead := true)], b, p);
    FilterConcat(a, [x.(isRead := true)], p);
    FilterSingle(x, p);
    FilterSingle(x.(isRead := true), p);
  }

  /** With unique ids, deleting an existing notification removes exactly that one row. */
  lemma DeleteRemovesOne(ns: seq<Notification>, k: nat, id: NotificationId, userId: UserId)
    requires UniqueIds(ns)
    requires k < |ns| && Matches(ns[k], id, userId)
    ensures Without(ns, id, userId) == ns[..k] + ns[k + 1..]
    ensures |Without(ns, id, userId)| == |ns| - 1
  {
    var p := Kept(id, userId);
    var a, x, b := ns[..k], ns[k], ns[k + 1..];
    forall i | 0 <= i < |a| ensures p(a[i]) {
      assert a[i] == ns[i] && ns[i].id != ns[k].id;
    }
    forall i | 0 <= i < |b| ensures p(b[i]) {
      assert b[i] == ns[k + 1 + i] && ns[k + 1 + i].id != ns[k].id;
    }
    FilterKeepsAll(a, p);
    FilterKeepsAll(b, p);
    FilterSingle(x, p);
    FilterConcat(a, [x], p);
    assert Filter(a + [x], p) == a;
    FilterConcat(a + [x], b, p);
    assert ns == a + [x] + b;
    FilterKeepsAll(b, p);
  }

  /** The first page, when it is large enough, lists every notification of the
      user, each exactly as often as it is stored. */
  lemma FirstPageListsAll(ns: seq<Notification>, userId: UserId, take: int)
    requires take >= |Filter(ns, OwnedBy(userId))|
    ensures multiset(UserNotifications(ns, userId, 0, take)) == multiset(Filter(ns, OwnedBy(userId)))
  {
    var owned := Filter(ns, OwnedBy(userId));
    var sorted := SortDesc(owned, CreatedAt);
    assert Page(sorted, 0, take) == sorted;
  }

  // ---------------------------------------------------------------------------
  // Operations
  // ---------------------------------------------------------------------------

  /** `CreateNotificationAsync`: appends one unread notification for `userId`
      with the draft's title, message, type and data. */
  method CreateNotification(db: Database, userId: UserId, d: NotificationDraft, now: Time)
    returns (r: Result<NotificationDto, DbError>)
    requires db.Valid()
    modifies db`notifications, db`nextNotificationId
    ensures db.Valid()
    ensures r.Ok? <==> userId in db.users
    ensures r.Ok? ==> db.notifications == old(db.notifications) + [FromDraft(old(db.nextNotificationId), userId, d, now)]
    ensures r.Ok? ==> r.value == MapToDto(FromDraft(old(db.nextNotificationId), userId, d, now))
    ensures r.Err? ==> db.notifications == old(db.notifications)
    ensures db.nextNotificationId == old(db.nextNotificationId) + (if r.Ok? then 1 else 0)
  {
    if userId !in db.users {
      return Err(UnknownUser);
    }
    var n := FromDraft(db.nextNotificationId, userId, d, now);
    db.notifications := db.notifications + [n];
    db.nextNotificationId := db.nextNotificationId + 1;
    r := Ok(MapToDto(n));
  }

  /** `GetUserNotificationsAsync`. */
  function GetUserNotifications(db: Database, userId: UserId, skip: int, take: int): (r: seq<NotificationDto>)
    reads db
    ensures |r| == |UserNotifications(db.notifications, userId, skip, take)| <= Max(take, 0)
    ensures forall i :: 0 <= i < |r| ==>
      var n := UserNotifications(db.notifications, userId, skip, take)[i];
      r[i].id == n.id && r[i].title == n.title && r[i].message == n.message && r[i].isRead == n.isRead && n.userId == userId
    ensures forall i, j :: 0 <= i < j < |r| ==> r[i].createdAt >= r[j].createdAt
  {
    var rows := UserNotifications(db.notifications, userId, skip, take);
    seq(|rows|, i requires 0 <= i < |rows| => MapToDto(rows[i]))
  }

  /** The index `FirstOrDefaultAsync(n => n.Id == id && n.UserId == userId)` finds. */
  method FindOwned(ns: seq<Notification>, id: NotificationId, userId: UserId) returns (k: nat)
    ensures k <= |ns|
    ensures k < |ns| ==> Matches(ns[k], id, userId)
    ensures forall i :: 0 <= i < k ==> !Matches(ns[i], id, userId)
  {
    k := 0;
    while k < |ns| && !Matches(ns[k], id, userId)
      invariant k <= |ns|
      invariant forall i :: 0 <= i < k ==> !Matches(ns[i], id, userId)
    {
      k := k + 1;
    }
  }

  /** `MarkAsReadAsync`: flips the read flag of the notification with this id
      when it belongs to `userId`; any other call changes nothing. */
  method MarkAsRead(db: Database, id: NotificationId, userId: UserId)
    requires db.Valid()
    modifies db`notifications
    ensures db.Valid()
    ensures db.notifications == MarkedRead(old(db.notifications), id, userId)
  {
    var ns := db.notifications;
    var k := FindOwned(ns, id, userId);
    if k < |ns| && !ns[k].isRead {
      db.notifications := ns[k := ns[k].(isRead := true)];
    }
    assert forall i :: k < i < |ns| ==> !Matches(ns[i], id, userId) by {
      forall i | k < i < |ns| ensures !Matches(ns[i], id, userId) {
        if k < |ns| { assert ns[k].id != ns[i].id; }
      }
    }
  }

  /** `MarkAllAsReadAsync`: every unread notification of `userId` becomes read. */
  method MarkAllAsRead(db: Database, userId: UserId)
    requires db.Valid()
    modifies db`notifications
    ensures db.Valid()
    ensures db.notifications == AllMarkedRead(old(db.notifications), userId)
  {
    var ns := db.notifications;
    var i := 0;
    while i < |ns|
      invariant i <= |ns| && |db.notifications| == |ns|
      invariant forall k :: 0 <= k < i ==> db.notifications[k] == AllMarkedRead(ns, userId)[k]
      invariant forall k :: i <= k < |ns| ==> db.notifications[k] == ns[k]
    {
      if ns[i].userId == userId && !ns[i].isRead {
        db.notifications := db.notifications[i := ns[i].(isRead := true)];
      }
      i := i + 1;
    }
  }

  /** `GetUnreadCountAsync`. */
  function GetUnreadCount(db: Database, userId: UserId): (r: nat)
    reads db
    ensures r <= |db.notifications|
  {
    UnreadCount(db.notifications, userId)
  }

  /** `DeleteNotificationAsync`: removes the notification with this id when it
      belongs to `userId` and reports whether it did. */
  method DeleteNotification(db: Database, id: NotificationId, userId: UserId) returns (ok: bool)
    requires db.Valid()
    modifies db`notifications
    ensures db.Valid()
    ensures ok <==> exists i :: 0 <= i < |old(db.notifications)| && Matches(old(db.notifications)[i], id, userId)
    ensures ok ==> (db.notifications == Without(old(db.notifications), id, userId)
                   && |db.notifications| == |old(db.notifications)| - 1)
    ensures !ok ==> db.notifications == old(db.notifications)
  {
    var ns := db.notifications;
    var k := FindOwned(ns, id, userId);
    if k == |ns| {
      return false;
    }
    DeleteRemovesOne(ns, k, id, userId);
    RemovedRowsValid(ns, k, db.nextNotificationId, db.users);
    db.notifications := ns[..k] + ns[k + 1..];
    ok := true;
  }

  /** Removing a row keeps the table's ids unique, positive and below the
      counter, and its owners stored. */
  lemma RemovedRowsValid(ns: seq<Notification>, k: nat, next: int, users: map<UserId, User>)
    requires k < |ns|
    requires forall i :: 0 <= i < |ns| ==> 0 < ns[i].id < next && ns[i].userId in users
    requires UniqueIds(ns)
    ensures var r := ns[..k] + ns[k + 1..];
      && (forall i :: 0 <= i < |r| ==> 0 < r[i].id < next && r[i].userId in users)
      && UniqueIds(r)
  {
    var r := ns[..k] + ns[k + 1..];
    assert forall i :: 0 <= i < k ==> r[i] == ns[i];
    assert forall j :: k < j < |ns| ==> r[j - 1] == ns[j];
    forall i, j | 0 <= i < j < |r| ensures r[i].id != r[j].id {
      var i', j' := if i < k then i else i + 1, if j < k then j else j + 1;
      assert r[i] == ns[i'] && r[j] == ns[j'];
    }
  }
}
