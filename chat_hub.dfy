/** Hubs/ChatHub.cs: the hub's static dictionaries as the fields of a class,
    updated in place by its methods, each proved to perform the corresponding
    step of the presence state machine; and the hub's own notification loops. */
module ChatHub {
  import opened Wrappers
  import opened Domain
  import opened FanOut
  import opened Events
  import opened Store
  import opened PresenceTracker
  import opened Listing
  import ChatService
  import NotificationService

  // ---------------------------------------------------------------------------
  // What the notification loops push
  // ---------------------------------------------------------------------------

  /** The `ReceiveNotification` pushes `SendNotificationToUser` sends for the
      rows `Stored(rs, d, firstId, now)`: the stored title and message. */
  function NotificationPushes(rs: seq<UserId>, d: NotificationDraft, firstId: int): (r: seq<Push>)
    ensures |r| == |rs|
  {
    seq(|rs|, i requires 0 <= i < |rs| => Send(OneUser(rs[i]), ReceiveNotification(firstId + i, d.title, d.message)))
  }

  lemma NotificationPushesSnoc(rs: seq<UserId>, u: UserId, d: NotificationDraft, firstId: int)
    ensures NotificationPushes(rs + [u], d, firstId)
         == NotificationPushes(rs, d, firstId) + [Send(OneUser(u), ReceiveNotification(firstId + |rs|, d.title, d.message))]
  {
  }

  /** What `SendNotificationToChatUsers` shows for one message. */
  datatype Alert = Alert(title: string, content: string, senderName: string, icon: string, chatId: ChatId, messageId: MessageId)

  /** `userSettings == null || userSettings.ShowBanner`. */
  predicate WantsBanner(settings: map<UserId, NotificationSettings>, u: UserId) {
    u !in settings || settings[u].showBanner
  }

  /** The pushes for one recipient: the notification with the full content,
      then a browser banner when the recipient's settings allow it. */
  function AlertsFor(u: UserId, id: NotificationId, a: Alert, banner: bool): seq<Push> {
    [Send(OneUser(u), ReceiveNotification(id, a.title, a.content))]
      + (if banner then [Send(OneUser(u), ShowBrowserNotification(a.senderName, a.content, a.icon, a.chatId, a.messageId))] else [])
  }

  /** The pushes for recipients `rs`, visited in order, with consecutive
      notification ids from `firstId`. */
  function ChatAlerts(rs: seq<UserId>, firstId: int, settings: map<UserId, NotificationSettings>, a: Alert): seq<Push>
    decreases |rs|
  {
    if rs == [] then []
    else
      var k := |rs| - 1;
      ChatAlerts(rs[..k], firstId, settings, a) + AlertsFor(rs[k], firstId + k, a, WantsBanner(settings, rs[k]))
  }

  lemma ChatAlertsSnoc(rs: seq<UserId>, u: UserId, firstId: int, settings: map<UserId, NotificationSettings>, a: Alert)
    ensures ChatAlerts(rs + [u], firstId, settings, a)
         == ChatAlerts(rs, firstId, settings, a) + AlertsFor(u, firstId + |rs|, a, WantsBanner(settings, u))
  {
    assert (rs + [u])[..|rs|] == rs;
  }

  /** Every recipient receives its stored notification's id with the full,
      uncut content. */
  lemma {:induction false} FullContentPushed(rs: seq<UserId>, firstId: int, settings: map<UserId, NotificationSettings>, a: Alert)
    ensures forall i :: 0 <= i < |rs| ==>
      Send(OneUser(rs[i]), ReceiveNotification(firstId + i, a.title, a.content)) in ChatAlerts(rs, firstId, settings, a)
  {
    if rs != [] {
      var k := |rs| - 1;
      FullContentPushed(rs[..k], firstId, settings, a);
      var before := ChatAlerts(rs[..k], firstId, settings, a);
      var last := AlertsFor(rs[k], firstId + k, a, WantsBanner(settings, rs[k]));
      forall i | 0 <= i < |rs|
        ensures Send(OneUser(rs[i]), ReceiveNotification(firstId + i, a.title, a.content)) in before + last
      {
        if i < k {
          assert rs[..k][i] == rs[i];
          assert Send(OneUser(rs[i]), ReceiveNotification(firstId + i, a.title, a.content)) in before;
        } else {
          assert last[0] == Send(OneUser(rs[i]), ReceiveNotification(firstId + i, a.title, a.content));
        }
      }
    }
  }

  /** Every push goes to one of the recipients, and a banner only to one whose
      settings are absent or allow banners. */
  lemma {:induction false} AlertsAddressed(rs: seq<UserId>, firstId: int, settings: map<UserId, NotificationSettings>, a: Alert)
    ensures forall p :: p in ChatAlerts(rs, firstId, settings, a) ==>
      && p.Send? && p.to.OneUser? && p.to.userId in rs
      && (p.event.ShowBrowserNotification? ==> WantsBanner(settings, p.to.userId))
  {
    if rs != [] {
      var k := |rs| - 1;
      AlertsAddressed(rs[..k], firstId, settings, a);
      forall p | p in ChatAlerts(rs[..k], firstId, settings, a) ensures p.to.userId in rs {
        assert p.to.userId in rs[..k];
      }
    }
  }

  /** `SendFileMessage`'s notification text: compares the type name as given,
      case-sensitively. */
  function FileLabel(messageType: string): string {
    if messageType == "Image" then "Отправлено изображение" else "Отправлен файл"
  }

  /** An image sent with the type name "image" is stored as an image (the type
      is parsed ignoring case) but announced as a file. */
  lemma LowerCaseImageAnnouncedAsFile()
    ensures ParseMessageType("image") == Some(Image)
    ensures FileLabel("image") == "Отправлен файл" && FileLabel("Image") == "Отправлено изображение"
  {
    LowerMessageTypeNames();
    assert LowerAscii("image") == "image";
  }

  /** Two passes storing the same draft, the second over no one the first
      missed and numbered after it, store for each recipient of the second a
      row equal to one of the first but for its id. With
      `HubRecipientsNotifiedByService` this is the hub's `SendMessage`: every
      recipient has the service's row and the hub's duplicate. */
  lemma SecondPassDuplicates(rs1: seq<UserId>, rs2: seq<UserId>, d: NotificationDraft, n0: int, now: Time)
    requires forall v :: v in rs2 ==> v in rs1
    ensures forall j :: 0 <= j < |rs2| ==> exists i :: (
      && 0 <= i < |rs1|
      && ChatService.Stored(rs1, d, n0, now)[i].userId == rs2[j]
      && ChatService.Stored(rs2, d, n0 + |rs1|, now)[j] == ChatService.Stored(rs1, d, n0, now)[i].(id := n0 + |rs1| + j))
  {
    var first := ChatService.Stored(rs1, d, n0, now);
    var second := ChatService.Stored(rs2, d, n0 + |first|, now);
    forall j | 0 <= j < |rs2|
      ensures exists i :: 0 <= i < |rs1| && first[i].userId == rs2[j] && second[j] == first[i].(id := n0 + |rs1| + j)
    {
      assert rs2[j] in rs2;
      var i :| 0 <= i < |rs1| && rs1[i] == rs2[j];
      assert first[i] == NotificationService.FromDraft(n0 + i, rs2[j], d, now);
      assert second[j] == NotificationService.FromDraft(n0 + |first| + j, rs2[j], d, now);
    }
    assert |first| == |rs1|;
    assert second == ChatService.Stored(rs2, d, n0 + |rs1|, now);
    assert forall j :: 0 <= j < |rs2| ==> exists i :: 0 <= i < |rs1| && first[i].userId == rs2[j] && second[j] == first[i].(id := n0 + |rs1| + j);
  }

  /** The service notifies every member the hub's loop notifies. */
  lemma HubRecipientsNotifiedByService(order: seq<UserId>, members: seq<UserId>, sender: UserId,
                                       settings: map<UserId, NotificationSettings>)
    requires forall v :: v in order <==> v in members && v != sender
    ensures forall v :: v in Recipients(members, sender, settings) ==> v in Recipients(order, sender, settings)
  {
  }

  /** A duplicate-free sequence has as many elements as its set. */
  lemma {:induction false} DistinctCardinality<T>(xs: seq<T>)
    requires Distinct(xs)
    ensures |set x | x in xs| == |xs|
  {
    if xs != [] {
      DistinctTail(xs);
      DistinctCardinality(xs[1..]);
      assert (set x | x in xs) == {xs[0]} + (set x | x in xs[1..]);
    }
  }

  /** A pass over a duplicate-free recipient list stores one row for each
      recipient and for nobody else. */
  lemma {:induction false} OneRowPerRecipient(rs: seq<UserId>, d: NotificationDraft, n: int, now: Time)
    requires Distinct(rs)
    ensures var rows := ChatService.Stored(rs, d, n, now);
      && (forall i, j :: 0 <= i < j < |rows| ==> rows[i].userId != rows[j].userId)
      && (forall v :: (exists i :: 0 <= i < |rows| && rows[i].userId == v) <==> v in rs)
  {
    var rows := ChatService.Stored(rs, d, n, now);
    assert forall i :: 0 <= i < |rows| ==> rows[i].userId == rs[i];
    forall v | v in rs ensures exists i :: 0 <= i < |rows| && rows[i].userId == v {
      var i :| 0 <= i < |rs| && rs[i] == v;
      assert rows[i].userId == v;
    }
  }

  /** With the chat's members listed once each, as the (chat, user) key of a
      membership makes them, each pass of the hub's `SendMessage` stores
      exactly one row for each member other than the sender who wants
      notifications, and the two passes are equally long: every recipient is
      notified exactly twice. */
  lemma {:induction false} EachRecipientNotifiedTwice(order: seq<UserId>, members: seq<UserId>, u: UserId,
                                                   settings: map<UserId, NotificationSettings>, d: NotificationDraft, n0: int, now: Time)
    requires Distinct(order) && Distinct(members)
    requires forall v :: v in order <==> v in members && v != u
    ensures var first := ChatService.Stored(Recipients(order, u, settings), d, n0, now);
      var second := ChatService.Stored(Recipients(members, u, settings), d, n0 + |first|, now);
      && |first| == |second|
      && (forall i, j :: 0 <= i < j < |first| ==> first[i].userId != first[j].userId)
      && (forall i, j :: 0 <= i < j < |second| ==> second[i].userId != second[j].userId)
      && (forall v :: (exists i :: 0 <= i < |first| && first[i].userId == v) <==> v in members && v != u && WantsNotifications(settings, v))
      && (forall v :: (exists j :: 0 <= j < |second| && second[j].userId == v) <==> v in members && v != u && WantsNotifications(settings, v))
  {
    var rs1 := Recipients(order, u, settings);
    var rs2 := Recipients(members, u, settings);
    PassesEquallyLong(order, members, u, settings);
    RecipientsDistinct(order, u, settings);
    RecipientsDistinct(members, u, settings);
    var first := ChatService.Stored(rs1, d, n0, now);
    OneRowPerRecipient(rs1, d, n0, now);
    OneRowPerRecipient(rs2, d, n0 + |first|, now);
  }

  /** The service's recipients (the members other than the sender) and the
      hub's (all members, skipping the sender) are equally many. */
  lemma {:induction false} PassesEquallyLong(order: seq<UserId>, members: seq<UserId>, u: UserId, settings: map<UserId, NotificationSettings>)
    requires Distinct(order) && Distinct(members)
    requires forall v :: v in order <==> v in members && v != u
    ensures |Recipients(order, u, settings)| == |Recipients(members, u, settings)|
  {
    var rs1 := Recipients(order, u, settings);
    var rs2 := Recipients(members, u, settings);
    RecipientsDistinct(order, u, settings);
    RecipientsDistinct(members, u, settings);
    assert (set v | v in rs1) == (set v | v in rs2);
    DistinctCardinality(rs1);
    DistinctCardinality(rs2);
  }

  /** The notification a new message `messageId` of `u` produces. */
  function MessageDraft(users: map<UserId, User>, u: UserId, chatId: ChatId, content: string, messageId: MessageId): NotificationDraft
    requires u in users
  {
    var name := SenderName(Some(users[u]));
    NotificationDraft(MessageTitle(name), Preview(content), "message", Some(MessageRef(chatId, messageId, u, name)))
  }

  /** The push payload `SendNotificationToChatUsers` builds for message
      `messageId` of a stored sender `u`: the full content, the sender's name
      and avatar (or "/favicon.ico"). */
  function MessageAlert(users: map<UserId, User>, u: UserId, chatId: ChatId, content: string, messageId: MessageId): Alert
    requires u in users
  {
    var name := SenderName(Some(users[u]));
    var icon := if users[u].avatarUrl.Some? then users[u].avatarUrl.value else "/favicon.ico";
    Alert(MessageTitle(name), content, name, icon, chatId, messageId)
  }

  /** What a text message `content` sent by `u` to `chatId` leaves behind,
      from the messages `ms0`, table `ns0`, counter `n0`, message id `id`
      and pushes `sent0`: the message is stored; `order` lists the chat's
      members other than `u` and `members` all of them, each once; the chat
      service stores a row for each member in `order` who wants them, then
      the hub a second row for each such member in `members`; the pushes are
      the message to the chat group without `u`, then the hub's rows. */
  ghost predicate TextSent(users: map<UserId, User>, chatUsers: set<Membership>, settings: map<UserId, NotificationSettings>,
                           ms0: map<MessageId, Message>, ns0: seq<Notification>, n0: int, id: MessageId, sent0: seq<Push>,
                           u: UserId, chatId: ChatId, content: string, now: Time, order: seq<UserId>, members: seq<UserId>,
                           ms: map<MessageId, Message>, ns: seq<Notification>, sent: seq<Push>)
    requires u in users
  {
    var m := ChatService.NewMessage(id, u, ChatService.SendMessageRequest(chatId, content, "Text", None, None, None), Text, now);
    var d := MessageDraft(users, u, chatId, content, id);
    var first := Recipients(order, u, settings);
    var second := Recipients(members, u, settings);
    && ms == ms0[m.id := m]
    && Distinct(order) && Distinct(members)
    && (forall v :: v in order <==> v in Members(chatUsers, chatId) && v != u)
    && (forall v :: v in members <==> v in Members(chatUsers, chatId))
    && ns == ns0 + ChatService.Stored(first, d, n0, now) + ChatService.Stored(second, d, n0 + |first|, now)
    && sent == sent0 + [Send(ChatGroupExcept(chatId, [u]), ReceiveMessage(id, chatId, u))] + NotificationPushes(second, d, n0 + |first|)
  }

  /** The notifications of a successful `SendFileMessage` by a stored `u`,
      starting from the table `ns0` and counter `n0`, for message `id`: the
      chat service stores a row with the preview of the file message's
      content for each member in `order` other than `u` who wants them; then
      the hub stores a row with the file label for each such member in
      `members`, and `alerts` pushes each of those with the label, plus a
      banner where allowed. */
  ghost predicate FileNotified(users: map<UserId, User>, settings: map<UserId, NotificationSettings>,
                               ns0: seq<Notification>, n0: int, id: MessageId, u: UserId, chatId: ChatId,
                               f: FileMessage, now: Time, order: seq<UserId>, members: seq<UserId>,
                               ns: seq<Notification>, alerts: seq<Push>)
    requires u in users
  {
    var announced := FileLabel(f.messageType);
    var first := Recipients(order, u, settings);
    var second := Recipients(members, u, settings);
    var n1 := n0 + |first|;
    && ns == ns0 + ChatService.Stored(first, MessageDraft(users, u, chatId, f.content, id), n0, now)
              + ChatService.Stored(second, MessageDraft(users, u, chatId, announced, id), n1, now)
    && alerts == ChatAlerts(second, n1, settings, MessageAlert(users, u, chatId, announced, id))
  }

  /** Every row stored for the recipients among `xs` is an unread copy of
      the draft, addressed to a member of `xs` other than `u` who wants it. */
  lemma RowsAddressed(xs: seq<UserId>, u: UserId, settings: map<UserId, NotificationSettings>,
                      d: NotificationDraft, n: int, now: Time)
    ensures var rows := ChatService.Stored(Recipients(xs, u, settings), d, n, now);
      forall i :: 0 <= i < |rows| ==>
        rows[i].userId in xs && rows[i].userId != u && WantsNotifications(settings, rows[i].userId)
        && rows[i].message == d.message && !rows[i].isRead
  {
    var rs := Recipients(xs, u, settings);
    var rows := ChatService.Stored(rs, d, n, now);
    forall i | 0 <= i < |rows|
      ensures rows[i].userId in xs && rows[i].userId != u && WantsNotifications(settings, rows[i].userId)
    {
      assert rows[i].userId == rs[i] && rs[i] in rs;
    }
  }

  /** After a successful `SendFileMessage`, the table holds the chat
      service's rows, one per accepting member other than the sender, with the
      preview of the file message's content, then the hub's rows, one per such
      member, announcing the file label; `alerts` pushes the label too. */
  lemma {:induction false} FileNotificationsAnnounceLabel(users: map<UserId, User>, settings: map<UserId, NotificationSettings>,
                                                          ns0: seq<Notification>, n0: int, id: MessageId, u: UserId, chatId: ChatId,
                                                          f: FileMessage, now: Time, order: seq<UserId>, members: seq<UserId>,
                                                          ns: seq<Notification>, alerts: seq<Push>)
    requires u in users
    requires FileNotified(users, settings, ns0, n0, id, u, chatId, f, now, order, members, ns, alerts)
    ensures var k := |ns0| + |Recipients(order, u, settings)|;
      && |ns| == k + |Recipients(members, u, settings)|
      && ns[..|ns0|] == ns0
      && (forall i :: |ns0| <= i < k ==>
            ns[i].userId in order && ns[i].userId != u && WantsNotifications(settings, ns[i].userId)
            && ns[i].message == Preview(f.content) && !ns[i].isRead)
      && (forall i :: k <= i < |ns| ==>
            ns[i].userId in members && ns[i].userId != u && WantsNotifications(settings, ns[i].userId)
            && ns[i].message == FileLabel(f.messageType) && !ns[i].isRead)
    ensures forall p :: p in alerts ==>
      && p.Send? && p.to.OneUser? && p.to.userId in members && p.to.userId != u
      && (p.event.ShowBrowserNotification? ==> WantsBanner(settings, p.to.userId))
  {
    var first := Recipients(order, u, settings);
    var second := Recipients(members, u, settings);
    var n1 := n0 + |first|;
    var a := ChatService.Stored(first, MessageDraft(users, u, chatId, f.content, id), n0, now);
    var b := ChatService.Stored(second, MessageDraft(users, u, chatId, FileLabel(f.messageType), id), n1, now);
    assert ns == ns0 + a + b;
    var k := |ns0| + |first|;
    RowsAddressed(order, u, settings, MessageDraft(users, u, chatId, f.content, id), n0, now);
    RowsAddressed(members, u, settings, MessageDraft(users, u, chatId, FileLabel(f.messageType), id), n1, now);
    assert Preview(FileLabel(f.messageType)) == FileLabel(f.messageType) by {
      assert |FileLabel(f.messageType)| <= PreviewLength;
    }
    forall i | |ns0| <= i < k
      ensures ns[i] == a[i - |ns0|]
    {
    }
    forall i | k <= i < |ns|
      ensures ns[i] == b[i - k]
    {
    }
    AlertsAddressed(second, n1, settings, MessageAlert(users, u, chatId, FileLabel(f.messageType), id));
  }

  /** `FileMessageDto`, once deserialised. */
  datatype FileMessage = FileMessage(content: string, messageType: string, fileUrl: string, fileName: string, fileSize: int)

  class Hub {
    const db: Database
    const clients: Outbox
    var connections: map<ConnectionId, UserId>
    var statuses: map<UserId, UserStatus>
    var lastActivity: map<UserId, Time>
    var activeChats: map<UserId, seq<ChatId>>

    /** The hub's own invariant; the store keeps `db.Valid()`. */
    ghost predicate Valid()
      reads this
    {
      ActiveChatsWellFormed(activeChats)
    }

    function Snapshot(): Presence
      reads this
    {
      Presence(connections, statuses, lastActivity, activeChats)
    }

    constructor (db: Database, clients: Outbox)
      ensures Valid() && Snapshot() == Empty
      ensures this.db == db && this.clients == clients
    {
      this.db := db;
      this.clients := clients;
      connections, statuses, lastActivity, activeChats := map[], map[], map[], map[];
    }

    // -------------------------------------------------------------------------
    // Presence
    // -------------------------------------------------------------------------

    /** `OnConnectedAsync`. */
    method OnConnected(caller: Option<UserId>, conn: ConnectionId, now: Time)
      requires Valid() && db.Valid()
      modifies this, db`users, clients
      ensures Valid() && db.Valid()
      ensures var s := Connect(old(Snapshot()), old(db.users), caller, conn, now);
        Snapshot() == s.presence && db.users == s.users && clients.sent == old(clients.sent) + s.pushes
    {
      if caller.None? {
        return;
      }
      var u := caller.value;
      connections := connections[conn := u];
      if u in db.users {
        db.UpdateUser(u, db.users[u].(status := Online, lastSeen := now));
        statuses := statuses[u := Online];
        lastActivity := lastActivity[u := now];
        clients.Push(Send(Everyone, UserStatusChanged(u, "Online")));
      }
    }

    /** `OnDisconnectedAsync`. */
    method OnDisconnected(caller: Option<UserId>, conn: ConnectionId)
      requires Valid() && db.Valid()
      modifies this, db`users, clients
      ensures Valid() && db.Valid()
      ensures var s := Disconnect(old(Snapshot()), old(db.users), caller, conn);
        Snapshot() == s.presence && db.users == s.users && clients.sent == old(clients.sent) + s.pushes
    {
      if caller.None? {
        return;
      }
      var u := caller.value;
      connections := connections - {conn};
      var hasOther := Connected(connections, u);
      if !hasOther {
        if u in db.users {
          db.UpdateUser(u, db.users[u].(status := Offline));
          statuses := statuses[u := Offline];
          clients.Push(Send(Everyone, UserStatusChanged(u, "Offline")));
        }
        activeChats := activeChats - {u};
      }
    }

    /** `UpdateStatus(status)`. */
    method UpdateStatus(caller: Option<UserId>, status: string, now: Time)
      requires Valid() && db.Valid()
      modifies this`statuses, this`lastActivity, db`users, clients
      ensures Valid() && db.Valid()
      ensures var s := SetStatus(old(Snapshot()), old(db.users), caller, status, now);
        Snapshot() == s.presence && db.users == s.users && clients.sent == old(clients.sent) + s.pushes
    {
      if caller.None? {
        return;
      }
      var parsed := ParseStatus(status);
      if parsed.None? {
        return;
      }
      var u := caller.value;
      if u !in db.users {
        return;
      }
      db.UpdateUser(u, db.users[u].(status := parsed.value, lastSeen := now));
      statuses := statuses[u := parsed.value];
      lastActivity := lastActivity[u := now];
      clients.Push(Send(Everyone, UserStatusChanged(u, status)));
    }

    /** `UpdateUserActivity`. */
    method UpdateUserActivity(caller: Option<UserId>, now: Time)
      requires Valid() && db.Valid()
      modifies this`statuses, this`lastActivity, db`users, clients
      ensures Valid() && db.Valid()
      ensures var s := Activity(old(Snapshot()), old(db.users), caller, now);
        Snapshot() == s.presence && db.users == s.users && clients.sent == old(clients.sent) + s.pushes
    {
      if caller.None? {
        return;
      }
      var u := caller.value;
      lastActivity := lastActivity[u := now];
      if u in statuses && statuses[u] == Away {
        UpdateStatus(caller, "Online", now);
      }
    }

    /** `CheckUserActivity`. */
    method CheckUserActivity(caller: Option<UserId>, now: Time)
      requires Valid() && db.Valid()
      modifies this`statuses, this`lastActivity, db`users, clients
      ensures Valid() && db.Valid()
      ensures var s := CheckActivity(old(Snapshot()), old(db.users), caller, now);
        Snapshot() == s.presence && db.users == s.users && clients.sent == old(clients.sent) + s.pushes
    {
      if caller.Some? && caller.value in lastActivity {
        var u := caller.value;
        if now - lastActivity[u] >= IdleTicks && u in statuses && statuses[u] != DoNotDisturb && statuses[u] != Away {
          UpdateStatus(caller, "Away", now);
        }
      }
    }

    /** `JoinChat(chatId)`. */
    method JoinChat(caller: Option<UserId>, conn: ConnectionId, chatId: ChatId, now: Time)
      requires Valid()
      modifies this`activeChats, this`lastActivity, clients
      ensures Valid()
      ensures var s := Join(old(Snapshot()), db.users, caller, conn, chatId, now);
        Snapshot() == s.presence && clients.sent == old(clients.sent) + s.pushes
    {
      if caller.None? {
        return;
      }
      var u := caller.value;
      JoinWellFormed(Snapshot(), db.users, u, conn, chatId, now);
      clients.Push(AddToGroup(conn, chatId));
      if u !in activeChats {
        activeChats := activeChats[u := []];
      }
      if chatId !in activeChats[u] {
        activeChats := activeChats[u := activeChats[u] + [chatId]];
      }
      lastActivity := lastActivity[u := now];
    }

    /** `LeaveChat(chatId)`. */
    method LeaveChat(caller: Option<UserId>, conn: ConnectionId, chatId: ChatId)
      requires Valid()
      modifies this`activeChats, clients
      ensures Valid()
      ensures var s := Leave(old(Snapshot()), db.users, caller, conn, chatId);
        Snapshot() == s.presence && clients.sent == old(clients.sent) + s.pushes
    {
      if caller.None? {
        return;
      }
      var u := caller.value;
      ghost var p0 := Snapshot();
      LeaveWellFormed(p0, db.users, u, conn, chatId);
      clients.Push(RemoveFromGroup(conn, chatId));
      if u in activeChats {
        activeChats := activeChats[u := RemoveFirst(activeChats[u], chatId)];
        if |activeChats[u]| == 0 {
          activeChats := activeChats - {u};
        }
      }
      assert Snapshot() == Leave(p0, db.users, caller, conn, chatId).presence;
    }

    /** `Typing(chatId, isTyping)`: tells the rest of the chat group, even when
        the caller is anonymous. */
    method Typing(caller: Option<UserId>, conn: ConnectionId, chatId: ChatId, isTyping: bool)
      modifies clients
      ensures clients.sent == old(clients.sent) + [Send(OthersInChatGroup(chatId, conn), UserTyping(caller, chatId, isTyping))]
    {
      clients.Push(Send(OthersInChatGroup(chatId, conn), UserTyping(caller, chatId, isTyping)));
    }

    /** `GetUserStatuses(userIds)`: answers from the cache, else from the store
        (caching what it read), else "Offline". */
    method GetUserStatuses(userIds: seq<UserId>) returns (r: map<UserId, string>)
      modifies this`statuses
      ensures r == StatusLookup(old(statuses), db.users, userIds)
      ensures statuses == Cached(old(statuses), db.users, userIds)
    {
      r := map[];
      var i := 0;
      while i < |userIds|
        invariant 0 <= i <= |userIds|
        invariant r == StatusLookup(old(statuses), db.users, userIds[..i])
        invariant statuses == Cached(old(statuses), db.users, userIds[..i])
      {
        var u := userIds[i];
        ghost var seen := userIds[..i];
        CachingKeepsAnswers(old(statuses), db.users, seen, u);
        StatusLookupSnoc(old(statuses), db.users, seen, u);
        CachedSnoc(old(statuses), db.users, seen, u);
        var answer;
        if u in statuses {
          answer := StatusName(statuses[u]);
        } else if u in db.users {
          answer := StatusName(db.users[u].status);
          statuses := statuses[u := db.users[u].status];
        } else {
          answer := "Offline";
        }
        assert answer == StatusAnswer(old(statuses), db.users, u);
        r := r[u := answer];
        assert userIds[..i + 1] == seen + [u];
        i := i + 1;
      }
      assert userIds[..i] == userIds;
    }

    // -------------------------------------------------------------------------
    // Messages and notifications
    // -------------------------------------------------------------------------

    /** `SendNotificationToUser`: stores the notification and pushes it to the
        user; a failure to store (an unknown user) is logged and nothing else
        happens. */
    method SendNotificationToUser(userId: UserId, d: NotificationDraft, now: Time)
      requires db.Valid()
      modifies db`notifications, db`nextNotificationId, clients
      ensures db.Valid()
      ensures userId in db.users ==>
        && db.notifications == old(db.notifications) + [NotificationService.FromDraft(old(db.nextNotificationId), userId, d, now)]
        && db.nextNotificationId == old(db.nextNotificationId) + 1
        && clients.sent == old(clients.sent) + [Send(OneUser(userId), ReceiveNotification(old(db.nextNotificationId), d.title, d.message))]
      ensures userId !in db.users ==>
        && db.notifications == old(db.notifications) && db.nextNotificationId == old(db.nextNotificationId)
        && clients.sent == old(clients.sent)
    {
      var created := NotificationService.CreateNotification(db, userId, d, now);
      if created.Ok? {
        clients.Push(Send(OneUser(userId), ReceiveNotification(created.value.id, created.value.title, created.value.message)));
      }
    }

    /** The notification loop of `SendMessage` over the chat's members. */
    method NotifyChatMembers(members: seq<UserId>, senderId: UserId, d: NotificationDraft, now: Time)
      requires db.Valid()
      requires forall i :: 0 <= i < |members| ==> members[i] in db.users
      modifies db`notifications, db`nextNotificationId, clients
      ensures db.Valid()
      ensures var rs := Recipients(members, senderId, db.settings);
        && db.notifications == old(db.notifications) + ChatService.Stored(rs, d, old(db.nextNotificationId), now)
        && db.nextNotificationId == old(db.nextNotificationId) + |rs|
        && clients.sent == old(clients.sent) + NotificationPushes(rs, d, old(db.nextNotificationId))
    {
      var i := 0;
      assert members[..0] == [];
      while i < |members|
        invariant 0 <= i <= |members|
        invariant db.Valid()
        invariant NotifiedUpTo(members[..i], senderId, d, now, old(db.nextNotificationId), old(db.notifications), old(clients.sent))
      {
        NotifyStep(members[..i], members[i], senderId, d, now, old(db.nextNotificationId), old(db.notifications), old(clients.sent));
        assert members[..i + 1] == members[..i] + [members[i]];
        i := i + 1;
      }
      assert members[..i] == members;
    }

    /** The state after the loop of `SendMessage` visited `visited`, started
        from the table `ns0`, counter `n0` and outbox `sent0`. */
    ghost predicate NotifiedUpTo(visited: seq<UserId>, senderId: UserId, d: NotificationDraft, now: Time,
                                 n0: int, ns0: seq<Notification>, sent0: seq<Push>)
      reads db, clients
    {
      var rs := Recipients(visited, senderId, db.settings);
      && db.notifications == ns0 + ChatService.Stored(rs, d, n0, now)
      && db.nextNotificationId == n0 + |rs|
      && clients.sent == sent0 + NotificationPushes(rs, d, n0)
    }

    /** One pass of the loop of `SendMessage`: skips the sender and members
        who do not want notifications. */
    method NotifyStep(ghost visited: seq<UserId>, u: UserId, senderId: UserId, d: NotificationDraft, now: Time,
                      ghost n0: int, ghost ns0: seq<Notification>, ghost sent0: seq<Push>)
      requires db.Valid() && u in db.users
      requires NotifiedUpTo(visited, senderId, d, now, n0, ns0, sent0)
      modifies db`notifications, db`nextNotificationId, clients
      ensures db.Valid()
      ensures NotifiedUpTo(visited + [u], senderId, d, now, n0, ns0, sent0)
    {
      ghost var rs := Recipients(visited, senderId, db.settings);
      RecipientsSnoc(visited, u, senderId, db.settings);
      if u != senderId && WantsNotifications(db.settings, u) {
        ghost var n := db.nextNotificationId;
        ChatService.StoredSnoc(rs, u, d, n0, now);
        NotificationPushesSnoc(rs, u, d, n0);
        SendNotificationToUser(u, d, now);
        AppendAssoc(ns0, ChatService.Stored(rs, d, n0, now), [NotificationService.FromDraft(n, u, d, now)]);
        AppendAssoc(sent0, NotificationPushes(rs, d, n0), [Send(OneUser(u), ReceiveNotification(n, d.title, d.message))]);
        assert Recipients(visited + [u], senderId, db.settings) == rs + [u];
      } else {
        assert Recipients(visited + [u], senderId, db.settings) == rs + [];
        assert rs + [] == rs;
      }
    }

    /** The members of a stored chat, in the order the database returns them. */
    method ChatMembers(chatId: ChatId) returns (members: seq<UserId>)
      requires db.Valid()
      ensures forall v :: v in members <==> v in Members(db.chatUsers, chatId)
      ensures Distinct(members)
      ensures forall i :: 0 <= i < |members| ==> members[i] in db.users
    {
      members := Enumerate(Members(db.chatUsers, chatId));
      forall i | 0 <= i < |members| ensures members[i] in db.users {
        assert members[i] in members;
        assert Membership(members[i], chatId) in db.chatUsers;
      }
    }

    /** The hub's own loop after a message was sent: notifies the chat's
        members other than the sender who want it, pushing each notification. */
    method NotifyAfterSend(u: UserId, chatId: ChatId, content: string, messageId: MessageId, now: Time)
      returns (ghost members: seq<UserId>)
      requires db.Valid() && u in db.users
      modifies db`notifications, db`nextNotificationId, clients
      ensures db.Valid()
      ensures forall v :: v in members <==> v in Members(db.chatUsers, chatId)
      ensures Distinct(members)
      ensures var d := MessageDraft(db.users, u, chatId, content, messageId);
        var rs := Recipients(members, u, db.settings);
        && db.notifications == old(db.notifications) + ChatService.Stored(rs, d, old(db.nextNotificationId), now)
        && clients.sent == old(clients.sent) + NotificationPushes(rs, d, old(db.nextNotificationId))
    {
      var ms := ChatMembers(chatId);
      members := ms;
      var sender := FindUser(db.users, u);
      var name := SenderName(sender);
      var d := NotificationDraft(MessageTitle(name), Preview(content), "message", Some(MessageRef(chatId, messageId, u, name)));
      assert d == MessageDraft(db.users, u, chatId, content, messageId);
      NotifyChatMembers(ms, u, d, now);
    }

    /** `NotifyAfterSend` run once `SendText` has stored message `messageId`
        from the messages `ms0` and the service's rows for `order` after the
        table `ns0`, pushing after `sent0`: `TextSent` then holds. */
    method NotifyAgain(u: UserId, chatId: ChatId, content: string, messageId: MessageId, now: Time,
                       ghost ms0: map<MessageId, Message>, ghost ns0: seq<Notification>, ghost n0: int,
                       ghost sent0: seq<Push>, ghost order: seq<UserId>)
      returns (ghost members: seq<UserId>)
      requires db.Valid() && u in db.users
      requires var m := ChatService.NewMessage(messageId, u, ChatService.SendMessageRequest(chatId, content, "Text", None, None, None), Text, now);
        var first := ChatService.Stored(Recipients(order, u, db.settings), MessageDraft(db.users, u, chatId, content, messageId), n0, now);
        && db.messages == ms0[m.id := m]
        && Distinct(order)
        && (forall v :: v in order <==> v in Members(db.chatUsers, chatId) && v != u)
        && db.notifications == ns0 + first && db.nextNotificationId == n0 + |first|
        && clients.sent == sent0 + [Send(ChatGroupExcept(chatId, [u]), ReceiveMessage(messageId, chatId, u))]
      modifies db`notifications, db`nextNotificationId, clients
      ensures db.Valid()
      ensures TextSent(db.users, db.chatUsers, db.settings, ms0, ns0, n0, messageId, sent0, u, chatId, content, now, order, members,
                       db.messages, db.notifications, clients.sent)
    {
      ghost var d := MessageDraft(db.users, u, chatId, content, messageId);
      ghost var first := Recipients(order, u, db.settings);
      ghost var ns1, sent1 := db.notifications, clients.sent;
      members := NotifyAfterSend(u, chatId, content, messageId, now);
      ghost var second := Recipients(members, u, db.settings);
      assert db.notifications == ns1 + ChatService.Stored(second, d, n0 + |first|, now);
      assert clients.sent == sent1 + NotificationPushes(second, d, n0 + |first|);
    }

    /** The chat service's `SendMessageAsync` for a text message, with the
        service's notifications stated per recipient. */
    method SendText(u: UserId, chatId: ChatId, content: string, now: Time)
      returns (id: Result<MessageId, ChatService.ChatError>, ghost order: seq<UserId>)
      requires db.Valid()
      modifies db, clients
      ensures db.Valid()
      ensures id.Ok? <==> chatId in old(db.chats) && u in old(db.users)
      ensures id.Err? ==> unchanged(db) && clients.sent == old(clients.sent)
      ensures unchanged(db`users, db`chatUsers, db`settings)
      ensures id.Ok? ==>
        var m := ChatService.NewMessage(old(db.nextMessageId), u, ChatService.SendMessageRequest(chatId, content, "Text", None, None, None), Text, now);
        var first := ChatService.Stored(Recipients(order, u, old(db.settings)), MessageDraft(old(db.users), u, chatId, content, m.id),
                                        old(db.nextNotificationId), now);
        && id.value == m.id
        && chatId in db.chats
        && db.messages == old(db.messages)[m.id := m]
        && Distinct(order)
        && (forall v :: v in order <==> v in Members(old(db.chatUsers), chatId) && v != u)
        && db.notifications == old(db.notifications) + first
        && db.nextNotificationId == old(db.nextNotificationId) + |first|
        && clients.sent == old(clients.sent) + [Send(ChatGroupExcept(chatId, [u]), ReceiveMessage(m.id, chatId, u))]
    {
      var req := ChatService.SendMessageRequest(chatId, content, "Text", None, None, None);
      ParseMessageTypeName(Text);
      var sent;
      sent, order := ChatService.SendMessage(db, clients, u, req, now);
      if sent.Err? {
        return Err(sent.error), order;
      }
      ghost var m := ChatService.NewMessage(old(db.nextMessageId), u, req, Text, now);
      ChatService.StoredDrafts(order, m, Some(db.users[u]), db.settings, old(db.nextNotificationId), now);
      id := Ok(sent.value.id);
    }

    /** `SendMessage(chatId, content)`: stamps the activity, then sends as the caller. */
    method SendMessage(caller: Option<UserId>, chatId: ChatId, content: string, now: Time)
      returns (r: Result<(), ChatService.ChatError>, ghost order: seq<UserId>, ghost members: seq<UserId>)
      requires db.Valid()
      modifies this`lastActivity, db, clients
      ensures db.Valid()
      ensures caller.None? ==> r.Ok? && unchanged(this, db) && clients.sent == old(clients.sent)
      ensures caller.Some? ==> lastActivity == old(lastActivity)[caller.value := now] && SentAs(caller.value, chatId, content, now, r, order, members)
    {
      order, members := [], [];
      if caller.None? {
        return Ok(()), order, members;
      }
      r, order, members := SendAs(caller.value, chatId, content, now);
    }

    /** What `SendMessage` does for a known caller `u`: an unknown chat or user
        changes nothing; otherwise the message is stored, the chat service
        notifies the members other than `u` who want it (`first`), and the hub
        notifies them a second time (`second`), pushing each notification. */
    twostate predicate SentAs(u: UserId, chatId: ChatId, content: string, now: Time,
                              new r: Result<(), ChatService.ChatError>, new order: seq<UserId>, new members: seq<UserId>)
      reads this, db, clients
    {
      && (r.Err? <==> chatId !in old(db.chats) || u !in old(db.users))
      && (r.Err? ==> unchanged(db) && clients.sent == old(clients.sent))
      && unchanged(db`users, db`chatUsers, db`settings)
      && (r.Ok? ==>
        TextSent(old(db.users), old(db.chatUsers), old(db.settings), old(db.messages), old(db.notifications),
                 old(db.nextNotificationId), old(db.nextMessageId), old(clients.sent), u, chatId, content, now, order, members,
                 db.messages, db.notifications, clients.sent))
    }

    method SendAs(u: UserId, chatId: ChatId, content: string, now: Time)
      returns (r: Result<(), ChatService.ChatError>, ghost order: seq<UserId>, ghost members: seq<UserId>)
      requires db.Valid()
      modifies this`lastActivity, db, clients
      ensures db.Valid()
      ensures lastActivity == old(lastActivity)[u := now] && SentAs(u, chatId, content, now, r, order, members)
    {
      lastActivity := lastActivity[u := now];
      members := [];
      var sent;
      sent, order := SendText(u, chatId, content, now);
      if sent.Err? {
        return Err(sent.error), order, members;
      }
      members := NotifyAgain(u, chatId, content, sent.value, now, old(db.messages), old(db.notifications), old(db.nextNotificationId), old(clients.sent), order);
      r := Ok(());
    }

    /** `SendNotificationToChatUsers`: for each member other than the sender
        who wants notifications, stores a notification with the cut content and
        pushes it with the full content, then a banner when allowed. */
    method SendNotificationToChatUsers(chatId: ChatId, senderId: UserId, content: string, messageId: MessageId, now: Time)
      returns (ghost members: seq<UserId>, ghost pushed: seq<Push>)
      requires db.Valid()
      modifies db`notifications, db`nextNotificationId, clients
      ensures db.Valid()
      ensures clients.sent == old(clients.sent) + pushed
      ensures Distinct(members)
      ensures chatId !in db.chats ==> db.notifications == old(db.notifications) && pushed == []
      ensures chatId in db.chats ==>
        var sender := FindUser(db.users, senderId);
        var name := SenderName(sender);
        var icon := if sender.Some? && sender.value.avatarUrl.Some? then sender.value.avatarUrl.value else "/favicon.ico";
        var d := NotificationDraft(MessageTitle(name), Preview(content), "message", Some(MessageRef(chatId, messageId, senderId, name)));
        var rs := Recipients(members, senderId, db.settings);
        && (forall v :: v in members <==> v in Members(db.chatUsers, chatId))
        && db.notifications == old(db.notifications) + ChatService.Stored(rs, d, old(db.nextNotificationId), now)
        && clients.sent == old(clients.sent)
             + ChatAlerts(rs, old(db.nextNotificationId), db.settings, Alert(MessageTitle(name), content, name, icon, chatId, messageId))
    {
      members, pushed := [], [];
      if chatId !in db.chats {
        return members, pushed;
      }
      var ms := ChatMembers(chatId);
      members := ms;
      var sender := FindUser(db.users, senderId);
      var name := SenderName(sender);
      var icon := if sender.Some? && sender.value.avatarUrl.Some? then sender.value.avatarUrl.value else "/favicon.ico";
      var d := NotificationDraft(MessageTitle(name), Preview(content), "message", Some(MessageRef(chatId, messageId, senderId, name)));
      var a := Alert(MessageTitle(name), content, name, icon, chatId, messageId);
      AlertMembers(ms, senderId, d, a, now);
      pushed := ChatAlerts(Recipients(ms, senderId, db.settings), old(db.nextNotificationId), db.settings, a);
    }

    /** The loop of `SendNotificationToChatUsers` over the chat's members. */
    method AlertMembers(members: seq<UserId>, senderId: UserId, d: NotificationDraft, a: Alert, now: Time)
      requires db.Valid()
      requires forall i :: 0 <= i < |members| ==> members[i] in db.users
      modifies db`notifications, db`nextNotificationId, clients
      ensures db.Valid()
      ensures var rs := Recipients(members, senderId, db.settings);
        && db.notifications == old(db.notifications) + ChatService.Stored(rs, d, old(db.nextNotificationId), now)
        && clients.sent == old(clients.sent) + ChatAlerts(rs, old(db.nextNotificationId), db.settings, a)
    {
      var i := 0;
      assert members[..0] == [];
      while i < |members|
        invariant 0 <= i <= |members|
        invariant db.Valid()
        invariant AlertedUpTo(members[..i], senderId, d, a, now, old(db.nextNotificationId), old(db.notifications), old(clients.sent))
      {
        AlertStep(members[..i], members[i], senderId, d, a, now, old(db.nextNotificationId), old(db.notifications), old(clients.sent));
        assert members[..i + 1] == members[..i] + [members[i]];
        i := i + 1;
      }
      assert members[..i] == members;
    }

    /** The state after the loop of `SendNotificationToChatUsers` visited
        `visited`, started from the table `ns0`, counter `n0` and outbox
        `sent0`. */
    ghost predicate AlertedUpTo(visited: seq<UserId>, senderId: UserId, d: NotificationDraft, a: Alert, now: Time,
                                n0: int, ns0: seq<Notification>, sent0: seq<Push>)
      reads db, clients
    {
      var rs := Recipients(visited, senderId, db.settings);
      && db.notifications == ns0 + ChatService.Stored(rs, d, n0, now)
      && db.nextNotificationId == n0 + |rs|
      && clients.sent == sent0 + ChatAlerts(rs, n0, db.settings, a)
    }

    /** One pass of the loop of `SendNotificationToChatUsers`. */
    method AlertStep(ghost visited: seq<UserId>, u: UserId, senderId: UserId, d: NotificationDraft, a: Alert, now: Time,
                     ghost n0: int, ghost ns0: seq<Notification>, ghost sent0: seq<Push>)
      requires db.Valid() && u in db.users
      requires AlertedUpTo(visited, senderId, d, a, now, n0, ns0, sent0)
      modifies db`notifications, db`nextNotificationId, clients
      ensures db.Valid()
      ensures AlertedUpTo(visited + [u], senderId, d, a, now, n0, ns0, sent0)
    {
      ghost var rs := Recipients(visited, senderId, db.settings);
      RecipientsSnoc(visited, u, senderId, db.settings);
      if u != senderId && WantsNotifications(db.settings, u) {
        ghost var n := db.nextNotificationId;
        ChatService.StoredSnoc(rs, u, d, n0, now);
        ChatAlertsSnoc(rs, u, n0, db.settings, a);
        AlertMember(u, d, a, now);
        AppendAssoc(ns0, ChatService.Stored(rs, d, n0, now), [NotificationService.FromDraft(n, u, d, now)]);
        AppendAssoc(sent0, ChatAlerts(rs, n0, db.settings, a), AlertsFor(u, n, a, WantsBanner(db.settings, u)));
        assert Recipients(visited + [u], senderId, db.settings) == rs + [u];
      } else {
        assert Recipients(visited + [u], senderId, db.settings) == rs + [];
        assert rs + [] == rs;
      }
    }

    /** One recipient of `SendNotificationToChatUsers`. */
    method AlertMember(u: UserId, d: NotificationDraft, a: Alert, now: Time)
      requires db.Valid() && u in db.users
      modifies db`notifications, db`nextNotificationId, clients
      ensures db.Valid()
      ensures db.notifications == old(db.notifications) + [NotificationService.FromDraft(old(db.nextNotificationId), u, d, now)]
      ensures db.nextNotificationId == old(db.nextNotificationId) + 1
      ensures clients.sent == old(clients.sent) + AlertsFor(u, old(db.nextNotificationId), a, WantsBanner(db.settings, u))
    {
      var created := NotificationService.CreateNotification(db, u, d, now);
      clients.Push(Send(OneUser(u), ReceiveNotification(created.value.id, a.title, a.content)));
      if u !in db.settings || db.settings[u].showBanner {
        clients.Push(Send(OneUser(u), ShowBrowserNotification(a.senderName, a.content, a.icon, a.chatId, a.messageId)));
      }
    }

    /** `SendFileMessage(chatId, json)`: stamps the activity, then sends the
        file message as the caller. */
    method SendFileMessage(caller: Option<UserId>, conn: ConnectionId, chatId: ChatId, file: Option<FileMessage>, now: Time)
      returns (r: Result<(), ChatService.ChatError>, ghost order: seq<UserId>, ghost members: seq<UserId>, ghost alerts: seq<Push>)
      requires db.Valid()
      modifies this`lastActivity, db, clients
      ensures db.Valid()
      ensures caller.None? ==> r.Ok? && unchanged(this, db) && clients.sent == old(clients.sent)
      ensures caller.Some? ==> lastActivity == old(lastActivity)[caller.value := now]
      ensures caller.Some? && file.None? ==> r.Ok? && unchanged(db) && clients.sent == old(clients.sent)
      ensures caller.Some? && file.Some? ==> FileSentAs(caller.value, conn, chatId, file.value, now, r, order, members, alerts)
      ensures caller.Some? && file.Some? && r.Ok? ==>
        caller.value in old(db.users)
        && FileNotified(old(db.users), old(db.settings), old(db.notifications), old(db.nextNotificationId), old(db.nextMessageId),
                        caller.value, chatId, file.value, now, order, members, db.notifications, alerts)
    {
      order, members, alerts := [], [], [];
      if caller.None? {
        return Ok(()), order, members, alerts;
      }
      if file.None? {
        lastActivity := lastActivity[caller.value := now];
        return Ok(()), order, members, alerts;
      }
      r, order, members, alerts := SendFileAs(caller.value, conn, chatId, file.value, now);
    }

    /** What `SendFileMessage` does for a known caller `u` and a payload that
        deserialises to `f`: a failed send changes nothing;
        otherwise the message is stored, pushed to the chat group without `u`
        by the chat service and again to the group without `conn` by the hub,
        followed by the notification pushes `alerts`, which `FileNotified`
        states together with the stored rows. */
    twostate predicate FileSentAs(u: UserId, conn: ConnectionId, chatId: ChatId, f: FileMessage, now: Time,
                                  new r: Result<(), ChatService.ChatError>, new order: seq<UserId>,
                                  new members: seq<UserId>, new alerts: seq<Push>)
      reads this, db, clients
    {
      && (r.Err? <==> chatId !in old(db.chats) || ParseMessageType(f.messageType).None? || u !in old(db.users))
      && (r.Err? ==> unchanged(db) && clients.sent == old(clients.sent))
      && unchanged(db`users, db`chatUsers, db`settings)
      && (r.Ok? ==>
        var req := ChatService.SendMessageRequest(chatId, f.content, f.messageType, Some(f.fileUrl), Some(f.fileName), Some(f.fileSize));
        var m := ChatService.NewMessage(old(db.nextMessageId), u, req, ParseMessageType(f.messageType).value, now);
        && db.messages == old(db.messages)[m.id := m]
        && Distinct(order) && Distinct(members)
        && (forall v :: v in order <==> v in Members(old(db.chatUsers), chatId) && v != u)
        && (forall v :: v in members <==> v in Members(old(db.chatUsers), chatId))
        && clients.sent == old(clients.sent)
             + [Send(ChatGroupExcept(chatId, [u]), ReceiveMessage(m.id, chatId, u))]
             + [Send(OthersInChatGroup(chatId, conn), ReceiveMessage(m.id, chatId, u))]
             + alerts)
    }

    method SendFileAs(u: UserId, conn: ConnectionId, chatId: ChatId, f: FileMessage, now: Time)
      returns (r: Result<(), ChatService.ChatError>, ghost order: seq<UserId>, ghost members: seq<UserId>, ghost alerts: seq<Push>)
      requires db.Valid()
      modifies this`lastActivity, db, clients
      ensures db.Valid()
      ensures lastActivity == old(lastActivity)[u := now] && FileSentAs(u, conn, chatId, f, now, r, order, members, alerts)
      ensures r.Ok? ==> u in old(db.users)
      ensures r.Ok? ==> FileNotified(old(db.users), old(db.settings), old(db.notifications), old(db.nextNotificationId), old(db.nextMessageId),
                                     u, chatId, f, now, order, members, db.notifications, alerts)
    {
      members, alerts := [], [];
      lastActivity := lastActivity[u := now];
      var sent;
      sent, order := SendFile(u, f, chatId, now);
      if sent.Err? {
        return Err(sent.error), order, members, alerts;
      }
      members, alerts := EchoFileAndNotify(chatId, u, conn, f, sent.value, now, old(db.notifications), old(db.nextNotificationId), order);
      r := Ok(());
    }

    /** The chat service's `SendMessageAsync` for a file message, stating what
        the hub relies on. */
    method SendFile(u: UserId, f: FileMessage, chatId: ChatId, now: Time)
      returns (id: Result<MessageId, ChatService.ChatError>, ghost order: seq<UserId>)
      requires db.Valid()
      modifies db, clients
      ensures db.Valid()
      ensures id.Err? <==> chatId !in old(db.chats) || ParseMessageType(f.messageType).None? || u !in old(db.users)
      ensures id.Err? ==> unchanged(db) && clients.sent == old(clients.sent)
      ensures unchanged(db`users, db`chatUsers, db`settings)
      ensures id.Ok? ==>
        var req := ChatService.SendMessageRequest(chatId, f.content, f.messageType, Some(f.fileUrl), Some(f.fileName), Some(f.fileSize));
        var m := ChatService.NewMessage(old(db.nextMessageId), u, req, ParseMessageType(f.messageType).value, now);
        var first := ChatService.Stored(Recipients(order, u, old(db.settings)), MessageDraft(old(db.users), u, chatId, f.content, m.id),
                                        old(db.nextNotificationId), now);
        && id.value == m.id
        && chatId in db.chats
        && db.messages == old(db.messages)[m.id := m]
        && Distinct(order)
        && (forall v :: v in order <==> v in Members(old(db.chatUsers), chatId) && v != u)
        && db.notifications == old(db.notifications) + first
        && db.nextNotificationId == old(db.nextNotificationId) + |first|
        && clients.sent == old(clients.sent) + [Send(ChatGroupExcept(chatId, [u]), ReceiveMessage(m.id, chatId, u))]
    {
      var req := ChatService.SendMessageRequest(chatId, f.content, f.messageType, Some(f.fileUrl), Some(f.fileName), Some(f.fileSize));
      var sent;
      sent, order := ChatService.SendMessage(db, clients, u, req, now);
      if sent.Err? {
        return Err(sent.error), order;
      }
      ghost var m := ChatService.NewMessage(old(db.nextMessageId), u, req, ParseMessageType(f.messageType).value, now);
      ChatService.StoredDrafts(order, m, Some(db.users[u]), db.settings, old(db.nextNotificationId), now);
      id := Ok(sent.value.id);
    }

    /** The hub's part of `SendFileMessage` once the chat service stored file
        message `id` of `f` and its rows for the members in `order` (after the
        table `ns0` and counter `n0`): pushes it to the chat group without the
        caller's connection, then notifies the members through
        `SendNotificationToChatUsers` with the file label as content. */
    method EchoFileAndNotify(chatId: ChatId, u: UserId, conn: ConnectionId, f: FileMessage, id: MessageId, now: Time,
                             ghost ns0: seq<Notification>, ghost n0: int, ghost order: seq<UserId>)
      returns (ghost members: seq<UserId>, ghost pushed: seq<Push>)
      requires db.Valid() && chatId in db.chats && u in db.users
      requires var first := Recipients(order, u, db.settings);
        && db.notifications == ns0 + ChatService.Stored(first, MessageDraft(db.users, u, chatId, f.content, id), n0, now)
        && db.nextNotificationId == n0 + |first|
      modifies db`notifications, db`nextNotificationId, clients
      ensures db.Valid()
      ensures forall v :: v in members <==> v in Members(db.chatUsers, chatId)
      ensures Distinct(members)
      ensures clients.sent == old(clients.sent) + [Send(OthersInChatGroup(chatId, conn), ReceiveMessage(id, chatId, u))] + pushed
      ensures var rs := Recipients(members, u, db.settings);
        var announced := FileLabel(f.messageType);
        && db.notifications == old(db.notifications) + ChatService.Stored(rs, MessageDraft(db.users, u, chatId, announced, id), old(db.nextNotificationId), now)
        && pushed == ChatAlerts(rs, old(db.nextNotificationId), db.settings, MessageAlert(db.users, u, chatId, announced, id))
      ensures FileNotified(db.users, db.settings, ns0, n0, id, u, chatId, f, now, order, members, db.notifications, pushed)
    {
      clients.Push(Send(OthersInChatGroup(chatId, conn), ReceiveMessage(id, chatId, u)));
      ghost var echoed := clients.sent;
      members, pushed := SendNotificationToChatUsers(chatId, u, FileLabel(f.messageType), id, now);
      assert FindUser(db.users, u) == Some(db.users[u]);
      assert pushed == clients.sent[|echoed|..];
    }

    /** `MarkMessageAsRead(messageId, chatId)`: on success tells the chat group
        (named by the caller, not checked against the message) who read what. */
    method MarkMessageAsRead(caller: Option<UserId>, messageId: MessageId, chatId: ChatId, now: Time) returns (ok: bool)
      requires db.Valid()
      modifies db`messages, clients
      ensures db.Valid()
      ensures caller.None? ==> !ok && db.messages == old(db.messages) && clients.sent == old(clients.sent)
      ensures caller.Some? ==> ChatService.Outcome(ok, db.messages) == ChatService.MarkRead(old(db.messages), messageId, caller.value, now)
      ensures clients.sent == old(clients.sent) + (if ok then [Send(ChatGroup(chatId), MessageRead(messageId, caller.value))] else [])
    {
      ok := false;
      if caller.Some? {
        ok := ChatService.MarkMessageAsRead(db, caller.value, messageId, now);
        if ok {
          clients.Push(Send(ChatGroup(chatId), MessageRead(messageId, caller.value)));
        }
      }
    }
  }
}
