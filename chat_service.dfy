/** Services/ChatService.cs: private chats, messages and their DTOs. The
    guarded message operations are methods on the database specified by
    functions on the message table; the listing and the DTO mappings are
    functions. */
module ChatService {
  import opened Wrappers
  import opened Domain
  import opened Listing
  import opened FanOut
  import opened Events
  import opened Store
  import NotificationService

  /** The exceptions the service lets escape, one per cause. */
  datatype ChatError =
    | UsersNotFound        // ArgumentException("One or both users not found")
    | ChatNotFound         // ArgumentException("Chat not found")
    | InvalidMessageType   // Enum.Parse throws
    | UnknownSender        // SaveChangesAsync: the sender foreign key has no user
    | DuplicateMembership  // the same (UserId, ChatId) key added twice

  // ---------------------------------------------------------------------------
  // DTOs and their mappings
  // ---------------------------------------------------------------------------

  datatype UserDto = UserDto(
    id: UserId,
    email: string,
    displayName: string,
    avatarUrl: Option<string>,
    status: string,
    bio: Option<string>,
    lastSeen: Time)

  /** `new UserDto()`: empty strings and the zero date. */
  const EmptyUserDto := UserDto("", "", "", None, "", None, 0)

  /** `MapToUserDto`. A missing user maps to "Unknown User"; a user without a
      display name is shown by the local part of the email, or "Unknown". */
  function MapToUserDto(user: Option<User>, now: Time): (r: UserDto)
    ensures user.None? ==> r == UserDto("", "", "Unknown User", None, "Offline", None, now)
    ensures user.Some? ==> (r.id == user.value.id && r.lastSeen == user.value.lastSeen
                            && r.avatarUrl == user.value.avatarUrl && r.bio == user.value.bio)
    ensures user.Some? ==> ParseStatus(r.status) == Some(user.value.status)
    ensures user.Some? && user.value.email.None? ==> r.email == ""
    ensures user.Some? && user.value.email.Some? ==> r.email == user.value.email.value
    ensures user.Some? && user.value.displayName.Some? ==> r.displayName == user.value.displayName.value
    ensures user.Some? && user.value.displayName.None? && user.value.email.Some? ==>
              r.displayName == EmailLocalPart(user.value.email.value)
    ensures user.Some? && user.value.displayName.None? && user.value.email.None? ==> r.displayName == "Unknown"
  {
    match user
    case None => UserDto("", "", "Unknown User", None, "Offline", None, now)
    case Some(u) =>
      var name := match u.displayName
        case Some(n) => n
        case None => (match u.email case Some(e) => EmailLocalPart(e) case None => "Unknown");
      UserDto(u.id, u.email.GetOr(""), name, u.avatarUrl, StatusName(u.status), u.bio, u.lastSeen)
  }

  /** A user registered as `local@domain` without a display name is shown as `local`. */
  lemma DisplayNameFromEmail(u: User, local: string, domain: string, now: Time)
    requires u.displayName.None? && u.email == Some(local + "@" + domain) && '@' !in local
    ensures MapToUserDto(Some(u), now).displayName == local
  {
    EmailLocalPartOfAddress(local, domain);
  }

  datatype MessageDto = MessageDto(
    id: MessageId,
    content: string,
    messageType: string,
    fileUrl: Option<string>,
    fileName: Option<string>,
    fileSize: Option<int>,
    sentAt: Time,
    deliveredAt: Option<Time>,
    readAt: Option<Time>,
    isEdited: bool,
    isDeleted: bool,
    sender: UserDto,
    chatId: ChatId,
    isMine: bool)

  /** `MapToMessageDto(message, currentUserId)`, with the loaded sender passed in. */
  function MapToMessageDto(message: Option<Message>, sender: Option<User>, currentUserId: UserId, now: Time): (r: MessageDto)
    ensures r.isMine <==> message.Some? && message.value.senderId == currentUserId
    ensures message.None? ==> r == MessageDto(0, "", "Text", None, None, None, now, None, None, false, false, EmptyUserDto, 0, false)
    ensures message.Some? ==> ParseMessageType(r.messageType) == Some(message.value.messageType)
    ensures message.Some? ==> var m := message.value;
              && r.id == m.id && r.chatId == m.chatId && r.content == m.content
              && r.fileUrl == m.fileUrl && r.fileName == m.fileName && r.fileSize == m.fileSize
              && r.sentAt == m.sentAt && r.deliveredAt == m.deliveredAt && r.readAt == m.readAt
              && r.isEdited == m.isEdited && r.isDeleted == m.isDeleted
              && r.sender == MapToUserDto(sender, now)
  {
    match message
    case None => MessageDto(0, "", "Text", None, None, None, now, None, None, false, false, EmptyUserDto, 0, false)
    case Some(m) =>
      ParseMessageTypeName(m.messageType);
      MessageDto(m.id, m.content, MessageTypeName(m.messageType), m.fileUrl, m.fileName, m.fileSize,
                 m.sentAt, m.deliveredAt, m.readAt, m.isEdited, m.isDeleted,
                 MapToUserDto(sender, now), m.chatId, m.senderId == currentUserId)
  }

  datatype ChatDto = ChatDto(
    id: ChatId,
    chatType: string,
    chatName: string,
    chatImage: Option<string>,
    updatedAt: Time,
    lastMessage: string,
    lastMessageTime: Option<Time>,
    unreadCount: int,
    participants: seq<UserDto>)

  /** The first participant whose id differs from `id`. */
  function OtherThan(ps: seq<UserDto>, id: UserId): (r: Option<UserDto>)
    ensures r.Some? ==> exists k :: 0 <= k < |ps| && ps[k] == r.value && r.value.id != id
                                  && forall j :: 0 <= j < k ==> ps[j].id == id
    ensures r.None? ==> forall j :: 0 <= j < |ps| ==> ps[j].id == id
  {
    if ps == [] then None
    else if ps[0].id != id then Some(ps[0])
    else
      var r := OtherThan(ps[1..], id);
      assert r.Some? ==> exists k :: 0 <= k < |ps| && ps[k] == r.value && r.value.id != id
                                  && forall j :: 0 <= j < k ==> ps[j].id == id by {
        if r.Some? {
          var k :| 0 <= k < |ps[1..]| && ps[1..][k] == r.value && forall j :: 0 <= j < k ==> ps[1..][j].id == id;
          assert ps[k + 1] == r.value;
          forall j | 0 <= j < k + 1 ensures ps[j].id == id {
            if j > 0 { assert ps[j] == ps[1..][j - 1]; }
          }
        }
      }
      assert r.None? ==> forall j :: 0 <= j < |ps| ==> ps[j].id == id by {
        if r.None? {
          forall j | 0 <= j < |ps| ensures ps[j].id == id {
            if j > 0 { assert ps[j] == ps[1..][j - 1]; }
          }
        }
      }
      r
  }

  /** The name `MapToChatDto` shows: the stored name when it is non-empty;
      otherwise, when there are participants, the display name of the first
      participant who is not the first one (or of the first one when all are
      the same user); finally "Unknown Chat" for a null name. */
  function ShownChatName(stored: Option<string>, ps: seq<UserDto>): (r: string)
    ensures stored.Some? && stored.value != "" ==> r == stored.value
    ensures (stored.None? || stored.value == "") && ps != [] ==> exists k :: 0 <= k < |ps| && r == ps[k].displayName
    ensures stored.None? && ps == [] ==> r == "Unknown Chat"
    ensures stored == Some("") && ps == [] ==> r == ""
  {
    if (stored.None? || stored.value == "") && |ps| > 0 then
      match OtherThan(ps, ps[0].id)
      case Some(p) => p.displayName
      case None => ps[0].displayName
    else stored.GetOr("Unknown Chat")
  }

  /** `MapToChatDto`: `participants` are the loaded users of the chat's
      `ChatUsers`, `lastMessage` the first loaded message, if any. */
  function MapToChatDto(chat: Option<Chat>, participants: seq<User>, lastMessage: Option<Message>, now: Time): (r: ChatDto)
    ensures chat.None? ==> r == ChatDto(0, "private", "Unknown Chat", None, now, "", None, 0, [])
    ensures chat.Some? ==> && r.id == chat.value.id && r.chatType == chat.value.chatType
                           && r.chatImage == chat.value.chatImage && r.updatedAt == chat.value.updatedAt
                           && r.unreadCount == 0
    ensures chat.Some? ==> |r.participants| == |participants|
    ensures chat.Some? ==> forall i :: 0 <= i < |participants| ==> r.participants[i] == MapToUserDto(Some(participants[i]), now)
    ensures chat.Some? ==> r.chatName == ShownChatName(chat.value.chatName, r.participants)
    ensures chat.Some? && lastMessage.None? ==> r.lastMessage == "" && r.lastMessageTime == None
    ensures chat.Some? && lastMessage.Some? ==> (r.lastMessage == lastMessage.value.content
                                                 && r.lastMessageTime == Some(lastMessage.value.sentAt))
  {
    match chat
    case None => ChatDto(0, "private", "Unknown Chat", None, now, "", None, 0, [])
    case Some(c) =>
      var ps := seq(|participants|, i requires 0 <= i < |participants| => MapToUserDto(Some(participants[i]), now));
      var last := match lastMessage case Some(m) => m.content case None => "";
      var lastTime := match lastMessage case Some(m) => Some(m.sentAt) case None => None;
      ChatDto(c.id, c.chatType, ShownChatName(c.chatName, ps), c.chatImage, c.updatedAt, last, lastTime, 0, ps)
  }

  /** An unnamed private chat is named after the participant listed second, so
      the member listed second sees the chat under their own name. */
  lemma UnnamedPairChatName(c: Chat, a: User, b: User, now: Time)
    requires c.chatName.None? && a.id != b.id
    ensures MapToChatDto(Some(c), [a, b], None, now).chatName == MapToUserDto(Some(b), now).displayName
  {
    var ps := MapToChatDto(Some(c), [a, b], None, now).participants;
    assert ps[0].id == a.id && ps[1].id == b.id;
    assert ps[1..] == [ps[1]];
  }

  // ---------------------------------------------------------------------------
  // Private chats
  // ---------------------------------------------------------------------------

  /** The filter of `GetOrCreatePrivateChatAsync`: a "private" chat with exactly
      two members, both `u` and `v` among them. */
  predicate IsPrivateChatOf(chats: map<ChatId, Chat>, chatUsers: set<Membership>, c: ChatId, u: UserId, v: UserId) {
    && c in chats && chats[c].chatType == "private"
    && |Members(chatUsers, c)| == 2
    && u in Members(chatUsers, c) && v in Members(chatUsers, c)
  }

  /** The users behind a list of user ids. */
  function UsersOf(users: map<UserId, User>, ids: seq<UserId>): (r: seq<User>)
    requires forall i :: 0 <= i < |ids| ==> ids[i] in users
    ensures |r| == |ids| && forall i :: 0 <= i < |ids| ==> r[i] == users[ids[i]]
  {
    seq(|ids|, i requires 0 <= i < |ids| => users[ids[i]])
  }

  /** The chat as returned to the caller: its members, in the order the
      database lists them, and no last message (the query loads none). */
  method LoadChatDto(db: Database, c: ChatId, now: Time) returns (dto: ChatDto)
    requires db.Valid() && c in db.chats
    ensures dto.id == c && dto.chatType == db.chats[c].chatType
    ensures (set p | p in dto.participants :: p.id) == Members(db.chatUsers, c)
  {
    var ids := Enumerate(Members(db.chatUsers, c));
    forall i | 0 <= i < |ids| ensures ids[i] in db.users {
      assert ids[i] in Members(db.chatUsers, c);
      assert Membership(ids[i], c) in db.chatUsers;
    }
    var ps := UsersOf(db.users, ids);
    dto := MapToChatDto(Some(db.chats[c]), ps, None, now);
    forall u | u in Members(db.chatUsers, c) ensures u in (set p | p in dto.participants :: p.id) {
      var i :| 0 <= i < |ids| && ids[i] == u;
      assert dto.participants[i].id == u;
    }
  }

  /** The first `SaveChangesAsync` of a new chat: a private chat without name or
      image, created and updated now, under the next identity value. */
  method StoreChat(db: Database, now: Time) returns (id: ChatId)
    requires db.Valid()
    modifies db`chats, db`nextChatId
    ensures db.Valid()
    ensures id == old(db.nextChatId) && id !in old(db.chats)
    ensures db.chats == old(db.chats)[id := Chat(id, "private", None, None, now, now)]
    ensures Members(db.chatUsers, id) == {}
  {
    id := db.nextChatId;
    db.chats := db.chats[id := Chat(id, "private", None, None, now, now)];
    db.nextChatId := id + 1;
  }

  /** The second `SaveChangesAsync`: the two membership rows of a new chat. */
  method StoreMemberships(db: Database, id: ChatId, u: UserId, v: UserId)
    requires db.Valid() && id in db.chats && u in db.users && v in db.users
    requires Members(db.chatUsers, id) == {}
    modifies db`chatUsers
    ensures db.Valid()
    ensures db.chatUsers == old(db.chatUsers) + {Membership(u, id), Membership(v, id)}
    ensures Members(db.chatUsers, id) == {u, v}
  {
    db.chatUsers := db.chatUsers + {Membership(u, id), Membership(v, id)};
  }

  /** `GetOrCreatePrivateChatAsync(userId, otherUserId)`. */
  method GetOrCreatePrivateChat(db: Database, userId: UserId, otherUserId: UserId, now: Time) returns (r: Result<ChatDto, ChatError>)
    requires db.Valid()
    modifies db
    ensures db.Valid()
    ensures unchanged(db`users, db`messages, db`notifications, db`settings, db`nextMessageId, db`nextNotificationId)
    ensures userId !in old(db.users) || otherUserId !in old(db.users) ==> r == Err(UsersNotFound) && unchanged(db)
    ensures r.Ok? ==> IsPrivateChatOf(db.chats, db.chatUsers, r.value.id, userId, otherUserId)
    ensures r.Ok? ==> (set p | p in r.value.participants :: p.id) == Members(db.chatUsers, r.value.id)
    // an existing chat is reused and nothing is stored
    ensures userId in old(db.users) && otherUserId in old(db.users)
            && (exists c :: c in old(db.chats) && IsPrivateChatOf(old(db.chats), old(db.chatUsers), c, userId, otherUserId))
            ==> r.Ok? && unchanged(db)
    // otherwise a new private chat whose members are exactly the two users
    ensures userId in old(db.users) && otherUserId in old(db.users) && userId != otherUserId
            && (forall c :: c in old(db.chats) ==> !IsPrivateChatOf(old(db.chats), old(db.chatUsers), c, userId, otherUserId))
            ==> && r.Ok? && r.value.id == old(db.nextChatId) && r.value.id !in old(db.chats)
                && db.chats == old(db.chats)[r.value.id := Chat(r.value.id, "private", None, None, now, now)]
                && db.chatUsers == old(db.chatUsers) + {Membership(userId, r.value.id), Membership(otherUserId, r.value.id)}
                && Members(db.chatUsers, r.value.id) == {userId, otherUserId}
    // with both ids the same, the chat row is saved before adding the second
    // membership row with the same key fails
    ensures userId in old(db.users) && userId == otherUserId
            && (forall c :: c in old(db.chats) ==> !IsPrivateChatOf(old(db.chats), old(db.chatUsers), c, userId, otherUserId))
            ==> && r == Err(DuplicateMembership)
                && db.chats == old(db.chats)[old(db.nextChatId) := Chat(old(db.nextChatId), "private", None, None, now, now)]
                && db.chatUsers == old(db.chatUsers)
  {
    if userId !in db.users || otherUserId !in db.users {
      return Err(UsersNotFound);
    }
    if c :| c in db.chats && IsPrivateChatOf(db.chats, db.chatUsers, c, userId, otherUserId) {
      var dto := LoadChatDto(db, c, now);
      return Ok(dto);
    }
    var id := StoreChat(db, now);
    if userId == otherUserId {
      return Err(DuplicateMembership);
    }
    StoreMemberships(db, id, userId, otherUserId);
    var dto := LoadChatDto(db, id, now);
    r := Ok(dto);
  }

  // ---------------------------------------------------------------------------
  // Message listing
  // ---------------------------------------------------------------------------

  /** The stored messages with ids in [lo, hi), in id order: the order the
      table returns rows in before sorting. */
  function RowsFrom(messages: map<MessageId, Message>, lo: int, hi: int): (r: seq<Message>)
    decreases hi - lo
    ensures forall i :: 0 <= i < |r| ==> r[i] in messages.Values
    ensures forall id :: id in messages && lo <= id < hi ==> messages[id] in r
  {
    if lo >= hi then []
    else
      var rest := RowsFrom(messages, lo + 1, hi);
      if lo in messages then [messages[lo]] + rest else rest
  }

  /** The filter and the sort key of `GetChatMessagesAsync`. */
  function VisibleIn(chatId: ChatId): Message -> bool {
    (m: Message) => m.chatId == chatId && !m.isDeleted
  }

  function SentAt(m: Message): int {
    m.sentAt
  }

  /** The non-deleted messages of a chat among the rows with ids below `hi`, in table order. */
  function VisibleMessages(ms: map<MessageId, Message>, hi: int, chatId: ChatId): seq<Message> {
    Filter(RowsFrom(ms, 1, hi), VisibleIn(chatId))
  }

  /** Every visible message is a stored, non-deleted message of the chat. */
  lemma VisibleMessagesWithin(ms: map<MessageId, Message>, hi: int, chatId: ChatId)
    ensures forall m :: m in VisibleMessages(ms, hi, chatId) ==> m in ms.Values && m.chatId == chatId && !m.isDeleted
  {
    var rows := RowsFrom(ms, 1, hi);
    var visible := Filter(rows, VisibleIn(chatId));
    forall m | m in visible ensures m in ms.Values && m.chatId == chatId && !m.isDeleted {
      var i :| 0 <= i < |visible| && visible[i] == m;
      assert VisibleIn(chatId)(m);
      var k :| 0 <= k < |rows| && rows[k] == m;
    }
  }

  /** The rows `GetChatMessagesAsync(chatId, userId, skip, take)` reads from a
      table whose ids are below `hi`. */
  function ChatMessageRows(ms: map<MessageId, Message>, hi: int, chatId: ChatId, skip: int, take: int): (r: seq<Message>)
    ensures |r| <= Max(take, 0)
    ensures forall i :: 0 <= i < |r| ==> r[i] in ms.Values && r[i].chatId == chatId && !r[i].isDeleted
    ensures forall i, j :: 0 <= i < j < |r| ==> r[i].sentAt >= r[j].sentAt
  {
    var visible := VisibleMessages(ms, hi, chatId);
    var sorted := SortDesc(visible, SentAt);
    var page := Page(sorted, skip, take);
    VisibleMessagesWithin(ms, hi, chatId);
    SortDescWithin(visible, SentAt);
    PageWithin(sorted, skip, take);
    PageSorted(sorted, skip, take, SentAt);
    assert forall i :: 0 <= i < |page| ==> page[i] in visible;
    page
  }

  /** `GetChatMessagesAsync`. */
  function GetChatMessages(db: Database, chatId: ChatId, userId: UserId, skip: int, take: int, now: Time): (r: seq<MessageDto>)
    reads db
    ensures |r| == |ChatMessageRows(db.messages, db.nextMessageId, chatId, skip, take)| <= Max(take, 0)
    ensures forall i :: 0 <= i < |r| ==> r[i].chatId == chatId && !r[i].isDeleted
    ensures forall i, j :: 0 <= i < j < |r| ==> r[i].sentAt >= r[j].sentAt
    ensures forall i :: 0 <= i < |r| ==>
              var m := ChatMessageRows(db.messages, db.nextMessageId, chatId, skip, take)[i];
              && r[i].id == m.id && r[i].content == m.content && m in db.messages.Values
              && (r[i].isMine <==> m.senderId == userId)
  {
    var rows := ChatMessageRows(db.messages, db.nextMessageId, chatId, skip, take);
    var dtos := seq(|rows|, i requires 0 <= i < |rows| reads db =>
      MapToMessageDto(Some(rows[i]), FindUser(db.users, rows[i].senderId), userId, now));
    assert forall i :: 0 <= i < |dtos| ==>
      dtos[i].chatId == rows[i].chatId && dtos[i].isDeleted == rows[i].isDeleted && dtos[i].sentAt == rows[i].sentAt
      && dtos[i].id == rows[i].id && dtos[i].content == rows[i].content
      && (dtos[i].isMine <==> rows[i].senderId == userId);
    dtos
  }

  /** Reading page after page returns the listing without gaps or repeats. */
  lemma ChatPagesTile(ms: map<MessageId, Message>, hi: int, chatId: ChatId, skip: nat, take1: nat, take2: nat)
    ensures ChatMessageRows(ms, hi, chatId, skip, take1) + ChatMessageRows(ms, hi, chatId, skip + take1, take2)
         == ChatMessageRows(ms, hi, chatId, skip, take1 + take2)
  {
    PagesTile(SortDesc(VisibleMessages(ms, hi, chatId), SentAt), skip, take1, take2);
  }

  /** A first page at least as large as the chat lists every non-deleted
      message of the chat. */
  lemma FirstPageListsChat(ms: map<MessageId, Message>, hi: int, chatId: ChatId, take: int, id: MessageId)
    requires take >= |VisibleMessages(ms, hi, chatId)|
    requires id in ms && 1 <= id < hi
    requires ms[id].chatId == chatId && !ms[id].isDeleted
    ensures ms[id] in ChatMessageRows(ms, hi, chatId, 0, take)
  {
    var visible := VisibleMessages(ms, hi, chatId);
    var rows := RowsFrom(ms, 1, hi);
    var k :| 0 <= k < |rows| && rows[k] == ms[id];
    assert ms[id] in visible;
    var sorted := SortDesc(visible, SentAt);
    assert ms[id] in multiset(sorted);
    assert Page(sorted, 0, take) == sorted;
  }

  // ---------------------------------------------------------------------------
  // Guarded message operations
  // ---------------------------------------------------------------------------

  /** The result of a guarded operation and the message table after it. */
  datatype Outcome = Outcome(ok: bool, messages: map<MessageId, Message>)

  /** `UpdateMessageAsync`: only the sender may edit, and only a message that is
      not deleted. */
  function Update(ms: map<MessageId, Message>, id: MessageId, userId: UserId, content: string, now: Time): (r: Outcome)
    ensures r.ok <==> id in ms && ms[id].senderId == userId && !ms[id].isDeleted
    ensures !r.ok ==> r.messages == ms
    ensures r.ok ==> r.messages == ms[id := ms[id].(content := content, isEdited := true, editedAt := Some(now))]
  {
    if id in ms && ms[id].senderId == userId && !ms[id].isDeleted then
      Outcome(true, ms[id := ms[id].(content := content, isEdited := true, editedAt := Some(now))])
    else Outcome(false, ms)
  }

  /** `DeleteMessageAsync`: a soft delete, allowed to the sender only. */
  function Delete(ms: map<MessageId, Message>, id: MessageId, userId: UserId): (r: Outcome)
    ensures r.ok <==> id in ms && ms[id].senderId == userId
    ensures !r.ok ==> r.messages == ms
    ensures r.ok ==> r.messages == ms[id := ms[id].(isDeleted := true)]
  {
    if id in ms && ms[id].senderId == userId then Outcome(true, ms[id := ms[id].(isDeleted := true)])
    else Outcome(false, ms)
  }

  /** `MarkMessageAsReadAsync`: anybody but the sender stamps the read time. */
  function MarkRead(ms: map<MessageId, Message>, id: MessageId, readerId: UserId, now: Time): (r: Outcome)
    ensures r.ok <==> id in ms && ms[id].senderId != readerId
    ensures !r.ok ==> r.messages == ms
    ensures r.ok ==> r.messages == ms[id := ms[id].(readAt := Some(now))]
  {
    if id in ms && ms[id].senderId != readerId then Outcome(true, ms[id := ms[id].(readAt := Some(now))])
    else Outcome(false, ms)
  }

  /** Deleting twice succeeds twice and leaves the table as deleting once. */
  lemma DeleteIdempotent(ms: map<MessageId, Message>, id: MessageId, userId: UserId)
    ensures Delete(Delete(ms, id, userId).messages, id, userId) == Delete(ms, id, userId)
  {
    var once := Delete(ms, id, userId);
    if once.ok {
      assert once.messages[id].isDeleted;
      assert once.messages[id := once.messages[id].(isDeleted := true)] == once.messages;
    }
  }

  /** A deleted message can no longer be edited, not even by its sender. */
  lemma DeletedMessageFrozen(ms: map<MessageId, Message>, id: MessageId, userId: UserId, content: string, now: Time)
    requires Delete(ms, id, userId).ok
    ensures !Update(Delete(ms, id, userId).messages, id, userId, content, now).ok
  {
  }

  /** A deleted message disappears from every page of its chat's listing. */
  lemma DeletedMessageHidden(ms: map<MessageId, Message>, hi: int, id: MessageId, userId: UserId, chatId: ChatId, skip: int, take: int)
    requires Delete(ms, id, userId).ok
    ensures var after := Delete(ms, id, userId).messages;
      after[id] !in ChatMessageRows(after, hi, chatId, skip, take)
  {
    var after := Delete(ms, id, userId).messages;
    var rows := ChatMessageRows(after, hi, chatId, skip, take);
    forall i | 0 <= i < |rows| ensures rows[i] != after[id] {
      assert !rows[i].isDeleted;
    }
  }

  /** Marking read is not idempotent: a second reader call succeeds again and
      moves the read time to the later call. */
  lemma MarkReadTwice(ms: map<MessageId, Message>, id: MessageId, readerId: UserId, t1: Time, t2: Time)
    requires MarkRead(ms, id, readerId, t1).ok
    ensures var second := MarkRead(MarkRead(ms, id, readerId, t1).messages, id, readerId, t2);
      second.ok && second.messages == ms[id := ms[id].(readAt := Some(t2))]
  {
  }

  /** The operations change a message but never its identity, sender, chat or
      sending time. */
  lemma OperationsKeepIdentity(ms: map<MessageId, Message>, id: MessageId, userId: UserId, content: string, now: Time)
    requires id in ms
    ensures var m := Update(ms, id, userId, content, now).messages[id];
      m.id == ms[id].id && m.senderId == ms[id].senderId && m.chatId == ms[id].chatId && m.sentAt == ms[id].sentAt
    ensures var m := Delete(ms, id, userId).messages[id];
      m.id == ms[id].id && m.senderId == ms[id].senderId && m.chatId == ms[id].chatId && m.content == ms[id].content
    ensures var m := MarkRead(ms, id, userId, now).messages[id];
      m.id == ms[id].id && m.senderId == ms[id].senderId && m.content == ms[id].content && m.isDeleted == ms[id].isDeleted
  {
  }

  method UpdateMessage(db: Database, messageId: MessageId, userId: UserId, content: string, now: Time) returns (ok: bool)
    requires db.Valid()
    modifies db`messages
    ensures db.Valid()
    ensures Outcome(ok, db.messages) == Update(old(db.messages), messageId, userId, content, now)
  {
    if messageId !in db.messages || db.messages[messageId].senderId != userId || db.messages[messageId].isDeleted {
      return false;
    }
    var m := db.messages[messageId];
    db.messages := db.messages[messageId := m.(content := content, isEdited := true, editedAt := Some(now))];
    ok := true;
  }

  method DeleteMessage(db: Database, messageId: MessageId, userId: UserId) returns (ok: bool)
    requires db.Valid()
    modifies db`messages
    ensures db.Valid()
    ensures Outcome(ok, db.messages) == Delete(old(db.messages), messageId, userId)
  {
    if messageId !in db.messages || db.messages[messageId].senderId != userId {
      return false;
    }
    db.messages := db.messages[messageId := db.messages[messageId].(isDeleted := true)];
    ok := true;
  }

  method MarkMessageAsRead(db: Database, readerId: UserId, messageId: MessageId, now: Time) returns (ok: bool)
    requires db.Valid()
    modifies db`messages
    ensures db.Valid()
    ensures Outcome(ok, db.messages) == MarkRead(old(db.messages), messageId, readerId, now)
  {
    if messageId !in db.messages || db.messages[messageId].senderId == readerId {
      return false;
    }
    db.messages := db.messages[messageId := db.messages[messageId].(readAt := Some(now))];
    ok := true;
  }

  // ---------------------------------------------------------------------------
  // Sending a message
  // ---------------------------------------------------------------------------

  /** `SendMessageDto`. */
  datatype SendMessageRequest = SendMessageRequest(
    chatId: ChatId,
    content: string,
    messageType: string,
    fileUrl: Option<string>,
    fileName: Option<string>,
    fileSize: Option<int>)

  /** The row `SendMessageAsync` stores: sent and delivered now, unread, unedited. */
  function NewMessage(id: MessageId, senderId: UserId, req: SendMessageRequest, t: MessageType, now: Time): Message {
    Message(id, req.content, t, req.fileUrl, req.fileName, req.fileSize, now, Some(now), None, None, false, false, senderId, req.chatId)
  }

  /** The notifications a message produces for the members visited in `order`. */
  function MessageNotificationDrafts(order: seq<UserId>, m: Message, sender: Option<User>,
                                     settings: map<UserId, NotificationSettings>): seq<Addressed> {
    var name := SenderName(sender);
    MessageDrafts(order, m.senderId, settings, MessageTitle(name), m.content, Some(MessageRef(m.chatId, m.id, m.senderId, name)))
  }

  /** The rows stored for a list of drafts, with consecutive ids from `firstId`. */
  function Materialize(drafts: seq<Addressed>, firstId: int, now: Time): (r: seq<Notification>)
    ensures |r| == |drafts|
    ensures forall i :: 0 <= i < |r| ==> r[i].id == firstId + i && r[i].userId == drafts[i].userId && !r[i].isRead
  {
    seq(|drafts|, i requires 0 <= i < |drafts| => NotificationService.FromDraft(firstId + i, drafts[i].userId, drafts[i].draft, now))
  }

  /** The rows stored for recipients `rs` of the same draft, with consecutive
      ids from `firstId`. */
  function Stored(rs: seq<UserId>, d: NotificationDraft, firstId: int, now: Time): (r: seq<Notification>)
    ensures |r| == |rs|
  {
    seq(|rs|, i requires 0 <= i < |rs| => NotificationService.FromDraft(firstId + i, rs[i], d, now))
  }

  lemma StoredSnoc(rs: seq<UserId>, u: UserId, d: NotificationDraft, firstId: int, now: Time)
    ensures Stored(rs + [u], d, firstId, now) == Stored(rs, d, firstId, now) + [NotificationService.FromDraft(firstId + |rs|, u, d, now)]
  {
  }

  /** The loop's rows are the rows of the message's drafts. */
  lemma StoredDrafts(order: seq<UserId>, m: Message, sender: Option<User>,
                     settings: map<UserId, NotificationSettings>, firstId: int, now: Time)
    ensures var name := SenderName(sender);
      var d := NotificationDraft(MessageTitle(name), Preview(m.content), "message", Some(MessageRef(m.chatId, m.id, m.senderId, name)));
      Stored(Recipients(order, m.senderId, settings), d, firstId, now)
        == Materialize(MessageNotificationDrafts(order, m, sender, settings), firstId, now)
  {
  }

  /** What a new message leaves in the notification table: one unread
      "message" notification per member other than the sender who wants them,
      each carrying the preview of the content and addressed to that member. */
  lemma MessageNotificationsFor(order: seq<UserId>, m: Message, sender: Option<User>,
                                settings: map<UserId, NotificationSettings>, firstId: int, now: Time)
    requires Distinct(order)
    ensures var ns := Materialize(MessageNotificationDrafts(order, m, sender, settings), firstId, now);
      && (forall u :: (exists i :: 0 <= i < |ns| && ns[i].userId == u) <==> u in order && u != m.senderId && WantsNotifications(settings, u))
      && (forall i, j :: 0 <= i < j < |ns| ==> ns[i].userId != ns[j].userId)
      && (forall i :: 0 <= i < |ns| ==> ns[i].message == Preview(m.content) && ns[i].notificationType == "message" && !ns[i].isRead)
  {
    var rs := Recipients(order, m.senderId, settings);
    var ns := Materialize(MessageNotificationDrafts(order, m, sender, settings), firstId, now);
    RecipientsDistinct(order, m.senderId, settings);
    forall u ensures (exists i :: 0 <= i < |ns| && ns[i].userId == u) <==> u in rs {
      if u in rs {
        var i :| 0 <= i < |rs| && rs[i] == u;
        assert ns[i].userId == u;
      }
    }
  }

  /** The loop of `CreateNotificationsForChatUsers` over the visited members. */
  method NotifyMembers(db: Database, members: seq<UserId>, senderId: UserId, d: NotificationDraft, now: Time)
    requires db.Valid()
    requires forall i :: 0 <= i < |members| ==> members[i] in db.users
    modifies db`notifications, db`nextNotificationId
    ensures db.Valid()
    ensures db.notifications == old(db.notifications)
              + Stored(Recipients(members, senderId, db.settings), d, old(db.nextNotificationId), now)
    ensures db.nextNotificationId == old(db.nextNotificationId) + |Recipients(members, senderId, db.settings)|
  {
    var i := 0;
    assert members[..0] == [];
    while i < |members|
      invariant 0 <= i <= |members|
      invariant db.Valid()
      invariant NotifiedUpTo(db, members[..i], senderId, d, now, old(db.nextNotificationId), old(db.notifications))
    {
      NotifyStep(db, members[..i], members[i], senderId, d, now, old(db.nextNotificationId), old(db.notifications));
      assert members[..i + 1] == members[..i] + [members[i]];
      i := i + 1;
    }
    assert members[..i] == members;
  }

  /** The table after the loop of `CreateNotificationsForChatUsers` visited
      `visited`, started from the table `ns0` and counter `n0`. */
  ghost predicate NotifiedUpTo(db: Database, visited: seq<UserId>, senderId: UserId, d: NotificationDraft, now: Time,
                               n0: int, ns0: seq<Notification>)
    reads db
  {
    var rs := Recipients(visited, senderId, db.settings);
    && db.notifications == ns0 + Stored(rs, d, n0, now)
    && db.nextNotificationId == n0 + |rs|
  }

  /** One pass of the loop of `CreateNotificationsForChatUsers`: a notification
      for `u` when `u` is not the sender and wants notifications. */
  method NotifyStep(db: Database, ghost visited: seq<UserId>, u: UserId, senderId: UserId, d: NotificationDraft, now: Time,
                    ghost n0: int, ghost ns0: seq<Notification>)
    requires db.Valid() && u in db.users
    requires NotifiedUpTo(db, visited, senderId, d, now, n0, ns0)
    modifies db`notifications, db`nextNotificationId
    ensures db.Valid()
    ensures NotifiedUpTo(db, visited + [u], senderId, d, now, n0, ns0)
  {
    ghost var rs := Recipients(visited, senderId, db.settings);
    RecipientsSnoc(visited, u, senderId, db.settings);
    if u != senderId && WantsNotifications(db.settings, u) {
      ghost var n := db.nextNotificationId;
      StoredSnoc(rs, u, d, n0, now);
      var created := NotificationService.CreateNotification(db, u, d, now);
      AppendAssoc(ns0, Stored(rs, d, n0, now), [NotificationService.FromDraft(n, u, d, now)]);
      assert Recipients(visited + [u], senderId, db.settings) == rs + [u];
    } else {
      assert Recipients(visited + [u], senderId, db.settings) == rs + [];
      assert rs + [] == rs;
    }
  }

  /** `CreateNotificationsForChatUsers(message)`: visits the members of the
      message's chat other than the sender, in the order the database returns
      them (`order`), and stores a notification for each one who wants it. */
  method CreateNotificationsForChatUsers(db: Database, m: Message, now: Time) returns (ghost order: seq<UserId>)
    requires db.Valid()
    modifies db`notifications, db`nextNotificationId
    ensures db.Valid()
    ensures forall u :: u in order <==> u in Members(db.chatUsers, m.chatId) && u != m.senderId
    ensures Distinct(order)
    ensures db.notifications == old(db.notifications)
              + Materialize(MessageNotificationDrafts(order, m, FindUser(db.users, m.senderId), db.settings),
                            old(db.nextNotificationId), now)
    ensures db.nextNotificationId == old(db.nextNotificationId) + |db.notifications| - |old(db.notifications)|
  {
    var members := Enumerate(Members(db.chatUsers, m.chatId) - {m.senderId});
    order := members;
    forall i | 0 <= i < |members| ensures members[i] in db.users {
      assert members[i] in members;
      assert Membership(members[i], m.chatId) in db.chatUsers;
    }
    var sender := FindUser(db.users, m.senderId);
    var name := SenderName(sender);
    var d := NotificationDraft(MessageTitle(name), Preview(m.content), "message", Some(MessageRef(m.chatId, m.id, m.senderId, name)));
    NotifyMembers(db, members, m.senderId, d, now);
    StoredDrafts(members, m, sender, db.settings, old(db.nextNotificationId), now);
  }

  /** Adding the new message row and setting its chat's `UpdatedAt`, saved
      together. */
  method SaveMessage(db: Database, m: Message, now: Time)
    requires db.Valid()
    requires m.id == db.nextMessageId && m.chatId in db.chats && m.senderId in db.users
    modifies db`messages, db`nextMessageId, db`chats
    ensures db.Valid()
    ensures db.messages == old(db.messages)[m.id := m] && db.nextMessageId == m.id + 1
    ensures db.chats == old(db.chats)[m.chatId := old(db.chats)[m.chatId].(updatedAt := now)]
  {
    db.messages := db.messages[m.id := m];
    db.nextMessageId := m.id + 1;
    db.chats := db.chats[m.chatId := db.chats[m.chatId].(updatedAt := now)];
  }

  /** `SendMessageAsync(senderId, req)`: stores the message, touches the chat,
      pushes it to the chat group and notifies the other members. */
  method SendMessage(db: Database, clients: Outbox, senderId: UserId, req: SendMessageRequest, now: Time)
    returns (r: Result<MessageDto, ChatError>, ghost order: seq<UserId>)
    requires db.Valid()
    modifies db, clients
    ensures db.Valid()
    ensures r.Ok? <==> req.chatId in old(db.chats) && ParseMessageType(req.messageType).Some? && senderId in old(db.users)
    ensures req.chatId !in old(db.chats) ==> r == Err(ChatNotFound)
    ensures req.chatId in old(db.chats) && ParseMessageType(req.messageType).None? ==> r == Err(InvalidMessageType)
    ensures req.chatId in old(db.chats) && ParseMessageType(req.messageType).Some? && senderId !in old(db.users)
            ==> r == Err(UnknownSender)
    ensures r.Err? ==> unchanged(db) && clients.sent == old(clients.sent)
    ensures unchanged(db`users, db`chatUsers, db`settings, db`nextChatId)
    ensures r.Ok? ==>
      var id := old(db.nextMessageId);
      var m := NewMessage(id, senderId, req, ParseMessageType(req.messageType).value, now);
      && db.messages == old(db.messages)[id := m]
      && db.chats == old(db.chats)[req.chatId := old(db.chats)[req.chatId].(updatedAt := now)]
      && clients.sent == old(clients.sent) + [Send(ChatGroupExcept(req.chatId, [senderId]), ReceiveMessage(id, req.chatId, senderId))]
      && (forall u :: u in order <==> u in Members(old(db.chatUsers), req.chatId) && u != senderId)
      && Distinct(order)
      && db.notifications == old(db.notifications)
           + Materialize(MessageNotificationDrafts(order, m, Some(old(db.users)[senderId]), old(db.settings)),
                         old(db.nextNotificationId), now)
      && db.nextNotificationId == old(db.nextNotificationId) + |db.notifications| - |old(db.notifications)|
      && r.value == MapToMessageDto(Some(m), Some(old(db.users)[senderId]), senderId, now)
  {
    order := [];
    if req.chatId !in db.chats {
      return Err(ChatNotFound), order;
    }
    var t := ParseMessageType(req.messageType);
    if t.None? {
      return Err(InvalidMessageType), order;
    }
    if senderId !in db.users {
      return Err(UnknownSender), order;
    }
    var id := db.nextMessageId;
    var m := NewMessage(id, senderId, req, t.value, now);
    SaveMessage(db, m, now);
    clients.Push(Send(ChatGroupExcept(req.chatId, [senderId]), ReceiveMessage(id, req.chatId, senderId)));
    order := CreateNotificationsForChatUsers(db, m, now);
    assert FindUser(db.users, senderId) == Some(old(db.users)[senderId]);
    r := Ok(MapToMessageDto(Some(m), FindUser(db.users, senderId), senderId, now));
  }

  // ---------------------------------------------------------------------------
  // Status lookup
  // ---------------------------------------------------------------------------

  /** `GetUsersStatuses(userIds)`: one entry per requested id, the stored status
      of a known user and "Offline" for an unknown one. */
  method GetUsersStatuses(db: Database, userIds: seq<UserId>) returns (r: map<UserId, string>)
    ensures r.Keys == set u | u in userIds
    ensures forall u :: u in r && u in db.users ==> ParseStatus(r[u]) == Some(db.users[u].status)
    ensures forall u :: u in r && u !in db.users ==> r[u] == "Offline"
  {
    r := map[];
    var found := Enumerate(set u | u in db.users && u in userIds);
    var i := 0;
    while i < |found|
      invariant 0 <= i <= |found|
      invariant r.Keys == set k | k in found[..i]
      invariant forall u :: u in r ==> u in db.users && r[u] == StatusName(db.users[u].status)
    {
      assert found[i] in found;
      r := r[found[i] := StatusName(db.users[found[i]].status)];
      assert found[..i + 1] == found[..i] + [found[i]];
      i := i + 1;
    }
    assert found[..i] == found;
    var j := 0;
    while j < |userIds|
      invariant 0 <= j <= |userIds|
      invariant r.Keys == (set u | u in db.users && u in userIds) + set k | k in userIds[..j]
      invariant forall u :: u in r && u in db.users ==> r[u] == StatusName(db.users[u].status)
      invariant forall u :: u in r && u !in db.users ==> r[u] == "Offline"
    {
      if userIds[j] !in r {
        r := r[userIds[j] := "Offline"];
      }
      assert userIds[..j + 1] == userIds[..j] + [userIds[j]];
      j := j + 1;
    }
    assert userIds[..j] == userIds;
  }
}
