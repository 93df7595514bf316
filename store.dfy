/** The database behind the EF Core context (Data/ApplicationDbContext.cs): one
    table per entity, kept as maps and sequences, with identity counters for the
    generated keys and the foreign keys the context declares. */
module Store {
  import opened Wrappers
  import opened Domain

  class Database {
    var users: map<UserId, User>
    var chats: map<ChatId, Chat>
    /** `ChatUsers`, whose key is the pair (UserId, ChatId). */
    var chatUsers: set<Membership>
    var messages: map<MessageId, Message>
    /** `Notifications`, in insertion order. */
    var notifications: seq<Notification>
    /** `NotificationSettings`, at most one row per user. */
    var settings: map<UserId, NotificationSettings>
    var nextChatId: nat
    var nextMessageId: nat
    var nextNotificationId: nat

    /** Keys agree with the rows, generated keys are positive and below their
        counter, notification ids are unique, and every foreign key points at an
        existing row. */
    ghost predicate Valid()
      reads this
    {
      && 0 < nextChatId && 0 < nextMessageId && 0 < nextNotificationId
      && (forall u :: u in users ==> users[u].id == u)
      && (forall c :: c in chats ==> chats[c].id == c && 0 < c < nextChatId)
      && (forall m :: m in chatUsers ==> m.userId in users && m.chatId in chats)
      && (forall id :: id in messages ==>
            && messages[id].id == id && 0 < id < nextMessageId
            && messages[id].chatId in chats && messages[id].senderId in users)
      && (forall i :: 0 <= i < |notifications| ==>
            0 < notifications[i].id < nextNotificationId && notifications[i].userId in users)
      && (forall i, j :: 0 <= i < j < |notifications| ==> notifications[i].id != notifications[j].id)
      && (forall u :: u in settings ==> settings[u].userId == u && u in users)
    }

    constructor ()
      ensures Valid()
      ensures users == map[] && chats == map[] && chatUsers == {} && messages == map[]
      ensures notifications == [] && settings == map[]
    {
      users, chats, chatUsers, messages := map[], map[], {}, map[];
      notifications, settings := [], map[];
      nextChatId, nextMessageId, nextNotificationId := 1, 1, 1;
    }

    /** Saving an edited row of an existing user. */
    method UpdateUser(u: UserId, user: User)
      requires Valid() && u in users && user.id == u
      modifies this`users
      ensures Valid() && users == old(users)[u := user]
    {
      users := users[u := user];
    }

    /** Saving an edited settings row of an existing user. */
    method UpdateSettings(u: UserId, row: NotificationSettings)
      requires Valid() && u in settings && row.userId == u
      modifies this`settings
      ensures Valid() && settings == old(settings)[u := row]
    {
      settings := settings[u := row];
    }
  }

  /** `Users.FindAsync(id)`. */
  function FindUser(users: map<UserId, User>, id: UserId): (r: Option<User>)
    ensures r.Some? <==> id in users
    ensures r.Some? ==> r.value == users[id]
  {
    if id in users then Some(users[id]) else None
  }

  /** The users of a chat according to its `ChatUsers` rows. */
  function Members(chatUsers: set<Membership>, chatId: ChatId): (r: set<UserId>)
    ensures forall u :: u in r <==> Membership(u, chatId) in chatUsers
  {
    set m | m in chatUsers && m.chatId == chatId :: m.userId
  }

  /** The rows of a table the database hands back for a set of members, in some
      order it chooses: each member exactly once. */
  method Enumerate(members: set<UserId>) returns (xs: seq<UserId>)
    ensures forall u :: u in xs <==> u in members
    ensures forall i, j :: 0 <= i < j < |xs| ==> xs[i] != xs[j]
  {
    xs := [];
    var rest := members;
    while rest != {}
      invariant rest <= members
      invariant forall u :: u in xs <==> u in members && u !in rest
      invariant forall i, j :: 0 <= i < j < |xs| ==> xs[i] != xs[j]
      decreases rest
    {
      var u :| u in rest;
      xs := xs + [u];
      rest := rest - {u};
    }
  }
}
