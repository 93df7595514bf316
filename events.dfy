/** What the hub and the chat service push to clients through SignalR. The
    transport is not modelled: every push is appended to an outbox. */
module Events {
  import opened Wrappers
  import opened Domain

  /** Who a push is addressed to: `Clients.All`, `Clients.User(id)`,
      `Clients.Group("chat_" + id)`, `Clients.GroupExcept(...)` and
      `Clients.OthersInGroup(...)`. */
  datatype Audience =
    | Everyone
    | OneUser(userId: UserId)
    | ChatGroup(chatId: ChatId)
    | ChatGroupExcept(chatId: ChatId, excludedConnections: seq<string>)
    | OthersInChatGroup(chatId: ChatId, connectionId: ConnectionId)

  /** The named client events and the parts of their payloads the model keeps. */
  datatype Event =
    | UserStatusChanged(userId: UserId, status: string)
    | ReceiveNotification(notificationId: NotificationId, title: string, message: string)
    | ShowBrowserNotification(title: string, body: string, icon: string, chatId: ChatId, messageId: MessageId)
    | ReceiveMessage(messageId: MessageId, chatId: ChatId, senderId: UserId)
    | MessageRead(messageId: MessageId, readerId: UserId)
    | UserTyping(typist: Option<UserId>, chatId: ChatId, isTyping: bool)

  datatype Push =
    | Send(to: Audience, event: Event)
    | AddToGroup(connectionId: ConnectionId, chatId: ChatId)
    | RemoveFromGroup(connectionId: ConnectionId, chatId: ChatId)

  /** Everything sent so far, oldest first. */
  class Outbox {
    var sent: seq<Push>

    constructor ()
      ensures sent == []
    {
      sent := [];
    }

    method Push(p: Push)
      modifies this
      ensures sent == old(sent) + [p]
    {
      sent := sent + [p];
    }
  }
}
