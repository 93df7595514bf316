/** The records of the chat backend (the Models directory and Enums.cs) and the small pure
    helpers every component shares: the two enums with their names and parsers,
    ASCII lower-casing, and the `Email.Split('@')[0]` display-name fallback. */
module Domain {
  import opened Wrappers

  type UserId = string
  type ConnectionId = string
  type ChatId = int
  type MessageId = int
  type NotificationId = int

  /** `DateTime` as a count of 100-nanosecond ticks. */
  type Time = int

  /** `TimeSpan.TicksPerMinute`. */
  const TicksPerMinute: int := 600_000_000

  // ---------------------------------------------------------------------------
  // UserStatus (Enums.cs)
  // ---------------------------------------------------------------------------

  datatype UserStatus = Offline | Online | Away | Busy | DoNotDisturb

  /** `UserStatus.ToString()`. */
  function StatusName(s: UserStatus): string {
    match s
    case Offline => "Offline"
    case Online => "Online"
    case Away => "Away"
    case Busy => "Busy"
    case DoNotDisturb => "DoNotDisturb"
  }

  /** `Enum.TryParse<UserStatus>(s, out _)`: succeeds exactly on the five member
      names, compared case-sensitively. */
  function ParseStatus(s: string): (r: Option<UserStatus>)
    ensures r.Some? ==> StatusName(r.value) == s
    ensures r.None? ==> forall st: UserStatus :: StatusName(st) != s
    ensures forall st: UserStatus :: StatusName(st) == s ==> r == Some(st)
  {
    if s == "Offline" then Some(Offline)
    else if s == "Online" then Some(Online)
    else if s == "Away" then Some(Away)
    else if s == "Busy" then Some(Busy)
    else if s == "DoNotDisturb" then Some(DoNotDisturb)
    else None
  }

  // ---------------------------------------------------------------------------
  // MessageType (Enums.cs)
  // ---------------------------------------------------------------------------

  datatype MessageType = Text | Image | File | Video | Audio

  /** `MessageType.ToString()`. */
  function MessageTypeName(t: MessageType): string {
    match t
    case Text => "Text"
    case Image => "Image"
    case File => "File"
    case Video => "Video"
    case Audio => "Audio"
  }

  function LowerChar(c: char): char {
    if 'A' <= c <= 'Z' then (c as int + 32) as char else c
  }

  /** `ToLower()` restricted to ASCII letters. */
  function LowerAscii(s: string): (r: string)
    ensures |r| == |s|
    ensures forall i :: 0 <= i < |s| ==> r[i] == LowerChar(s[i])
  {
    seq(|s|, i requires 0 <= i < |s| => LowerChar(s[i]))
  }

  /** The lower-cased member names, which are pairwise different. */
  lemma LowerMessageTypeNames()
    ensures LowerAscii(MessageTypeName(Text)) == "text"
    ensures LowerAscii(MessageTypeName(Image)) == "image"
    ensures LowerAscii(MessageTypeName(File)) == "file"
    ensures LowerAscii(MessageTypeName(Video)) == "video"
    ensures LowerAscii(MessageTypeName(Audio)) == "audio"
  {
    assert LowerAscii("Text") == "text";
    assert LowerAscii("Image") == "image";
    assert LowerAscii("File") == "file";
    assert LowerAscii("Video") == "video";
    assert LowerAscii("Audio") == "audio";
  }

  /** `Enum.Parse<MessageType>(s, ignoreCase: true)`: `None` where the source throws. */
  function ParseMessageType(s: string): Option<MessageType> {
    var l := LowerAscii(s);
    if l == "text" then Some(Text)
    else if l == "image" then Some(Image)
    else if l == "file" then Some(File)
    else if l == "video" then Some(Video)
    else if l == "audio" then Some(Audio)
    else None
  }

  /** Parsing succeeds exactly on the member names up to ASCII case, and then
      yields the member of that name. */
  lemma ParseMessageTypeMatchesNames(s: string)
    ensures ParseMessageType(s).Some? ==> LowerAscii(MessageTypeName(ParseMessageType(s).value)) == LowerAscii(s)
    ensures ParseMessageType(s).None? ==> forall t: MessageType :: LowerAscii(MessageTypeName(t)) != LowerAscii(s)
    ensures forall t: MessageType :: LowerAscii(MessageTypeName(t)) == LowerAscii(s) ==> ParseMessageType(s) == Some(t)
  {
    LowerMessageTypeNames();
  }

  /** Every member name parses back to its member. */
  lemma ParseMessageTypeName(t: MessageType)
    ensures ParseMessageType(MessageTypeName(t)) == Some(t)
  {
    ParseMessageTypeMatchesNames(MessageTypeName(t));
  }

  // ---------------------------------------------------------------------------
  // Email.Split('@')[0]
  // ---------------------------------------------------------------------------

  /** The first piece of `e.Split('@')`: everything before the first '@', or the
      whole string when it has none. */
  function EmailLocalPart(e: string): (r: string)
    ensures '@' !in r
    ensures r <= e
    ensures |r| < |e| ==> e[|r|] == '@'
  {
    if e == [] then []
    else if e[0] == '@' then []
    else [e[0]] + EmailLocalPart(e[1..])
  }

  /** Splitting an address rebuilt from a local part without '@' gives that local part back. */
  lemma {:induction false} EmailLocalPartOfAddress(local: string, domain: string)
    requires '@' !in local
    ensures EmailLocalPart(local + "@" + domain) == local
  {
    if local != [] {
      assert (local + "@" + domain)[1..] == local[1..] + "@" + domain;
      EmailLocalPartOfAddress(local[1..], domain);
    }
  }

  // ---------------------------------------------------------------------------
  // Entities (the Models directory)
  // ---------------------------------------------------------------------------

  /** Models/User.cs: the fields of the Identity user the core reads or writes. */
  datatype User = User(
    id: UserId,
    email: Option<string>,
    displayName: Option<string>,
    avatarUrl: Option<string>,
    status: UserStatus,
    bio: Option<string>,
    lastSeen: Time)

  /** Models/Chat.cs. */
  datatype Chat = Chat(
    id: ChatId,
    chatType: string,
    chatName: Option<string>,
    chatImage: Option<string>,
    createdAt: Time,
    updatedAt: Time)

  /** Models/Chat.cs `ChatUser`, identified by its composite key (UserId, ChatId). */
  datatype Membership = Membership(userId: UserId, chatId: ChatId)

  /** Models/Message.cs. */
  datatype Message = Message(
    id: MessageId,
    content: string,
    messageType: MessageType,
    fileUrl: Option<string>,
    fileName: Option<string>,
    fileSize: Option<int>,
    sentAt: Time,
    deliveredAt: Option<Time>,
    readAt: Option<Time>,
    editedAt: Option<Time>,
    isEdited: bool,
    isDeleted: bool,
    senderId: UserId,
    chatId: ChatId)

  /** The JSON `Data` column of a notification, kept unserialised: either text
      supplied by a caller, or the object built for a new-message notification. */
  datatype Payload =
    | Opaque(text: string)
    | MessageRef(chatId: ChatId, messageId: MessageId, senderId: UserId, senderName: string)

  /** Models/Notification.cs. */
  datatype Notification = Notification(
    id: NotificationId,
    userId: UserId,
    title: string,
    message: string,
    notificationType: string,
    data: Option<Payload>,
    isRead: bool,
    createdAt: Time)

  /** Models/NotificationSettings.cs. */
  datatype NotificationSettings = NotificationSettings(
    userId: UserId,
    enableNotifications: bool,
    enableSound: bool,
    showBanner: bool,
    smartNotifications: bool)

  /** Services/NotificationService.cs `CreateNotificationDto`. */
  datatype NotificationDraft = NotificationDraft(
    title: string,
    message: string,
    notificationType: string,
    data: Option<Payload>)
}
