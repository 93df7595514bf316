/** The new-message notification rule, written three times in the source
    (Hubs/ChatHub.cs SendMessage and SendNotificationToChatUsers,
    Services/ChatService.cs CreateNotificationsForChatUsers): every chat member
    other than the sender whose settings are absent or have notifications enabled
    gets one notification, whose text is the message cut to 100 characters. */
module FanOut {
  import opened Wrappers
  import opened Domain

  const PreviewLength: nat := 100
  const Ellipsis: string := "..."

  /** The notification text for a message: the content itself when it has at
      most 100 characters, otherwise its first 100 characters and "...". */
  function Preview(content: string): (r: string)
    ensures |r| <= PreviewLength + |Ellipsis|
    ensures |content| <= PreviewLength ==> r == content
    ensures |content| > PreviewLength ==> |r| == PreviewLength + |Ellipsis| && r[..PreviewLength] == content[..PreviewLength] && r[PreviewLength..] == Ellipsis
  {
    if |content| > PreviewLength then content[..PreviewLength] + Ellipsis else content
  }

  /** A preview is already its own preview. */
  lemma PreviewIdempotent(content: string)
    ensures Preview(Preview(content)) == Preview(content)
  {
    if |content| > PreviewLength {
      var p := Preview(content);
      assert |p| == PreviewLength + 3;
      assert p == p[..PreviewLength] + Ellipsis;
    }
  }

  /** The name shown for a sender:
      `sender?.DisplayName ?? sender?.Email?.Split('@')[0] ?? "Пользователь"`. */
  function SenderName(sender: Option<User>): (r: string)
    ensures sender.Some? && sender.value.displayName.Some? ==> r == sender.value.displayName.value
    ensures sender.Some? && sender.value.displayName.None? && sender.value.email.Some? ==>
              r == EmailLocalPart(sender.value.email.value)
    ensures sender.Some? && sender.value.displayName.None? && sender.value.email.None? ==> r == "Пользователь"
    ensures sender.None? ==> r == "Пользователь"
  {
    match sender
    case None => "Пользователь"
    case Some(u) =>
      match u.displayName
      case Some(n) => n
      case None =>
        match u.email
        case Some(e) => EmailLocalPart(e)
        case None => "Пользователь"
  }

  /** The notification title for a new message. */
  function MessageTitle(senderName: string): string {
    "Новое сообщение от " + senderName
  }

  /** `userSettings == null || userSettings.EnableNotifications`. */
  predicate WantsNotifications(settings: map<UserId, NotificationSettings>, u: UserId) {
    u !in settings || settings[u].enableNotifications
  }

  /** The members the loop notifies, in the order it visits them. */
  function Recipients(members: seq<UserId>, sender: UserId, settings: map<UserId, NotificationSettings>): (r: seq<UserId>)
    ensures |r| <= |members|
    ensures forall u :: u in r <==> u in members && u != sender && WantsNotifications(settings, u)
  {
    if members == [] then []
    else
      var rest := Recipients(members[1..], sender, settings);
      assert forall u :: u in members <==> u == members[0] || u in members[1..];
      if members[0] != sender && WantsNotifications(settings, members[0]) then [members[0]] + rest else rest
  }

  /** Visiting one more member appends that member when it qualifies: the loops
      of the source build the recipient list front to back. */
  lemma {:induction false} RecipientsSnoc(members: seq<UserId>, u: UserId, sender: UserId, settings: map<UserId, NotificationSettings>)
    ensures Recipients(members + [u], sender, settings)
         == Recipients(members, sender, settings) + (if u != sender && WantsNotifications(settings, u) then [u] else [])
  {
    if members == [] {
      assert [u][1..] == [];
    } else {
      assert (members + [u])[1..] == members[1..] + [u];
      RecipientsSnoc(members[1..], u, sender, settings);
    }
  }

  ghost predicate Distinct<T>(xs: seq<T>) {
    forall i, j :: 0 <= i < j < |xs| ==> xs[i] != xs[j]
  }

  lemma DistinctTail<T>(xs: seq<T>)
    requires Distinct(xs) && xs != []
    ensures xs[0] !in xs[1..] && Distinct(xs[1..])
  {
    forall k | 0 <= k < |xs[1..]| ensures xs[1..][k] != xs[0] {
      assert xs[1..][k] == xs[k + 1];
    }
  }

  /** A notification still to be stored, with its recipient. */
  datatype Addressed = Addressed(userId: UserId, draft: NotificationDraft)

  /** The notifications one message produces, one per recipient. */
  function MessageDrafts(members: seq<UserId>, sender: UserId, settings: map<UserId, NotificationSettings>,
                         title: string, content: string, data: Option<Payload>): (r: seq<Addressed>)
    ensures |r| == |Recipients(members, sender, settings)|
    ensures forall i :: 0 <= i < |r| ==> r[i].userId == Recipients(members, sender, settings)[i]
    ensures forall i :: 0 <= i < |r| ==> r[i].draft == NotificationDraft(title, Preview(content), "message", data)
  {
    var rs := Recipients(members, sender, settings);
    seq(|rs|, i requires 0 <= i < |rs| => Addressed(rs[i], NotificationDraft(title, Preview(content), "message", data)))
  }

  /** The sender never receives a notification for their own message. */
  lemma SenderNeverNotified(members: seq<UserId>, sender: UserId, settings: map<UserId, NotificationSettings>,
                            title: string, content: string, data: Option<Payload>)
    ensures forall a :: a in MessageDrafts(members, sender, settings, title, content, data) ==> a.userId != sender
  {
    var r := MessageDrafts(members, sender, settings, title, content, data);
    forall a | a in r ensures a.userId != sender {
      var i :| 0 <= i < |r| && r[i] == a;
      assert a.userId in Recipients(members, sender, settings);
    }
  }

  /** Recipients of a duplicate-free member list are duplicate-free. */
  lemma {:induction false} RecipientsDistinct(members: seq<UserId>, sender: UserId, settings: map<UserId, NotificationSettings>)
    requires Distinct(members)
    ensures Distinct(Recipients(members, sender, settings))
  {
    if members != [] {
      DistinctTail(members);
      RecipientsDistinct(members[1..], sender, settings);
    }
  }

  /** Fan-out completeness: when every member wants notifications, a chat of N
      distinct members that include the sender notifies exactly N - 1 of them. */
  lemma {:induction false} AllButSenderNotified(members: seq<UserId>, sender: UserId, settings: map<UserId, NotificationSettings>)
    requires Distinct(members)
    requires forall u :: u in members ==> WantsNotifications(settings, u)
    ensures |Recipients(members, sender, settings)| == |members| - (if sender in members then 1 else 0)
  {
    if members != [] {
      DistinctTail(members);
      assert forall u :: u in members <==> u == members[0] || u in members[1..];
      AllButSenderNotified(members[1..], sender, settings);
    }
  }

  /** The two-member scenario: A writes a 101-character message into a private
      chat with B, who has notifications enabled: exactly one notification is
      produced, for B, carrying the first 100 characters and "...". */
  lemma LongMessageToPrivateChat(a: UserId, b: UserId, settings: map<UserId, NotificationSettings>,
                                 title: string, content: string, data: Option<Payload>)
    requires a != b && |content| == 101
    requires WantsNotifications(settings, b)
    ensures var r := MessageDrafts([a, b], a, settings, title, content, data);
      |r| == 1 && r[0].userId == b && r[0].draft.message == content[..100] + "..."
  {
    assert [a, b][1..] == [b];
    assert [b][1..] == [];
  }
}
