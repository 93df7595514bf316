# Chat backend core in Dafny

A model of the server core of an ASP.NET Core chat backend:

- the SignalR hub `ChatHub`:
  - presence tracking (connections, cached statuses, last activity, active chats);
  - the idle check;
  - the per-member notification loops of `SendMessage`, `SendFileMessage` and `SendNotificationToChatUsers`;
- `ChatService`:
  - message editing, deletion and read receipts;
  - the chat message listing;
  - private-chat lookup and creation;
  - sending a message with its notifications;
  - status lookup;
  - the DTO mappings;
- `NotificationService`, the notification table with its per-owner operations;
- the guards and name/URL construction of `UploadController`;
- the profile, settings and avatar handlers of `ProfileController`.

The Entity Framework database is one class, `Store.Database`. Its tables are maps, a set of membership pairs and a sequence of notification rows, together with the identity counters. The hub's four static dictionaries are fields of the class `ChatHub.Hub`. Everything sent through SignalR is appended to an outbox, `Events.Outbox`, as `Push` values naming the audience and the event.

The hub's presence handlers are methods that update those fields in place. Each is proved to perform one step of a pure state machine on a `Presence` snapshot (`PresenceTracker`), and the properties of the steps are lemmas about that machine. The loops of the hub and the services are `while` loops proved against specification functions (`Recipients`, `Stored`, `ChatAlerts`, `MarkedRead`, `AllMarkedRead`, `StatusLookup`).

Time is a count of 100-nanosecond ticks passed in as `now`. A fresh `Guid` is a string parameter. Database identities come from counters.

Modules and files:

| file | module | models |
|---|---|---|
| wrappers.dfy | Wrappers | `Option` and `Result` |
| domain.dfy | Domain | entities (Models directory), enums (Enums.cs), ASCII lower-casing, the `Email.Split('@')[0]` fallback |
| listing.dfy | Listing | LINQ `Where`, `OrderByDescending`, `Skip`, `Take` |
| fanout.dfy | FanOut | preview truncation, sender name, who gets notified |
| events.dfy | Events | the SignalR outbox |
| store.dfy | Store | the database |
| notification_service.dfy | NotificationService | Services/NotificationService.cs |
| chat_service.dfy | ChatService | Services/ChatService.cs |
| presence.dfy | PresenceTracker | the presence state machine of Hubs/ChatHub.cs |
| chat_hub.dfy | ChatHub | Hubs/ChatHub.cs |
| upload.dfy | Uploads | Controllers/UploadController.cs |
| profile.dfy | Profile | Controllers/ProfileController.cs |

## Model

| member | source | states |
|---|---|---|
| Domain.ParseStatus | Hubs/ChatHub.cs:127 | `Enum.TryParse<UserStatus>` succeeds exactly on the five member names (case-sensitive) and then yields the member whose name is the input; every other string fails (the trimmed, comma-separated and numeric forms `TryParse` also accepts are listed under "## Left out") |
| Domain.LowerAscii | Controllers/UploadController.cs:47 | lower-casing keeps the length and maps every character through the ASCII lower-case table |
| Domain.ParseMessageTypeMatchesNames | Services/ChatService.cs:156 | `Enum.Parse<MessageType>(s, true)` succeeds iff `s` equals a member name up to ASCII case, and then yields that member (the trimmed, comma-separated and numeric forms are listed under "## Left out") |
| Domain.ParseMessageTypeName | Enums.cs:12-19 | every member name parses back to its own member |
| Domain.EmailLocalPart | Controllers/ProfileController.cs:50 | `Split('@')[0]` is a prefix of the address without '@', followed by '@' whenever it is shorter than the address |
| Domain.EmailLocalPartOfAddress | Services/ChatService.cs:507 | splitting `local + "@" + domain` gives back `local` when `local` has no '@' |
| Listing.Filter | Services/NotificationService.cs:52-53 | `Where` keeps exactly the elements satisfying the predicate, as a sub-multiset of the input |
| Listing.FilterConcat | Services/NotificationService.cs:90-91 | filtering distributes over concatenation |
| Listing.FilterKeepsAll | Services/NotificationService.cs:90-91 | a filter every element passes keeps the whole list |
| Listing.FilterDropsAll | Services/NotificationService.cs:90-91 | a filter no element passes yields the empty list |
| Listing.Insert | Services/NotificationService.cs:54 | one insertion step of the stable sort: a permutation of the list plus the element |
| Listing.InsertSorted | Services/NotificationService.cs:54 | inserting into a list sorted by descending key keeps it sorted |
| Listing.SortDesc | Services/ChatService.cs:126 | `OrderByDescending` returns a permutation of its input sorted by descending key |
| Listing.Page | Services/ChatService.cs:127-128 | `Skip(skip).Take(take)` has length `min(max(take,0), max(len - max(skip,0), 0))` and is the input read from `max(skip,0)`, as LINQ defines it (the SQL Server error for a negative skip or a take below 1 is listed under "## Left out") |
| Listing.PageSorted | Services/NotificationService.cs:55-56 | a page of a sorted list is sorted |
| Listing.PagesTile | Services/ChatService.cs:127-128 | two consecutive pages make up the page covering both |
| FanOut.Preview | Hubs/ChatHub.cs:211-213 | the preview is the content when at most 100 characters, else its first 100 characters followed by "..." |
| FanOut.PreviewIdempotent | Services/ChatService.cs:264-266 | previewing a preview changes nothing |
| FanOut.SenderName | Hubs/ChatHub.cs:198 | the sender's display name, else the email's local part, else "Пользователь" (for a missing sender and for a sender with neither) |
| FanOut.Recipients | Services/ChatService.cs:252-258 | a member is notified iff it is not the sender and its settings are absent or enable notifications |
| FanOut.RecipientsSnoc | Hubs/ChatHub.cs:201-209 | visiting one more member appends it exactly when it passes the two tests of the loop |
| FanOut.RecipientsDistinct | Services/ChatService.cs:249-258 | distinct members give distinct recipients, so nobody is notified twice by one pass |
| FanOut.MessageDrafts | Services/ChatService.cs:255-282 | one draft per recipient, in visiting order, each carrying the title, the preview, type "message" and the payload |
| FanOut.SenderNeverNotified | Services/ChatService.cs:252 | no draft is addressed to the sender |
| FanOut.AllButSenderNotified | Services/ChatService.cs:252-258 | when every member accepts notifications, all members but the sender are notified |
| FanOut.LongMessageToPrivateChat | Services/ChatService.cs:264-266 | a 101-character message in a two-member chat notifies only the other member, with 100 characters plus "..." |
| Events.Outbox.Push | Hubs/ChatHub.cs:67 | each `SendAsync` appends exactly one push to the outbox |
| Store.Database.UpdateUser | Hubs/ChatHub.cs:54-60 | `UserManager.UpdateAsync` replaces only that user's row and keeps the database invariant |
| Store.Database.UpdateSettings | Controllers/ProfileController.cs:117-121 | saving an edited settings row replaces only that row and keeps the database invariant |
| Store.FindUser | Hubs/ChatHub.cs:197 | `FindByIdAsync` finds a user iff the id is stored, and then returns the stored row |
| Store.Members | Hubs/ChatHub.cs:191-193 | the members of a chat are exactly the users with a membership row for it |
| Store.Enumerate | Hubs/ChatHub.cs:201 | iterating a chat's members visits every member once |
| NotificationService.MapToDto | Services/NotificationService.cs:106-118 | the DTO copies every field of the row except the owner |
| NotificationService.CreateNotification | Services/NotificationService.cs:30-48 | for a stored user, appends one unread row copying title, message, type and data with the next id, and returns its DTO; otherwise stores nothing |
| NotificationService.UserNotifications | Services/NotificationService.cs:52-57 | the rows listed are the user's own, at most `take` of them, newest first |
| NotificationService.FirstPageListsAll | Services/NotificationService.cs:52-57 | a first page large enough lists exactly the user's notifications |
| NotificationService.GetUserNotifications | Services/NotificationService.cs:50-60 | one DTO per row of `UserNotifications` (the user's own rows, at most `take`), carrying that row's id, title, message and read flag, ordered by descending creation time |
| NotificationService.FindOwned | Services/NotificationService.cs:64-66 | finds the first row matching both id and owner, or reports that none does |
| NotificationService.MarkAsRead | Services/NotificationService.cs:62-72 | the table becomes `MarkedRead`: only a row matching both id and owner is marked read |
| NotificationService.MarkedReadIdempotent | Services/NotificationService.cs:64-71 | marking the same notification again is a no-op |
| NotificationService.UnreadCountAfterMarkRead | Services/NotificationService.cs:64-71 | marking an unread notification lowers its owner's unread count by one; an already read one leaves it unchanged |
| NotificationService.MarkAllAsRead | Services/NotificationService.cs:74-86 | the loop's table equals `AllMarkedRead` |
| NotificationService.NoUnreadAfterMarkAll | Services/NotificationService.cs:76-85 | afterwards the user has no unread notification |
| NotificationService.MarkAllKeepsOthers | Services/NotificationService.cs:76-85 | other users' rows are unchanged, and the user's rows change only in `IsRead` |
| NotificationService.GetUnreadCount | Services/NotificationService.cs:88-92 | the count never exceeds the table size |
| NotificationService.UnreadCountAfterCreate | Services/NotificationService.cs:90-91 | creating an unread notification adds one to its owner's count and nothing to anyone else's |
| NotificationService.DeleteNotification | Services/NotificationService.cs:94-104 | returns true iff a row matches id and owner; then exactly that row is removed, else nothing changes |
| NotificationService.DeleteRemovesOne | Services/NotificationService.cs:96-103 | with unique ids, deleting removes exactly the one matching row |
| ChatService.MapToUserDto | Services/ChatService.cs:489-513 | a missing user maps to the "Unknown User" DTO; otherwise fields are copied, the status name parses back to the status, and the display name falls back to the email's local part, then to "Unknown" |
| ChatService.DisplayNameFromEmail | Services/ChatService.cs:507 | a user without a display name is shown by the part of the email before '@' |
| ChatService.MapToMessageDto | Services/ChatService.cs:449-487 | `IsMine` iff the current user sent the message; a missing message maps to the default DTO; otherwise the fields are copied and the type name parses back to the type |
| ChatService.OtherThan | Services/ChatService.cs:420-433 | the first participant whose id differs from the given one, or none when all share it |
| ChatService.ShownChatName | Services/ChatService.cs:420-433 | a stored non-empty name wins; otherwise a participant's display name; "Unknown Chat" for no name and no participants |
| ChatService.MapToChatDto | Services/ChatService.cs:398-447 | the null chat maps to the "Unknown Chat" DTO; otherwise fields are copied, participants are mapped one by one, and the last message's content and time are shown when there is one |
| ChatService.UnnamedPairChatName | Services/ChatService.cs:420-433 | an unnamed chat of two different users shows the second participant's display name |
| ChatService.LoadChatDto | Services/ChatService.cs:106-112 | the reloaded chat's DTO lists exactly the chat's members |
| ChatService.StoreChat | Services/ChatService.cs:82-90 | a new "private" chat row with a fresh id and no members |
| ChatService.StoreMemberships | Services/ChatService.cs:94-101 | adds the two membership rows, and the chat's members become exactly the two users |
| ChatService.GetOrCreatePrivateChat | Services/ChatService.cs:52-119 | fails with nothing stored when a user is missing; reuses an existing two-member private chat of both users; otherwise creates one whose members are exactly the two; for the same user twice, the chat row is saved and adding the second membership row fails |
| ChatService.VisibleMessagesWithin | Services/ChatService.cs:123-125 | every listed row is a stored, non-deleted message of the chat |
| ChatService.ChatMessageRows | Services/ChatService.cs:123-129 | at most `take` non-deleted messages of the chat, newest `SentAt` first |
| ChatService.GetChatMessages | Services/ChatService.cs:121-132 | one DTO per row of `ChatMessageRows`, carrying that stored message's id and content, in order, with `IsMine` iff the caller sent the message |
| ChatService.ChatPagesTile | Services/ChatService.cs:127-128 | consecutive pages of a chat tile its listing |
| ChatService.FirstPageListsChat | Services/ChatService.cs:123-129 | a first page large enough lists every visible message of the chat |
| ChatService.Update | Services/ChatService.cs:294-306 | succeeds iff the message exists, the caller sent it and it is not deleted; then only content, `IsEdited` and `EditedAt` change, else nothing does |
| ChatService.Delete | Services/ChatService.cs:308-317 | succeeds iff the message exists and the caller sent it; then only `IsDeleted` is set, else nothing changes |
| ChatService.MarkRead | Services/ChatService.cs:319-328 | succeeds iff the message exists and the reader is not the sender; then only `ReadAt` is set, else nothing changes |
| ChatService.DeleteIdempotent | Services/ChatService.cs:311-315 | deleting again returns true and leaves the table as it was |
| ChatService.DeletedMessageFrozen | Services/ChatService.cs:297 | a deleted message can no longer be edited |
| ChatService.DeletedMessageHidden | Services/ChatService.cs:125 | a deleted message never appears in a listing |
| ChatService.MarkReadTwice | Services/ChatService.cs:322-325 | marking again succeeds again and overwrites `ReadAt` with the later time |
| ChatService.OperationsKeepIdentity | Services/ChatService.cs:294-328 | editing, deleting and marking never change a message's id, sender or chat |
| ChatService.UpdateMessage | Services/ChatService.cs:294-306 | the table and the answer are those of `Update` |
| ChatService.DeleteMessage | Services/ChatService.cs:308-317 | the table and the answer are those of `Delete` |
| ChatService.MarkMessageAsRead | Services/ChatService.cs:319-328 | the table and the answer are those of `MarkRead` |
| ChatService.Materialize | Services/ChatService.cs:276-282 | one unread row per draft, addressed as the draft, with consecutive ids |
| ChatService.StoredDrafts | Services/ChatService.cs:255-282 | the rows the loop stores are the materialised message drafts |
| ChatService.MessageNotificationsFor | Services/ChatService.cs:249-286 | a member gets a row iff it is not the sender and accepts notifications; nobody gets two; every row is an unread "message" with the preview |
| ChatService.NotifyMembers | Services/ChatService.cs:255-286 | the loop appends the rows `Stored(Recipients(...))` and advances the id counter by their number |
| ChatService.CreateNotificationsForChatUsers | Services/ChatService.cs:244-292 | visits each member other than the sender once, and appends exactly the materialised drafts for them |
| ChatService.SaveMessage | Services/ChatService.cs:153-169 | adds the message with the next id and stamps the chat's `UpdatedAt` |
| ChatService.SendMessage | Services/ChatService.cs:134-198 | fails with nothing stored or pushed when the chat is missing, the type does not parse, or the sender is unknown; otherwise stores the message, stamps the chat, pushes it to the chat group except the sender, stores the members' notifications and returns the message's DTO |
| ChatService.GetUsersStatuses | Services/ChatService.cs:360-383 | exactly the requested ids are keys; a stored user maps to its status name, any other id to "Offline" |
| PresenceTracker.RemoveFirst | Hubs/ChatHub.cs:448 | `List.Remove` drops one occurrence of the id: the multiset loses one copy, and an absent id changes nothing |
| PresenceTracker.RemoveFirstWithin | Hubs/ChatHub.cs:448 | removal keeps only elements of the list |
| PresenceTracker.RemoveFirstNoDuplicates | Hubs/ChatHub.cs:448-455 | removing from a duplicate-free list removes the id entirely and keeps it duplicate-free |
| PresenceTracker.JoinWellFormed | Hubs/ChatHub.cs:425-433 | joining keeps every active list non-empty and duplicate-free, lists the chat and stamps the activity |
| PresenceTracker.LeaveWellFormed | Hubs/ChatHub.cs:448-455 | leaving keeps the lists well formed, removes the chat, and drops the entry when it was the last chat |
| PresenceTracker.DisconnectWellFormed | Hubs/ChatHub.cs:106-109 | disconnecting keeps the active lists well formed |
| PresenceTracker.StatusWriteMirrors | Hubs/ChatHub.cs:54-63 | writing the same status to the cache and to the stored user keeps every cached status equal to the stored one |
| PresenceTracker.SetStatusMirrors | Hubs/ChatHub.cs:127-139 | `UpdateStatus` keeps cache and store in agreement |
| PresenceTracker.ConnectionsMirror | Hubs/ChatHub.cs:51-100 | connecting and disconnecting keep cache and store in agreement |
| PresenceTracker.TransitionsMirrorStore | Hubs/ChatHub.cs:43-167 | every hub transition, including join and leave, keeps each cached status equal to the stored status of a stored user |
| PresenceTracker.StatusLookup | Hubs/ChatHub.cs:527-546 | the answer has exactly the requested ids as keys |
| PresenceTracker.CachingKeepsAnswers | Hubs/ChatHub.cs:536-541 | caching stored statuses never changes any later answer |
| PresenceTracker.LookupRepeatable | Hubs/ChatHub.cs:527-546 | asking again after the call gives the same answers, and caching again adds nothing |
| PresenceTracker.LookupMatchesStore | Hubs/ChatHub.cs:527-546 | while cache and store agree, a stored user is answered with its stored status name and any other id with "Offline"; the cache still agrees afterwards |
| PresenceTracker.ConnectRecords | Hubs/ChatHub.cs:51-67 | connecting always records connection→user; for a stored user, status Online is cached and stored, activity is stamped and Online is broadcast; nothing else changes |
| PresenceTracker.DisconnectWithOtherConnection | Hubs/ChatHub.cs:83-89 | with another connection still open, only the connection is removed |
| PresenceTracker.DisconnectLast | Hubs/ChatHub.cs:86-109 | the last connection's removal drops the active chats; a stored user goes Offline in cache and store and Offline is broadcast; `LastSeen` and activity are untouched |
| PresenceTracker.UnparsedStatusIgnored | Hubs/ChatHub.cs:127 | a status string that is not a member name changes nothing and pushes nothing |
| PresenceTracker.StatusNameApplied | Hubs/ChatHub.cs:127-139 | a parsed status is cached and stored, activity and `LastSeen` are stamped, and the name is broadcast |
| PresenceTracker.ActivityPing | Hubs/ChatHub.cs:156-164 | a ping stamps the activity, turns Away into Online and leaves every other status alone |
| PresenceTracker.RecentActivityKeepsStatus | Hubs/ChatHub.cs:556-567 | under five minutes of inactivity the idle check changes nothing |
| PresenceTracker.IdleCheckSparesDndAndAway | Hubs/ChatHub.cs:556-567 | DoNotDisturb and Away users are never changed by the idle check |
| PresenceTracker.IdleUserSetAway | Hubs/ChatHub.cs:556-567 | a user idle for at least five minutes whose status is another one becomes Away in cache and store, and Away is broadcast |
| PresenceTracker.TwoConnectionsScenario | Hubs/ChatHub.cs:43-117 | two tabs: each connect broadcasts Online, closing the first changes nothing, closing the second sets and broadcasts Offline |
| ChatHub.NotificationPushes | Hubs/ChatHub.cs:468-501 | one `ReceiveNotification` push per stored row |
| ChatHub.FullContentPushed | Hubs/ChatHub.cs:386-396 | every recipient is pushed its stored notification's id with the full, untruncated content |
| ChatHub.AlertsAddressed | Hubs/ChatHub.cs:398-407 | every push goes to a recipient, and a banner only to one whose settings are absent or allow banners |
| ChatHub.LowerCaseImageAnnouncedAsFile | Hubs/ChatHub.cs:294-296 | type "image" is stored as Image but announced as a file, because the label compares case-sensitively |
| ChatHub.SecondPassDuplicates | Hubs/ChatHub.cs:188-230 | the hub's loop stores, for each of its recipients, a copy of a row the service already stored, differing only in id |
| ChatHub.HubRecipientsNotifiedByService | Hubs/ChatHub.cs:201-209 | every member the hub's loop notifies was also notified by the service |
| ChatHub.OneRowPerRecipient | Hubs/ChatHub.cs:201-229 | a pass over a duplicate-free recipient list stores exactly one row per recipient and none for anyone else |
| ChatHub.PassesEquallyLong | Hubs/ChatHub.cs:201-209 | with each member listed once, the service's recipients (members other than the sender) and the hub's (all members, skipping the sender) are equally many |
| ChatHub.EachRecipientNotifiedTwice | Hubs/ChatHub.cs:177-231 | with each member listed once, both passes store exactly one row for each member other than the sender who wants notifications and none for anyone else, and are equally long: every recipient gets exactly two rows |
| ChatHub.Hub.OnConnected | Hubs/ChatHub.cs:43-73 | the fields, the users table and the outbox become the result of the `Connect` step |
| ChatHub.Hub.OnDisconnected | Hubs/ChatHub.cs:75-117 | the result of the `Disconnect` step |
| ChatHub.Hub.UpdateStatus | Hubs/ChatHub.cs:120-148 | the result of the `SetStatus` step |
| ChatHub.Hub.UpdateUserActivity | Hubs/ChatHub.cs:151-167 | the result of the `Activity` step |
| ChatHub.Hub.CheckUserActivity | Hubs/ChatHub.cs:553-569 | the result of the `CheckActivity` step |
| ChatHub.Hub.JoinChat | Hubs/ChatHub.cs:417-438 | the result of the `Join` step |
| ChatHub.Hub.LeaveChat | Hubs/ChatHub.cs:440-458 | the result of the `Leave` step |
| ChatHub.Hub.Typing | Hubs/ChatHub.cs:461-466 | one `UserTyping` push to the others in the chat group |
| ChatHub.Hub.GetUserStatuses | Hubs/ChatHub.cs:523-550 | the loop's answer is `StatusLookup` and the cache becomes `Cached` |
| ChatHub.Hub.SendNotificationToUser | Hubs/ChatHub.cs:468-501 | a stored user gets one row with the next id and one push; for anyone else nothing changes |
| ChatHub.Hub.NotifyChatMembers | Hubs/ChatHub.cs:201-230 | the loop stores and pushes exactly one notification per recipient, in order |
| ChatHub.Hub.ChatMembers | Hubs/ChatHub.cs:191-193 | the chat's members, each once, all stored users |
| ChatHub.Hub.NotifyAfterSend | Hubs/ChatHub.cs:190-231 | the second pass visits the chat's members, each once, and stores and pushes the message draft for the recipients among them |
| ChatHub.Hub.SendText | Hubs/ChatHub.cs:180-188 | the service call with type "Text": fails with nothing changed iff the chat or the sender is missing; otherwise the message and the service's notifications (over the other members, each visited once) are stored and the group push is sent |
| ChatHub.Hub.SendMessage | Hubs/ChatHub.cs:170-241 | no caller changes nothing; otherwise activity is stamped and `SentAs` holds: an unknown chat or user changes nothing, and on success `TextSent` states the stored message, both passes over duplicate-free member lists, the service's rows and push, then the hub's duplicate rows and pushes |
| ChatHub.Hub.SendAs | Hubs/ChatHub.cs:177-231 | stamps activity and establishes `SentAs`; on success `TextSent` gives the stored message, both passes over duplicate-free member lists, the table as old rows + service rows + hub rows, and the pushes as the message to the group then the hub's notifications |
| ChatHub.Hub.SendNotificationToChatUsers | Hubs/ChatHub.cs:342-415 | nothing for a missing chat; otherwise it visits each member once, storing one row per recipient with the preview, and sends the `ChatAlerts` pushes with the full content and banners |
| ChatHub.Hub.AlertMembers | Hubs/ChatHub.cs:356-409 | the loop stores `Stored(Recipients(...))` and pushes `ChatAlerts` |
| ChatHub.Hub.AlertMember | Hubs/ChatHub.cs:370-407 | one row, then the notification push and, if the settings allow, the banner |
| ChatHub.Hub.SendFileMessage | Hubs/ChatHub.cs:244-305 | no caller or no file: only the activity stamp (for a caller); otherwise `FileSentAs` (the service's outcome, both passes over duplicate-free member lists, the message, the service's push and the echo to the others in the group, then `alerts`) and, on success, `FileNotified`: the service's rows with the content's preview for each accepting member but the sender, then the hub's rows with the file label for the same members, and `alerts` = `ChatAlerts` of those rows with the label |
| ChatHub.Hub.SendFileAs | Hubs/ChatHub.cs:251-305 | stamps activity, establishes `FileSentAs` (both passes over duplicate-free member lists) and, on success, `FileNotified`: the service's preview rows, then the hub's label rows, and the label pushes `ChatAlerts` |
| ChatHub.Hub.SendFile | Hubs/ChatHub.cs:256-266 | the service call with the file's fields: fails with nothing changed iff the chat is missing, the type does not parse or the user is missing; on success stores the message, pushes it to the group without the sender and appends one row with the content's preview per accepting member other than the sender |
| ChatHub.Hub.EchoFileAndNotify | Hubs/ChatHub.cs:291-296 | the `OthersInGroup` echo, then `SendNotificationToChatUsers` with the file label: each member visited once, one row per accepting member other than the sender, and `ChatAlerts` with the label and a banner where allowed; with the service's rows before them this is `FileNotified` |
| ChatHub.FileNotificationsAnnounceLabel | Hubs/ChatHub.cs:244-305 | after a successful file message the table holds the service's rows (addressed to accepting members other than the sender, with the content's preview, unread), then the hub's rows (same addressing, with the file label, unread); every label push goes to one such member, banners only where allowed |
| ChatHub.Hub.MarkMessageAsRead | Hubs/ChatHub.cs:503-514 | the service's `MarkRead` outcome, and a `MessageRead` push to the chat group on success only |
| Uploads.LastDot | Controllers/UploadController.cs:47 | the last '.' that no separator follows, or none |
| Uploads.GetExtension | Controllers/UploadController.cs:47 | `Path.GetExtension` is "" or a suffix of at least two characters starting with '.' and containing no further '.' or separator |
| Uploads.NoDotNoExtension | Controllers/UploadController.cs:46-50 | a name without '.' has no extension |
| Uploads.GetExtensionOfName | Controllers/UploadController.cs:47 | `stem + "." + e` has extension `"." + e` for any stem |
| Uploads.LowerExtension | Controllers/UploadController.cs:47 | the lower-cased extension keeps the extension's length |
| Uploads.CheckUpload | Controllers/UploadController.cs:34-50 | accepted iff authenticated, a non-empty file within the size limit, and a lower-cased extension in the allow-list; otherwise the first failing guard's error, in source order |
| Uploads.UploadFile | Controllers/UploadController.cs:30-78 | the guards with 10 MiB and the ten extensions; on success name, size, type, lower-cased extension and URL "/uploads/" + guid + extension |
| Uploads.AvatarFileName | Controllers/UploadController.cs:104 | "avatar_" + user + extension, of that length |
| Uploads.UploadAvatar | Controllers/UploadController.cs:81-137 | the guards with 5 MiB and the four image extensions; on success "/uploads/avatar_" + user + the file's own lower-cased extension |
| Uploads.TenMiBBoundary | Controllers/UploadController.cs:42-43 | exactly 10 MiB is accepted, one byte more is TooLarge |
| Uploads.NoExtensionRefused | Controllers/UploadController.cs:46-50 | a name without an extension is refused by both handlers |
| Uploads.UpperCaseExtensionAccepted | Controllers/UploadController.cs:47-50 | "photo.PNG" is accepted and stored with ".png" |
| Uploads.AvatarExtensionsAreFileExtensions | Controllers/UploadController.cs:46-49 | every avatar extension is also a file extension |
| Uploads.AvatarNameExtension | Controllers/UploadController.cs:97-98 | the lower-cased extension of a name ending in an allowed image extension is that extension, whatever precedes it |
| Uploads.AvatarKeepsExtension | Controllers/UploadController.cs:98-120 | an avatar named `stem + e` with an allowed `e` is stored as "/uploads/avatar_" + user + `e`, whatever the stem |
| Uploads.AvatarFileNameInjective | Controllers/UploadController.cs:104 | different users or extensions never share an avatar name |
| Profile.GetProfile | Controllers/ProfileController.cs:33-58 | Unauthorized without a user id, NotFound for an unknown user, the null-email failure iff neither display name nor email; otherwise the user's DTO with the email's local part as the fallback name |
| Profile.GetProfileAgreesWithChatDto | Controllers/ProfileController.cs:46-55 | the profile equals the user DTO the chat service shows |
| Profile.MergeProfile | Controllers/ProfileController.cs:71-74 | each of display name, bio and avatar URL is kept when the input is null and replaced otherwise; status is always overwritten; nothing else changes |
| Profile.MergeProfileIdempotent | Controllers/ProfileController.cs:71-74 | applying the same update twice equals applying it once |
| Profile.MergeProfileNullsKeepProfile | Controllers/ProfileController.cs:71-74 | an all-null update changes only the status |
| Profile.UpdateProfile | Controllers/ProfileController.cs:61-79 | Unauthorized or NotFound with nothing changed; otherwise only that user's row becomes the merge |
| Profile.ApplySettings | Controllers/ProfileController.cs:117-120 | the row keeps its owner and reads back as exactly the input flags |
| Profile.ApplyOwnSettings | Controllers/ProfileController.cs:117-120 | writing back what was read changes nothing |
| Profile.GetNotificationSettings | Controllers/ProfileController.cs:82-103 | succeeds iff authenticated and a settings row exists, and returns that row's flags |
| Profile.UpdateNotificationSettings | Controllers/ProfileController.cs:106-126 | NotFound and nothing changed without a row; otherwise all four flags are overwritten, and reading back yields the input |
| Profile.AvatarUrl | Controllers/ProfileController.cs:168 | "/uploads/avatars/" + the avatar name |
| Profile.AvatarUrlInjective | Controllers/ProfileController.cs:153 | different users or extensions never share an avatar URL |
| Profile.AvatarUrlsDiffer | Controllers/ProfileController.cs:168 | the two controllers answer the same valid avatar upload with different URLs |
| Profile.ProfileStatusEditBypassesCache | Controllers/ProfileController.cs:74 | a profile update that changes a cached user's status breaks the agreement between the hub's cache and the stored status |
| Profile.UploadAvatar | Controllers/ProfileController.cs:129-185 | the avatar guards; on success the URL is recorded on an existing user and returned, otherwise nothing changes |

## Left out

- SignalR delivery, groups and `Context` are not modelled. A push is an outbox entry naming its audience, and the caller and connection id are parameters.
- Concurrency is not modelled. The static dictionaries are shared without locks, and the model runs the handlers one at a time.
- Entity Framework queries, `SaveChangesAsync`, `Include` and Identity's `UserManager` are not modelled. The tables are maps and sequences, and identities come from counters.
- Ties in `OrderByDescending` follow a stable sort on row order; the database leaves their order open.
- JSON serialisation of payloads is not modelled. A payload is a structured value, and `FileMessageDto` deserialisation is an `Option` parameter.
- `DateTime.UtcNow`, `TotalMinutes` and `Guid.NewGuid` are not modelled: times are integer ticks and the guid is a string parameter.
- File-system work is not modelled: writing and deleting files, `Path.Combine` and the web-root path.
- Logging is not modelled. Exceptions are error results, and a `catch` that logs and continues is modelled as continuing.
- Column lengths: the `[MaxLength]` limits of the stored entities are not modelled. These are Models/Message.cs:10,15,18 (content 2000, file URL 500, file name 200), Models/User.cs:8,11,16 (avatar URL 200, display name 100, bio 500), Models/Notification.cs:13,16,19 (title 200, message 500, type 50) and Models/Chat.cs:9,12,15 (type 20, name 100, image 200). On SQL Server `SaveChangesAsync` throws for an over-long value and nothing is saved. The model saves it, so the "succeeds iff" contracts of `ChatService.SendMessage`, `ChatService.Update`/`ChatService.UpdateMessage`, `ChatHub.Hub.SendMessage`, `ChatHub.Hub.SendFileMessage`, `Profile.UpdateProfile`, `NotificationService.CreateNotification` and `ChatHub.Hub.SendNotificationToUser` promise success where the database would refuse the row. A 2001-character message is the simplest such case.
- ChatService.SendMessage: succeeds on content over 2000 characters or a file name over 200, where the database refuses the row (column lengths, above).
- ChatService.Update: accepts new content over 2000 characters (column lengths, above); so does `ChatService.UpdateMessage`.
- ChatHub.Hub.SendMessage: stores content over 2000 characters instead of raising the hub error (column lengths, above); so does `ChatHub.Hub.SendFileMessage`.
- Profile.UpdateProfile: stores a display name over 100 or a bio over 500 characters (column lengths, above).
- NotificationService.CreateNotification: stores a title over 200 or a message over 500 characters (column lengths, above); `ChatHub.Hub.SendNotificationToUser` then stores and pushes where the source's caught failure does neither.
- Listing.Page: states LINQ's clamping of `Skip(skip).Take(take)`. The two listings that page, `GetChatMessagesAsync` (Services/ChatService.cs:127-128) and `GetUserNotificationsAsync` (Services/NotificationService.cs:55-56), run as SQL Server queries with `OFFSET … FETCH NEXT …`. SQL Server refuses a negative offset and a fetch count below 1, so `?skip=-1` or `?take=0` makes the source throw, where the model returns a page. The error path is not modelled.
- ChatService.GetChatMessages: returns a page for a negative `skip` or a `take` below 1, where the SQL Server query throws (see `Listing.Page`); `ChatService.ChatMessageRows` likewise.
- NotificationService.GetUserNotifications: returns a page for a negative `skip` or a `take` below 1, where the SQL Server query throws (see `Listing.Page`); `NotificationService.UserNotifications` likewise.
- Domain.ParseStatus: `Enum.TryParse` also trims surrounding white space and accepts numeric strings and comma-separated names OR-ed together (" Online" is Online, "Online, Away" is Busy); the model accepts the exact member names only, so `UpdateStatus` ignores these strings.
- Domain.ParseMessageTypeMatchesNames: `Enum.Parse(s, true)` likewise trims, accepts numeric strings and OR-s comma-separated names ("image, file" is Video); the model accepts one member name up to ASCII case only, and `SendMessageAsync` reports an invalid type for the rest.
- FanOut.Preview: lengths count Unicode characters; C# counts UTF-16 code units, so text outside the Basic Multilingual Plane is cut at a different place, and C# can split a surrogate pair; the same holds for every notification text built from it (`FanOut.MessageDrafts`, `ChatService.Stored`, the hub's drafts).
- `ToLower` is ASCII-only here; culture-specific case mapping is not modelled.
- `Path.GetExtension` uses the Windows separators '/' and '\\'. On Linux only '/' separates.
- Operations out of scope: `GetUserChatsAsync`, `UpdateUserStatusAsync`, `SearchUsersAsync` (substring matching depends on collation), `SendMessageViaSignalR`'s payload fields, the hub's `SendNotification` and `Echo`, `GetUserFiles` (a stub), and the auth, chat and notification controllers, which only forward.
- NotificationService.GetUnreadCount: its own contract is only a bound. That it counts the user's unread rows is its definition `UnreadCount`, with the lemmas above.
- Profile.GetProfile: the null email is an error result, where the source throws `NullReferenceException` (an HTTP 500).
- Profile.GetProfile: a user with a display name but no email is shown with the email "" where the source returns null; `UserDto` models the email as a string.

Behaviour of the code worth noting, modelled as the code does it:

- Online is broadcast on every connection, not only the first.
- The idle check also sets Busy users to Away.
- The active-chat list is kept but never read.
- Disconnecting does not update `LastSeen`.
- The hub's `SendMessage` notifies every recipient exactly twice: once in `SendMessageAsync` and once in its own loop (`EachRecipientNotifiedTwice`).
- A message is pushed to the chat group "except" a user id, where SignalR expects connection ids.
- `SendFileMessage` compares "Image" case-sensitively when choosing its notification text.
- Repeating `MarkMessageAsReadAsync` succeeds again and overwrites `ReadAt`.
- `GetOrCreatePrivateChatAsync` with the same user twice fails after saving the new chat row.
- The hub's `GetUserStatuses` caches stored statuses in memory.
- The agreement between the hub's status cache and the stored status (`TransitionsMirrorStore`) holds across hub transitions only: `UpdateProfile` writes the stored status without touching the cache (`ProfileStatusEditBypassesCache`).
- The two avatar handlers build different URLs ("/uploads/" and "/uploads/avatars/"), and only the profile controller records the URL on the user.
