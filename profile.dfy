/** Controllers/ProfileController.cs: reading the caller's profile, the
    null-coalescing profile update, reading and overwriting the notification
    settings, and the avatar upload that records its URL on the user. */
module Profile {
  import opened Wrappers
  import opened Domain
  import opened Store
  import ChatService
  import Uploads
  import PresenceTracker

  /** `Unauthorized()`, `NotFound()`, and the `NullReferenceException` of
      `user.Email.Split('@')` for a user with neither a display name nor an email. */
  datatype ProfileError = Unauthorized | NotFound | NullEmail

  /** DTOs/UserDto.cs `UpdateProfileDto`; `status` is not nullable. */
  datatype UpdateProfileDto = UpdateProfileDto(displayName: Option<string>, bio: Option<string>, avatarUrl: Option<string>, status: UserStatus)

  /** DTOs/UserDto.cs `NotificationSettingsDto`. */
  datatype SettingsDto = SettingsDto(enableNotifications: bool, enableSound: bool, showBanner: bool, smartNotifications: bool)

  // ---------------------------------------------------------------------------
  // GetProfile
  // ---------------------------------------------------------------------------

  /** `GetProfile()`: the caller's row as a `UserDto`, its display name falling
      back to the local part of the email. */
  function GetProfile(db: Database, userId: Option<UserId>): (r: Result<ChatService.UserDto, ProfileError>)
    reads db
    ensures !Uploads.Authenticated(userId) ==> r == Err(Unauthorized)
    ensures Uploads.Authenticated(userId) && userId.value !in db.users ==> r == Err(NotFound)
    ensures r == Err(NullEmail) <==>
              Uploads.Authenticated(userId) && userId.value in db.users
              && db.users[userId.value].displayName.None? && db.users[userId.value].email.None?
    ensures r.Ok? ==> userId.value in db.users && r.value.id == db.users[userId.value].id
    ensures r.Ok? && db.users[userId.value].displayName.None? ==>
              r.value.displayName == EmailLocalPart(db.users[userId.value].email.value)
  {
    if !Uploads.Authenticated(userId) then Err(Unauthorized)
    else if userId.value !in db.users then Err(NotFound)
    else
      var u := db.users[userId.value];
      if u.displayName.None? && u.email.None? then Err(NullEmail)
      else
        var name := if u.displayName.Some? then u.displayName.value else EmailLocalPart(u.email.value);
        Ok(ChatService.UserDto(u.id, u.email.GetOr(""), name, u.avatarUrl, StatusName(u.status), u.bio, u.lastSeen))
  }

  /** The profile of a user who has a display name or an email is the DTO the
      chat service shows for that user elsewhere. */
  lemma GetProfileAgreesWithChatDto(db: Database, u: UserId, now: Time)
    requires u != "" && u in db.users
    requires db.users[u].displayName.Some? || db.users[u].email.Some?
    ensures GetProfile(db, Some(u)) == Ok(ChatService.MapToUserDto(Some(db.users[u]), now))
  {
  }

  // ---------------------------------------------------------------------------
  // UpdateProfile
  // ---------------------------------------------------------------------------

  /** The edit `UpdateProfile` makes to the loaded user: each `??` keeps the old
      value when the input is null, and the status is always overwritten. */
  function MergeProfile(u: User, d: UpdateProfileDto): (r: User)
    ensures r.id == u.id && r.email == u.email && r.lastSeen == u.lastSeen
    ensures r.status == d.status
    ensures d.displayName.None? ==> r.displayName == u.displayName
    ensures d.displayName.Some? ==> r.displayName == d.displayName
    ensures d.bio.None? ==> r.bio == u.bio
    ensures d.bio.Some? ==> r.bio == d.bio
    ensures d.avatarUrl.None? ==> r.avatarUrl == u.avatarUrl
    ensures d.avatarUrl.Some? ==> r.avatarUrl == d.avatarUrl
  {
    u.(displayName := if d.displayName.Some? then d.displayName else u.displayName,
       bio := if d.bio.Some? then d.bio else u.bio,
       avatarUrl := if d.avatarUrl.Some? then d.avatarUrl else u.avatarUrl,
       status := d.status)
  }

  /** Applying the same update twice is the same as applying it once. */
  lemma MergeProfileIdempotent(u: User, d: UpdateProfileDto)
    ensures MergeProfile(MergeProfile(u, d), d) == MergeProfile(u, d)
  {
  }

  /** An update with every nullable field null changes the status only. */
  lemma MergeProfileNullsKeepProfile(u: User, s: UserStatus)
    ensures MergeProfile(u, UpdateProfileDto(None, None, None, s)) == u.(status := s)
  {
  }

  /** A profile update writes the stored status but not the hub's cache, so
      for a cached user whose status it changes, cache and store disagree. */
  lemma ProfileStatusEditBypassesCache(statuses: map<UserId, UserStatus>, users: map<UserId, User>, u: UserId, d: UpdateProfileDto)
    requires u in users && u in statuses && statuses[u] != d.status
    ensures !PresenceTracker.MirrorsStore(statuses, users[u := MergeProfile(users[u], d)])
  {
  }

  /** `UpdateProfile(updateDto)`. */
  method UpdateProfile(db: Database, userId: Option<UserId>, d: UpdateProfileDto) returns (r: Result<(), ProfileError>)
    requires db.Valid()
    modifies db`users
    ensures db.Valid()
    ensures !Uploads.Authenticated(userId) ==> r == Err(Unauthorized)
    ensures Uploads.Authenticated(userId) && userId.value !in old(db.users) ==> r == Err(NotFound)
    ensures r.Err? ==> db.users == old(db.users)
    ensures r.Ok? <==> Uploads.Authenticated(userId) && userId.value in old(db.users)
    ensures r.Ok? ==> db.users == old(db.users)[userId.value := MergeProfile(old(db.users)[userId.value], d)]
  {
    if !Uploads.Authenticated(userId) {
      return Err(Unauthorized);
    }
    var u := userId.value;
    if u !in db.users {
      return Err(NotFound);
    }
    db.UpdateUser(u, MergeProfile(db.users[u], d));
    r := Ok(());
  }

  // ---------------------------------------------------------------------------
  // Notification settings
  // ---------------------------------------------------------------------------

  function SettingsToDto(s: NotificationSettings): SettingsDto {
    SettingsDto(s.enableNotifications, s.enableSound, s.showBanner, s.smartNotifications)
  }

  /** The four assignments of `UpdateNotificationSettings`: the row keeps its
      owner and reads back as exactly the input. */
  function ApplySettings(s: NotificationSettings, d: SettingsDto): (r: NotificationSettings)
    ensures r.userId == s.userId
    ensures SettingsToDto(r) == d
  {
    s.(enableNotifications := d.enableNotifications, enableSound := d.enableSound,
       showBanner := d.showBanner, smartNotifications := d.smartNotifications)
  }

  /** Overwriting a row with what it already holds changes nothing. */
  lemma ApplyOwnSettings(s: NotificationSettings)
    ensures ApplySettings(s, SettingsToDto(s)) == s
  {
  }

  /** `GetNotificationSettings()`. */
  function GetNotificationSettings(db: Database, userId: Option<UserId>): (r: Result<SettingsDto, ProfileError>)
    reads db
    ensures !Uploads.Authenticated(userId) ==> r == Err(Unauthorized)
    ensures r.Ok? <==> Uploads.Authenticated(userId) && userId.value in db.settings
    ensures r.Ok? ==> ApplySettings(db.settings[userId.value], r.value) == db.settings[userId.value]
  {
    if !Uploads.Authenticated(userId) then Err(Unauthorized)
    else if userId.value !in db.settings then Err(NotFound)
    else Ok(SettingsToDto(db.settings[userId.value]))
  }

  /** `UpdateNotificationSettings(settingsDto)`: a user without a settings row
      gets `NotFound` and nothing changes; otherwise all four flags are
      overwritten, and reading the settings back yields the input. */
  method UpdateNotificationSettings(db: Database, userId: Option<UserId>, d: SettingsDto) returns (r: Result<(), ProfileError>)
    requires db.Valid()
    modifies db`settings
    ensures db.Valid()
    ensures !Uploads.Authenticated(userId) ==> r == Err(Unauthorized)
    ensures Uploads.Authenticated(userId) && userId.value !in old(db.settings) ==> r == Err(NotFound)
    ensures r.Err? ==> db.settings == old(db.settings)
    ensures r.Ok? <==> Uploads.Authenticated(userId) && userId.value in old(db.settings)
    ensures r.Ok? ==> db.settings == old(db.settings)[userId.value := ApplySettings(old(db.settings)[userId.value], d)]
    ensures r.Ok? ==> GetNotificationSettings(db, userId) == Ok(d)
  {
    if !Uploads.Authenticated(userId) {
      return Err(Unauthorized);
    }
    var u := userId.value;
    if u !in db.settings {
      return Err(NotFound);
    }
    db.UpdateSettings(u, ApplySettings(db.settings[u], d));
    r := Ok(());
  }

  // ---------------------------------------------------------------------------
  // UploadAvatar
  // ---------------------------------------------------------------------------

  /** The avatar URL the profile controller records, under "/uploads/avatars/". */
  function AvatarUrl(userId: UserId, extension: string): (r: string)
    ensures |r| == 17 + |Uploads.AvatarFileName(userId, extension)|
  {
    "/uploads/avatars/" + Uploads.AvatarFileName(userId, extension)
  }

  /** Two users never share an avatar URL, whatever image extensions they upload. */
  lemma AvatarUrlInjective(u1: UserId, e1: string, u2: UserId, e2: string)
    requires e1 in Uploads.AvatarExtensions && e2 in Uploads.AvatarExtensions
    requires AvatarUrl(u1, e1) == AvatarUrl(u2, e2)
    ensures u1 == u2 && e1 == e2
  {
    var a, b := Uploads.AvatarFileName(u1, e1), Uploads.AvatarFileName(u2, e2);
    assert a == AvatarUrl(u1, e1)[17..] == AvatarUrl(u2, e2)[17..] == b;
    Uploads.AvatarFileNameInjective(u1, e1, u2, e2);
  }

  /** The two controllers' avatar handlers answer the same upload with
      different URLs: "/uploads/avatars/..." here, "/uploads/..." there. */
  lemma AvatarUrlsDiffer(userId: Option<UserId>, file: Option<Uploads.FormFile>)
    requires Uploads.UploadAvatar(userId, file).Ok?
    ensures var e := Uploads.CheckUpload(userId, file, Uploads.MaxAvatarSize, Uploads.AvatarExtensions).value;
      Uploads.UploadAvatar(userId, file).value != AvatarUrl(userId.value, e)
  {
  }

  /** `UploadAvatar(file)`: the same guards as the upload controller's avatar
      handler; on success the URL is recorded on the user when the user exists,
      and returned either way. */
  method UploadAvatar(db: Database, userId: Option<UserId>, file: Option<Uploads.FormFile>) returns (r: Result<string, Uploads.UploadError>)
    requires db.Valid()
    modifies db`users
    ensures db.Valid()
    ensures var c := Uploads.CheckUpload(userId, file, Uploads.MaxAvatarSize, Uploads.AvatarExtensions);
      && (r.Err? <==> c.Err?)
      && (r.Err? ==> r.error == c.error && db.users == old(db.users))
      && (r.Ok? ==> r.value == AvatarUrl(userId.value, c.value))
    ensures r.Ok? && userId.value !in old(db.users) ==> db.users == old(db.users)
    ensures r.Ok? && userId.value in old(db.users) ==>
              db.users == old(db.users)[userId.value := old(db.users)[userId.value].(avatarUrl := Some(r.value))]
  {
    var c := Uploads.CheckUpload(userId, file, Uploads.MaxAvatarSize, Uploads.AvatarExtensions);
    if c.Err? {
      return Err(c.error);
    }
    var u := userId.value;
    var url := AvatarUrl(u, c.value);
    if u in db.users {
      db.UpdateUser(u, db.users[u].(avatarUrl := Some(url)));
    }
    r := Ok(url);
  }
}
