/** The validation and naming of Controllers/UploadController.cs: the chain of
    early-return guards of `UploadFile` and `UploadAvatar`, `Path.GetExtension`
    with `ToLower()`, and the stored name and URL each handler returns. Writing
    the bytes to disk is left to the caller. */
module Uploads {
  import opened Wrappers
  import opened Domain

  /** `IFormFile`: the client's file name, its length in bytes and its content type. */
  datatype FormFile = FormFile(fileName: string, length: nat, contentType: string)

  /** The early returns: `Unauthorized()` and the three `BadRequest`s. */
  datatype UploadError = Unauthorized | NoFile | TooLarge | BadExtension

  /** The anonymous object `UploadFile` returns. */
  datatype UploadedFile = UploadedFile(fileName: string, fileUrl: string, fileSize: nat, contentType: string, extension: string)

  const MiB: nat := 1024 * 1024
  const MaxFileSize: nat := 10 * MiB
  const MaxAvatarSize: nat := 5 * MiB

  /** `allowedExtensions` of `UploadFile`. */
  const FileExtensions: seq<string> := [".jpg", ".jpeg", ".png", ".gif", ".pdf", ".doc", ".docx", ".txt", ".mp3", ".mp4"]

  /** `allowedExtensions` of both avatar handlers. */
  const AvatarExtensions: seq<string> := [".jpg", ".jpeg", ".png", ".gif"]

  // ---------------------------------------------------------------------------
  // Path.GetExtension
  // ---------------------------------------------------------------------------

  /** The directory separators `Path.GetExtension` stops at on Windows. */
  predicate IsSeparator(c: char) {
    c == '/' || c == '\\'
  }

  /** The position of the last '.' of `p` that no separator follows, scanning
      from the end as `Path.GetExtension` does. */
  function LastDot(p: string): (r: Option<nat>)
    ensures r.Some? ==> r.value < |p| && p[r.value] == '.'
    ensures r.Some? ==> forall j :: r.value < j < |p| ==> p[j] != '.' && !IsSeparator(p[j])
    ensures r.None? ==> forall j :: 0 <= j < |p| && p[j] == '.' ==> exists k :: j < k < |p| && IsSeparator(p[k])
  {
    if p == [] then None
    else if p[|p| - 1] == '.' then Some(|p| - 1)
    else if IsSeparator(p[|p| - 1]) then None
    else
      var r := LastDot(p[..|p| - 1]);
      assert forall j :: 0 <= j < |p| - 1 ==> p[..|p| - 1][j] == p[j];
      r
  }

  /** `Path.GetExtension(path)`: from the last '.' of the last path segment to
      the end, or "" when that segment has no '.' or ends with it. */
  function GetExtension(path: string): (r: string)
    ensures r == "" || (|r| >= 2 && r[0] == '.' && |r| <= |path| && path[|path| - |r|..] == r)
    ensures forall j :: 1 <= j < |r| ==> r[j] != '.' && !IsSeparator(r[j])
  {
    match LastDot(path)
    case None => ""
    case Some(i) => if i == |path| - 1 then "" else path[i..]
  }

  /** A name with no '.' at all has no extension. */
  lemma NoDotNoExtension(path: string)
    requires '.' !in path
    ensures GetExtension(path) == ""
  {
  }

  /** The extension of `stem + "." + e` is `"." + e`, for a non-empty `e`
      without '.' or separators, whatever the stem holds. */
  lemma {:induction false} GetExtensionOfName(stem: string, e: string)
    requires e != [] && '.' !in e && forall j :: 0 <= j < |e| ==> !IsSeparator(e[j])
    ensures GetExtension(stem + "." + e) == "." + e
  {
    var p := stem + "." + e;
    LastDotOfName(stem, e, 0);
    assert e[..|e|] == e;
    assert p[|stem|..] == "." + e;
  }

  /** Scanning back over the last `n` characters of `e` reaches the '.' before it. */
  lemma {:induction false} LastDotOfName(stem: string, e: string, n: nat)
    requires n <= |e| && '.' !in e && forall j :: 0 <= j < |e| ==> !IsSeparator(e[j])
    ensures LastDot(stem + "." + e[..|e| - n]) == Some(|stem|)
    decreases |e| - n
  {
    var p := stem + "." + e[..|e| - n];
    if n == |e| {
      assert p == stem + ".";
    } else {
      LastDotOfName(stem, e, n + 1);
      var c := e[|e| - n - 1];
      assert c in e;
      assert p[|p| - 1] == c;
      assert p[..|p| - 1] == stem + "." + e[..|e| - (n + 1)];
    }
  }

  /** `ToLower()` on the extension, restricted to ASCII letters. */
  function LowerExtension(fileName: string): (r: string)
    ensures |r| == |GetExtension(fileName)|
  {
    LowerAscii(GetExtension(fileName))
  }

  // ---------------------------------------------------------------------------
  // The guards
  // ---------------------------------------------------------------------------

  /** `string.IsNullOrEmpty(userId)` fails. */
  predicate Authenticated(userId: Option<UserId>) {
    userId.Some? && userId.value != ""
  }

  /** The guard chain both handlers share, with their own size limit and
      allow-list: the lower-cased extension when every guard passes, else the
      first guard that fails. */
  function CheckUpload(userId: Option<UserId>, file: Option<FormFile>, maxSize: nat, allowed: seq<string>): (r: Result<string, UploadError>)
    ensures r.Ok? <==> Authenticated(userId) && file.Some? && 0 < file.value.length <= maxSize && LowerExtension(file.value.fileName) in allowed
    ensures r.Ok? ==> r.value == LowerExtension(file.value.fileName) && r.value in allowed
    ensures !Authenticated(userId) ==> r == Err(Unauthorized)
    ensures Authenticated(userId) && (file.None? || file.value.length == 0) ==> r == Err(NoFile)
    ensures Authenticated(userId) && file.Some? && file.value.length > maxSize ==> r == Err(TooLarge)
    ensures Authenticated(userId) && file.Some? && 0 < file.value.length <= maxSize && LowerExtension(file.value.fileName) !in allowed
            ==> r == Err(BadExtension)
  {
    if !Authenticated(userId) then Err(Unauthorized)
    else if file.None? || file.value.length == 0 then Err(NoFile)
    else if file.value.length > maxSize then Err(TooLarge)
    else
      var extension := LowerExtension(file.value.fileName);
      if extension !in allowed then Err(BadExtension) else Ok(extension)
  }

  /** `UploadFile(file)`, with `guid` standing for the formatted `Guid.NewGuid()`:
      the file is stored as `guid + extension` and served under "/uploads/". */
  function UploadFile(userId: Option<UserId>, file: Option<FormFile>, guid: string): (r: Result<UploadedFile, UploadError>)
    ensures r.Err? <==> CheckUpload(userId, file, MaxFileSize, FileExtensions).Err?
    ensures r.Err? ==> r.error == CheckUpload(userId, file, MaxFileSize, FileExtensions).error
    ensures r.Ok? ==>
      && r.value.fileName == file.value.fileName
      && r.value.fileSize == file.value.length
      && r.value.contentType == file.value.contentType
      && r.value.extension == LowerExtension(file.value.fileName) && r.value.extension in FileExtensions
      && r.value.fileUrl == "/uploads/" + guid + r.value.extension
  {
    match CheckUpload(userId, file, MaxFileSize, FileExtensions)
    case Err(e) => Err(e)
    case Ok(extension) =>
      var f := file.value;
      Ok(UploadedFile(f.fileName, "/uploads/" + guid + extension, f.length, f.contentType, extension))
  }

  /** The avatar's stored name: one file per user and extension. */
  function AvatarFileName(userId: UserId, extension: string): (r: string)
    ensures |r| == 7 + |userId| + |extension|
  {
    "avatar_" + userId + extension
  }

  /** `UploadAvatar(file)` of the upload controller: the URL of the user's
      avatar under "/uploads/". */
  function UploadAvatar(userId: Option<UserId>, file: Option<FormFile>): (r: Result<string, UploadError>)
    ensures r.Err? <==> CheckUpload(userId, file, MaxAvatarSize, AvatarExtensions).Err?
    ensures r.Err? ==> r.error == CheckUpload(userId, file, MaxAvatarSize, AvatarExtensions).error
    ensures r.Ok? ==> r.value == "/uploads/" + AvatarFileName(userId.value, CheckUpload(userId, file, MaxAvatarSize, AvatarExtensions).value)
  {
    match CheckUpload(userId, file, MaxAvatarSize, AvatarExtensions)
    case Err(e) => Err(e)
    case Ok(extension) => Ok("/uploads/" + AvatarFileName(userId.value, extension))
  }

  // ---------------------------------------------------------------------------
  // Properties of the guards and names
  // ---------------------------------------------------------------------------

  /** The size limit is inclusive: a file of exactly 10 MiB with an allowed
      extension is accepted, one byte more is refused. */
  lemma TenMiBBoundary(userId: UserId, name: string, contentType: string, guid: string)
    requires userId != "" && LowerExtension(name) in FileExtensions
    ensures UploadFile(Some(userId), Some(FormFile(name, 10_485_760, contentType)), guid).Ok?
    ensures UploadFile(Some(userId), Some(FormFile(name, 10_485_761, contentType)), guid) == Err(TooLarge)
  {
  }

  /** Every allowed extension is non-empty, so a name without any '.' is refused
      by both handlers once it passes the other guards. */
  lemma NoExtensionRefused(userId: UserId, name: string, length: nat, contentType: string, guid: string)
    requires userId != "" && '.' !in name && 0 < length <= MaxAvatarSize
    ensures UploadFile(Some(userId), Some(FormFile(name, length, contentType)), guid) == Err(BadExtension)
    ensures UploadAvatar(Some(userId), Some(FormFile(name, length, contentType))) == Err(BadExtension)
  {
    NoDotNoExtension(name);
  }

  /** The allow-lists are matched case-insensitively: `photo.PNG` is stored
      with the extension ".png". */
  lemma UpperCaseExtensionAccepted(userId: UserId, guid: string)
    requires userId != ""
    ensures UploadFile(Some(userId), Some(FormFile("photo.PNG", 1, "image/png")), guid).Ok?
    ensures UploadFile(Some(userId), Some(FormFile("photo.PNG", 1, "image/png")), guid).value.fileUrl == "/uploads/" + guid + ".png"
  {
    GetExtensionOfName("photo", "PNG");
    assert "photo" + "." + "PNG" == "photo.PNG";
    assert LowerAscii(".PNG") == ".png";
  }

  /** Each image extension is '.' followed by lower-case letters. */
  lemma AvatarExtensionShape(e: string)
    requires e in AvatarExtensions
    ensures |e| >= 2 && e[0] == '.' && LowerAscii(e) == e
    ensures forall j :: 1 <= j < |e| ==> e[j] != '.' && !IsSeparator(e[j])
  {
    if e == ".jpg" {
      assert LowerAscii(".jpg") == ".jpg";
    } else if e == ".jpeg" {
      assert LowerAscii(".jpeg") == ".jpeg";
    } else if e == ".png" {
      assert LowerAscii(".png") == ".png";
    } else {
      assert LowerAscii(".gif") == ".gif";
    }
  }

  /** The lower-cased extension of `stem + e`, for an allowed image extension `e`, is `e`. */
  lemma AvatarNameExtension(stem: string, e: string)
    requires e in AvatarExtensions
    ensures LowerExtension(stem + e) == e
  {
    AvatarExtensionShape(e);
    var x := e[1..];
    assert e == "." + x;
    assert forall j :: 0 <= j < |x| ==> x[j] == e[j + 1];
    GetExtensionOfName(stem, x);
    assert stem + e == stem + "." + x;
  }

  /** The avatar keeps the uploaded file's own extension: `stem + e` with an
      allowed `e` is stored as "avatar_" + user + `e`, whatever the stem holds. */
  lemma AvatarKeepsExtension(u: UserId, stem: string, e: string, length: nat, contentType: string)
    requires u != "" && e in AvatarExtensions && 0 < length <= MaxAvatarSize
    ensures UploadAvatar(Some(u), Some(FormFile(stem + e, length, contentType))) == Ok("/uploads/avatar_" + u + e)
  {
    var file := Some(FormFile(stem + e, length, contentType));
    AvatarNameExtension(stem, e);
    assert CheckUpload(Some(u), file, MaxAvatarSize, AvatarExtensions) == Ok(e);
    var n := AvatarFileName(u, e);
    assert "/uploads/" + n == "/uploads/avatar_" + u + e by {
      assert n == "avatar_" + u + e;
    }
  }

  /** Every avatar allowed for upload is also allowed as a plain file. */
  lemma AvatarExtensionsAreFileExtensions()
    ensures forall e :: e in AvatarExtensions ==> e in FileExtensions
  {
  }

  /** The fourth character from the end of an avatar name tells ".jpeg" from
      the three four-character extensions. */
  lemma AvatarFourthFromEnd(u: UserId, e: string)
    requires e in AvatarExtensions
    ensures var n := AvatarFileName(u, e); n[|n| - 4] == (if e == ".jpeg" then 'j' else '.')
  {
    var n := AvatarFileName(u, e);
    assert n == ("avatar_" + u) + e;
    assert n[|n| - 4] == e[|e| - 4];
  }

  /** Distinct (user, extension) pairs get distinct avatar names: none of the
      four image extensions is a suffix of another, so the name determines both
      the extension and the user. */
  lemma AvatarFileNameInjective(u1: UserId, e1: string, u2: UserId, e2: string)
    requires e1 in AvatarExtensions && e2 in AvatarExtensions
    requires AvatarFileName(u1, e1) == AvatarFileName(u2, e2)
    ensures u1 == u2 && e1 == e2
  {
    var n := AvatarFileName(u1, e1);
    AvatarFourthFromEnd(u1, e1);
    AvatarFourthFromEnd(u2, e2);
    if |e1| == |e2| {
      assert n == ("avatar_" + u1) + e1 && n == ("avatar_" + u2) + e2;
      assert e1 == n[|n| - |e1|..] == e2;
      assert "avatar_" + u1 == n[..|n| - |e1|] == "avatar_" + u2;
      assert u1 == ("avatar_" + u1)[7..] == ("avatar_" + u2)[7..] == u2;
    } else {
      assert false;
    }
  }
}
