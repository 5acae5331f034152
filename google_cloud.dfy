/** Object storage on a Google Cloud bucket: the object name of an upload,
    the expiry of its signed URLs, the naming of profile images, message
    images and documents, and the fixed errors that replace an SDK failure.
    The SDK calls and the clock are parameters. */
module GoogleCloud {
  import opened Wrappers
  import opened JsText
  import opened Http

  /** Milliseconds in an hour and in the seven days an upload URL lasts. */
  const HourMs := 1000 * 60 * 60
  const UploadUrlLifetimeMs := 1000 * 60 * 60 * 24 * 7
  const DefaultSignedUrlHours := 24

  const UploadFailed := "Failed to upload file"
  const DeleteFailed := "Failed to delete file"
  const SignFailed := "Failed to generate signed URL"

  /** `folder ? `${folder}/${fileName}` : fileName`. */
  function ObjectName(fileName: string, folder: Option<string>): string {
    if folder.Some? && folder.value != "" then folder.value + "/" + fileName else fileName
  }

  /** An object stored under a folder splits back into that folder and its
      name at the last "/", when the name holds no "/". */
  lemma {:induction false} ObjectNameSplits(fileName: string, folder: string)
    requires folder != "" && '/' !in fileName
    ensures LastPiece(ObjectName(fileName, Some(folder)), '/') == fileName
    ensures AllButLastPiece(ObjectName(fileName, Some(folder)), '/') == folder
  {
    var name := ObjectName(fileName, Some(folder));
    LastPieceSplits(name, '/');
    assert name[|folder|] == '/';
    LastPieceOf(folder, fileName);
  }

  /** The last piece after a separator followed by separator-free text is
      that text, and what comes before it is the rest. */
  lemma {:induction false} LastPieceOf(front: string, last: string)
    requires '/' !in last
    ensures LastPiece(front + "/" + last, '/') == last
    ensures AllButLastPiece(front + "/" + last, '/') == front
  {
    SplitThenLast(front, last);
    JoinSplit(front, '/');
  }

  lemma {:induction false} SplitThenLast(front: string, last: string)
    requires '/' !in last
    ensures Split(front + "/" + last, '/') == Split(front, '/') + [last]
    decreases |front|
  {
    var s := front + "/" + last;
    if front == [] {
      assert s == "/" + last;
      assert s[1..] == last;
      SplitSingle(last, '/');
    } else {
      assert s[0] == front[0];
      assert s[1..] == front[1..] + "/" + last;
      SplitThenLast(front[1..], last);
      if front[0] != '/' {
        var p := Split(front[1..], '/');
        assert Split(s[1..], '/') == p + [last];
        assert (p + [last])[0] == p[0];
        assert (p + [last])[1..] == p[1..] + [last];
      }
    }
  }

  /** The result of an upload. */
  datatype UploadFileResult = UploadFileResult(fileName: string, url: string, size: int, contentType: string)

  /** When an upload URL expires: seven days after the moment it is signed. */
  function UploadUrlExpiry(now: int): (t: int)
    ensures t - now == 7 * 24 * HourMs
  {
    now + UploadUrlLifetimeMs
  }

  /** When a signed URL expires: the given hours after now, 24 by default. */
  function SignedUrlExpiry(now: int, expiresInHours: Option<int>): (t: int)
    ensures expiresInHours.None? ==> t == now + 86400000
    ensures expiresInHours.Some? ==> t - now == expiresInHours.value * 3600000
  {
    now + HourMs * expiresInHours.GetOr(DefaultSignedUrlHours)
  }

  /** `uploadFile`, given the file's bytes, the name, the content type, the
      folder, the moment of signing, whether the save succeeds, and the
      signed URL for an object and expiry (`None` when signing fails). Any
      SDK failure becomes "Failed to upload file". */
  function UploadFile(file: seq<bv8>, fileName: string, contentType: string, folder: Option<string>, now: int,
                      save: (string, string) -> bool, sign: (string, int) -> Option<string>): (r: Try<UploadFileResult>)
    ensures var name := ObjectName(fileName, folder);
            r.Returned? <==> save(name, contentType) && sign(name, UploadUrlExpiry(now)).Some?
    ensures r.Returned? ==> r.value.fileName == ObjectName(fileName, folder) && r.value.size == |file|
                            && r.value.contentType == contentType
                            && Some(r.value.url) == sign(ObjectName(fileName, folder), UploadUrlExpiry(now))
    ensures r.Raised? ==> r.error == Thrown(UploadFailed, 0)
  {
    var fullFileName := ObjectName(fileName, folder);
    if !save(fullFileName, contentType) then Raised(Thrown(UploadFailed, 0))
    else match sign(fullFileName, UploadUrlExpiry(now))
      case None => Raised(Thrown(UploadFailed, 0))
      case Some(url) => Returned(UploadFileResult(fullFileName, url, |file|, contentType))
  }

  /** `deleteFile`: `None` when the object is deleted, else the fixed error. */
  function DeleteFile(fileName: string, delete: string -> bool): (r: Option<Thrown>)
    ensures r.None? <==> delete(fileName)
    ensures r.Some? ==> r.value.message == DeleteFailed
  {
    if delete(fileName) then None else Some(Thrown(DeleteFailed, 0))
  }

  /** `getSignedUrl`: the URL signed for the given hours, or the fixed error. */
  function GetSignedUrl(fileName: string, expiresInHours: Option<int>, now: int,
                        sign: (string, int) -> Option<string>): (r: Try<string>)
    ensures sign(fileName, SignedUrlExpiry(now, expiresInHours)).Some? ==>
              r == Returned(sign(fileName, SignedUrlExpiry(now, expiresInHours)).value)
    ensures sign(fileName, SignedUrlExpiry(now, expiresInHours)).None? ==> r == Raised(Thrown(SignFailed, 0))
  {
    match sign(fileName, SignedUrlExpiry(now, expiresInHours))
    case Some(url) => Returned(url)
    case None => Raised(Thrown(SignFailed, 0))
  }

  /** `originalFileName.split('.').pop()`. */
  function Extension(originalFileName: string): string {
    LastPiece(originalFileName, '.')
  }

  /** The extension is the text after the last "."; with no "." it is the
      whole name. */
  lemma {:induction false} ExtensionIsLastPart(originalFileName: string)
    ensures '.' !in Extension(originalFileName)
    ensures '.' in originalFileName ==>
              originalFileName == AllButLastPiece(originalFileName, '.') + "." + Extension(originalFileName)
    ensures '.' !in originalFileName ==> Extension(originalFileName) == originalFileName
  {
    LastPieceSplits(originalFileName, '.');
  }

  /** `${id}-${now}.${extension}`. */
  function ImageName(id: string, now: nat, originalFileName: string): string {
    id + "-" + NatToString(now) + "." + Extension(originalFileName)
  }

  /** `${now}-${originalFileName}`. */
  function DocumentName(now: nat, originalFileName: string): string {
    NatToString(now) + "-" + originalFileName
  }

  /** `uploadProfileImage`: into "profile-images", always as JPEG. */
  function UploadProfileImage(file: seq<bv8>, userId: string, originalFileName: string, namedAt: nat, signedAt: int,
                              save: (string, string) -> bool, sign: (string, int) -> Option<string>): Try<UploadFileResult>
  {
    UploadFile(file, ImageName(userId, namedAt, originalFileName), "image/jpeg", Some("profile-images"), signedAt, save, sign)
  }

  /** `uploadMessageImage`: into "message-images/{userId}", always as JPEG. */
  function UploadMessageImage(file: seq<bv8>, userId: string, messageId: string, originalFileName: string, namedAt: nat,
                              signedAt: int, save: (string, string) -> bool, sign: (string, int) -> Option<string>)
    : Try<UploadFileResult>
  {
    UploadFile(file, ImageName(messageId, namedAt, originalFileName), "image/jpeg", Some("message-images/" + userId),
               signedAt, save, sign)
  }

  /** `uploadDocument`: into "documents/{userId}", with the caller's type. */
  function UploadDocument(file: seq<bv8>, userId: string, originalFileName: string, contentType: string, namedAt: nat,
                          signedAt: int, save: (string, string) -> bool, sign: (string, int) -> Option<string>)
    : Try<UploadFileResult>
  {
    UploadFile(file, DocumentName(namedAt, originalFileName), contentType, Some("documents/" + userId), signedAt, save, sign)
  }

  /** A stored profile image is "profile-images/{userId}-{now}.{ext}",
      saved as JPEG whatever the original's type. */
  lemma {:induction false} ProfileImageStored(file: seq<bv8>, userId: string, originalFileName: string, namedAt: nat, signedAt: int,
                           save: (string, string) -> bool, sign: (string, int) -> Option<string>)
    requires UploadProfileImage(file, userId, originalFileName, namedAt, signedAt, save, sign).Returned?
    ensures var r := UploadProfileImage(file, userId, originalFileName, namedAt, signedAt, save, sign).value;
            r.fileName == "profile-images/" + userId + "-" + NatToString(namedAt) + "." + Extension(originalFileName)
            && r.contentType == "image/jpeg" && r.size == |file|
  {
  }

  /** A stored message image sits in its user's folder, named after the
      message. */
  lemma {:induction false} MessageImageStored(file: seq<bv8>, userId: string, messageId: string, originalFileName: string, namedAt: nat,
                           signedAt: int, save: (string, string) -> bool, sign: (string, int) -> Option<string>)
    requires UploadMessageImage(file, userId, messageId, originalFileName, namedAt, signedAt, save, sign).Returned?
    requires '/' !in messageId && '/' !in originalFileName
    ensures var r := UploadMessageImage(file, userId, messageId, originalFileName, namedAt, signedAt, save, sign).value;
            r.contentType == "image/jpeg"
            && AllButLastPiece(r.fileName, '/') == "message-images/" + userId
            && LastPiece(r.fileName, '/') == messageId + "-" + NatToString(namedAt) + "." + Extension(originalFileName)
  {
    var name := ImageName(messageId, namedAt, originalFileName);
    NoSlashInNumber(namedAt);
    ExtensionIsLastPart(originalFileName);
    assert '/' !in Extension(originalFileName) by {
      LastPieceSplits(originalFileName, '.');
      if '.' in originalFileName {
        assert forall c :: c in Extension(originalFileName) ==> c in originalFileName;
      }
    }
    assert '/' !in name;
    ObjectNameSplits(name, "message-images/" + userId);
  }

  lemma {:induction false} NoSlashInNumber(n: nat)
    ensures '/' !in NatToString(n)
  {
    var s := NatToString(n);
    forall i | 0 <= i < |s| ensures s[i] != '/' {
      assert IsDigit(s[i]);
    }
  }

  /** A stored document keeps its original name after the timestamp and
      the caller's content type. */
  lemma {:induction false} DocumentStored(file: seq<bv8>, userId: string, originalFileName: string, contentType: string, namedAt: nat,
                       signedAt: int, save: (string, string) -> bool, sign: (string, int) -> Option<string>)
    requires UploadDocument(file, userId, originalFileName, contentType, namedAt, signedAt, save, sign).Returned?
    ensures var r := UploadDocument(file, userId, originalFileName, contentType, namedAt, signedAt, save, sign).value;
            r.fileName == "documents/" + userId + "/" + NatToString(namedAt) + "-" + originalFileName
            && r.contentType == contentType
  {
  }
}
