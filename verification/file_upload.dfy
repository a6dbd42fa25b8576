/** The attachment picker: validates the chosen file, uploads it under the
    user's folder and hands a time-limited link to the caller. Storage and
    authentication are oracles; the clock is a parameter. */
module FileUpload {
  import opened Base
  import opened Text
  import opened Decimal

  /** The metadata of a picked file; the bytes are never inspected. */
  datatype FileInfo = FileInfo(name: string, size: nat, mimeType: string)

  /** What the storage service does with the upload and with the request
      for a signed link (an empty link counts as none). */
  datatype Storage = Storage(uploadOk: bool, signedUrl: Option<string>)

  /** The attachment passed to `onFileUploaded`. */
  datatype Attachment = Attachment(url: string, name: string, mimeType: string)

  datatype Outcome =
    | NoFile
    | TooLarge
    | UnsupportedType
    | NotAuthenticated
    | UploadFailed
    | NoLink
    | Uploaded(attachment: Attachment)

  /** What one `handleFileChange` does: its outcome, the object path it
      uploaded to, the link lifetime it asked for, and whether it cleared the
      file input. */
  datatype Effect = Effect(outcome: Outcome, path: Option<string>, linkSeconds: Option<nat>, inputReset: bool)

  /** 10 MiB. */
  const MaxBytes: nat := 10 * 1024 * 1024

  /** A signed link lives for 24 hours. */
  const LinkSeconds: nat := 60 * 60 * 24

  /** The exact MIME types accepted: four image formats, PDF, plain text,
      and the old and new Word and Excel formats. The two long Office types
      are written split after `application/` only so that the verifier can
      read their first characters; each is still one whole string. */
  const AllowedTypes: seq<string> := [
    "image/jpeg", "image/png", "image/gif", "image/webp",
    "application/pdf",
    "text/plain",
    "application/msword",
    "application/" + "vnd.openxmlformats-officedocument.wordprocessingml.document",
    "application/vnd.ms-excel",
    "application/" + "vnd.openxmlformats-officedocument.spreadsheetml.sheet"
  ]

  /** The pre-upload checks in their order, size first, then type: the
      outcome that ends the handler early, or `None` when the file passes. */
  function Validate(f: FileInfo): (r: Option<Outcome>)
    ensures r == Some(TooLarge) <==> f.size > MaxBytes
    ensures r == Some(UnsupportedType) <==> f.size <= MaxBytes && f.mimeType !in AllowedTypes
    ensures r.None? <==> f.size <= MaxBytes && f.mimeType in AllowedTypes
  {
    if f.size > MaxBytes then Some(TooLarge)
    else if f.mimeType !in AllowedTypes then Some(UnsupportedType)
    else None
  }

  /** `file.name.split('.').pop()`: the text after the last dot, or the
      whole name when it has none. */
  function Extension(name: string): (ext: string)
    ensures '.' !in ext
    ensures |ext| <= |name| && ext == name[|name| - |ext|..]
    ensures '.' !in name ==> ext == name
    ensures '.' in name ==> |ext| < |name| && name[|name| - |ext| - 1] == '.'
  {
    LastPiece(name);
    Last(Split(name, '.'))
  }

  lemma LastPiece(name: string)
    ensures var ext := Last(Split(name, '.'));
      '.' in name ==> |ext| < |name| && ext == name[|name| - |ext|..] && name[|name| - |ext| - 1] == '.'
  {
    if '.' in name {
      SplitLast(name, '.');
      var ext := Last(Split(name, '.'));
      assert |ext| < |name| && ext == name[|name| - |ext|..] && name[|name| - |ext| - 1] == '.';
    }
  }

  /** The object path: `userId/timestamp.ext`. */
  function StoragePath(userId: string, now: nat, name: string): string {
    userId + "/" + NatToString(now) + "." + Extension(name)
  }

  /** The uploaded object keeps the file's extension. */
  lemma StoragePathKeepsExtension(userId: string, now: nat, name: string)
    ensures Extension(StoragePath(userId, now, name)) == Extension(name)
  {
    var p := StoragePath(userId, now, name);
    var e := Extension(name);
    var q := Extension(p);
    assert p == (userId + "/" + NatToString(now)) + ['.'] + e;
    assert p[|p| - |e| - 1] == '.';
    assert '.' in p;
  }

  /** For one user and one extension, paths taken at different moments
      differ. */
  lemma StoragePathInjective(userId: string, t1: nat, t2: nat, name: string)
    requires StoragePath(userId, t1, name) == StoragePath(userId, t2, name)
    ensures t1 == t2
  {
    var a, b := NatToString(t1), NatToString(t2);
    var tail := "." + Extension(name);
    var p := StoragePath(userId, t1, name);
    assert p == userId + "/" + a + tail;
    assert p == userId + "/" + b + tail;
    assert |a| == |b|;
    assert a == p[|userId| + 1..|userId| + 1 + |a|];
    assert b == p[|userId| + 1..|userId| + 1 + |b|];
    NatToStringInjective(t1, t2);
  }

  /** `handleFileChange` with the signed-in user (if any), the current time
      in milliseconds and the storage oracle. Validation failures return
      before the upload block, so only an attempted upload clears the
      input, and it does so whether it worked or not. */
  function HandleFileChange(file: Option<FileInfo>, user: Option<string>, now: nat, storage: Storage): (e: Effect)
    ensures file.None? ==> e == Effect(NoFile, None, None, false)
    ensures e.inputReset <==> file.Some? && Validate(file.value).None?
    ensures file.Some? && Validate(file.value).Some? ==> e == Effect(Validate(file.value).value, None, None, false)
    ensures e.outcome == NotAuthenticated <==> e.inputReset && user.None?
    ensures e.outcome == UploadFailed <==> e.path.Some? && !storage.uploadOk
    ensures e.path.Some? <==> e.inputReset && user.Some?
    ensures e.path.Some? ==> e.path.value == StoragePath(user.value, now, file.value.name)
    ensures e.linkSeconds.Some? <==> e.path.Some? && storage.uploadOk
    ensures e.linkSeconds.Some? ==> e.linkSeconds.value == LinkSeconds
    ensures e.outcome.Uploaded? <==>
      e.path.Some? && storage.uploadOk && storage.signedUrl.Some? && storage.signedUrl.value != ""
    ensures e.outcome == NoLink <==>
      e.path.Some? && storage.uploadOk && !(storage.signedUrl.Some? && storage.signedUrl.value != "")
    ensures e.outcome.Uploaded? ==>
      e.outcome.attachment == Attachment(storage.signedUrl.value, file.value.name, file.value.mimeType)
  {
    match file
    case None => Effect(NoFile, None, None, false)
    case Some(f) =>
      match Validate(f)
      case Some(rejection) => Effect(rejection, None, None, false)
      case None => match user
        case None => Effect(NotAuthenticated, None, None, true)
        case Some(uid) =>
          var path := StoragePath(uid, now, f.name);
          if !storage.uploadOk then Effect(UploadFailed, Some(path), None, true)
          else if storage.signedUrl.Some? && storage.signedUrl.value != "" then
            Effect(Uploaded(Attachment(storage.signedUrl.value, f.name, f.mimeType)), Some(path), Some(LinkSeconds), true)
          else Effect(NoLink, Some(path), Some(LinkSeconds), true)
  }

  /** The limit is inclusive: exactly 10 MiB passes the size check, one
      byte more does not. */
  lemma SizeLimitInclusive(name: string, mimeType: string)
    requires mimeType in AllowedTypes
    ensures Validate(FileInfo(name, MaxBytes, mimeType)).None?
    ensures Validate(FileInfo(name, MaxBytes + 1, mimeType)) == Some(TooLarge)
  {
  }

  /** The preview shows the picture icon for `image/...` types. */
  predicate ShowsImageIcon(mimeType: string) {
    StartsWith(mimeType, "image/")
  }

  /** Among the accepted types the picture icon marks exactly the four
      image formats. */
  lemma ImageIconOnAllowedTypes(mimeType: string)
    requires mimeType in AllowedTypes
    ensures ShowsImageIcon(mimeType) <==> mimeType in AllowedTypes[..4]
  {
    var i :| 0 <= i < |AllowedTypes| && AllowedTypes[i] == mimeType;
    if i < 4 {
      assert mimeType[..6] == "image/";
    } else {
      assert mimeType[0] == 'a' || mimeType[0] == 't' by {
        if i == 5 { assert mimeType == "text/plain"; }
        else if i == 4 { assert mimeType == "application/pdf"; }
        else if i == 6 { assert mimeType == "application/msword"; }
        else if i == 8 { assert mimeType == "application/vnd.ms-excel"; }
        else { assert mimeType[..12] == "application/"; }
      }
      assert mimeType !in AllowedTypes[..4];
    }
  }
}
