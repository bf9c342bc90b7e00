/** The avatar storage helpers of src/utils/storage.ts: the checks an
    upload must pass, the object path it is stored under, and the result
    conventions of the storage and profile writes. The storage service is
    an input: whether the upload, removal or profile update succeeds, and
    the public URL it hands out for a path. */
module Storage {
  import opened Common

  const AvatarsBucket := "avatars"

  /** 2 MiB. */
  const MaxFileSize := 2 * 1024 * 1024

  const AllowedTypes: seq<string> := ["image/jpeg", "image/png", "image/webp", "image/jpg"]

  /** The file as the browser describes it. */
  datatype File = File(name: string, size: int, mimeType: string)

  /** Why an upload throws. */
  datatype UploadError = TooLarge | UnsupportedType | StorageFailed

  datatype Upload = Upload(url: string, path: string)

  /** `file.name.split('.').pop()`: the text after the last dot, or the
      whole name when there is no dot. */
  function FileExt(name: string): (ext: string)
    ensures '.' !in ext
    ensures '.' !in name ==> ext == name
  {
    if '.' in name then LastSegment(name, '.')
    else LastSegmentNoSep(name, '.'); LastSegment(name, '.')
  }

  /** For a name with a dot, the extension is the text after the last dot:
      a proper suffix that follows a dot and holds none. */
  lemma FileExtAfterLastDot(name: string)
    requires '.' in name
    ensures var ext := FileExt(name);
      |ext| < |name| && ext == name[|name| - |ext|..] && name[|name| - |ext| - 1] == '.' && '.' !in ext
  {
  }

  /** `${userId}/${Date.now()}.${fileExt}`. */
  function UploadPath(userId: string, nowMs: nat, fileName: string): (r: string)
    ensures |r| >= |userId| + |FileExt(fileName)| + 3
    ensures r[..|userId| + 1] == userId + "/"
    ensures r[|r| - |FileExt(fileName)| - 1..] == "." + FileExt(fileName)
    ensures forall i :: |userId| < i < |r| - |FileExt(fileName)| - 1 ==> '0' <= r[i] <= '9'
  {
    userId + "/" + Decimal(nowMs) + "." + FileExt(fileName)
  }

  /** The path gives back its parts: the folder is the user id (when the id
      has no slash) and the extension is the file's. */
  lemma UploadPathParts(userId: string, nowMs: nat, fileName: string)
    requires '/' !in userId
    ensures FirstSegment(UploadPath(userId, nowMs, fileName), '/') == userId
    ensures LastSegment(UploadPath(userId, nowMs, fileName), '.') == FileExt(fileName)
  {
    var ext := FileExt(fileName);
    var path := UploadPath(userId, nowMs, fileName);
    var rest := Decimal(nowMs) + "." + ext;
    var head := userId + "/" + Decimal(nowMs);
    assert path == userId + ['/'] + rest;
    FirstSegmentOfJoin(userId, '/', rest);
    assert path == head + ['.'] + ext;
    LastSegmentOfJoin(head, '.', ext);
  }

  /** uploadAvatar: the size is checked before the type; a file that
      passes both is stored under UploadPath and its public URL returned;
      a storage error is thrown on and no URL comes back. */
  function UploadAvatar(userId: string, file: File, nowMs: nat, uploadOk: bool, publicUrl: string -> string): (r: Result<Upload, UploadError>)
    ensures r == Err(TooLarge) <==> file.size > MaxFileSize
    ensures r == Err(UnsupportedType) <==> file.size <= MaxFileSize && file.mimeType !in AllowedTypes
    ensures r == Err(StorageFailed) <==> file.size <= MaxFileSize && file.mimeType in AllowedTypes && !uploadOk
    ensures r.Ok? ==> r.value.path == UploadPath(userId, nowMs, file.name) && r.value.url == publicUrl(r.value.path)
  {
    if file.size > MaxFileSize then Err(TooLarge)
    else if file.mimeType !in AllowedTypes then Err(UnsupportedType)
    else
      var path := UploadPath(userId, nowMs, file.name);
      if !uploadOk then Err(StorageFailed)
      else Ok(Upload(publicUrl(path), path))
  }

  /** A file of exactly 2 MiB passes the size check; one byte more does not. */
  lemma SizeBoundary(userId: string, name: string, mimeType: string, nowMs: nat, uploadOk: bool, publicUrl: string -> string)
    ensures UploadAvatar(userId, File(name, MaxFileSize, mimeType), nowMs, uploadOk, publicUrl) != Err(TooLarge)
    ensures UploadAvatar(userId, File(name, MaxFileSize + 1, mimeType), nowMs, uploadOk, publicUrl) == Err(TooLarge)
  {
  }

  /** The write a helper sends to the backend: a removal of objects from
      a storage bucket, or an update of one column of one table row. */
  datatype StorageCall =
    | RemoveObjects(bucket: string, paths: seq<string>)
    | UpdateColumn(table: string, column: string, value: string, rowId: string)

  /** A write sent and whether the helper reports it as done. */
  datatype CallOutcome = CallOutcome(call: StorageCall, succeeded: bool)

  /** deleteAvatar: one removal request for exactly that object in the
      avatars bucket; its outcome comes back as a boolean, never a throw. */
  function DeleteAvatar(path: string, removeOk: bool): (r: CallOutcome)
    ensures r.call.RemoveObjects? && r.call.bucket == AvatarsBucket && r.call.paths == [path]
    ensures r.succeeded <==> removeOk
  {
    CallOutcome(RemoveObjects(AvatarsBucket, [path]), removeOk)
  }

  /** updateProfileAvatar: one update of the photo_url column of the
      profiles row whose id is the user's, set to the new URL; its outcome
      comes back as a boolean, never a throw. */
  function UpdateProfileAvatar(userId: string, avatarUrl: string, updateOk: bool): (r: CallOutcome)
    ensures r.call.UpdateColumn? && r.call.table == "profiles" && r.call.column == "photo_url"
    ensures r.call.rowId == userId && r.call.value == avatarUrl
    ensures r.succeeded <==> updateOk
  {
    CallOutcome(UpdateColumn("profiles", "photo_url", avatarUrl, userId), updateOk)
  }

  /** getAvatarUrl: the URL when it is a non-empty string, null otherwise. */
  function GetAvatarUrl(avatarUrl: Option<string>): (r: Option<string>)
    ensures r.Some? <==> Truthy(avatarUrl)
    ensures r.Some? ==> r == avatarUrl
  {
    if Truthy(avatarUrl) then avatarUrl else None
  }
}
