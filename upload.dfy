/** The checks of the image upload handler and the storage name it
    derives. The form is already read; the fresh GUID and the answer of
    the storage service are parameters. */
module Upload {
  import opened Base
  import opened Gates
  import opened Http

  const MaxFileSize := 5 * 1024 * 1024
  const AllowedTypes := ["image/jpeg", "image/jpg", "image/png", "image/gif", "image/webp"]
  const AllowedFolders := ["profil_fotolari", "etkinlikler", "haberler", "sponsorlu"]

  /** The first file of the form: its client-side name, declared content
      type and length in bytes. */
  datatype FormFile = FormFile(fileName: string, contentType: string, length: nat)

  /** Where an accepted file goes and what the response reports. */
  datatype UploadPlan = UploadPlan(fileName: string, filePath: string, fileSize: nat)

  function LowerChar(ch: char): char {
    if 'A' <= ch <= 'Z' then (ch as int - 'A' as int + 'a' as int) as char else ch
  }

  /** `ToLower()`, on ASCII letters. */
  function ToLower(s: string): (r: string)
    ensures |r| == |s| && forall i :: 0 <= i < |s| ==> r[i] == LowerChar(s[i])
  {
    if |s| == 0 then "" else [LowerChar(s[0])] + ToLower(s[1..])
  }

  /** Scanning `path` backwards from position `i`, where nothing after `i`
      is a '.' or a '/'. */
  function ExtensionFrom(path: string, i: nat): (ext: string)
    requires i <= |path|
    requires forall k :: i <= k < |path| ==> path[k] != '.' && path[k] != '/'
    ensures ext == "" || (exists j :: 0 <= j < |path| - 1 && path[j] == '.' && ext == path[j..])
    ensures forall k :: 0 < k < |ext| ==> ext[k] != '.' && ext[k] != '/'
  {
    if i == 0 then ""
    else if path[i - 1] == '.' then (if i != |path| then path[i - 1..] else "")
    else if path[i - 1] == '/' then ""
    else ExtensionFrom(path, i - 1)
  }

  /** `Path.GetExtension` with '/' as the only directory separator: the
      text from the last '.' of the last path segment, or empty when that
      segment has no '.' or ends with it. */
  function GetExtension(path: string): (ext: string)
    ensures ext == "" || (2 <= |ext| <= |path| && ext[0] == '.' && ext == path[|path| - |ext|..])
    ensures forall k :: 0 < k < |ext| ==> ext[k] != '.' && ext[k] != '/'
  {
    ExtensionFrom(path, |path|)
  }

  /** The guard chain: a caller with a user type, a non-empty file, a
      folder name, at most 5 MiB, an image content type and one of the
      four folders, checked in that order. */
  function CheckUpload(caller: Caller, file: Option<FormFile>, folder: string, guid: string): (g: Guard<UploadPlan>)
    ensures g.Proceed? <==>
      && AnyUser(caller) == Allow
      && file.Some? && 0 < file.value.length <= MaxFileSize
      && ToLower(file.value.contentType) in AllowedTypes
      && folder in AllowedFolders
    ensures g.Proceed? ==> g.value.fileSize == file.value.length
    ensures g.Proceed? ==> g.value.filePath == folder + "/" + g.value.fileName
    ensures g.Proceed? ==> g.value.fileName == guid + GetExtension(file.value.fileName)
    ensures AnyUser(caller) != Allow ==> g == Refuse(Response.Unauthorized)
  {
    if AnyUser(caller) != Allow then Refuse(Respond(AnyUser(caller)))
    else if file.None? || file.value.length == 0 then Refuse(BadRequest(NoFileMsg))
    else if folder == "" then Refuse(BadRequest(NoFolderMsg))
    else if file.value.length > MaxFileSize then Refuse(BadRequest(FileTooLargeMsg))
    else if ToLower(file.value.contentType) !in AllowedTypes then Refuse(BadRequest(NotAnImageMsg))
    else if folder !in AllowedFolders then Refuse(BadRequest(BadFolderMsg))
    else
      var name := guid + GetExtension(file.value.fileName);
      Proceed(UploadPlan(name, folder + "/" + name, file.value.length))
  }

  const UploadProblem := "Dosya yükleme hatası: "

  /** What the storage service answered: the public URL of the stored
      object, or the message of the exception it threw. */
  datatype StorageAnswer = Stored(url: string) | StorageFailed(message: string)

  /** The upload handler: every refusal of the checks is its response; a
      storage failure is the problem response carrying the exception's
      message; otherwise the URL, the generated name and path, and the size. */
  function UploadFile(caller: Caller, file: Option<FormFile>, folder: string, guid: string,
                      storage: StorageAnswer): (r: Response)
    ensures r.Ok? <==> CheckUpload(caller, file, folder, guid).Proceed? && storage.Stored?
    ensures CheckUpload(caller, file, folder, guid).Refuse? ==> r == CheckUpload(caller, file, folder, guid).response
    ensures CheckUpload(caller, file, folder, guid).Proceed? && storage.StorageFailed? ==>
      r == Problem(UploadProblem + storage.message)
    ensures r.Ok? ==>
      && r.body.Uploaded? && r.body.url == storage.url && r.body.fileSize == file.value.length
      && r.body.fileName == guid + GetExtension(file.value.fileName)
      && r.body.filePath == folder + "/" + guid + GetExtension(file.value.fileName)
  {
    match CheckUpload(caller, file, folder, guid)
    case Refuse(resp) => resp
    case Proceed(plan) =>
      match storage
      case StorageFailed(message) => Problem(UploadProblem + message)
      case Stored(url) => Ok(Uploaded(url, plan.fileName, plan.filePath, plan.fileSize))
  }

  /** Lower-casing twice is lower-casing once. */
  lemma {:induction false} ToLowerIdempotent(s: string)
    ensures ToLower(ToLower(s)) == ToLower(s)
  {
    if |s| > 0 {
      ToLowerIdempotent(s[1..]);
      assert ToLower(s)[1..] == ToLower(s[1..]);
    }
  }

  /** The content type is compared after lower-casing: a type and its
      lower-case form fare alike. */
  lemma ContentTypeCaseInsensitive(caller: Caller, name: string, contentType: string, length: nat,
                                   folder: string, guid: string)
    ensures CheckUpload(caller, Some(FormFile(name, contentType, length)), folder, guid)
         == CheckUpload(caller, Some(FormFile(name, ToLower(contentType), length)), folder, guid)
  {
    ToLowerIdempotent(contentType);
  }

  /** A file of exactly 5 MiB is accepted and one byte more is refused. */
  lemma SizeBoundary(caller: Caller, name: string, contentType: string, folder: string, guid: string)
    requires AnyUser(caller) == Allow && ToLower(contentType) in AllowedTypes && folder in AllowedFolders
    ensures CheckUpload(caller, Some(FormFile(name, contentType, MaxFileSize)), folder, guid).Proceed?
    ensures CheckUpload(caller, Some(FormFile(name, contentType, MaxFileSize + 1)), folder, guid)
      == Refuse(BadRequest(FileTooLargeMsg))
  {
  }

  /** The folder name is asked for before the size is looked at. */
  lemma MissingFolderFirst(caller: Caller, file: FormFile, guid: string)
    requires AnyUser(caller) == Allow && file.length > 0
    ensures CheckUpload(caller, Some(file), "", guid) == Refuse(BadRequest(NoFolderMsg))
  {
  }

  /** Positions without '.' or '/' are skipped by the backward scan. */
  lemma {:induction false} ExtensionFromSkips(path: string, i: nat, j: nat)
    requires j <= i <= |path|
    requires forall k :: j <= k < |path| ==> path[k] != '.' && path[k] != '/'
    ensures ExtensionFrom(path, i) == ExtensionFrom(path, j)
    decreases i
  {
    if i > j {
      ExtensionFromSkips(path, i - 1, j);
    }
  }

  /** The extension is the text after the last '.', whatever the stem
      holds, as long as that text is not empty and names no directory. */
  lemma ExtensionAfterLastDot(stem: string, ext: string)
    requires |ext| > 0 && forall k :: 0 <= k < |ext| ==> ext[k] != '.' && ext[k] != '/'
    ensures GetExtension(stem + "." + ext) == "." + ext
  {
    var path := stem + "." + ext;
    assert forall k :: |stem| + 1 <= k < |path| ==> path[k] == ext[k - |stem| - 1];
    ExtensionFromSkips(path, |path|, |stem| + 1);
    assert path[|stem|..] == "." + ext;
  }
}
