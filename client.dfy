/**
 * The browser-side check `validateImage` run before an upload is sent: a size
 * bound first, then membership of the MIME type in a fixed list. It either
 * returns `true` or throws an `Error` with a fixed message.
 */
module Client {
  import opened Wrappers
  import Upload
  import Models
  import Api

  /** `maxSize`: 16 MiB. */
  const MaxSize := 16 * 1024 * 1024

  const AllowedTypes: seq<string> := ["image/jpeg", "image/png", "image/gif", "image/bmp"]

  const SizeMessage := "File size exceeds 16MB limit"
  const TypeMessage := "Invalid file format. Allowed: JPG, PNG, GIF, BMP"

  /** The two properties of the browser's `File` object the check reads. */
  datatype FileInfo = FileInfo(size: nat, mimeType: string)

  /** `return true`, or the message of the thrown `Error`. */
  datatype Verdict = Accepted | Thrown(message: string)

  function ValidateImage(file: FileInfo): (r: Verdict)
    ensures r == Accepted <==> file.size <= MaxSize && file.mimeType in AllowedTypes
    ensures r == Thrown(SizeMessage) <==> file.size > MaxSize
    ensures r == Thrown(TypeMessage) <==> file.size <= MaxSize && file.mimeType !in AllowedTypes
  {
    if file.size > MaxSize then Thrown(SizeMessage)
    else if file.mimeType !in AllowedTypes then Thrown(TypeMessage)
    else Accepted
  }

  /** The bound is inclusive: a file of exactly 16 MiB with an allowed type passes. */
  lemma ExactlyMaxSizeAccepted(mimeType: string)
    requires mimeType in AllowedTypes
    ensures ValidateImage(FileInfo(MaxSize, mimeType)) == Accepted
    ensures ValidateImage(FileInfo(MaxSize + 1, mimeType)) == Thrown(SizeMessage)
  {
  }

  /** The size check comes first: an oversized file of a wrong type reports its size. */
  lemma SizeReportedBeforeType(file: FileInfo)
    requires file.size > MaxSize && file.mimeType !in AllowedTypes
    ensures ValidateImage(file) == Thrown(SizeMessage)
  {
  }

  /** The type test is exact string membership: no lower-casing, no parameters. */
  lemma TypeMatchIsExact()
    ensures ValidateImage(FileInfo(0, "image/png")) == Accepted
    ensures ValidateImage(FileInfo(0, "IMAGE/PNG")) == Thrown(TypeMessage)
    ensures ValidateImage(FileInfo(0, "image/jpg")) == Thrown(TypeMessage)
  {
  }

  /**
   * The client bounds the file, the server the whole request body: a file the
   * client accepts at exactly 16 MiB travels in a multipart body that is longer
   * by its framing, and the route answers that request with a 500 carrying
   * werkzeug's 413 text, saving nothing and leaving the models untouched.
   */
  method FullSizeFileRefusedByServer(
    store: Models.ModelStore,
    mimeType: string,
    framing: nat,
    files: map<string, Upload.FileStorage>,
    timestamp: string,
    secureFilename: string -> string,
    uploadFolder: string,
    saveError: Option<string>,
    plan: Models.LoadPlan,
    inference: Models.Inference)
    returns (response: Api.Response, saved: Option<string>)
    requires mimeType in AllowedTypes && framing > 0
    modifies store
    ensures ValidateImage(FileInfo(MaxSize, mimeType)) == Accepted
    ensures response == Api.Response(Api.InternalServerError, Api.ErrorBody(Api.RequestTooLargeMessage))
    ensures saved == None && store.State() == old(store.State())
  {
    response, saved := Api.ApiPredict(store, MaxSize + framing, files, timestamp, secureFilename,
                                      uploadFolder, saveError, plan, inference);
  }

  /** The client's bound is the server's `MAX_CONTENT_LENGTH`. */
  lemma SameBoundAsServer(file: FileInfo)
    ensures MaxSize == Api.MaxContentLength
    ensures ValidateImage(file) == Accepted ==> file.size <= Api.MaxContentLength
  {
  }
}
