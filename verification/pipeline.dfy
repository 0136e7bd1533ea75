/**
 * The handler's effects, as functions on a snapshot of its environment:
 * the object store, the scratch directory /tmp and the log of the calls the
 * handler has made. Each call may be made to fail by the environment
 * (`faults`); a faulted call is logged and changes nothing else.
 */
module Pipeline {
  import opened Wrappers
  import opened Python
  import opened Naming
  import opened Routing

  newtype byte = x: int | 0 <= x < 256
  type Bytes = seq<byte>

  datatype ObjectRef = ObjectRef(bucket: string, key: string)

  /** One call the handler makes on the object store or the filesystem. */
  datatype Call =
    | DownloadCall(bucket: Json, key: string, path: string)   // s3_client.download_file
    | DecryptCall(path: string)                               // decrypt_file
    | UploadCall(path: string, bucket: Json, key: string)     // s3_client.upload_file
    | RemoveCall(path: string)                                // os.remove

  datatype World = World(objects: map<ObjectRef, Bytes>, files: map<string, Bytes>, log: seq<Call>)

  type Faults = map<Call, Exception>

  /** The outcome of one effect and the environment after it. */
  datatype Effect<T> = Effect(outcome: Result<T, Exception>, after: World)

  datatype Location = Location(bucket: Json, key: string)

  /**
   * The response body before `json.dumps`: a plain message, the success
   * report, or the message for a caught exception (rendered by `ErrorText`).
   */
  datatype Body =
    | Message(text: string)
    | Report(message: string, source: Location, destination: Location)
    | Error(error: Exception)

  datatype Response = Response(statusCode: int, body: Body)

  /** A whole invocation: the response and the environment it leaves. */
  datatype Run = Run(response: Response, after: World)

  const InvalidEvent := Response(400, Message("Invalid event structure"))
  const AlreadyDecrypted := Response(200, Message("File already decrypted, skipping"))
  const SuccessMessage := "File decryption successful"
  const S3ErrorPrefix := "Error processing S3 object: "
  const OtherErrorPrefix := "Error decrypting file: "

  /** The 500 response for a caught exception. */
  function ErrorResponse(e: Exception): Response
  {
    Response(500, Error(e))
  }

  /**
   * The text of an error body: only a `ClientError` is reported as an S3
   * error, every other exception as a decryption error.
   */
  function ErrorText(e: Exception): (text: string)
    ensures e.ClientError? <==> StartsWith(text, S3ErrorPrefix)
    ensures !e.ClientError? <==> StartsWith(text, OtherErrorPrefix)
    ensures text[|if e.ClientError? then S3ErrorPrefix else OtherErrorPrefix|..] == Str(e)
  {
    // The two prefixes part at their seventh character.
    assert S3ErrorPrefix[6] != OtherErrorPrefix[6];
    if e.ClientError? then S3ErrorPrefix + Str(e) else OtherErrorPrefix + Str(e)
  }

  function SuccessResponse(bucket: Json, key: string): Response
  {
    Response(200, Report(SuccessMessage, Location(bucket, key), Location(bucket, DestinationKey(key))))
  }

  /** `download_file` of an object that does not exist: S3 answers 404 to the HEAD request. */
  const NoSuchObject := ClientError("404", "HeadObject", "Not Found")

  /**
   * A bucket name that is not a string is refused with an exception other
   * than `ClientError` before any request; botocore's parameter validation
   * stands for it here.
   */
  const InvalidBucket := ParamValidationError("Bucket")

  /** `s3_client.download_file(bucket, key, path)` */
  function Download(w: World, faults: Faults, bucket: Json, key: string, path: string): (r: Effect<()>)
    ensures r.after.log == w.log + [DownloadCall(bucket, key, path)] && r.after.objects == w.objects
    ensures r.outcome.Success? <==>
      DownloadCall(bucket, key, path) !in faults && bucket.JStr? &&
      ObjectRef(bucket.s, key) in w.objects && !NamesDirectory(path)
    ensures r.outcome.Success? ==> r.after.files == w.files[path := w.objects[ObjectRef(bucket.s, key)]]
    ensures r.outcome.Failure? ==> r.after.files == w.files
  {
    var call := DownloadCall(bucket, key, path);
    var logged := w.(log := w.log + [call]);
    if call in faults then Effect(Failure(faults[call]), logged)
    else if !bucket.JStr? then Effect(Failure(InvalidBucket), logged)
    else if ObjectRef(bucket.s, key) !in w.objects then Effect(Failure(NoSuchObject), logged)
    else if NamesDirectory(path) then Effect(Failure(IsADirectoryError(path)), logged)
    else Effect(Success(()), logged.(files := w.files[path := w.objects[ObjectRef(bucket.s, key)]]))
  }

  /**
   * `decrypt_file(path)`: the mock decryption copies the input file, byte
   * for byte, to `path + ".decrypted"` and returns that path.
   */
  function Decrypt(w: World, faults: Faults, path: string): (r: Effect<string>)
    ensures r.after.log == w.log + [DecryptCall(path)] && r.after.objects == w.objects
    ensures r.outcome.Success? <==> DecryptCall(path) !in faults && path in w.files
    ensures r.outcome.Success? ==>
      var out := r.outcome.value;
      out == DecryptedPath(path) && out != path && r.after.files == w.files[out := w.files[path]]
    ensures r.outcome.Failure? ==> r.after.files == w.files
  {
    var call := DecryptCall(path);
    var logged := w.(log := w.log + [call]);
    var out := DecryptedPath(path);
    if call in faults then Effect(Failure(faults[call]), logged)
    else if path !in w.files then Effect(Failure(FileNotFoundError(path)), logged)
    else
      ScratchPathsDiffer(path);
      Effect(Success(out), logged.(files := w.files[out := w.files[path]]))
  }

  /** `s3_client.upload_file(path, bucket, key)` */
  function Upload(w: World, faults: Faults, path: string, bucket: Json, key: string): (r: Effect<()>)
    ensures r.after.log == w.log + [UploadCall(path, bucket, key)] && r.after.files == w.files
    ensures r.outcome.Success? <==> UploadCall(path, bucket, key) !in faults && path in w.files && bucket.JStr?
    ensures r.outcome.Success? ==> r.after.objects == w.objects[ObjectRef(bucket.s, key) := w.files[path]]
    ensures r.outcome.Failure? ==> r.after.objects == w.objects
  {
    var call := UploadCall(path, bucket, key);
    var logged := w.(log := w.log + [call]);
    if call in faults then Effect(Failure(faults[call]), logged)
    else if path !in w.files then Effect(Failure(FileNotFoundError(path)), logged)
    else if !bucket.JStr? then Effect(Failure(InvalidBucket), logged)
    else Effect(Success(()), logged.(objects := w.objects[ObjectRef(bucket.s, key) := w.files[path]]))
  }

  /** `os.remove(path)` */
  function Remove(w: World, faults: Faults, path: string): (r: Effect<()>)
    ensures r.after.log == w.log + [RemoveCall(path)] && r.after.objects == w.objects
    ensures r.outcome.Success? <==> RemoveCall(path) !in faults && path in w.files
    ensures r.outcome.Success? ==> r.after.files == w.files - {path}
    ensures r.outcome.Failure? ==> r.after.files == w.files
  {
    var call := RemoveCall(path);
    var logged := w.(log := w.log + [call]);
    if call in faults then Effect(Failure(faults[call]), logged)
    else if path !in w.files then Effect(Failure(FileNotFoundError(path)), logged)
    else Effect(Success(()), logged.(files := w.files - {path}))
  }

  /**
   * The calls a proceeding invocation makes, in order, when none of them
   * fails, given the scratch file `path` the object is downloaded to.
   */
  function Calls(bucket: Json, key: string, path: string): seq<Call>
  {
    [ DownloadCall(bucket, key, path),
      DecryptCall(path),
      UploadCall(DecryptedPath(path), bucket, DestinationKey(key)),
      RemoveCall(path),
      RemoveCall(DecryptedPath(path)) ]
  }

  /** The handler's plan: the calls above with the scratch file in /tmp. */
  function Plan(bucket: Json, key: string): seq<Call>
  {
    Calls(bucket, key, DownloadPath(key))
  }

  /** The `try` body from the download on, with both `except` clauses. */
  function Process(bucket: Json, key: string, w: World, faults: Faults): Run
  {
    Fetch(bucket, key, DownloadPath(key), w, faults)
  }

  /** From the download of the object to `path` on. */
  function Fetch(bucket: Json, key: string, path: string, w: World, faults: Faults): Run
  {
    var fetched := Download(w, faults, bucket, key, path);
    if fetched.outcome.Failure? then Run(ErrorResponse(fetched.outcome.error), fetched.after)
    else Transform(bucket, key, path, fetched.after, faults)
  }

  /** From `decrypt_file` on. */
  function Transform(bucket: Json, key: string, path: string, w: World, faults: Faults): Run
  {
    var decrypted := Decrypt(w, faults, path);
    if decrypted.outcome.Failure? then Run(ErrorResponse(decrypted.outcome.error), decrypted.after)
    else Store(bucket, key, path, decrypted.outcome.value, decrypted.after, faults)
  }

  /** From the upload of the decrypted file on. */
  function Store(bucket: Json, key: string, path: string, decryptedPath: string, w: World, faults: Faults): Run
  {
    var uploaded := Upload(w, faults, decryptedPath, bucket, DestinationKey(key));
    if uploaded.outcome.Failure? then Run(ErrorResponse(uploaded.outcome.error), uploaded.after)
    else Cleanup(bucket, key, path, decryptedPath, uploaded.after, faults)
  }

  /** The two `os.remove` calls and the success response. */
  function Cleanup(bucket: Json, key: string, path: string, decryptedPath: string, w: World, faults: Faults): Run
  {
    var removed := Remove(w, faults, path);
    if removed.outcome.Failure? then Run(ErrorResponse(removed.outcome.error), removed.after) else
    var cleaned := Remove(removed.after, faults, decryptedPath);
    if cleaned.outcome.Failure? then Run(ErrorResponse(cleaned.outcome.error), cleaned.after)
    else Run(SuccessResponse(bucket, key), cleaned.after)
  }

  /** `lambda_handler(event, context)` */
  function Handle(event: Json, w: World, faults: Faults): Run
  {
    match Route(event)
    case Reject => Run(InvalidEvent, w)
    case Raise(e) => Run(ErrorResponse(e), w)
    case Skip => Run(AlreadyDecrypted, w)
    case Proceed(bucket, key) => Process(bucket, key, w, faults)
  }

  /** The download succeeds unless the environment faults it. */
  predicate Fetchable(w: World, bucket: Json, key: string)
  {
    bucket.JStr? && ObjectRef(bucket.s, key) in w.objects && !NamesDirectory(DownloadPath(key))
  }

  /** None of `calls` is faulted. */
  predicate Unfaulted(faults: Faults, calls: seq<Call>)
  {
    forall j :: 0 <= j < |calls| ==> calls[j] !in faults
  }
}
