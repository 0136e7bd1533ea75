/**
 * The handler as it runs: a Lambda execution environment whose object
 * store, /tmp directory and call log the handler changes step by step.
 * Each method is tied to the corresponding function of `Pipeline`, so the
 * properties proved there hold of every run.
 */
module Runtime {
  import opened Wrappers
  import opened Python
  import opened Naming
  import opened Routing
  import opened Pipeline

  class Environment {
    var objects: map<ObjectRef, Bytes>
    var files: map<string, Bytes>
    var log: seq<Call>
    /** The calls this environment makes fail, and with which exception. */
    const faults: Faults

    function Snapshot(): World
      reads this
    {
      World(objects, files, log)
    }

    constructor (objects: map<ObjectRef, Bytes>, files: map<string, Bytes>, faults: Faults)
      ensures Snapshot() == World(objects, files, []) && this.faults == faults
    {
      this.objects := objects;
      this.files := files;
      this.log := [];
      this.faults := faults;
    }

    /** `s3_client.download_file(bucket, key, path)` */
    method DownloadFile(bucket: Json, key: string, path: string) returns (r: Result<(), Exception>)
      modifies this
      ensures Effect(r, Snapshot()) == Download(old(Snapshot()), faults, bucket, key, path)
    {
      var call := DownloadCall(bucket, key, path);
      log := log + [call];
      if call in faults {
        r := Failure(faults[call]);
      } else if !bucket.JStr? {
        r := Failure(InvalidBucket);
      } else if ObjectRef(bucket.s, key) !in objects {
        r := Failure(NoSuchObject);
      } else if NamesDirectory(path) {
        r := Failure(IsADirectoryError(path));
      } else {
        files := files[path := objects[ObjectRef(bucket.s, key)]];
        r := Success(());
      }
    }

    /** `decrypt_file(path)`: copy the file to `path + ".decrypted"` and return that path. */
    method DecryptFile(path: string) returns (r: Result<string, Exception>)
      modifies this
      ensures Effect(r, Snapshot()) == Decrypt(old(Snapshot()), faults, path)
    {
      var call := DecryptCall(path);
      log := log + [call];
      var outputPath := DecryptedPath(path);
      if call in faults {
        r := Failure(faults[call]);
      } else if path !in files {
        r := Failure(FileNotFoundError(path));
      } else {
        var content := files[path];
        files := files[outputPath := content];
        r := Success(outputPath);
      }
    }

    /** `s3_client.upload_file(path, bucket, key)` */
    method UploadFile(path: string, bucket: Json, key: string) returns (r: Result<(), Exception>)
      modifies this
      ensures Effect(r, Snapshot()) == Upload(old(Snapshot()), faults, path, bucket, key)
    {
      var call := UploadCall(path, bucket, key);
      log := log + [call];
      if call in faults {
        r := Failure(faults[call]);
      } else if path !in files {
        r := Failure(FileNotFoundError(path));
      } else if !bucket.JStr? {
        r := Failure(InvalidBucket);
      } else {
        objects := objects[ObjectRef(bucket.s, key) := files[path]];
        r := Success(());
      }
    }

    /** `os.remove(path)` */
    method RemoveFile(path: string) returns (r: Result<(), Exception>)
      modifies this
      ensures Effect(r, Snapshot()) == Remove(old(Snapshot()), faults, path)
    {
      var call := RemoveCall(path);
      log := log + [call];
      if call in faults {
        r := Failure(faults[call]);
      } else if path !in files {
        r := Failure(FileNotFoundError(path));
      } else {
        files := files - {path};
        r := Success(());
      }
    }

    /**
     * `lambda_handler(event, context)`: route the event, then download,
     * decrypt, upload and remove both scratch files, turning the first
     * exception into a 500 response.
     */
    method LambdaHandler(event: Json) returns (response: Response)
      modifies this
      ensures Run(response, Snapshot()) == Handle(event, old(Snapshot()), faults)
    {
      match Route(event)
      case Reject =>
        return InvalidEvent;
      case Raise(e) =>
        return ErrorResponse(e);
      case Skip =>
        return AlreadyDecrypted;
      case Proceed(bucketName, objectKey) =>
        var downloadPath := DownloadPath(objectKey);
        var downloaded := DownloadFile(bucketName, objectKey, downloadPath);
        if downloaded.Failure? {
          return ErrorResponse(downloaded.error);
        }
        var decrypted := DecryptFile(downloadPath);
        if decrypted.Failure? {
          return ErrorResponse(decrypted.error);
        }
        var decryptedPath := decrypted.value;
        var decryptedKey := DestinationKey(objectKey);
        var uploaded := UploadFile(decryptedPath, bucketName, decryptedKey);
        if uploaded.Failure? {
          return ErrorResponse(uploaded.error);
        }
        var removed := RemoveFile(downloadPath);
        if removed.Failure? {
          return ErrorResponse(removed.error);
        }
        removed := RemoveFile(decryptedPath);
        if removed.Failure? {
          return ErrorResponse(removed.error);
        }
        response := SuccessResponse(bucketName, objectKey);
    }
  }
}
