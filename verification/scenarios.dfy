/**
 * The handler's unit-test scenarios, stated of the model: a successful
 * decryption, an already-decrypted key, a malformed event and a failing
 * download. Each lemma takes the scenario's values as parameters fixed by
 * its precondition rather than writing the literals into its body: a literal
 * string in the body lets the solver unfold the naming functions on it
 * character by character, which makes the proofs far more expensive.
 */
module Scenarios {
  import opened Wrappers
  import opened Python
  import opened Naming
  import opened Routing
  import opened Pipeline
  import opened Properties
  import opened Runtime

  /** The bytes of "test data". */
  const TestData: Bytes := [116, 101, 115, 116, 32, 100, 97, 116, 97]

  /** The object store of the tests: one object, no scratch files, no calls yet. */
  predicate TestWorld(w: World, bucket: string, key: string)
  {
    w == World(map[ObjectRef(bucket, key) := TestData], map[], [])
  }

  /**
   * The successful path: 200 with the success message, and exactly the
   * calls download to `/tmp/test-file.txt`, decrypt, upload to
   * `decrypted/incoming/test-file.txt`, remove, remove.
   */
  lemma SuccessfulDecryption(bucket: string, key: string, w: World)
    requires bucket == "test-bucket" && key == "incoming/test-file.txt"
    requires TestWorld(w, bucket, key)
    ensures var r := Handle(S3Event(bucket, key), w, map[]);
      r.response.statusCode == 200 &&
      r.response.body.Report? && r.response.body.message == "File decryption successful" &&
      r.after.log == [
        DownloadCall(JStr(bucket), key, "/tmp/test-file.txt"),
        DecryptCall("/tmp/test-file.txt"),
        UploadCall("/tmp/test-file.txt.decrypted", JStr(bucket), "decrypted/incoming/test-file.txt"),
        RemoveCall("/tmp/test-file.txt"),
        RemoveCall("/tmp/test-file.txt.decrypted")]
  {
    TestRunSucceeds(bucket, key, w);
    DownloadPathExample(key);
    DestinationOfTestKey(key);
    DecryptedPathOfTestFile(DownloadPath(key));
  }

  /** The successful path stores the bytes of the source under the destination key. */
  lemma SuccessfulDecryptionStoresCopy(bucket: string, key: string, w: World)
    requires bucket == "test-bucket" && key == "incoming/test-file.txt"
    requires TestWorld(w, bucket, key)
    ensures var r := Handle(S3Event(bucket, key), w, map[]);
      ObjectRef(bucket, "decrypted/incoming/test-file.txt") in r.after.objects &&
      r.after.objects[ObjectRef(bucket, "decrypted/incoming/test-file.txt")] == TestData &&
      r.after.files == map[]
  {
    TestRunSucceeds(bucket, key, w);
    DestinationOfTestKey(key);
  }

  /** The test event proceeds, and its object can be fetched. */
  lemma TestEventProceeds(bucket: string, key: string, w: World)
    requires bucket == "test-bucket" && key == "incoming/test-file.txt"
    requires TestWorld(w, bucket, key)
    ensures Route(S3Event(bucket, key)) == Proceed(JStr(bucket), key)
    ensures Fetchable(w, JStr(bucket), key)
  {
    assert Route(S3Event(bucket, key)) == Proceed(JStr(bucket), key) by {
      RouteOfS3Event(bucket, key);
      assert key[0] != DecryptedPrefix[0];
    }
    DownloadPathExample(key);
    DownloadPathInTmp(key);
  }

  /** The test run makes the planned calls and succeeds. */
  lemma TestRunSucceeds(bucket: string, key: string, w: World)
    requires bucket == "test-bucket" && key == "incoming/test-file.txt"
    requires TestWorld(w, bucket, key)
    ensures Handle(S3Event(bucket, key), w, map[]).after.log == Plan(JStr(bucket), key)
    ensures Handle(S3Event(bucket, key), w, map[]).response == SuccessResponse(JStr(bucket), key)
    ensures Handle(S3Event(bucket, key), w, map[]).after.objects ==
      w.objects[ObjectRef(bucket, DestinationKey(key)) := TestData]
    ensures Handle(S3Event(bucket, key), w, map[]).after.files == map[]
  {
    TestEventProceeds(bucket, key, w);
    SuccessfulRun(JStr(bucket), key, w, map[]);
  }

  lemma DestinationOfTestKey(key: string)
    requires key == "incoming/test-file.txt"
    ensures DestinationKey(key) == "decrypted/incoming/test-file.txt"
  {
  }

  lemma DecryptedPathOfTestFile(path: string)
    requires path == "/tmp/test-file.txt"
    ensures DecryptedPath(path) == "/tmp/test-file.txt.decrypted"
  {
  }

  /** A key already under `decrypted/` is skipped with a 200 and no call. */
  lemma AlreadyDecryptedFile(bucket: string, key: string, w: World)
    requires bucket == "test-bucket" && key == "decrypted/incoming/test-file.txt"
    ensures Handle(S3Event(bucket, key), w, map[]) ==
      Run(Response(200, Message("File already decrypted, skipping")), w)
  {
    var source := "incoming/test-file.txt";
    DestinationOfTestKey(source);
    S3EventFields(bucket, key);
    OwnOutputIgnored(S3Event(bucket, key), source, w, map[]);
  }

  /** `{"wrong_format": true}` is answered 400 with no call. */
  lemma InvalidEventStructure(w: World)
    ensures Handle(JDict(map["wrong_format" := JBool(true)]), w, map[]) ==
      Run(Response(400, Message("Invalid event structure")), w)
  {
    WrongFormatRejected();
  }

  /**
   * A download raising a plain `Exception("S3 error")` (not a `ClientError`)
   * is answered 500 with the generic prefix, and nothing after it is called.
   */
  lemma DownloadRaises(bucket: string, key: string, w: World, faults: Faults)
    requires bucket == "test-bucket" && key == "incoming/test-file.txt"
    requires TestWorld(w, bucket, key)
    requires faults == map[DownloadCall(JStr(bucket), key, "/tmp/test-file.txt") := OtherException("Exception", "S3 error")]
    ensures var r := Handle(S3Event(bucket, key), w, faults);
      r.response == Response(500, Error(OtherException("Exception", "S3 error"))) &&
      r.after == w.(log := [DownloadCall(JStr(bucket), key, "/tmp/test-file.txt")])
  {
    RouteOfS3Event(bucket, key);
    assert !StartsWith(key, DecryptedPrefix) by {
      assert key[0] != DecryptedPrefix[0];
    }
    DownloadPathExample(key);
  }

  /**
   * The same successful run, driven through the environment object: the
   * handler answers the success report after exactly the five calls of the
   * test, the decrypted object holds "test data" and `/tmp` is left empty.
   */
  method SuccessfulDecryptionOnEnvironment(bucket: string, key: string) returns (env: Environment, response: Response)
    requires bucket == "test-bucket" && key == "incoming/test-file.txt"
    ensures response == SuccessResponse(JStr(bucket), key)
    ensures response.statusCode == 200 && response.body.message == "File decryption successful"
    ensures env.log == [
      DownloadCall(JStr(bucket), key, "/tmp/test-file.txt"),
      DecryptCall("/tmp/test-file.txt"),
      UploadCall("/tmp/test-file.txt.decrypted", JStr(bucket), "decrypted/incoming/test-file.txt"),
      RemoveCall("/tmp/test-file.txt"),
      RemoveCall("/tmp/test-file.txt.decrypted")]
    ensures ObjectRef(bucket, "decrypted/incoming/test-file.txt") in env.objects
    ensures env.objects[ObjectRef(bucket, "decrypted/incoming/test-file.txt")] == TestData
    ensures env.files == map[]
  {
    env := new Environment(map[ObjectRef(bucket, key) := TestData], map[], map[]);
    ghost var w := env.Snapshot();
    response := env.LambdaHandler(S3Event(bucket, key));
    TestRunSucceeds(bucket, key, w);
    SuccessfulDecryption(bucket, key, w);
    SuccessfulDecryptionStoresCopy(bucket, key, w);
  }

  /** The body text of that response. */
  lemma DownloadRaisesText(e: Exception)
    requires e == OtherException("Exception", "S3 error")
    ensures ErrorText(e) == "Error decrypting file: S3 error"
  {
  }
}
