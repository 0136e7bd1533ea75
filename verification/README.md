# S3 decrypt handler — a verified model

The handler in `lambda/decrypt_function.py` is an AWS Lambda function. It
receives an EventBridge notification that an object was created in an S3
bucket. It downloads the object to `/tmp/` + the key's base name, "decrypts"
it into `<path>.decrypted` (a byte-for-byte copy in this code base), uploads
the result to `decrypted/` + key in the same bucket, and removes both
scratch files. Every exception on the way becomes a 500 response. The body
reads "Error processing S3 object: …" for a botocore `ClientError` and
"Error decrypting file: …" for any other exception. A notification that
lacks `detail`, `detail.bucket` or `detail.object` is answered 400. A key
already under `decrypted/` is answered 200 and skipped, so the handler's
own uploads do not trigger it again.

The model has eight modules:

- `Wrappers` (wrappers.dfy) holds the `Result` type of a call that may raise.
- `Python` (python.dfy) holds the decoded JSON event, the exceptions the
  handler can catch, and Python's `in`, `[]` and `startswith` on such
  values, with the `TypeError`/`KeyError` cases they raise.
- `Naming` (naming.dfy) derives the names: `rfind`, POSIX `basename`, the
  download path, the decrypted path and the destination key.
- `Routing` (routing.dfy) is the decision taken at lines 30–48: reject
  (400), raise (500), skip (200) or proceed with a bucket and a key.
- `Pipeline` (pipeline.dfy) holds the effects as functions on a snapshot
  `World`. The snapshot is the object store (bucket and key to bytes), the
  `/tmp` files (path to bytes) and the log of calls made. A fault map lets
  the environment make any call raise any exception; a faulted call is
  logged and changes nothing else. `Handle` is the whole handler,
  `Process` is the `try` body from the download on, and `Fetch`,
  `Transform`, `Store` and `Cleanup` are its stages.
- `Runtime` (runtime.dfy) is a class `Environment` whose fields the handler
  updates in place. `LambdaHandler` is the straight-line handler, with an
  early `return` at each failing call. Each method is proved equal to its
  `Pipeline` function.
- `Properties` (properties.dfy) holds what an invocation does: which
  events make no call, the exact calls and their order, that a failure
  stops every later call, what success leaves behind, and the converse of
  success.
- `Scenarios` (scenarios.dfy) restates the handler's unit tests of
  `tests/test_lambda.py` in the model.

Where one might expect otherwise, the model follows the code:

- A failing `os.remove` after a successful upload is inside the `try`, so
  it yields 500 and keeps the uploaded object (`FailureStopsLaterSteps`,
  i = 3 or 4). It is not a logged, non-fatal cleanup error.
- `detail.bucket` without `name`, or `detail.object` without `key`, passes
  the structure condition and raises `KeyError`, which gives 500, not 400
  (`BucketWithoutNameRaises`, `ObjectWithoutKeyRaises`).
- Scratch files are not namespaced per invocation. They are
  `/tmp/<basename>` and `/tmp/<basename>.decrypted`. A file already there
  under that name is overwritten and then removed. Two keys with the same
  base name share a scratch file.
- On a failure path nothing is removed: no call follows the failing one.
  The scratch files written so far stay in `/tmp`.

## Model

| member | source | states |
|---|---|---|
| `Python.In` | lambda/decrypt_function.py:30 | `x in v` raises exactly when `v` is neither dict, str nor list; on a dict it is key membership |
| `Python.Subscript` | lambda/decrypt_function.py:30-32 | `v[k]` succeeds exactly when `v` is a dict holding `k`, with that entry; a dict without `k` raises `KeyError(k)` |
| `Python.Str` | lambda/decrypt_function.py:83-94 | definition of `str(e)` for each exception the handler can catch, in CPython's and botocore's wording; no contract of its own, its use is stated by `Pipeline.ErrorText` |
| `Python.StartsWith` | lambda/decrypt_function.py:43 | definition of `str.startswith`; no contract of its own, its use is stated by `Routing.Route` and `Naming.DestinationKeyParts` |
| `Routing.ShapeCheck` | lambda/decrypt_function.py:30 | on a dict event without `detail` the condition is false; on a dict event whose `detail` is a dict it is true exactly when `bucket` and `object` are both present; an event that is not a dict, str or list raises |
| `Routing.Lookup` | lambda/decrypt_function.py:31-32 | `event['detail'][field][name]` succeeds exactly when every level is a dict holding the next name, with the innermost entry; a missing last name raises `KeyError(name)` |
| `Routing.Route` | lambda/decrypt_function.py:30-48 | 400 exactly when the structure condition is false; an exception in that condition or in either lookup raises it; once both lookups succeed, a non-str key raises `AttributeError`, a key with the `decrypted/` prefix is skipped and any other key proceeds with the looked-up bucket and key; conversely, proceeding means both lookups succeeded and the key lacks the prefix |
| `Routing.S3EventFields` | lambda/decrypt_function.py:31-32 | both lookups on a well-formed notification return its bucket name and its key |
| `Routing.RouteOfS3Event` | lambda/decrypt_function.py:30-48 | a well-formed notification is skipped if and only if its key starts with `decrypted/`, and otherwise proceeds with its bucket and key |
| `Routing.DerivedKeySkipped` | lambda/decrypt_function.py:43-60 | any event, however it is shaped, whose bucket lookup succeeds and whose key is a destination key `decrypted/` + k is skipped |
| `Routing.MissingFieldsRejected` | lambda/decrypt_function.py:30-38 | a dict event without `detail` is rejected; with a dict `detail`, it is rejected if and only if `bucket` or `object` is missing |
| `Routing.BucketWithoutNameRaises` | lambda/decrypt_function.py:30-31 | `detail.bucket` without `name` raises `KeyError('name')` instead of being rejected |
| `Routing.ObjectWithoutKeyRaises` | lambda/decrypt_function.py:30-32 | `detail.object` without `key` raises `KeyError('key')` instead of being rejected |
| `Routing.WrongFormatRejected` | tests/test_lambda.py:76-93 | `{"wrong_format": true}` is rejected |
| `Naming.Basename` | lambda/decrypt_function.py:51 | definition of POSIX `os.path.basename`: the text after the last '/'; no contract of its own, its properties are `Naming.BasenameIsLastSegment` and `Naming.BasenameAfterSlash` |
| `Naming.DownloadPath` | lambda/decrypt_function.py:51 | definition of `/tmp/` + base name; no contract of its own, its properties are `Naming.DownloadPathInTmp` and `Naming.ScratchPathsDiffer` |
| `Naming.DecryptedPath` | lambda/decrypt_function.py:107 | definition of `path + ".decrypted"`; no contract of its own, its properties are `Naming.ScratchPathsDiffer` and `Pipeline.Decrypt` |
| `Naming.DestinationKey` | lambda/decrypt_function.py:60 | definition of `decrypted/` + key; no contract of its own, its properties are `Naming.DestinationKeyParts` and `Naming.DestinationKeyInjective` |
| `Naming.RFind` | lambda/decrypt_function.py:51 | the index `rfind` returns lies in -1 up to the length minus one |
| `Naming.RFindIsLast` | lambda/decrypt_function.py:51 | `rfind` finds the character at that index and nowhere after it |
| `Naming.BasenameIsLastSegment` | lambda/decrypt_function.py:51 | the base name is a '/'-free suffix of the path, preceded by '/' or by nothing |
| `Naming.BasenameAfterSlash` | lambda/decrypt_function.py:51 | the base name of `dir/name` is `name` when `name` holds no '/' |
| `Naming.DownloadPathInTmp` | lambda/decrypt_function.py:51 | the download path is `/tmp/` followed by exactly the key's base name; it names a directory exactly when that base name is "", "." or ".." |
| `Naming.TestKeyBasename` | lambda/decrypt_function.py:51 | the base name of the test key `incoming/test-file.txt` is `test-file.txt` |
| `Naming.DownloadPathExample` | tests/test_lambda.py:45-47 | `incoming/test-file.txt` is downloaded to `/tmp/test-file.txt` |
| `Naming.ScratchPathsDiffer` | lambda/decrypt_function.py:107 | the output path differs from the input path and never names a directory |
| `Naming.DestinationKeyParts` | lambda/decrypt_function.py:60 | the destination key starts with `decrypted/`, followed by the whole source key |
| `Naming.DestinationKeyInjective` | lambda/decrypt_function.py:60 | distinct keys have distinct destinations, and no key is its own destination |
| `Pipeline.ErrorText` | lambda/decrypt_function.py:83-94 | the body starts with "Error processing S3 object: " exactly for a `ClientError` and with "Error decrypting file: " exactly for every other exception, followed by `str(e)` |
| `Pipeline.Download` | lambda/decrypt_function.py:52 | the call is logged and the store is unchanged; success exactly when unfaulted, the bucket is a str, the object exists and the path is not a directory; success writes the object's bytes to the path, failure writes nothing |
| `Pipeline.Decrypt` | lambda/decrypt_function.py:96-118 | success exactly when unfaulted and the input exists; it returns `path + ".decrypted"`, which differs from `path`; the file map afterwards is the old one with the output set to the input's bytes, so every other file, the input included, is unchanged |
| `Pipeline.Upload` | lambda/decrypt_function.py:61 | the files are unchanged; success exactly when unfaulted, the file exists and the bucket is a str, and then the file's bytes are stored under (bucket, key) |
| `Pipeline.Remove` | lambda/decrypt_function.py:65-66 | success exactly when unfaulted and the file exists; it deletes exactly that file |
| `Pipeline.Handle` | lambda/decrypt_function.py:14-94 | definition of the whole handler: route, then answer or run the `try` body; no contract of its own, its behaviour is stated by the `Properties` lemmas and `Runtime.Environment.LambdaHandler` is proved equal to it |
| `Pipeline.Process` | lambda/decrypt_function.py:50-94 | definition of the `try` body from line 50 on, with the scratch file at `/tmp/` + base name; stated by `Properties.CallsFollowPlan`, `Properties.FailureStopsLaterSteps`, `Properties.SuccessfulRun` and `Properties.SucceedsOnlyIfEveryStepSucceeds` |
| `Pipeline.Fetch` | lambda/decrypt_function.py:52-94 | definition of the stage from the download on; stated by `Properties.FetchSteps`, `Properties.FetchFault` and `Properties.FetchSucceeds` |
| `Pipeline.Transform` | lambda/decrypt_function.py:56-94 | definition of the stage from `decrypt_file` on; stated by `Properties.TransformSteps`, `Properties.TransformFault` and `Properties.TransformSucceeds` |
| `Pipeline.Store` | lambda/decrypt_function.py:60-94 | definition of the stage from the upload on; stated by `Properties.StoreSteps`, `Properties.StoreFault` and `Properties.StoreSucceeds` |
| `Pipeline.Cleanup` | lambda/decrypt_function.py:65-94 | definition of the two removals and the success response; stated by `Properties.CleanupSteps`, `Properties.CleanupFault` and `Properties.CleanupSucceeds` |
| `Properties.NoCallsUnlessProceed` | lambda/decrypt_function.py:30-48 | a rejected, skipped or raising event makes no call and changes nothing, answering 400, the skip message or 500 |
| `Properties.OwnOutputIgnored` | lambda/decrypt_function.py:43-60 | any event whose bucket lookup succeeds and whose key is the handler's own upload key makes no call, changes nothing and answers the skip message |
| `Properties.CleanupSteps` | lambda/decrypt_function.py:65-66 | the removals log one or both remove calls of the plan, and stopping after one answers 500 |
| `Properties.StoreSteps` | lambda/decrypt_function.py:60-66 | from the upload on, the log grows by a non-empty prefix of the remaining plan, and a short prefix answers 500 |
| `Properties.TransformSteps` | lambda/decrypt_function.py:56-66 | from `decrypt_file` on, the log grows by a non-empty prefix of the remaining plan, and a short prefix answers 500 |
| `Properties.FetchSteps` | lambda/decrypt_function.py:52-66 | from the download on, the log grows by a non-empty prefix of the five planned calls, and a short prefix answers 500 |
| `Properties.CallsFollowPlan` | lambda/decrypt_function.py:50-66 | a proceeding invocation's calls are a non-empty prefix of download, decrypt, upload, remove, remove; the first is the download to `/tmp/` + base name; stopping short answers 500 |
| `Properties.DownloadFailureStops` | lambda/decrypt_function.py:52 | a failing download is the only call and changes nothing else, with the 500 for its exception: the fault, a non-`ClientError` raised before any request for a non-str bucket (modelled as `ParamValidationError`), or a 404 `ClientError` for a missing object |
| `Properties.CleanupFault` | lambda/decrypt_function.py:65-66 | a faulted removal stops the invocation there with the 500 for its exception |
| `Properties.StoreFault` | lambda/decrypt_function.py:61-66 | a fault from the upload on stops the invocation there; the store changes only if the upload ran |
| `Properties.TransformFault` | lambda/decrypt_function.py:56-66 | a fault from `decrypt_file` on stops the invocation there; the store changes only if the upload ran |
| `Properties.FetchFault` | lambda/decrypt_function.py:52-66 | after a successful download, a fault at a later call stops the invocation there |
| `Properties.FailureStopsLaterSteps` | lambda/decrypt_function.py:50-94 | if call i is the first faulted one, exactly calls 0..i are made, the response is the 500 for its exception, and the store changes only when the upload (call 2) ran |
| `Properties.CleanupSucceeds` | lambda/decrypt_function.py:65-81 | both removals succeeding delete exactly the two scratch files and answer the success report |
| `Properties.StoreSucceeds` | lambda/decrypt_function.py:60-81 | from the upload on, success stores the decrypted bytes under the destination key and removes both scratch files |
| `Properties.TransformSucceeds` | lambda/decrypt_function.py:56-81 | from `decrypt_file` on, success stores the downloaded bytes under the destination key and removes both scratch files |
| `Properties.FetchSucceeds` | lambda/decrypt_function.py:52-81 | from the download on, success copies the object to the destination key and leaves no scratch file |
| `Properties.SuccessfulRun` | lambda/decrypt_function.py:50-81 | with nothing faulted and the object fetchable: exactly the five planned calls in order, 200 with source and destination, the object copied to `decrypted/` + key, and both scratch files gone |
| `Properties.SucceedsOnlyIfEveryStepSucceeds` | lambda/decrypt_function.py:50-94 | a proceeding invocation answers 200 or 500, and 200 if and only if the object is fetchable and no planned call is faulted |
| `Properties.RerunIsIdempotent` | lambda/decrypt_function.py:50-81 | a second successful run on the same source gives the same response and the same store |
| `Runtime.Environment.DownloadFile` | lambda/decrypt_function.py:52 | the new state and the result are those of `Download` |
| `Runtime.Environment.DecryptFile` | lambda/decrypt_function.py:96-118 | the new state and the returned path are those of `Decrypt` |
| `Runtime.Environment.UploadFile` | lambda/decrypt_function.py:61 | the new state and the result are those of `Upload` |
| `Runtime.Environment.RemoveFile` | lambda/decrypt_function.py:65-66 | the new state and the result are those of `Remove` |
| `Runtime.Environment.LambdaHandler` | lambda/decrypt_function.py:14-94 | the response and the new state are those of `Handle`, so every lemma of `Properties` holds of the method |
| `Scenarios.SuccessfulDecryption` | tests/test_lambda.py:14-48 | the test event answers 200 with "File decryption successful", after exactly the five calls with their literal arguments |
| `Scenarios.SuccessfulDecryptionStoresCopy` | tests/test_lambda.py:14-48 | the test run stores "test data" under `decrypted/incoming/test-file.txt` and leaves `/tmp` empty |
| `Scenarios.TestEventProceeds` | tests/test_lambda.py:22-31 | the test event proceeds and its object can be fetched |
| `Scenarios.TestRunSucceeds` | tests/test_lambda.py:14-48 | the test run makes the planned calls, answers the success report, copies the object and leaves no file |
| `Scenarios.DestinationOfTestKey` | lambda/decrypt_function.py:60 | the test key's destination is `decrypted/incoming/test-file.txt` |
| `Scenarios.DecryptedPathOfTestFile` | lambda/decrypt_function.py:107 | the test file's output is `/tmp/test-file.txt.decrypted` |
| `Scenarios.AlreadyDecryptedFile` | tests/test_lambda.py:50-74 | a key under `decrypted/` answers 200 "File already decrypted, skipping" with no call and no change |
| `Scenarios.InvalidEventStructure` | tests/test_lambda.py:76-93 | `{"wrong_format": true}` answers 400 "Invalid event structure" with no call and no change |
| `Scenarios.SuccessfulDecryptionOnEnvironment` | tests/test_lambda.py:14-48 | driving the environment object with the test event answers the success report (200, "File decryption successful") after exactly download, decrypt, upload to `decrypted/incoming/test-file.txt`, remove, remove; the object stored there is "test data" and no scratch file is left |
| `Scenarios.DownloadRaises` | tests/test_lambda.py:95-118 | a download raising `Exception("S3 error")` answers 500 for that exception, and the download is the only call |
| `Scenarios.DownloadRaisesText` | lambda/decrypt_function.py:89-94 | that response's body reads "Error decrypting file: S3 error" |

## Left out

- Logging (lines 8–9, 25, 34, 40 and the other `logger` calls) has no effect on the response or the environment.
- `json.dumps` of the body and its string escaping: the body is a structured value (`Body`), and `ErrorText` gives the text of an error body.
- JSON floats: event numbers are modelled as integers. No routing decision depends on them, but an error text names a float as `int`: a float `detail.object.key` raises `'float' object has no attribute 'startswith'` at line 43, which the model words with `'int'`.
- boto3 and S3 are abstract operations on a map from (bucket, key) to bytes. Exceptions the libraries raise for reasons the model does not track are injected through the fault map. This includes throttling, access denied, and the wrapping of upload `ClientError`s into `S3UploadFailedError`. `ParamValidationError`, the 404 `ClientError` and the OS errors are representative; their texts are not byte-exact copies.
- The filesystem is a map from path to bytes. Directories other than the ones a base name of "", "." or ".." points to, permissions and a full disk are not modelled; they reach the model only as injected faults.
- A partial write by `decrypt_file` or `download_file`: a faulted call changes nothing but the log.
- Concurrent invocations, timeouts and mid-flight aborts: each invocation is one sequential run.
- The `__main__` block (lines 120–134) and the test mocks of `tests/test_lambda.py`.
