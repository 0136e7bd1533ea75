/**
 * What an invocation of the handler does to its environment, stated over
 * the functions of `Pipeline`: which events cause no calls at all, which
 * calls are made and with what arguments, that a failing call stops every
 * later one, and what a successful invocation leaves behind. The stage
 * lemmas follow `Process`, `Transform`, `Store` and `Cleanup` one call at
 * a time.
 */
module Properties {
  import opened Wrappers
  import opened Python
  import opened Naming
  import opened Routing
  import opened Pipeline

  /** A rejected, skipped or early-failing event makes no call and changes nothing. */
  lemma NoCallsUnlessProceed(event: Json, w: World, faults: Faults)
    requires !Route(event).Proceed?
    ensures Handle(event, w, faults).after == w
    ensures Route(event).Reject? ==> Handle(event, w, faults).response == InvalidEvent
    ensures Route(event).Skip? ==> Handle(event, w, faults).response == AlreadyDecrypted
    ensures Route(event).Raise? ==> Handle(event, w, faults).response.statusCode == 500
  {
  }

  /**
   * Any notification for the handler's own upload, whatever else it
   * carries, makes no call and changes nothing.
   */
  lemma OwnOutputIgnored(event: Json, key: string, w: World, faults: Faults)
    requires Lookup(event, "bucket", "name").Success?
    requires Lookup(event, "object", "key") == Success(JStr(DestinationKey(key)))
    ensures Handle(event, w, faults) == Run(AlreadyDecrypted, w)
  {
    DerivedKeySkipped(event, key);
  }

  // ---- How far an invocation gets ------------------------------------------

  /** Peeling the first element off a slice. */
  lemma SliceCons(s: seq<Call>, lo: nat, hi: nat)
    requires lo < hi <= |s|
    ensures s[lo..hi] == [s[lo]] + s[lo + 1..hi]
    ensures lo == 0 ==> s[..hi] == s[lo..hi]
  {
  }

  /** A log extended by one call and then by a slice of calls. */
  lemma LogThenSlice(log: seq<Call>, s: seq<Call>, lo: nat, hi: nat)
    requires lo < hi <= |s|
    ensures log + [s[lo]] + s[lo + 1..hi] == log + s[lo..hi]
    ensures lo == 0 ==> s[..hi] == s[lo..hi]
  {
    SliceCons(s, lo, hi);
  }

  /** How many of the two removals are attempted. */
  function CleanupSteps(bucket: Json, key: string, path: string, w: World, faults: Faults): (n: nat)
    ensures 1 <= n <= 2
    ensures Cleanup(bucket, key, path, DecryptedPath(path), w, faults).after.log ==
      w.log + Calls(bucket, key, path)[3..3 + n]
    ensures n < 2 ==> Cleanup(bucket, key, path, DecryptedPath(path), w, faults).response.statusCode == 500
  {
    var calls := Calls(bucket, key, path);
    SliceCons(calls, 3, 4);
    SliceCons(calls, 3, 5);
    SliceCons(calls, 4, 5);
    if Remove(w, faults, path).outcome.Failure? then 1 else 2
  }

  /** How many calls from the upload on are attempted. */
  function StoreSteps(bucket: Json, key: string, path: string, w: World, faults: Faults): (n: nat)
    ensures 1 <= n <= 3
    ensures Store(bucket, key, path, DecryptedPath(path), w, faults).after.log ==
      w.log + Calls(bucket, key, path)[2..2 + n]
    ensures n < 3 ==> Store(bucket, key, path, DecryptedPath(path), w, faults).response.statusCode == 500
  {
    var calls := Calls(bucket, key, path);
    var uploaded := Upload(w, faults, DecryptedPath(path), bucket, DestinationKey(key));
    SliceCons(calls, 2, 3);
    if uploaded.outcome.Failure? then 1 else
    var m := CleanupSteps(bucket, key, path, uploaded.after, faults);
    LogThenSlice(w.log, calls, 2, 3 + m);
    1 + m
  }

  /** How many calls from `decrypt_file` on are attempted. */
  function TransformSteps(bucket: Json, key: string, path: string, w: World, faults: Faults): (n: nat)
    ensures 1 <= n <= 4
    ensures Transform(bucket, key, path, w, faults).after.log == w.log + Calls(bucket, key, path)[1..1 + n]
    ensures n < 4 ==> Transform(bucket, key, path, w, faults).response.statusCode == 500
  {
    var calls := Calls(bucket, key, path);
    var decrypted := Decrypt(w, faults, path);
    SliceCons(calls, 1, 2);
    if decrypted.outcome.Failure? then 1 else
    var m := StoreSteps(bucket, key, path, decrypted.after, faults);
    LogThenSlice(w.log, calls, 1, 2 + m);
    1 + m
  }

  /** How many calls from the download on are attempted. */
  function FetchSteps(bucket: Json, key: string, path: string, w: World, faults: Faults): (n: nat)
    ensures 1 <= n <= 5
    ensures Fetch(bucket, key, path, w, faults).after.log == w.log + Calls(bucket, key, path)[..n]
    ensures n < 5 ==> Fetch(bucket, key, path, w, faults).response.statusCode == 500
  {
    var calls := Calls(bucket, key, path);
    var fetched := Download(w, faults, bucket, key, path);
    SliceCons(calls, 0, 1);
    if fetched.outcome.Failure? then 1 else
    var m := TransformSteps(bucket, key, path, fetched.after, faults);
    LogThenSlice(w.log, calls, 0, 1 + m);
    1 + m
  }

  /**
   * The calls of a proceeding invocation are always a non-empty prefix of the
   * plan, and a run that stops short answers 500: the first call is the
   * download of the key to `/tmp/` + its base name, and nothing is called
   * out of order.
   */
  lemma CallsFollowPlan(bucket: Json, key: string, w: World, faults: Faults)
    ensures var r := Process(bucket, key, w, faults);
      exists n :: 1 <= n <= 5 && r.after.log == w.log + Plan(bucket, key)[..n] &&
        (n < 5 ==> r.response.statusCode == 500)
    ensures var r := Process(bucket, key, w, faults);
      |r.after.log| > |w.log| && r.after.log[|w.log|] == DownloadCall(bucket, key, TmpDir + Basename(key))
  {
    var plan := Plan(bucket, key);
    var n := FetchSteps(bucket, key, DownloadPath(key), w, faults);
    assert (w.log + plan[..n])[|w.log|] == plan[0];
  }

  // ---- A failing call stops every later one --------------------------------

  /**
   * A download that fails, for whatever reason, is the only call: nothing
   * else changes, and the response is the 500 for the download's exception,
   * which is a non-`ClientError` raised before any request for a bucket name
   * that is not a string and a 404 `ClientError` for a missing object.
   */
  lemma DownloadFailureStops(bucket: Json, key: string, w: World, faults: Faults)
    requires !Fetchable(w, bucket, key) || Plan(bucket, key)[0] in faults
    ensures var r := Process(bucket, key, w, faults);
      r.after == w.(log := w.log + [Plan(bucket, key)[0]]) && r.response.statusCode == 500
    ensures Plan(bucket, key)[0] in faults ==>
      Process(bucket, key, w, faults).response == ErrorResponse(faults[Plan(bucket, key)[0]])
    ensures Plan(bucket, key)[0] !in faults && !bucket.JStr? ==>
      Process(bucket, key, w, faults).response == ErrorResponse(InvalidBucket)
    ensures Plan(bucket, key)[0] !in faults && bucket.JStr? && ObjectRef(bucket.s, key) !in w.objects ==>
      Process(bucket, key, w, faults).response == ErrorResponse(NoSuchObject)
  {
  }

  lemma CleanupFault(bucket: Json, key: string, path: string, w: World, faults: Faults, i: nat)
    requires 3 <= i < 5
    requires path in w.files && DecryptedPath(path) in w.files
    requires forall j :: 3 <= j < i ==> Calls(bucket, key, path)[j] !in faults
    requires Calls(bucket, key, path)[i] in faults
    ensures var r := Cleanup(bucket, key, path, DecryptedPath(path), w, faults);
      r.after.log == w.log + Calls(bucket, key, path)[3..i + 1] &&
      r.response == ErrorResponse(faults[Calls(bucket, key, path)[i]]) &&
      r.after.objects == w.objects
  {
    var calls := Calls(bucket, key, path);
    SliceCons(calls, 3, 4);
    SliceCons(calls, 3, 5);
    SliceCons(calls, 4, 5);
  }

  lemma StoreFault(bucket: Json, key: string, path: string, w: World, faults: Faults, i: nat)
    requires 2 <= i < 5
    requires bucket.JStr?
    requires path in w.files && DecryptedPath(path) in w.files
    requires forall j :: 2 <= j < i ==> Calls(bucket, key, path)[j] !in faults
    requires Calls(bucket, key, path)[i] in faults
    ensures var r := Store(bucket, key, path, DecryptedPath(path), w, faults);
      r.after.log == w.log + Calls(bucket, key, path)[2..i + 1] &&
      r.response == ErrorResponse(faults[Calls(bucket, key, path)[i]]) &&
      r.after.objects == if i == 2 then w.objects
        else w.objects[ObjectRef(bucket.s, DestinationKey(key)) := w.files[DecryptedPath(path)]]
  {
    var calls := Calls(bucket, key, path);
    SliceCons(calls, 2, 3);
    if i > 2 {
      var uploaded := Upload(w, faults, DecryptedPath(path), bucket, DestinationKey(key));
      CleanupFault(bucket, key, path, uploaded.after, faults, i);
      LogThenSlice(w.log, calls, 2, i + 1);
    }
  }

  lemma TransformFault(bucket: Json, key: string, path: string, w: World, faults: Faults, i: nat)
    requires 1 <= i < 5
    requires bucket.JStr? && path in w.files
    requires forall j :: 1 <= j < i ==> Calls(bucket, key, path)[j] !in faults
    requires Calls(bucket, key, path)[i] in faults
    ensures var r := Transform(bucket, key, path, w, faults);
      r.after.log == w.log + Calls(bucket, key, path)[1..i + 1] &&
      r.response == ErrorResponse(faults[Calls(bucket, key, path)[i]]) &&
      r.after.objects == if i <= 2 then w.objects
        else w.objects[ObjectRef(bucket.s, DestinationKey(key)) := w.files[path]]
  {
    var calls := Calls(bucket, key, path);
    SliceCons(calls, 1, 2);
    if i > 1 {
      var decrypted := Decrypt(w, faults, path);
      StoreFault(bucket, key, path, decrypted.after, faults, i);
      LogThenSlice(w.log, calls, 1, i + 1);
    }
  }

  lemma FetchFault(bucket: Json, key: string, path: string, w: World, faults: Faults, i: nat)
    requires 1 <= i < 5
    requires forall j :: 0 <= j < i ==> Calls(bucket, key, path)[j] !in faults
    requires bucket.JStr? && ObjectRef(bucket.s, key) in w.objects && !NamesDirectory(path)
    requires Calls(bucket, key, path)[i] in faults
    ensures var r := Fetch(bucket, key, path, w, faults);
      r.after.log == w.log + Calls(bucket, key, path)[..i + 1] &&
      r.response == ErrorResponse(faults[Calls(bucket, key, path)[i]]) &&
      r.after.objects == if i <= 2 then w.objects
        else w.objects[ObjectRef(bucket.s, DestinationKey(key)) := w.objects[ObjectRef(bucket.s, key)]]
  {
    var calls := Calls(bucket, key, path);
    var fetched := Download(w, faults, bucket, key, path);
    assert calls[0] !in faults;
    assert Fetch(bucket, key, path, w, faults) == Transform(bucket, key, path, fetched.after, faults);
    TransformFault(bucket, key, path, fetched.after, faults, i);
    LogThenSlice(w.log, calls, 0, i + 1);
  }

  /**
   * If the first `i` planned calls are not faulted (and the download can
   * succeed, when `i > 0`) and call `i` is, the invocation stops right
   * there: no later call is made, the response is the 500 for that call's
   * exception, and the store is unchanged unless the upload was reached
   * and succeeded.
   */
  lemma FailureStopsLaterSteps(bucket: Json, key: string, w: World, faults: Faults, i: nat)
    requires i < 5
    requires Unfaulted(faults, Plan(bucket, key)[..i])
    requires 0 < i ==> Fetchable(w, bucket, key)
    requires Plan(bucket, key)[i] in faults
    ensures var r := Process(bucket, key, w, faults);
      r.after.log == w.log + Plan(bucket, key)[..i + 1] &&
      r.response == ErrorResponse(faults[Plan(bucket, key)[i]])
    ensures i <= 2 ==> Process(bucket, key, w, faults).after.objects == w.objects
    ensures 2 < i ==>
      Process(bucket, key, w, faults).after.objects ==
        w.objects[ObjectRef(bucket.s, DestinationKey(key)) := w.objects[ObjectRef(bucket.s, key)]]
  {
    var plan := Plan(bucket, key);
    if i == 0 {
      SliceCons(plan, 0, 1);
    } else {
      forall j | 0 <= j < i ensures plan[j] !in faults {
        assert plan[..i][j] == plan[j];
      }
      FetchFault(bucket, key, DownloadPath(key), w, faults, i);
    }
  }

  // ---- The successful invocation -------------------------------------------

  lemma CleanupSucceeds(bucket: Json, key: string, path: string, w: World, faults: Faults)
    requires path in w.files && DecryptedPath(path) in w.files
    requires RemoveCall(path) !in faults && RemoveCall(DecryptedPath(path)) !in faults
    ensures var r := Cleanup(bucket, key, path, DecryptedPath(path), w, faults);
      r.response == SuccessResponse(bucket, key) && r.after.objects == w.objects &&
      r.after.files == w.files - {path, DecryptedPath(path)}
  {
    ScratchPathsDiffer(path);
    var removed := Remove(w, faults, path);
    assert removed.after.files - {DecryptedPath(path)} == w.files - {path, DecryptedPath(path)};
  }

  lemma StoreSucceeds(bucket: Json, key: string, path: string, w: World, faults: Faults)
    requires bucket.JStr?
    requires path in w.files && DecryptedPath(path) in w.files
    requires forall j :: 2 <= j < 5 ==> Calls(bucket, key, path)[j] !in faults
    ensures var r := Store(bucket, key, path, DecryptedPath(path), w, faults);
      r.response == SuccessResponse(bucket, key) &&
      r.after.objects == w.objects[ObjectRef(bucket.s, DestinationKey(key)) := w.files[DecryptedPath(path)]] &&
      r.after.files == w.files - {path, DecryptedPath(path)}
  {
    var calls := Calls(bucket, key, path);
    assert calls[2] !in faults && calls[3] !in faults && calls[4] !in faults;
    var uploaded := Upload(w, faults, DecryptedPath(path), bucket, DestinationKey(key));
    CleanupSucceeds(bucket, key, path, uploaded.after, faults);
  }

  lemma TransformSucceeds(bucket: Json, key: string, path: string, w: World, faults: Faults)
    requires bucket.JStr? && path in w.files
    requires forall j :: 1 <= j < 5 ==> Calls(bucket, key, path)[j] !in faults
    ensures var r := Transform(bucket, key, path, w, faults);
      r.response == SuccessResponse(bucket, key) &&
      r.after.objects == w.objects[ObjectRef(bucket.s, DestinationKey(key)) := w.files[path]] &&
      r.after.files == w.files - {path, DecryptedPath(path)}
  {
    var calls := Calls(bucket, key, path);
    assert calls[1] !in faults;
    var decrypted := Decrypt(w, faults, path);
    StoreSucceeds(bucket, key, path, decrypted.after, faults);
    assert decrypted.after.files - {path, DecryptedPath(path)} == w.files - {path, DecryptedPath(path)};
  }

  lemma FetchSucceeds(bucket: Json, key: string, path: string, w: World, faults: Faults)
    requires bucket.JStr? && ObjectRef(bucket.s, key) in w.objects && !NamesDirectory(path)
    requires Unfaulted(faults, Calls(bucket, key, path))
    ensures var r := Fetch(bucket, key, path, w, faults);
      r.response == SuccessResponse(bucket, key) &&
      r.after.objects == w.objects[ObjectRef(bucket.s, DestinationKey(key)) := w.objects[ObjectRef(bucket.s, key)]] &&
      r.after.files == w.files - {path, DecryptedPath(path)}
  {
    var calls := Calls(bucket, key, path);
    assert calls[0] !in faults;
    var fetched := Download(w, faults, bucket, key, path);
    TransformSucceeds(bucket, key, path, fetched.after, faults);
    assert fetched.after.files - {path, DecryptedPath(path)} == w.files - {path, DecryptedPath(path)};
  }

  /**
   * With every planned call unfaulted and the object fetchable, the
   * invocation makes exactly the planned calls, answers 200 with the source
   * and destination, copies the object's bytes to `decrypted/` + key in the
   * same bucket, and leaves neither scratch file behind.
   */
  lemma SuccessfulRun(bucket: Json, key: string, w: World, faults: Faults)
    requires Fetchable(w, bucket, key)
    requires Unfaulted(faults, Plan(bucket, key))
    ensures var r := Process(bucket, key, w, faults);
      r.response == Response(200, Report(SuccessMessage, Location(bucket, key), Location(bucket, DestinationKey(key))))
    ensures Process(bucket, key, w, faults).after.log == w.log + Plan(bucket, key)
    ensures Process(bucket, key, w, faults).after.objects ==
      w.objects[ObjectRef(bucket.s, DestinationKey(key)) := w.objects[ObjectRef(bucket.s, key)]]
    ensures Process(bucket, key, w, faults).after.files ==
      w.files - {DownloadPath(key), DecryptedPath(DownloadPath(key))}
  {
    var plan := Plan(bucket, key);
    FetchSucceeds(bucket, key, DownloadPath(key), w, faults);
    var n := FetchSteps(bucket, key, DownloadPath(key), w, faults);
    assert n == 5;
    assert plan[..5] == plan;
  }

  /** The converse: a 200 means every planned call was made and none failed. */
  lemma SucceedsOnlyIfEveryStepSucceeds(bucket: Json, key: string, w: World, faults: Faults)
    ensures var r := Process(bucket, key, w, faults);
      r.response.statusCode == 200 || r.response.statusCode == 500
    ensures Process(bucket, key, w, faults).response.statusCode == 200 <==>
      Fetchable(w, bucket, key) && Unfaulted(faults, Plan(bucket, key))
  {
    var plan := Plan(bucket, key);
    var n := FetchSteps(bucket, key, DownloadPath(key), w, faults);
    if Fetchable(w, bucket, key) && Unfaulted(faults, plan) {
      SuccessfulRun(bucket, key, w, faults);
    } else if !Fetchable(w, bucket, key) {
      assert n == 1;
    } else {
      var i := FirstFaulted(faults, plan, 0);
      assert Unfaulted(faults, plan[..i]) by {
        forall j | 0 <= j < i ensures plan[..i][j] !in faults { }
      }
      FailureStopsLaterSteps(bucket, key, w, faults, i);
    }
  }

  /** The index of the first faulted call at or after `from`. */
  function FirstFaulted(faults: Faults, calls: seq<Call>, from: nat): (i: nat)
    requires from <= |calls|
    requires forall j :: 0 <= j < from ==> calls[j] !in faults
    requires !Unfaulted(faults, calls)
    ensures from <= i < |calls| && calls[i] in faults
    ensures forall j :: 0 <= j < i ==> calls[j] !in faults
    decreases |calls| - from
  {
    if calls[from] in faults then from else FirstFaulted(faults, calls, from + 1)
  }

  /**
   * Running the handler again on the same source, with nothing faulted,
   * gives the same response and leaves the same objects: the destination
   * already holds the source's bytes.
   */
  lemma RerunIsIdempotent(bucket: Json, key: string, w: World, faults: Faults)
    requires Fetchable(w, bucket, key)
    requires Unfaulted(faults, Plan(bucket, key))
    ensures var first := Process(bucket, key, w, faults);
      var second := Process(bucket, key, first.after, faults);
      second.response == first.response && second.after.objects == first.after.objects
  {
    var first := Process(bucket, key, w, faults);
    SuccessfulRun(bucket, key, w, faults);
    DestinationKeyInjective(key, key);
    assert ObjectRef(bucket.s, DestinationKey(key)) != ObjectRef(bucket.s, key);
    assert Fetchable(first.after, bucket, key);
    SuccessfulRun(bucket, key, first.after, faults);
  }
}
